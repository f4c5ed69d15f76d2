/** The cost ledger: an append-only journal posted by delta, and a cache per work order.

    Money is in hundredths. Material and consumable costs are a quantity in thousandths times a
    unit cost in ten-thousandths, rounded half to even to hundredths. */
module CostLedger {
  import opened Basics
  import opened Money

  datatype Category = Material | VendorRepair | Consumable | Additional

  datatype SourceKind = PartLine | RepairOrder | StockMove | Adjustment

  datatype Source = Source(kind: SourceKind, id: Id)

  datatype Txn = Txn(amount: int, category: Category, source: Source, wo: Option<Id>)

  datatype Cache = Cache(material: int, vendor: int, consumable: int, additional: int, count: nat)
  {
    function TotalCost(): int { material + vendor + consumable + additional }
  }

  /** `adjustments` is the number of manual adjustments made, hence the next one's key. */
  datatype Books = Books(journal: seq<Txn>, cache: map<Id, Cache>, adjustments: nat)

  /** Hundredths in a product of thousandths and ten-thousandths. */
  const CENT := 100000

  function Cost(qty: int, unitCost: int): int { RoundHalfEven(qty * unitCost, CENT) }

  // ----- sums over the journal -----

  function Total(journal: seq<Txn>, pick: Txn -> bool): int {
    if journal == [] then 0 else
    var last := journal[|journal| - 1];
    Total(journal[..|journal| - 1], pick) + if pick(last) then last.amount else 0
  }

  function Count(journal: seq<Txn>, pick: Txn -> bool): nat {
    if journal == [] then 0 else
    Count(journal[..|journal| - 1], pick) + if pick(journal[|journal| - 1]) then 1 else 0
  }

  function OfSource(s: Source): Txn -> bool { (t: Txn) => t.source == s }

  function OfOrder(w: Id): Txn -> bool { (t: Txn) => t.wo == Some(w) }

  function OfCategory(w: Id, c: Category): Txn -> bool { (t: Txn) => t.wo == Some(w) && t.category == c }

  /** The running net of a source: what has been posted for it so far. */
  function Net(journal: seq<Txn>, s: Source): int { Total(journal, OfSource(s)) }

  // ----- operations -----

  function Summary(journal: seq<Txn>, w: Id): Cache {
    Cache(Total(journal, OfCategory(w, Material)),
          Total(journal, OfCategory(w, VendorRepair)),
          Total(journal, OfCategory(w, Consumable)),
          Total(journal, OfCategory(w, Additional)),
          Count(journal, OfOrder(w)))
  }

  function Refresh(b: Books, w: Id): Books { b.(cache := b.cache[w := Summary(b.journal, w)]) }

  /** Posts the difference between the target and the running net; nothing when they agree. A
      row must name a work order, directly or through its machine. */
  function Post(b: Books, target: int, c: Category, s: Source, wo: Option<Id>): Option<Books> {
    var delta := target - Net(b.journal, s);
    if delta == 0 then Some(b)
    else if wo == None then None
    else Some(Refresh(b.(journal := b.journal + [Txn(delta, c, s, wo)]), wo.value))
  }

  datatype Op =
    | PostMaterial(line: Id, issuable: bool, issued: int, unitCost: int, wo: Id)
    | PostVendorRepair(order: Id, closed: bool, cost: Option<int>, target: Option<Id>)
    | PostConsumable(move: Id, consumable: bool, qty: int, unitCost: int, target: Option<Id>)
    | PostAdjustment(wo: Id, amount: int, memo: string)
    | RefreshCache(wo: Id)

  /** What an operation asks for: the target of a source; none where the poster returns early. */
  datatype Request = Request(target: int, category: Category, source: Source, wo: Option<Id>)

  function Requested(b: Books, op: Op): Option<Request> {
    match op
    case PostMaterial(l, issuable, issued, unitCost, w) =>
      if issuable && issued > 0 then Some(Request(Cost(issued, unitCost), Material, Source(PartLine, l), Some(w)))
      else None
    case PostVendorRepair(o, closed, cost, w) =>
      if closed && cost.Some? && cost.value != 0
      then Some(Request(cost.value, VendorRepair, Source(RepairOrder, o), w)) else None
    case PostConsumable(m, consumable, qty, unitCost, w) =>
      if consumable then Some(Request(Cost(qty, unitCost), Consumable, Source(StockMove, m), w)) else None
    case PostAdjustment(w, amount, memo) =>
      if amount != 0 && |memo| >= 10
      then Some(Request(amount, Additional, Source(Adjustment, b.adjustments), Some(w))) else None
    case RefreshCache(w) => None
  }

  /** A manual adjustment first creates its own record, which takes the next key. */
  function Keyed(b: Books, op: Op): Books {
    if op.PostAdjustment? then b.(adjustments := b.adjustments + 1) else b
  }

  function Apply(b: Books, op: Op): Option<Books> {
    match op
    case RefreshCache(w) => Some(Refresh(b, w))
    case _ =>
      var r := Requested(b, op);
      if r == None then (if op.PostAdjustment? then None else Some(b))
      else Post(Keyed(b, op), r.value.target, r.value.category, r.value.source, r.value.wo)
  }

  function Step(b: Books, op: Op): Books {
    if Apply(b, op).Some? then Apply(b, op).value else b
  }

  function Run(b: Books, ops: seq<Op>): Books
    decreases |ops|
  {
    if ops == [] then b else Run(Step(b, ops[0]), ops[1..])
  }

  const EMPTY := Books([], map[], 0)
}
