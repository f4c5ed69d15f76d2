/** The stock movement log: an unbroken chain that accounts for the stock on hand, and the
    numbering of tool-pool units. */
module MovementLaws {
  import opened Basics
  import opened Records
  import opened Reservations
  import opened StockOperations
  import opened ReservationLaws
  import opened ReservationRuns
  import opened ShortageLaws

  function Signed(m: Movement): int { if m.kind == StockIn then m.qty else -m.qty }

  /** The signed sum of the movements of a part. */
  function Replay(log: seq<Movement>, p: Id): int {
    if log == [] then 0 else
    Replay(log[..|log| - 1], p) + if log[|log| - 1].part == p then Signed(log[|log| - 1]) else 0
  }

  /** The stock of a part before the first movement of the log. */
  function Opening(db: Db, p: Id): int { OnHand(db, p) - Replay(db.log, p) }

  /** Each movement starts where the earlier ones of its part ended, and ends at its own signed
      quantity from there. */
  ghost predicate Linked(log: seq<Movement>, opening: Id -> int) {
    forall k :: 0 <= k < |log| ==>
      && log[k].before == opening(log[k].part) + Replay(log[..k], log[k].part)
      && log[k].after == log[k].before + Signed(log[k])
  }

  /** A step appends at most one movement, from the stock before to the stock after. */
  ghost predicate Logged(a: Db, b: Db) {
    || (b.log == a.log && forall p :: OnHand(b, p) == OnHand(a, p))
    || (|b.log| == |a.log| + 1 && b.log[..|a.log|] == a.log
        && var m := b.log[|a.log|];
           && m.before == OnHand(a, m.part) && m.after == OnHand(b, m.part) == m.before + Signed(m)
           && forall p :: p != m.part ==> OnHand(b, p) == OnHand(a, p))
  }

  ghost predicate Still(a: Db, b: Db) {
    b.stock == a.stock && b.log == a.log && b.tools == a.tools
  }

  lemma DecideStill(db: Db, r: Id, d: Decision)
    ensures Still(db, Or(Decide(db, r, d), db))
  {
  }

  lemma EditStill(db: Db, r: Id, issue: int, procure: int, reject: int)
    ensures Still(db, Or(EditDecision(db, r, issue, procure, reject), db))
  {
  }

  /** Only stock-moving operations touch the stock, the log and the tool pool. */
  lemma StepStill(db: Db, op: Op)
    requires !MovesStock(op)
    ensures Still(db, Step(db, op))
  {
    match op
    case OpReallocate(p) => AllocationScope(db, Queue(db, p));
    case OpDecide(r, d) => DecideStill(db, r, d);
    case OpEditDecision(r, i, pr, rj) => EditStill(db, r, i, pr, rj);
    case OpApprove(l, auto) => ApproveStill(db, l, auto);
    case OpRequest(_, _, _, _) => ReportsStill(db, op);
    case OpRaise(_, _) => ReportsStill(db, op);
    case OpMoveReport(_, _) => ReportsStill(db, op);
    case OpMarkFulfilled(_) => ReportsStill(db, op);
    case _ =>
  }

  lemma ApproveStill(db: Db, l: Id, auto: bool)
    ensures Still(db, Or(ApprovePart(db, l, auto), db))
  {
  }

  lemma ReportsStill(db: Db, op: Op)
    requires op.OpRequest? || op.OpRaise? || op.OpMoveReport? || op.OpMarkFulfilled?
    ensures Still(db, Step(db, op))
  {
  }

  lemma MoveLogged(db: Db, p: Id, kind: MovementKind, qty: int)
    ensures Logged(db, Move(db, p, kind, qty, if kind == StockIn then qty else -qty))
  {
    var b := Move(db, p, kind, qty, if kind == StockIn then qty else -qty);
    assert b.log[..|db.log|] == db.log;
  }

  /** Only `stock` and `log` matter for what was logged. */
  lemma LoggedSame(a: Db, b: Db, c: Db)
    requires Logged(a, b) && c.stock == b.stock && c.log == b.log
    ensures Logged(a, c)
  {
    assert forall p :: OnHand(c, p) == OnHand(b, p);
  }

  lemma StillLogged(a: Db, b: Db)
    requires b.stock == a.stock && b.log == a.log
    ensures Logged(a, b)
  {
    assert forall p :: OnHand(b, p) == OnHand(a, p);
  }

  function KindOf(op: Op): MovementKind
    requires MovesStock(op)
  {
    if op.OpReceive? then StockIn else if op.OpConsume? then ConsumableUse
    else if op.OpIssueTools? then StockOut else IssueToOrder
  }

  function QtyOf(db: Db, op: Op): int
    requires MovesStock(op)
  {
    match op
    case OpReceive(_, q) => q
    case OpConsume(_, q, _, _) => q
    case OpIssueTools(_, n, _) => n * UNIT
    case OpDirectIssue(_, _, p, q) => Min(q, Free(db, p))
    case OpWarehouseIssue(_, q, _) => q
  }

  /** The movement a stock-moving operation makes. */
  function Made(db: Db, op: Op): Db
    requires MovesStock(op)
  {
    Move(db, PartOf(db, op), KindOf(op), QtyOf(db, op), if op.OpReceive? then QtyOf(db, op) else -QtyOf(db, op))
  }

  lemma IssueIsMove(db: Db, op: Op)
    requires (op.OpDirectIssue? || op.OpWarehouseIssue?) && Apply(db, op).Some?
    ensures Step(db, op).stock == Made(db, op).stock && Step(db, op).log == Made(db, op).log
  {
    match op
    case OpDirectIssue(w, closed, p, q) => assert Step(db, op) == DirectIssue(db, w, closed, p, q).value;
    case OpWarehouseIssue(l, q, _) => assert Step(db, op) == Issue(db, l, q);
  }

  lemma StockStepIsMove(db: Db, op: Op)
    requires MovesStock(op) && Apply(db, op).Some?
    ensures Step(db, op).stock == Made(db, op).stock && Step(db, op).log == Made(db, op).log
  {
    if op.OpDirectIssue? || op.OpWarehouseIssue? {
      IssueIsMove(db, op);
    }
  }

  lemma StockStepLogged(db: Db, op: Op)
    requires MovesStock(op) && Apply(db, op).Some?
    ensures Logged(db, Step(db, op))
  {
    var p, kind, qty := PartOf(db, op), KindOf(op), QtyOf(db, op);
    MoveLogged(db, p, kind, qty);
    StockStepIsMove(db, op);
    LoggedSame(db, Made(db, op), Step(db, op));
  }

  lemma StepLogged(db: Db, op: Op)
    ensures Logged(db, Step(db, op))
  {
    if !MovesStock(op) {
      StepStill(db, op);
      StillLogged(db, Step(db, op));
    } else if Apply(db, op).Some? {
      StockStepLogged(db, op);
    } else {
      StillLogged(db, db);
    }
  }

  lemma LinkedExtends(a: Db, b: Db, opening: Id -> int)
    requires Logged(a, b) && Linked(a.log, opening)
    requires forall p :: Opening(a, p) == opening(p)
    ensures Linked(b.log, opening)
    ensures forall p :: Opening(b, p) == opening(p)
  {
    var n := |a.log|;
    if |b.log| > n {
      forall k | 0 <= k < |b.log|
        ensures b.log[k].before == opening(b.log[k].part) + Replay(b.log[..k], b.log[k].part)
        ensures b.log[k].after == b.log[k].before + Signed(b.log[k])
      {
        if k < n {
          assert b.log[k] == a.log[k] && b.log[..k] == a.log[..k];
        } else {
          assert Opening(a, b.log[n].part) == opening(b.log[n].part);
        }
      }
    }
    forall p ensures Opening(b, p) == opening(p) {
      assert Opening(a, p) == opening(p);
    }
  }

  /** Over any run the log only grows, stays linked end to end, and accounts for the stock:
      on-hand is the opening stock plus the signed sum of the movements. */
  lemma {:induction false} MovementChain(db: Db, ops: seq<Op>, opening: Id -> int)
    requires Linked(db.log, opening)
    requires forall p :: Opening(db, p) == opening(p)
    ensures var b := Run(db, ops);
      && Linked(b.log, opening)
      && db.log <= b.log
      && forall p :: OnHand(b, p) == opening(p) + Replay(b.log, p)
    decreases |ops|
  {
    if ops != [] {
      StepLogged(db, ops[0]);
      LinkedExtends(db, Step(db, ops[0]), opening);
      MovementChain(Step(db, ops[0]), ops[1..], opening);
    } else {
      forall p ensures OnHand(db, p) == opening(p) + Replay(db.log, p) {
        assert Opening(db, p) == opening(p);
      }
    }
  }

  ghost predicate NonNegative(db: Db) { forall p :: OnHand(db, p) >= 0 }

  lemma TakeNonNegative(a: Db, b: Db, p: Id, delta: int)
    requires NonNegative(a) && b.stock == a.stock[p := OnHand(a, p) + delta]
    ensures NonNegative(b) <==> OnHand(a, p) + delta >= 0
  {
    assert OnHand(b, p) == OnHand(a, p) + delta;
    assert forall q :: q != p ==> OnHand(b, q) == OnHand(a, q);
  }

  /** Stock on hand can only become negative through a receipt of a negative quantity larger than
      the stock. */
  lemma StepNonNegative(db: Db, op: Op)
    requires TableOk(db) && NonNegative(db)
    ensures NonNegative(Step(db, op)) <==> ReceiptFits(db, op)
  {
    var b := Step(db, op);
    if !MovesStock(op) {
      StepStill(db, op);
      assert forall p :: OnHand(b, p) == OnHand(db, p);
    } else if Apply(db, op).Some? {
      HeldNonNegative(db.rows, OfPart(PartOf(db, op)));
      StockChange(db, op);
      TakeNonNegative(db, b, PartOf(db, op), OnHand(b, PartOf(db, op)) - OnHand(db, PartOf(db, op)));
    }
  }

  /** A stock-moving operation changes the stock of one part, and never takes more than is there. */
  lemma StockChange(db: Db, op: Op)
    requires MovesStock(op) && Apply(db, op).Some? && Reserved(db, PartOf(db, op)) >= 0
    ensures var b := Step(db, op); var p := PartOf(db, op);
      && b.stock == db.stock[p := OnHand(b, p)]
      && (op.OpReceive? ==> OnHand(b, p) == OnHand(db, p) + op.qty)
      && (!op.OpReceive? ==> OnHand(b, p) >= 0)
  {
  }

  predicate ReceiptFits(db: Db, op: Op) { op.OpReceive? ==> OnHand(db, op.part) + op.qty >= 0 }

  predicate ReceiptsFit(db: Db, ops: seq<Op>)
    decreases |ops|
  {
    ops == [] || (ReceiptFits(db, ops[0]) && ReceiptsFit(Step(db, ops[0]), ops[1..]))
  }

  ghost predicate AlwaysNonNegative(db: Db, ops: seq<Op>)
    decreases |ops|
  {
    NonNegative(db) && (ops == [] || AlwaysNonNegative(Step(db, ops[0]), ops[1..]))
  }

  /** Over any run stock on hand is never negative, in any state, if and only if no receipt is
      negative beyond the stock at hand; receipts that are not negative never are. */
  lemma {:induction false} NonNegativeOverRuns(db: Db, ops: seq<Op>)
    requires TableOk(db) && NonNegative(db)
    ensures AlwaysNonNegative(db, ops) <==> ReceiptsFit(db, ops)
    ensures (forall i :: 0 <= i < |ops| && ops[i].OpReceive? ==> ops[i].qty >= 0) ==> ReceiptsFit(db, ops)
    decreases |ops|
  {
    if ops != [] {
      StepNonNegative(db, ops[0]);
      StepLedger(db, ops[0]);
      if ReceiptFits(db, ops[0]) {
        NonNegativeOverRuns(Step(db, ops[0]), ops[1..]);
      } else {
        assert OnHand(db, ops[0].part) >= 0;
      }
    }
  }

  // ----- tool pool -----

  function Units(tools: seq<Tool>, p: Id): nat {
    if tools == [] then 0 else
    Units(tools[..|tools| - 1], p) + if tools[|tools| - 1].part == p then 1 else 0
  }

  /** The total of STOCK_OUT movements of a part. */
  function TotalOut(log: seq<Movement>, p: Id): int {
    if log == [] then 0 else
    TotalOut(log[..|log| - 1], p) +
    if log[|log| - 1].part == p && log[|log| - 1].kind == StockOut then log[|log| - 1].qty else 0
  }

  /** The units of every part carry the numbers 1, 2, 3, ... in order of creation. */
  ghost predicate Numbered(tools: seq<Tool>) {
    forall k :: 0 <= k < |tools| ==> tools[k].number == Units(tools[..k], tools[k].part) + 1
  }

  ghost predicate ToolsOk(db: Db) {
    Numbered(db.tools) && forall p :: TotalOut(db.log, p) == UNIT * Units(db.tools, p)
  }

  lemma {:induction false} MaxIsCount(tools: seq<Tool>, p: Id)
    requires Numbered(tools)
    ensures MaxNumber(tools, p) == Units(tools, p)
  {
    if tools != [] {
      var n := |tools| - 1;
      assert forall k :: 0 <= k < n ==> tools[..n][..k] == tools[..k];
      MaxIsCount(tools[..n], p);
    }
  }

  lemma {:induction false} NewToolsCounted(tools: seq<Tool>, p: Id, start: nat, n: nat, q: Id)
    ensures Units(tools + NewTools(p, start, n), q) == Units(tools, q) + if q == p then n else 0
  {
    var longer := tools + NewTools(p, start, n);
    if n == 0 {
      assert longer == tools;
    } else {
      NewToolsCounted(tools, p, start, n - 1, q);
      assert longer[..|longer| - 1] == tools + NewTools(p, start, n - 1);
    }
  }

  lemma NewToolsNumbered(tools: seq<Tool>, p: Id, n: nat)
    requires Numbered(tools)
    ensures Numbered(tools + NewTools(p, Units(tools, p) + 1, n))
  {
    var start := Units(tools, p) + 1;
    var longer := tools + NewTools(p, start, n);
    forall k | 0 <= k < |longer| ensures longer[k].number == Units(longer[..k], longer[k].part) + 1 {
      if k < |tools| {
        assert longer[..k] == tools[..k];
      } else {
        assert longer[..k] == tools + NewTools(p, start, k - |tools|);
        NewToolsCounted(tools, p, start, k - |tools|, p);
      }
    }
  }

  lemma IssueToolsOk(db: Db, p: Id, n: int, reusable: bool)
    requires ToolsOk(db) && IssueTools(db, p, n, reusable).Some?
    ensures ToolsOk(IssueTools(db, p, n, reusable).value)
  {
    var b := IssueTools(db, p, n, reusable).value;
    MaxIsCount(db.tools, p);
    NewToolsNumbered(db.tools, p, n);
    assert b.log[..|db.log|] == db.log;
    forall q ensures TotalOut(b.log, q) == UNIT * Units(b.tools, q) {
      NewToolsCounted(db.tools, p, Units(db.tools, p) + 1, n, q);
      assert TotalOut(db.log, q) == UNIT * Units(db.tools, q);
    }
  }

  lemma StepTools(db: Db, op: Op)
    requires ToolsOk(db)
    ensures ToolsOk(Step(db, op))
  {
    if !MovesStock(op) {
      StepStill(db, op);
    } else if op.OpIssueTools? {
      if Apply(db, op).Some? {
        IssueToolsOk(db, op.part, op.units, op.reusable);
      }
    } else {
      OtherMovesTools(db, op);
      StepLogged(db, op);
      assert forall q :: TotalOut(Step(db, op).log, q) == TotalOut(db.log, q);
    }
  }

  lemma OtherMovesTools(db: Db, op: Op)
    requires MovesStock(op) && !op.OpIssueTools?
    ensures Step(db, op).tools == db.tools
    ensures |Step(db, op).log| > |db.log| ==> Step(db, op).log[|db.log|].kind != StockOut
  {
  }

  /** Over any run from an empty database the units of a part are numbered 1 to n without gaps,
      n being what its STOCK_OUT movements total. */
  lemma {:induction false} ToolNumbering(db: Db, ops: seq<Op>)
    requires ToolsOk(db)
    ensures ToolsOk(Run(db, ops))
    decreases |ops|
  {
    if ops != [] {
      StepTools(db, ops[0]);
      ToolNumbering(Step(db, ops[0]), ops[1..]);
    }
  }
}
