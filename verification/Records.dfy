/** The records the inventory services read and write, for one site.

    Quantities are fixed-point integers in thousandths of a unit. A table is a sequence indexed
    by primary key; rows are only ever appended, so index order is also creation order. */
module Records {

  import opened Basics

  /** One unit in thousandths. */
  const UNIT := 1000

  /** What a reservation is for. It is fixed when the row is created; a claim without a line
      is a legacy reservation. */
  datatype Claim = Claim(part: Id, wo: Id, line: Option<Id>)

  datatype ReservationStatus = Active | Released | Cancelled

  datatype Reservation = Reservation(claim: Claim, qty: int, status: ReservationStatus)

  datatype LineStatus = Pending | Approved | Allocated | Issued | Rejected

  /** A part line; `allotted` is its `allocated_qty`. `report` is the shortage report the line executes, if any. */
  datatype Line = Line(
    wo: Id, part: Id, quantity: int, requested: int, approved: int, allotted: int, issued: int,
    shortage: int, status: LineStatus, report: Option<Id>)
  {
    predicate Open() { status.Pending? || status.Approved? || status.Allocated? }
  }

  datatype ReportStatus =
    PendingReview | Decided | InFulfillment | Fulfilled | Blocked | Closed | Refused

  datatype DecisionKind = Approve | Reject

  datatype Decision = Decision(kind: DecisionKind, issue: int, procure: int, reject: int)

  datatype Report = Report(
    wo: Id, part: Id, requested: int, issued: int, status: ReportStatus, decision: Option<Decision>)

  datatype MovementKind = StockIn | StockOut | IssueToOrder | ConsumableUse

  datatype Movement = Movement(part: Id, kind: MovementKind, qty: int, before: int, after: int)

  datatype Tool = Tool(part: Id, number: nat)

  /** The inventory database. `stock` holds `quantity_available` per part; a part without an
      inventory record is not a key. `emergency` is the set of emergency work orders. */
  datatype Db = Db(
    stock: map<Id, int>,
    rows: seq<Reservation>,
    lines: seq<Line>,
    reports: seq<Report>,
    log: seq<Movement>,
    tools: seq<Tool>,
    emergency: set<Id>)
}
