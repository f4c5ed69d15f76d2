/** The inventory services as methods that update the database in place. Every method is a
    transaction: when it declines it leaves the state as it was. */
module StockRooms {
  import opened Basics
  import opened Records
  import opened Reservations
  import S = StockOperations
  import L = ReservationLaws

  class StockRoom {
    var stock: map<Id, int>
    var rows: Table
    var lines: seq<Line>
    var reports: seq<Report>
    var log: seq<Movement>
    var tools: seq<Tool>
    const emergency: set<Id>

    function State(): Db
      reads this
    {
      Db(stock, rows, lines, reports, log, tools, emergency)
    }

    ghost predicate Valid()
      reads this
    {
      L.TableOk(State())
    }

    /** The room is in the state the operation yields, or unchanged where it yields none. */
    ghost predicate Became(o: Option<Db>, was: Db, ok: bool)
      reads this
    {
      Valid() && ok == o.Some? && State() == S.Or(o, was)
    }

    constructor (emergency: set<Id>)
      ensures Valid() && State() == S.Empty(emergency)
    {
      stock, rows, lines, reports, log, tools := map[], [], [], [], [], [];
      this.emergency := emergency;
    }

    /** Undoes everything since the savepoint `saved`. */
    method Rollback(saved: Db)
      requires saved.emergency == emergency
      modifies this
      ensures State() == saved
    {
      stock, rows, lines, reports, log, tools :=
        saved.stock, saved.rows, saved.lines, saved.reports, saved.log, saved.tools;
    }

    // ----- stock -----

    method Move(p: Id, kind: MovementKind, qty: int, delta: int)
      modifies this`stock, this`log
      ensures State() == S.Move(old(State()), p, kind, qty, delta)
    {
      var before := S.OnHand(State(), p);
      stock := stock[p := before + delta];
      log := log + [Movement(p, kind, qty, before, stock[p])];
    }

    method Receive(p: Id, qty: int)
      requires Valid()
      modifies this
      ensures Became(Some(S.Receive(old(State()), p, qty)), old(State()), true)
    {
      L.StepDrain(State(), S.OpReceive(p, qty));
      Move(p, StockIn, qty, qty);
    }

    method Consume(p: Id, qty: int, permitted: bool, posts: bool) returns (ok: bool)
      requires Valid()
      modifies this
      ensures Became(S.Consume(old(State()), p, qty, permitted, posts), old(State()), ok)
    {
      L.StepDrain(State(), S.OpConsume(p, qty, permitted, posts));
      if !permitted || qty <= 0 || p !in stock || stock[p] < qty {
        return false;
      }
      var saved := State();
      Move(p, ConsumableUse, qty, -qty);
      if !posts {
        // posting the cost raised, which undoes the whole transaction
        Rollback(saved);
        return false;
      }
      return true;
    }

    method IssueTools(p: Id, n: int, reusable: bool) returns (ok: bool)
      requires Valid()
      modifies this
      ensures Became(S.IssueTools(old(State()), p, n, reusable), old(State()), ok)
    {
      L.StepDrain(State(), S.OpIssueTools(p, n, reusable));
      if n <= 0 || !reusable || p !in stock || stock[p] < n * UNIT {
        return false;
      }
      Move(p, StockOut, n * UNIT, -(n * UNIT));
      var start := S.MaxNumber(tools, p) + 1;
      ghost var before := tools;
      for k := 0 to n
        invariant tools == before + S.NewTools(p, start, k)
        invariant State().(tools := before) == S.Move(old(State()), p, StockOut, n * UNIT, -(n * UNIT))
      {
        tools := tools + [Tool(p, start + k)];
      }
      return true;
    }

    method DirectIssue(wo: Id, closed: bool, p: Id, qty: int) returns (ok: bool)
      requires Valid()
      modifies this
      ensures Became(S.DirectIssue(old(State()), wo, closed, p, qty), old(State()), ok)
    {
      L.StepDrain(State(), S.OpDirectIssue(wo, closed, p, qty));
      if qty <= 0 || closed || S.HasLine(lines, wo, p) || p !in stock {
        return false;
      }
      var available := S.Free(State(), p);
      var give := if available >= qty then qty else available;
      if give <= 0 {
        return false;
      }
      Move(p, IssueToOrder, give, -give);
      lines := lines + [Line(wo, p, give, give, give, 0, give, 0, Approved, None)];
      return true;
    }

    // ----- reservations -----

    method AllocateOne(l: Id) returns (ok: bool)
      requires Valid()
      modifies this`lines, this`rows
      ensures Became(S.AllocateOne(old(State()), l), old(State()), ok)
    {
      L.AllocateOneEvolves(State(), l);
      if l >= |lines| {
        return false;
      }
      var line := lines[l];
      if !line.Open() || line.approved <= 0 {
        return true;
      }
      var gap := line.approved - line.allotted;
      if gap <= 0 {
        return true;
      }
      var free := S.Available(State(), line.part);
      if free <= 0 {
        return true;
      }
      if S.HasActive(rows, l) {
        return false;
      }
      var give := Min(gap, free);
      line := line.(allotted := line.allotted + give);
      if line.status == Pending {
        line := line.(status := Approved);
      }
      if line.allotted >= line.approved {
        line := line.(status := Allocated);
      }
      lines := lines[l := line];
      rows := rows + [Reservation(Claim(line.part, line.wo, Some(l)), give, Active)];
      return true;
    }

    method Reallocate(p: Id)
      requires Valid()
      modifies this`lines, this`rows
      ensures Became(Some(S.Reallocate(old(State()), p)), old(State()), true)
    {
      var queue := S.Queue(State(), p);
      for i := 0 to |queue|
        invariant Valid()
        invariant S.AllocateAll(State(), queue[i..]) == S.Reallocate(old(State()), p)
      {
        assert queue[i..][1..] == queue[i + 1..];
        var _ := AllocateOne(queue[i]);
      }
      assert queue[|queue|..] == [];
    }

    method Reserve(p: Id, qty: int, wo: Id, link: Option<Id>) returns (ok: bool)
      requires Valid()
      modifies this`rows
      ensures Became(S.Reserve(old(State()), p, qty, wo, link), old(State()), ok)
    {
      L.StepReserve(State(), p, qty, wo, link);
      if qty <= 0 || S.OnHand(State(), p) - S.Reserved(State(), p) < qty {
        return false;
      }
      if link.Some? && (link.value >= |lines| || S.HasActive(rows, link.value)) {
        return false;
      }
      rows := rows + [Reservation(Claim(p, wo, link), qty, Active)];
      return true;
    }

    /** Draws `qty` from the ACTIVE rows of a class, oldest first, splitting the last one if
        need be; `left` is what the class could not cover. */
    method Draw(c: Claim -> bool, qty: int) returns (left: int)
      requires Positive(rows) && qty >= 0
      modifies this`rows
      ensures rows == Drawn(old(rows), c, qty)
      ensures left == qty - Min(qty, Held(old(rows), c))
    {
      ghost var was := rows;
      var n := |rows|;
      left := qty;
      var i := 0;
      while i < n
        invariant 0 <= i <= n == |was|
        invariant DrawnTo(rows, was, c, qty, i)
        invariant left == Max(0, qty - Held(was[..i], c))
      {
        if left <= 0 {
          DrawdownOver(was, c, qty, i, n);
          HeldPrefix(was, c, i, n);
          break;
        }
        left := DrawRow(i, c, left, was, qty);
        i := i + 1;
      }
      assert was[..n] == was;
      DrawnToEnd(rows, was, c, qty);
    }

    /** One turn of the drawdown: row `i` is passed over, released whole, or split. */
    method DrawRow(i: nat, c: Claim -> bool, left: int, ghost was: Table, ghost qty: int) returns (rest: int)
      requires DrawnTo(rows, was, c, qty, i) && i < |was| && Positive(was)
      requires 0 < left == qty - Held(was[..i], c)
      modifies this`rows
      ensures DrawnTo(rows, was, c, qty, i + 1)
      ensures rest == Max(0, qty - Held(was[..i + 1], c))
    {
      SumTake(was, i, Live(c));
      var row := rows[i];
      if !(row.status == Active && c(row.claim)) {
        DrawnToSkip(rows, was, c, qty, i);
        return left;
      }
      var take := Min(row.qty, left);
      if take >= row.qty {
        DrawnToWhole(rows, was, c, qty, i);
        rows := rows[i := row.(status := Released)];
      } else {
        DrawnToSplit(rows, was, c, qty, i, take);
        rows := rows[i := row.(qty := row.qty - take)] + [Reservation(row.claim, take, Released)];
      }
      return left - take;
    }

    method Release(p: Id, qty: int, wo: Id) returns (ok: bool)
      requires Valid()
      modifies this`rows
      ensures Became(S.Release(old(State()), p, qty, wo), old(State()), ok)
    {
      L.ReleaseQuiet(State(), p, qty, wo);
      if qty <= 0 || p !in stock {
        return false;
      }
      var saved := rows;
      var left := Draw(Legacy(p, wo), qty);
      if left > 0 {
        rows := saved;
        return false;
      }
      return true;
    }

    /** Ends every ACTIVE row of a class. */
    method EndClass(c: Claim -> bool, status: ReservationStatus)
      modifies this`rows
      ensures rows == EndAll(old(rows), c, status)
    {
      ghost var was := rows;
      var i := 0;
      while i < |rows|
        invariant 0 <= i <= |rows| == |was|
        invariant forall k :: 0 <= k < i ==> rows[k] == End(was[k], c, status)
        invariant forall k :: i <= k < |rows| ==> rows[k] == was[k]
      {
        if rows[i].status == Active && c(rows[i].claim) {
          rows := rows[i := rows[i].(status := status)];
        }
        i := i + 1;
      }
    }

    /** The sweep of a work order that closes. */
    method ReleaseStale(wo: Id)
      requires Valid()
      modifies this`rows
      ensures Became(Some(S.ReleaseStale(old(State()), wo)), old(State()), true)
    {
      L.EndEvolves(State(), S.Stale(lines, wo), Released);
      EndClass(S.Stale(lines, wo), Released);
    }

    // ----- part requests -----

    method RequestPart(wo: Id, closed: bool, p: Id, qty: int) returns (ok: bool)
      requires Valid()
      modifies this
      ensures Became(S.RequestPart(old(State()), wo, closed, p, qty), old(State()), ok)
    {
      L.RequestPartQuiet(State(), wo, closed, p, qty);
      if qty <= 0 || closed {
        return false;
      }
      if S.HasOpenLine(lines, wo, p) {
        return true;
      }
      var usable := if p in stock then S.Free(State(), p) else 0;
      var shortage := if usable >= qty then 0 else qty - usable;
      var line := Line(wo, p, qty, qty, 0, 0, 0, shortage, Pending, None);
      if shortage > 0 {
        if S.PendingReport(reports, wo, p).Some? {
          return false;
        }
        line := line.(report := Some(|reports|));
        reports := reports + [Report(wo, p, qty, 0, PendingReview, None)];
      } else if wo in emergency {
        return false;
      }
      lines := lines + [line];
      return true;
    }

    method ApprovePart(l: Id, auto: bool) returns (ok: bool)
      requires Valid()
      modifies this
      ensures Became(S.ApprovePart(old(State()), l, auto), old(State()), ok)
    {
      L.ApprovePartQuiet(State(), l, auto);
      if l >= |lines| {
        return false;
      }
      var line := lines[l];
      if line.status == Approved {
        return true;
      }
      if line.status != Pending || line.quantity <= 0 {
        return false;
      }
      var approved := if auto then line.requested else line.quantity;
      lines := lines[l := line.(
        status := Approved, approved := approved, shortage := Max(0, line.requested - approved))];
      var _ := AllocateOne(l);
      return true;
    }

    method RejectPart(l: Id, reason: string) returns (ok: bool)
      requires Valid()
      modifies this`lines
      ensures Became(S.RejectPart(old(State()), l, reason), old(State()), ok)
    {
      L.StepQuiet(State(), S.OpReject(l, reason));
      if l >= |lines| || lines[l].status != Pending || reason == "" {
        return false;
      }
      lines := lines[l := lines[l].(status := Rejected)];
      return true;
    }

    method CancelPart(l: Id, reason: string) returns (ok: bool)
      requires Valid()
      modifies this`lines, this`rows
      ensures Became(S.CancelPart(old(State()), l, reason), old(State()), ok)
    {
      L.CancelPartQuiet(State(), l, reason);
      if l >= |lines| {
        return false;
      }
      var line := lines[l];
      if (line.status != Approved && line.status != Allocated) || line.issued > 0 || |reason| < 15 {
        return false;
      }
      EndClass(S.OfCancelled(line, l), Cancelled);
      lines := lines[l := line.(status := Rejected, approved := 0, issued := 0)];
      return true;
    }

    method EditQuantity(l: Id, qty: int) returns (ok: bool)
      requires Valid()
      modifies this`lines
      ensures Became(S.EditQuantity(old(State()), l, qty), old(State()), ok)
    {
      L.StepQuiet(State(), S.OpEditQuantity(l, qty));
      if l >= |lines| || lines[l].status != Pending || qty <= 0 {
        return false;
      }
      lines := lines[l := lines[l].(quantity := qty, shortage := Max(0, lines[l].requested - qty))];
      return true;
    }

    // ----- shortage reports -----

    method RaiseShortage(wo: Id, p: Id) returns (ok: bool)
      requires Valid()
      modifies this`lines, this`reports
      ensures Became(S.RaiseShortage(old(State()), wo, p), old(State()), ok)
    {
      L.RaiseShortageQuiet(State(), wo, p);
      var l := S.PendingLine(lines, wo, p);
      var found := S.PendingReport(reports, wo, p);
      var r: Id;
      if found == None {
        if l == None {
          return false;
        }
        r := |reports|;
        reports := reports + [Report(wo, p, lines[l.value].quantity, lines[l.value].issued, PendingReview, None)];
      } else {
        r := found.value;
        if l.Some? {
          reports := reports[r := reports[r].(requested := lines[l.value].quantity)];
        }
        reports := reports[r := reports[r].(issued := if l.Some? then lines[l.value].issued else 0)];
      }
      if l.Some? && lines[l.value].report == None {
        lines := lines[l.value := lines[l.value].(report := Some(r))];
      }
      return true;
    }

    method MoveReport(r: Id, to: ReportStatus) returns (ok: bool)
      requires Valid()
      modifies this`reports, this`rows
      ensures Became(S.MoveReport(old(State()), r, to), old(State()), ok)
    {
      L.MoveReportQuiet(State(), r, to);
      if r >= |reports| || to !in S.NextReport(reports[r].status) {
        return false;
      }
      var report := reports[r];
      reports := reports[r := report.(status := to)];
      if to == Closed {
        EndClass(S.OfClosed(lines, report, r), Cancelled);
      }
      return true;
    }

    /** Sets the approved quantity of a report's line and allocates to it; a failure is left to
        the caller's rollback. */
    method ApproveAndAllocate(l: Option<Id>, approved: int) returns (ok: bool)
      requires Valid() && (l.Some? ==> l.value < |lines|)
      modifies this`lines, this`rows
      ensures ok == S.ApproveAndAllocate(old(State()), l, approved).Some?
      ensures ok ==> Valid() && State() == S.ApproveAndAllocate(old(State()), l, approved).value
    {
      L.ApproveAndAllocateQuiet(State(), l, approved);
      L.SetApprovedQuiet(State(), l, approved);
      if l == None {
        return true;
      }
      lines := lines[l.value := lines[l.value].(approved := approved)];
      ok := AllocateOne(l.value);
    }

    method Decide(r: Id, d: Decision) returns (ok: bool)
      requires Valid()
      modifies this
      ensures Became(S.Decide(old(State()), r, d), old(State()), ok)
    {
      L.DecideQuiet(State(), r, d);
      if r >= |reports| {
        return false;
      }
      var report := reports[r];
      if report.status != PendingReview || report.decision != None || !S.Balanced(d, report.requested) {
        return false;
      }
      var saved := State();
      var l := S.LineOf(lines, r);
      reports := reports[r := report.(
        decision := Some(d), status := if d.kind == Approve then Decided else Refused)];
      if d.kind == Reject {
        return true;
      }
      if d.issue > 0 {
        ok := ApproveAndAllocate(l, d.issue);
        if !ok {
          Rollback(saved);
          return;
        }
      }
      if l.Some? && lines[l.value].status == Pending {
        lines := lines[l.value := lines[l.value].(status := Approved, approved := d.issue, shortage := d.procure)];
      }
      return true;
    }

    method EditDecision(r: Id, issue: int, procure: int, reject: int) returns (ok: bool)
      requires Valid()
      modifies this
      ensures Became(S.EditDecision(old(State()), r, issue, procure, reject), old(State()), ok)
    {
      L.EditDecisionQuiet(State(), r, issue, procure, reject);
      if r >= |reports| || S.Locked(reports[r].status) || reports[r].decision == None {
        return false;
      }
      var report := reports[r];
      var d := report.decision.value.(issue := issue, procure := procure, reject := reject);
      if !S.Balanced(d, report.requested) {
        return false;
      }
      var saved := State();
      reports := reports[r := report.(decision := Some(d))];
      ok := AdjustReservation(S.LineOf(lines, r), report.part, report.wo, issue - report.decision.value.issue, issue);
      if !ok {
        Rollback(saved);
      }
    }

    method AdjustReservation(l: Option<Id>, p: Id, wo: Id, delta: int, issue: int) returns (ok: bool)
      requires Valid() && (l.Some? ==> l.value < |lines|)
      modifies this`lines, this`rows
      ensures ok == S.AdjustReservation(old(State()), l, p, wo, delta, issue).Some?
      ensures ok ==> State() == S.AdjustReservation(old(State()), l, p, wo, delta, issue).value
    {
      if delta > 0 {
        ok := ApproveAndAllocate(l, issue);
        return;
      }
      if delta < 0 {
        if p !in stock {
          return false;
        }
        // a shortfall of legacy reservations is swallowed
        var _ := Release(p, -delta, wo);
        if l.Some? && lines[l.value].approved != issue {
          lines := lines[l.value := lines[l.value].(approved := issue)];
        }
        assert l.Some? ==> lines == lines[l.value := lines[l.value].(approved := issue)];
      }
      return true;
    }

    method MarkFulfilled(r: Id) returns (ok: bool)
      requires Valid()
      modifies this`reports, this`rows
      ensures Became(S.MarkFulfilled(old(State()), r), old(State()), ok)
    {
      if r >= |reports| || reports[r].status != InFulfillment || reports[r].decision == None {
        return false;
      }
      var d := reports[r].decision.value;
      if d.kind != Approve || reports[r].issued < d.issue {
        return false;
      }
      ok := MoveReport(r, Fulfilled);
    }

    // ----- warehouse issue -----

    method WarehouseIssue(l: Id, qty: int, skipApproval: bool) returns (ok: bool, released: int)
      requires Valid()
      modifies this
      ensures Became(S.WarehouseIssue(old(State()), l, qty, skipApproval), old(State()), ok)
      ensures ok ==> released == S.ReleasedByIssue(old(rows), old(lines)[l], l, qty)
    {
      released := 0;
      if l >= |lines| {
        return false, 0;
      }
      var line := lines[l];
      if !line.Open() || (!skipApproval && line.approved <= 0) || qty <= 0 {
        return false, 0;
      }
      if line.part !in stock || stock[line.part] <= 0 || stock[line.part] < qty {
        return false, 0;
      }
      assert L.TableOk(S.Issue(State(), l, qty)) by {
        L.IssueEvolves(State(), l, qty);
      }
      released := Issue(line, l, qty);
      ok := true;
    }

    /** The issue itself, once it has been checked. */
    method Issue(line: Line, l: Id, qty: int) returns (released: int)
      requires Valid() && l < |lines| && line == lines[l] && qty > 0
      modifies this
      ensures State() == S.Issue(old(State()), l, qty)
      ensures released == S.ReleasedByIssue(old(rows), line, l, qty)
    {
      released := TakeOut(line, l, qty);
      lines := lines[l := line.(issued := line.issued + qty, status := Issued)];
      NoteIssue(line, qty);
    }

    /** Draws the reservations down and takes the quantity from stock. */
    method TakeOut(line: Line, l: Id, qty: int) returns (released: int)
      requires Valid() && qty > 0
      modifies this`rows, this`stock, this`log
      ensures State() == S.Move(
                old(State()).(rows := S.DrawForIssue(old(rows), line, l, qty)), line.part, IssueToOrder, qty, -qty)
      ensures released == S.ReleasedByIssue(old(rows), line, l, qty)
    {
      released := DrawOwnThenLegacy(line, l, qty);
      Move(line.part, IssueToOrder, qty, -qty);
    }

    /** Counts an issue on the line's report and starts fulfilment on the first one. */
    method NoteIssue(line: Line, qty: int)
      modifies this`reports
      ensures reports == S.NoteIssue(old(reports), line, qty)
    {
      if line.report == None || line.report.value >= |reports| {
        return;
      }
      var r := line.report.value;
      reports := reports[r := reports[r].(issued := reports[r].issued + qty)];
      if line.issued == 0 && reports[r].status != Closed && InFulfillment in S.NextReport(reports[r].status) {
        reports := reports[r := reports[r].(status := InFulfillment)];
      }
    }

    method DrawOwnThenLegacy(line: Line, l: Id, qty: int) returns (released: int)
      requires Valid() && qty >= 0
      modifies this`rows
      ensures rows == S.DrawForIssue(old(rows), line, l, qty)
      ensures released == S.ReleasedByIssue(old(rows), line, l, qty)
    {
      var own, legacy := Linked(line.part, l), Legacy(line.part, line.wo);
      HeldNonNegative(rows, own);
      HeldNonNegative(rows, legacy);
      DrawnKeeps(rows, own, qty, |lines|);
      DrawnApart(rows, own, qty, legacy);
      var left := Draw(own, qty);
      if left > 0 {
        left := Draw(legacy, left);
      }
      released := qty - left;
    }
  }
}
