/** The cost ledger service: posting updates the journal and the cached row in place. */
module CostService {
  import opened Basics
  import opened L = CostLedger

  class Service {
    var journal: seq<Txn>
    var cache: map<Id, Cache>
    var adjustments: nat

    function State(): Books
      reads this
    {
      Books(journal, cache, adjustments)
    }

    constructor ()
      ensures State() == EMPTY
    {
      journal, cache, adjustments := [], map[], 0;
    }

    /** One pass over the journal of a work order, accumulating by category. */
    method RefreshCache(w: Id)
      modifies this`cache
      ensures State() == L.Refresh(old(State()), w)
    {
      var sums := Cache(0, 0, 0, 0, 0);
      var i := 0;
      while i < |journal|
        invariant 0 <= i <= |journal|
        invariant sums == Summary(journal[..i], w)
      {
        assert journal[..i + 1][..i] == journal[..i];
        var t := journal[i];
        if t.wo == Some(w) {
          sums := sums.(count := sums.count + 1);
          match t.category
          case Material => sums := sums.(material := sums.material + t.amount);
          case VendorRepair => sums := sums.(vendor := sums.vendor + t.amount);
          case Consumable => sums := sums.(consumable := sums.consumable + t.amount);
          case Additional => sums := sums.(additional := sums.additional + t.amount);
        }
        i := i + 1;
      }
      assert journal[..|journal|] == journal;
      cache := cache[w := sums];
    }

    method Post(target: int, c: Category, s: Source, wo: Option<Id>) returns (ok: bool)
      modifies this`journal, this`cache
      ensures var o := L.Post(old(State()), target, c, s, wo);
        ok == o.Some? && State() == (if ok then o.value else old(State()))
    {
      var net := Net(journal, s);
      if net == target {
        return true;
      }
      if wo == None {
        return false;
      }
      journal := journal + [Txn(target - net, c, s, wo)];
      ghost var posted := old(State()).(journal := journal);
      RefreshCache(wo.value);
      assert State() == L.Refresh(posted, wo.value);
      return true;
    }

    method Perform(op: Op) returns (ok: bool)
      modifies this
      ensures ok == L.Apply(old(State()), op).Some?
      ensures State() == Step(old(State()), op)
    {
      if op.RefreshCache? {
        RefreshCache(op.wo);
        return true;
      }
      var r := Requested(State(), op);
      if op.PostAdjustment? {
        if r == None {
          return false;
        }
        adjustments := adjustments + 1;
      }
      if r == None {
        return true;
      }
      ok := Post(r.value.target, r.value.category, r.value.source, r.value.wo);
    }
  }
}
