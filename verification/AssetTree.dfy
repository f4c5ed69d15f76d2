/** The asset hierarchy: the upward walk that validates a component against its machine, and the
    downward recursion that lists a machine's components. */
module AssetTree {
  import opened Basics

  const MACHINE := 3
  const COMPONENT := 5

  /** Each asset's parent and level. */
  datatype Forest = Forest(parent: seq<Option<Id>>, level: seq<nat>)

  /** The parent links have no cycle: `rank` is the depth of each asset. */
  ghost predicate Ranked(f: Forest, rank: seq<nat>) {
    && |f.level| == |f.parent| == |rank|
    && forall i :: 0 <= i < |f.parent| ==>
         && rank[i] < |f.parent|
         && (f.parent[i].Some? ==> f.parent[i].value < |f.parent| && rank[f.parent[i].value] < rank[i])
  }

  /** Asset `a` is a proper ancestor of `c`. */
  ghost predicate Above(f: Forest, rank: seq<nat>, a: Id, c: Id)
    requires Ranked(f, rank) && c < |f.parent|
    decreases rank[c]
  {
    f.parent[c].Some? && (f.parent[c].value == a || Above(f, rank, a, f.parent[c].value))
  }

  // ----- upward -----

  /** The nearest proper ancestor at machine level. */
  ghost function NearestMachine(f: Forest, rank: seq<nat>, c: Id): Option<Id>
    requires Ranked(f, rank) && c < |f.parent|
    decreases rank[c]
  {
    if f.parent[c] == None then None
    else if f.level[f.parent[c].value] == 3 then f.parent[c]
    else NearestMachine(f, rank, f.parent[c].value)
  }

  /** `validate_component_belongs_to_machine`: false where it raises. */
  method Validate(f: Forest, ghost rank: seq<nat>, component: Option<Id>, machine: Option<Id>) returns (ok: bool)
    requires Ranked(f, rank)
    requires component.Some? ==> component.value < |f.parent|
    ensures component == None ==> ok
    ensures component.Some? ==> ok == (machine.Some? && NearestMachine(f, rank, component.value) == machine)
  {
    if component == None {
      return true;
    }
    if machine == None {
      return false;
    }
    var current := f.parent[component.value];
    var root: Option<Id> := None;
    while current.Some?
      invariant current.Some? ==> 0 <= current.value < |f.parent|
      invariant root == None
      invariant NearestMachine(f, rank, component.value) ==
        if current == None then None
        else if f.level[current.value] == MACHINE then current
        else NearestMachine(f, rank, current.value)
      decreases if current.Some? then rank[current.value] + 1 else 0
    {
      if f.level[current.value] == MACHINE {
        root := current;
        break;
      }
      current := f.parent[current.value];
    }
    return root.Some? && root == machine;
  }

  // ----- downward -----

  /** What the children of `m` among the first `n` assets contribute to its components. */
  function Below(f: Forest, ghost rank: seq<nat>, m: Id, n: nat): seq<Id>
    requires Ranked(f, rank) && m < |f.parent| && n <= |f.parent|
    decreases |f.parent| - rank[m], n
  {
    if n == 0 then [] else
    var child := n - 1;
    Below(f, rank, m, n - 1) +
    if f.parent[child] == Some(m)
    then (if f.level[child] == COMPONENT then [child] else []) + Below(f, rank, child, |f.parent|)
    else []
  }

  /** `get_descendant_components`. */
  function Components(f: Forest, ghost rank: seq<nat>, m: Id): seq<Id>
    requires Ranked(f, rank) && m < |f.parent|
  {
    Below(f, rank, m, |f.parent|)
  }

  /** `c` is child `i` or under it. */
  ghost predicate Under(f: Forest, rank: seq<nat>, i: Id, c: Id)
    requires Ranked(f, rank) && c < |f.parent|
  {
    i == c || Above(f, rank, i, c)
  }

  /** Ancestors rank lower. */
  lemma {:induction false} AboveRanksLower(f: Forest, rank: seq<nat>, a: Id, c: Id)
    requires Ranked(f, rank) && c < |f.parent| && Above(f, rank, a, c)
    ensures a < |f.parent| && rank[a] < rank[c]
    decreases rank[c]
  {
    if f.parent[c].value != a {
      AboveRanksLower(f, rank, a, f.parent[c].value);
    }
  }

  /** Going down from an ancestor starts with one of its children. */
  lemma {:induction false} AboveByChild(f: Forest, rank: seq<nat>, m: Id, c: Id)
    requires Ranked(f, rank) && c < |f.parent|
    ensures Above(f, rank, m, c) <==> UnderFirst(f, rank, m, |f.parent|, c)
    decreases rank[c]
  {
    if f.parent[c].Some? {
      var p := f.parent[c].value;
      AboveByChild(f, rank, m, p);
      if Above(f, rank, m, c) {
        if p == m {
          assert Under(f, rank, c, c);
        } else {
          var i :| 0 <= i < |f.parent| && f.parent[i] == Some(m) && Under(f, rank, i, p);
          assert Under(f, rank, i, c);
        }
      }
      if i :| 0 <= i < |f.parent| && f.parent[i] == Some(m) && Under(f, rank, i, c) {
        if i != c && p != i {
          assert Under(f, rank, i, p);
        }
      }
    }
  }

  /** `c` is one of the first `n` children of `m`, or under it. */
  ghost predicate UnderFirst(f: Forest, rank: seq<nat>, m: Id, n: nat, c: Id)
    requires Ranked(f, rank) && n <= |f.parent| && c < |f.parent|
  {
    exists i :: 0 <= i < n && f.parent[i] == Some(m) && Under(f, rank, i, c)
  }

  lemma UnderFirstStep(f: Forest, rank: seq<nat>, m: Id, n: nat, c: Id)
    requires Ranked(f, rank) && n < |f.parent| && c < |f.parent|
    ensures UnderFirst(f, rank, m, n + 1, c) <==>
      UnderFirst(f, rank, m, n, c) || (f.parent[n] == Some(m) && Under(f, rank, n, c))
  {
  }

  /** The assets listed are exactly the components under the children scanned. */
  lemma {:induction false} BelowAre(f: Forest, rank: seq<nat>, m: Id, n: nat, c: Id)
    requires Ranked(f, rank) && m < |f.parent| && n <= |f.parent| && c < |f.parent|
    ensures c in Below(f, rank, m, n) <==> f.level[c] == COMPONENT && UnderFirst(f, rank, m, n, c)
    decreases |f.parent| - rank[m], n
  {
    if n > 0 {
      var child := n - 1;
      var before := Below(f, rank, m, child);
      BelowAre(f, rank, m, child, c);
      UnderFirstStep(f, rank, m, child, c);
      if f.parent[child] == Some(m) {
        var own := if f.level[child] == COMPONENT then [child] else [];
        var under := Below(f, rank, child, |f.parent|);
        BelowAre(f, rank, child, |f.parent|, c);
        AboveByChild(f, rank, child, c);
        assert c in before + (own + under) <==> c in before || c in own || c in under;
      } else {
        assert before + [] == before;
      }
    }
  }

  lemma ComponentsAre(f: Forest, rank: seq<nat>, m: Id, c: Id)
    requires Ranked(f, rank) && m < |f.parent| && c < |f.parent|
    ensures c in Components(f, rank, m) <==> f.level[c] == 5 && Above(f, rank, m, c)
  {
    BelowAre(f, rank, m, |f.parent|, c);
    AboveByChild(f, rank, m, c);
  }

  /** Ancestors of one asset lie on one chain. */
  lemma {:induction false} AncestorsAreChain(f: Forest, rank: seq<nat>, a: Id, b: Id, c: Id)
    requires Ranked(f, rank) && c < |f.parent| && Under(f, rank, a, c) && Under(f, rank, b, c)
    ensures a < |f.parent| && b < |f.parent|
    ensures a == b || Above(f, rank, a, b) || Above(f, rank, b, a)
    decreases rank[c]
  {
    if a != c { AboveRanksLower(f, rank, a, c); }
    if b != c { AboveRanksLower(f, rank, b, c); }
    if a != c && b != c {
      AncestorsAreChain(f, rank, a, b, f.parent[c].value);
    }
  }

  /** Two children of one asset share nothing below. */
  lemma SiblingsApart(f: Forest, rank: seq<nat>, m: Id, i: Id, j: Id, c: Id)
    requires Ranked(f, rank) && m < |f.parent| && i < |f.parent| && j < |f.parent| && c < |f.parent|
    requires f.parent[i] == Some(m) && f.parent[j] == Some(m)
    requires Under(f, rank, i, c) && Under(f, rank, j, c)
    ensures i == j
  {
    AncestorsAreChain(f, rank, i, j, c);
    if Above(f, rank, i, m) { AboveRanksLower(f, rank, i, m); }
    if Above(f, rank, j, m) { AboveRanksLower(f, rank, j, m); }
  }

  predicate Distinct(s: seq<Id>) { forall i, j :: 0 <= i < j < |s| ==> s[i] != s[j] }

  lemma DistinctAppend(a: seq<Id>, b: seq<Id>)
    requires Distinct(a) && Distinct(b) && forall x :: x in a ==> x !in b
    ensures Distinct(a + b)
  {
    var s := a + b;
    forall i, j | 0 <= i < j < |s| ensures s[i] != s[j] {
      if i < |a| <= j {
        assert s[i] in a && s[j] in b;
      }
    }
  }

  lemma {:induction false} BelowDistinct(f: Forest, rank: seq<nat>, m: Id, n: nat)
    requires Ranked(f, rank) && m < |f.parent| && n <= |f.parent|
    ensures Distinct(Below(f, rank, m, n))
    ensures forall x :: x in Below(f, rank, m, n) ==> x < |f.parent|
    decreases |f.parent| - rank[m], n
  {
    if n > 0 {
      var child := n - 1;
      var before := Below(f, rank, m, n - 1);
      BelowDistinct(f, rank, m, n - 1);
      if f.parent[child] == Some(m) {
        var own := if f.level[child] == COMPONENT then [child] else [];
        var under := Below(f, rank, child, |f.parent|);
        BelowDistinct(f, rank, child, |f.parent|);
        forall x | x in own ensures x !in under {
          ComponentsAre(f, rank, child, child);
          if Above(f, rank, child, child) { AboveRanksLower(f, rank, child, child); }
        }
        DistinctAppend(own, under);
        forall x | x in before ensures x !in own + under {
          NotUnderLater(f, rank, m, child, x);
        }
        DistinctAppend(before, own + under);
      } else {
        assert before + [] == before;
      }
    }
  }

  /** What earlier children contribute is not under a later child. */
  lemma NotUnderLater(f: Forest, rank: seq<nat>, m: Id, child: Id, x: Id)
    requires Ranked(f, rank) && m < |f.parent| && child < |f.parent| && x < |f.parent|
    requires f.parent[child] == Some(m) && x in Below(f, rank, m, child)
    ensures x != child && x !in Below(f, rank, child, |f.parent|)
  {
    BelowAre(f, rank, m, child, x);
    var i :| 0 <= i < child && f.parent[i] == Some(m) && Under(f, rank, i, x);
    ComponentsAre(f, rank, child, x);
    if Under(f, rank, child, x) {
      SiblingsApart(f, rank, m, i, child, x);
    }
  }

  // ----- agreement -----

  /** The walk finds `m` exactly when `m` is a machine above `c` and no other machine above `c`
      is under `m`. */
  lemma {:induction false} NearestMachineIs(f: Forest, rank: seq<nat>, c: Id, m: Id)
    requires Ranked(f, rank) && c < |f.parent| && m < |f.parent|
    ensures NearestMachine(f, rank, c) == Some(m) <==>
      f.level[m] == MACHINE && Above(f, rank, m, c)
      && forall b: Id | b < |f.parent| && f.level[b] == MACHINE && Above(f, rank, b, c) :: !Above(f, rank, m, b)
    decreases rank[c]
  {
    if f.parent[c].Some? {
      var p := f.parent[c].value;
      NearestMachineIs(f, rank, p, m);
      if f.level[p] == MACHINE {
        forall b: Id | b < |f.parent| && Above(f, rank, b, c)
          ensures !Above(f, rank, p, b)
        {
          if Above(f, rank, p, b) {
            AboveRanksLower(f, rank, p, b);
            if b != p { AboveRanksLower(f, rank, b, p); }
          }
        }
      }
    }
  }

  /** Going up from an asset with some machine above it, the walk finds one. */
  lemma {:induction false} WalkFinds(f: Forest, rank: seq<nat>, c: Id, m: Id)
    requires Ranked(f, rank) && c < |f.parent| && m < |f.parent|
    requires f.level[m] == MACHINE && Above(f, rank, m, c)
    ensures NearestMachine(f, rank, c).Some?
    ensures var r := NearestMachine(f, rank, c).value;
      r < |f.parent| && f.level[r] == MACHINE && Above(f, rank, r, c)
    decreases rank[c]
  {
    var p := f.parent[c].value;
    if f.level[p] != MACHINE {
      WalkFinds(f, rank, p, m);
    }
  }

  /** Upward and downward agree on a component, for every machine, exactly when no two machines
      lie above it. */
  lemma WalkAgreesWithRecursion(f: Forest, rank: seq<nat>, c: Id)
    requires Ranked(f, rank) && c < |f.parent| && f.level[c] == COMPONENT
    ensures (forall m: Id | m < |f.parent| && f.level[m] == MACHINE ::
               NearestMachine(f, rank, c) == Some(m) <==> c in Components(f, rank, m))
       <==> (forall a: Id, b: Id | a < |f.parent| && b < |f.parent| && f.level[a] == MACHINE && f.level[b] == MACHINE ::
               Above(f, rank, a, c) && Above(f, rank, b, c) ==> a == b)
  {
    forall m: Id | m < |f.parent|
      ensures c in Components(f, rank, m) <==> Above(f, rank, m, c)
    {
      ComponentsAre(f, rank, m, c);
    }
    forall m: Id | m < |f.parent| && f.level[m] == MACHINE && Above(f, rank, m, c)
      ensures NearestMachine(f, rank, c).Some?
      ensures var r := NearestMachine(f, rank, c).value; r < |f.parent| && f.level[r] == MACHINE && Above(f, rank, r, c)
    {
      WalkFinds(f, rank, c, m);
    }
    forall m: Id | m < |f.parent| && NearestMachine(f, rank, c) == Some(m)
      ensures f.level[m] == MACHINE && Above(f, rank, m, c)
    {
      NearestMachineIs(f, rank, c, m);
    }
  }

  /** Where no machine lies under another, a component passes validation against a machine exactly
      when the machine lists it; and no machine lists a component twice. */
  lemma ValidationIsListing(f: Forest, rank: seq<nat>, c: Id, m: Id)
    requires Ranked(f, rank) && c < |f.parent| && m < |f.parent|
    requires f.level[c] == COMPONENT && f.level[m] == MACHINE
    requires forall a: Id, b: Id | a < |f.parent| && b < |f.parent| && f.level[a] == MACHINE && f.level[b] == MACHINE ::
      !Above(f, rank, a, b)
    ensures NearestMachine(f, rank, c) == Some(m) <==> c in Components(f, rank, m)
    ensures Distinct(Components(f, rank, m))
  {
    NearestMachineIs(f, rank, c, m);
    ComponentsAre(f, rank, m, c);
    BelowDistinct(f, rank, m, |f.parent|);
  }
}
