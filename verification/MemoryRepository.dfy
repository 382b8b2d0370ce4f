/** The in-memory target repository. Its lock makes every operation one step, so methods run alone. */
module MemoryRepository {
  import opened Wrappers
  import opened Targets
  import opened Ordering
  import Schedules
  import Disturbance

  datatype StoreError = ErrNotFound | ErrAlreadyExists

  type Store = map<string, Target>

  /** Every key is the id of the target stored under it. */
  ghost predicate Keyed(m: Store) { forall id :: id in m ==> m[id].id == id }

  datatype Op = Create(target: Target) | Update(target: Target) | Delete(id: string)

  predicate Succeeds(m: Store, op: Op) {
    match op
    case Create(t) => t.id !in m
    case Update(t) => t.id in m
    case Delete(id) => id in m
  }

  function Apply(m: Store, op: Op): Store {
    if !Succeeds(m, op) then m
    else match op
      case Create(t) => m[t.id := t]
      case Update(t) => m[t.id := t]
      case Delete(id) => m - {id}
  }

  function ApplyAll(m: Store, ops: seq<Op>): Store {
    if ops == [] then m else Apply(ApplyAll(m, ops[..|ops| - 1]), ops[|ops| - 1])
  }

  // ---------------------------------------------------------------- the slice that List builds and sorts

  ghost predicate SortedUpTo(s: seq<Target>, n: nat)
    requires n <= |s|
  {
    forall i, j :: 0 <= i < j < n ==> Before(s[i], s[j])
  }

  predicate SameItems(s: seq<Target>, t: seq<Target>) { multiset(s) == multiset(t) }

  /** a[j] is where the item moving down has got to. */
  ghost predicate Sifting(s: seq<Target>, i: nat, j: nat)
    requires j <= i < |s|
  {
    && (forall k, l :: 0 <= k < l <= i && k != j && l != j ==> Before(s[k], s[l]))
    && (forall l :: j < l <= i ==> Before(s[j], s[l]))
  }

  lemma SwapDown(s: seq<Target>, i: nat, j: nat)
    requires 0 < j <= i < |s| && Sifting(s, i, j) && Before(s[j], s[j - 1])
    ensures Sifting(s[j - 1 := s[j]][j := s[j - 1]], i, j - 1)
    ensures SameItems(s[j - 1 := s[j]][j := s[j - 1]], s)
  {
  }

  lemma SiftDone(s: seq<Target>, i: nat, j: nat)
    requires j <= i < |s| && Sifting(s, i, j)
    requires j > 0 ==> Before(s[j - 1], s[j])
    ensures SortedUpTo(s, i + 1)
  {
    forall k, l | 0 <= k < l <= i ensures Before(s[k], s[l]) {
      if l == j && k < j - 1 {
        BeforeTransitive(s[k], s[j - 1], s[j]);
      }
    }
  }

  lemma SameItemsSameIds(s: seq<Target>, t: seq<Target>)
    requires SameItems(s, t)
    ensures |s| == |t| && forall x :: x in s <==> x in t
  {
    assert |multiset(s)| == |s| && |multiset(t)| == |t|;
    assert forall x :: x in s <==> x in multiset(s);
    assert forall x :: x in t <==> x in multiset(t);
  }

  class MemoryTargetRepository {
    var targets: map<string, Target>

    ghost predicate Valid()
      reads this
    {
      Keyed(targets)
    }

    constructor ()
      ensures Valid() && targets == map[]
    {
      targets := map[];
    }

    method CreateTarget(t: Target) returns (e: Option<StoreError>)
      requires Valid()
      modifies this
      ensures Valid() && targets == Apply(old(targets), Create(t))
      ensures e == if t.id in old(targets) then Some(ErrAlreadyExists) else None
      ensures targets == if t.id in old(targets) then old(targets) else old(targets)[t.id := t]
    {
      if t.id in targets {
        return Some(ErrAlreadyExists);
      }
      targets := targets[t.id := t];
      return None;
    }

    method Get(id: string) returns (r: Result<Target, StoreError>)
      requires Valid()
      ensures r.Ok? <==> id in targets
      ensures r.Ok? ==> r.value == targets[id] && r.value.id == id
      ensures r.Err? ==> r.error == ErrNotFound
    {
      if id !in targets {
        return Err(ErrNotFound);
      }
      return Ok(targets[id]);
    }

    method UpdateTarget(t: Target) returns (e: Option<StoreError>)
      requires Valid()
      modifies this
      ensures Valid() && targets == Apply(old(targets), Update(t))
      ensures e == if t.id in old(targets) then None else Some(ErrNotFound)
      ensures targets == if t.id in old(targets) then old(targets)[t.id := t] else old(targets)
    {
      if t.id !in targets {
        return Some(ErrNotFound);
      }
      targets := targets[t.id := t];
      return None;
    }

    method DeleteTarget(id: string) returns (e: Option<StoreError>)
      requires Valid()
      modifies this
      ensures Valid() && targets == Apply(old(targets), Delete(id))
      ensures e == if id in old(targets) then None else Some(ErrNotFound)
      ensures targets == if id in old(targets) then old(targets) - {id} else old(targets)
    {
      if id !in targets {
        return Some(ErrNotFound);
      }
      targets := targets - {id};
      return None;
    }

    /** The stored targets, strictly ascending by name and id. The map is walked in an arbitrary order. */
    method List() returns (list: seq<Target>)
      requires Valid()
      ensures IsListing(targets, list) && |list| == |targets|
      ensures forall i, j :: 0 <= i < j < |list| ==> NameThenId(list[i], list[j])
    {
      var slice := Collect();
      var a := new Target[|slice|](i requires 0 <= i < |slice| => slice[i]);
      assert a[..] == slice;
      SortSlice(a);
      list := a[..];
      SameItemsSameIds(list, slice);
      ListingLength(targets, list);
      forall i, j | 0 <= i < j < |list| ensures NameThenId(list[i], list[j]) {
        BeforeMeans(list[i], list[j]);
      }
    }

    method Collect() returns (slice: seq<Target>)
      requires Valid()
      ensures Disturbance.DistinctIds(slice)
      ensures forall t :: t in slice <==> t in targets.Values
    {
      slice := [];
      var pending := targets.Keys;
      while pending != {}
        invariant pending <= targets.Keys
        invariant Disturbance.DistinctIds(slice)
        invariant forall t :: t in slice <==> t in targets.Values && t.id !in pending
        decreases |pending|
      {
        var id :| id in pending;
        assert targets[id] in targets.Values;
        assert targets[id] !in slice;
        forall i | 0 <= i < |slice| ensures slice[i].id != id {
          assert slice[i] in slice;
        }
        slice := slice + [targets[id]];
        pending := pending - {id};
      }
    }
  }

  /** Stands for sort.Slice: callers learn only that the items are the same and in order. */
  method SortSlice(a: array<Target>)
    requires Disturbance.DistinctIds(a[..])
    modifies a
    ensures SameItems(a[..], old(a[..]))
    ensures Ascending(a[..])
  {
    var i := 0;
    while i < a.Length
      invariant 0 <= i <= a.Length
      invariant SortedUpTo(a[..], i)
      invariant SameItems(a[..], old(a[..])) && Disturbance.DistinctIds(a[..])
    {
      Insert(a, i);
      i := i + 1;
    }
  }

  lemma SwapKeepsDistinct(s: seq<Target>, i: nat, j: nat)
    requires i < |s| && j < |s| && Disturbance.DistinctIds(s)
    ensures Disturbance.DistinctIds(s[i := s[j]][j := s[i]])
  {
  }

  method Insert(a: array<Target>, i: nat)
    requires i < a.Length && SortedUpTo(a[..], i) && Disturbance.DistinctIds(a[..])
    modifies a
    ensures SortedUpTo(a[..], i + 1)
    ensures SameItems(a[..], old(a[..])) && Disturbance.DistinctIds(a[..])
  {
    var j := i;
    while j > 0 && Before(a[j], a[j - 1])
      invariant 0 <= j <= i
      invariant Sifting(a[..], i, j)
      invariant SameItems(a[..], old(a[..])) && Disturbance.DistinctIds(a[..])
    {
      SwapDown(a[..], i, j);
      SwapKeepsDistinct(a[..], j - 1, j);
      ghost var swapped := a[..][j - 1 := a[j]][j := a[j - 1]];
      a[j - 1], a[j] := a[j], a[j - 1];
      assert a[..] == swapped;
      j := j - 1;
    }
    if j > 0 {
      BeforeTotal(a[j - 1], a[j]);
      assert a[..][j - 1].id != a[..][j].id;
    }
    SiftDone(a[..], i, j);
  }

  // ---------------------------------------------------------------- every operation sequence

  /** Starting from nothing, any sequence of operations keeps every key equal to its target's id. */
  lemma {:induction false} EveryRunIsKeyed(ops: seq<Op>)
    ensures Keyed(ApplyAll(map[], ops))
  {
    if ops != [] {
      EveryRunIsKeyed(ops[..|ops| - 1]);
    }
  }

  /** A listing is determined by what is stored: neither the map's iteration order nor an unstable sort shows. It
      has distinct ids, so repeating a reconciliation pass on it starts and cancels nothing. */
  lemma ListingIsCanonical(ops: seq<Op>, a: seq<Target>, b: seq<Target>, p: Schedules.Plan)
    requires IsListing(ApplyAll(map[], ops), a) && IsListing(ApplyAll(map[], ops), b)
    requires Schedules.WellFormed(p)
    ensures a == b
    ensures Disturbance.DistinctIds(a) && Disturbance.Consistent(a)
    ensures |a| == |ApplyAll(map[], ops)|
    ensures Schedules.Pass(Schedules.Pass(p, a), a) == Schedules.Pass(p, a)
  {
    var m := ApplyAll(map[], ops);
    EveryRunIsKeyed(ops);
    ListingUnique(a, b);
    ListingDistinct(m, a);
    ListingLength(m, a);
    Disturbance.RepeatIsQuietIffConsistent(p, a);
  }

  lemma ListingDistinct(m: Store, a: seq<Target>)
    requires Keyed(m) && IsListing(m, a)
    ensures Disturbance.DistinctIds(a)
  {
    forall i, j | 0 <= i < |a| && 0 <= j < |a| && a[i].id == a[j].id ensures i == j {
      assert a[i] in a && a[j] in a;
      assert a[i] == m[a[i].id] && a[j] == m[a[j].id];
      BeforeIrreflexive(a[i]);
    }
  }

  lemma KeysHaveValues(m: Store)
    ensures forall id :: id in m ==> m[id] in m.Values
  {
  }

  lemma ListingLength(m: Store, a: seq<Target>)
    requires Keyed(m) && IsListing(m, a)
    ensures |a| == |m|
    decreases |a|
  {
    if a == [] {
      KeysHaveValues(m);
      assert m.Keys == {};
    } else {
      var t := a[0];
      assert t in a && m[t.id] == t;
      var m' := m - {t.id};
      forall u ensures u in a[1..] <==> u in m'.Values {
        TailMembers(a, u);
        if u in m.Values { assert m[u.id] == u; }
        if u in m'.Values { assert m'[u.id] == u; }
        if u in m.Values && u != t { assert u.id in m' && m'[u.id] == u; }
      }
      ListingLength(m', a[1..]);
      assert m'.Keys == m.Keys - {t.id};
    }
  }
}
