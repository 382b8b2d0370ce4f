/** The listing order of targets: by name, then by id, both byte by byte as Go compares strings. */
module Ordering {
  import opened Targets

  /** Go's < on strings; a char stands for one byte. */
  predicate StrLess(a: string, b: string) {
    if b == [] then false
    else if a == [] then true
    else a[0] < b[0] || (a[0] == b[0] && StrLess(a[1..], b[1..]))
  }

  predicate Before(t: Target, u: Target) {
    if t.name != u.name then StrLess(t.name, u.name) else StrLess(t.id, u.id)
  }

  /** At the first position where they part, a ends or has the smaller byte. */
  ghost predicate Precedes(a: string, b: string) {
    exists k: nat :: PartsAt(a, b, k)
  }

  predicate PartsAt(a: string, b: string, k: nat) {
    k <= |a| && k < |b| && a[..k] == b[..k] && (k == |a| || a[k] < b[k])
  }

  /** The order a listing promises: by name, and by id among equal names. */
  ghost predicate NameThenId(t: Target, u: Target) {
    Precedes(t.name, u.name) || (t.name == u.name && Precedes(t.id, u.id))
  }

  lemma {:induction false} StrLessMeans(a: string, b: string)
    ensures StrLess(a, b) <==> Precedes(a, b)
  {
    forall k: nat | PartsAt(a, b, k) && k > 0 ensures a[0] == b[0] {
      assert a[..k][0] == b[..k][0];
    }
    if a != [] && b != [] && a[0] == b[0] {
      StrLessMeans(a[1..], b[1..]);
      if k: nat :| PartsAt(a[1..], b[1..], k) {
        assert a[..k + 1] == [a[0]] + a[1..][..k] && b[..k + 1] == [b[0]] + b[1..][..k];
        assert PartsAt(a, b, k + 1);
      }
      if k: nat :| PartsAt(a, b, k) {
        assert k > 0;
        assert a[1..][..k - 1] == a[..k][1..] && b[1..][..k - 1] == b[..k][1..];
        assert PartsAt(a[1..], b[1..], k - 1);
      }
    } else if b != [] {
      assert a[..0] == b[..0];
      assert a == [] || a[0] < b[0] ==> PartsAt(a, b, 0);
    }
  }

  lemma BeforeMeans(t: Target, u: Target)
    ensures Before(t, u) <==> NameThenId(t, u)
  {
    StrLessMeans(t.name, u.name);
    StrLessMeans(t.id, u.id);
    StrIrreflexive(t.name);
  }

  lemma {:induction false} StrIrreflexive(a: string)
    ensures !StrLess(a, a)
  {
    if a != [] {
      StrIrreflexive(a[1..]);
    }
  }

  lemma {:induction false} StrTransitive(a: string, b: string, c: string)
    requires StrLess(a, b) && StrLess(b, c)
    ensures StrLess(a, c)
  {
    if a != [] && a[0] == b[0] && b[0] == c[0] {
      StrTransitive(a[1..], b[1..], c[1..]);
    }
  }

  lemma {:induction false} StrTotal(a: string, b: string)
    ensures StrLess(a, b) || a == b || StrLess(b, a)
  {
    if a != [] && b != [] && a[0] == b[0] {
      StrTotal(a[1..], b[1..]);
      assert a == [a[0]] + a[1..] && b == [b[0]] + b[1..];
    }
  }

  lemma BeforeIrreflexive(t: Target)
    ensures !Before(t, t)
  {
    StrIrreflexive(t.id);
  }

  lemma BeforeTransitive(t: Target, u: Target, v: Target)
    requires Before(t, u) && Before(u, v)
    ensures Before(t, v)
  {
    if t.name == u.name && u.name == v.name {
      StrTransitive(t.id, u.id, v.id);
    } else if t.name != u.name && u.name != v.name {
      StrTransitive(t.name, u.name, v.name);
      if t.name == v.name {
        StrIrreflexive(t.name);
      }
    }
  }

  /** Two targets that the order cannot tell apart have the same id. */
  lemma BeforeTotal(t: Target, u: Target)
    ensures Before(t, u) || t.id == u.id || Before(u, t)
  {
    StrTotal(t.name, u.name);
    StrTotal(t.id, u.id);
  }

  /** Strictly ascending: no two neighbours out of order or tied. */
  ghost predicate Ascending(list: seq<Target>) {
    forall i, j :: 0 <= i < j < |list| ==> Before(list[i], list[j])
  }

  /** list enumerates the values of m, strictly ascending. */
  ghost predicate IsListing(m: map<string, Target>, list: seq<Target>) {
    && Ascending(list)
    && (forall t :: t in list <==> t in m.Values)
  }

  lemma HasFirst(b: seq<Target>)
    ensures b == [] || b[0] in b
  {
  }

  /** There is one such enumeration only. */
  lemma {:induction false} ListingUnique(a: seq<Target>, b: seq<Target>)
    requires Ascending(a) && Ascending(b)
    requires forall t :: t in a <==> t in b
    ensures a == b
    decreases |a|
  {
    if a == [] {
      HasFirst(b);
    } else {
      assert a[0] in b;
      FirstsAgree(a, b);
      forall t ensures t in a[1..] <==> t in b[1..] {
        TailMembers(a, t);
        TailMembers(b, t);
      }
      ListingUnique(a[1..], b[1..]);
      assert a == [a[0]] + a[1..] && b == [b[0]] + b[1..];
    }
  }

  lemma FirstsAgree(a: seq<Target>, b: seq<Target>)
    requires Ascending(a) && Ascending(b) && a != [] && b != []
    requires forall t :: t in a <==> t in b
    ensures a[0] == b[0]
  {
    assert a[0] in b && b[0] in a;
    var i :| 0 <= i < |b| && b[i] == a[0];
    var j :| 0 <= j < |a| && a[j] == b[0];
    if i > 0 && j > 0 {
      BeforeTransitive(a[0], a[j], b[i]);
      BeforeIrreflexive(a[0]);
    }
  }

  lemma TailMembers(a: seq<Target>, t: Target)
    requires Ascending(a) && a != []
    ensures t in a[1..] <==> t in a && t != a[0]
  {
    BeforeIrreflexive(a[0]);
    if t in a && t != a[0] {
      var i :| 0 <= i < |a| && a[i] == t;
      assert a[1..][i - 1] == t;
    }
  }
}
