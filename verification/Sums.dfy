/** Sums of a weight over a sequence: the counting behind every wait group and every ranking function. */
module Sums {

  function Sum<T>(s: seq<T>, weight: T -> nat): nat {
    if s == [] then 0 else Sum(s[..|s| - 1], weight) + weight(s[|s| - 1])
  }

  lemma SumAppend<T>(s: seq<T>, x: T, weight: T -> nat)
    ensures Sum(s + [x], weight) == Sum(s, weight) + weight(x)
  {
    assert (s + [x])[..|s|] == s;
  }

  lemma {:induction false} SumUpdate<T>(s: seq<T>, i: nat, x: T, weight: T -> nat)
    requires i < |s|
    ensures Sum(s[i := x], weight) + weight(s[i]) == Sum(s, weight) + weight(x)
  {
    var last := |s| - 1;
    if i == last {
      assert s[i := x][..last] == s[..last];
    } else {
      assert s[i := x][..last] == s[..last][i := x];
      SumUpdate(s[..last], i, x, weight);
    }
  }

  lemma {:induction false} SumPointwise<T>(s: seq<T>, t: seq<T>, weight: T -> nat)
    requires |s| == |t|
    requires forall i :: 0 <= i < |s| ==> weight(s[i]) == weight(t[i])
    ensures Sum(s, weight) == Sum(t, weight)
  {
    if s != [] {
      SumPointwise(s[..|s| - 1], t[..|t| - 1], weight);
    }
  }

  lemma {:induction false} SumZero<T>(s: seq<T>, weight: T -> nat)
    ensures Sum(s, weight) == 0 <==> forall i :: 0 <= i < |s| ==> weight(s[i]) == 0
  {
    if s != [] {
      var last := |s| - 1;
      SumZero(s[..last], weight);
      assert forall i :: 0 <= i < last ==> s[..last][i] == s[i];
    }
  }
}
