/** Sums over sequences of natural numbers. */
module Sums {
  import opened Common

  function Total(s: seq<nat>): nat {
    if s == [] then 0 else s[0] + Total(s[1..])
  }

  lemma {:induction false} TotalConcat(a: seq<nat>, b: seq<nat>)
    ensures Total(a + b) == Total(a) + Total(b)
  {
    if a == [] {
      assert a + b == b;
    } else {
      assert (a + b)[1..] == a[1..] + b;
      TotalConcat(a[1..], b);
    }
  }

  lemma TotalWithout(s: seq<nat>, k: nat)
    requires k < |s|
    ensures Total(Without(s, k)) == Total(s) - s[k]
  {
    assert s == s[..k] + s[k..];
    TotalConcat(s[..k], s[k..]);
    TotalConcat(s[..k], s[k + 1..]);
  }

  lemma TotalUpdate(s: seq<nat>, k: nat, x: nat)
    requires k < |s|
    ensures Total(s[k := x]) + s[k] == Total(s) + x
  {
    assert Without(s[k := x], k) == Without(s, k);
    TotalWithout(s, k);
    TotalWithout(s[k := x], k);
  }

  lemma TotalAppend(s: seq<nat>, x: nat)
    ensures Total(s + [x]) == Total(s) + x
  {
    TotalConcat(s, [x]);
  }

  /** A sum of zeros and ones counts the ones. */
  lemma {:induction false} TotalCounts(s: seq<nat>)
    requires forall i :: 0 <= i < |s| ==> s[i] <= 1
    ensures Total(s) <= |s|
    ensures Total(s) == |s| <==> forall i :: 0 <= i < |s| ==> s[i] == 1
  {
    if s != [] {
      TotalCounts(s[1..]);
      assert forall i :: 0 < i < |s| ==> s[i] == s[1..][i - 1];
    }
  }

  lemma {:induction false} TotalIsCount(s: seq<nat>, ones: set<nat>)
    requires forall i :: 0 <= i < |s| ==> s[i] <= 1
    requires forall i: nat :: i in ones <==> i < |s| && s[i] == 1
    ensures Total(s) == |ones|
    decreases |s|
  {
    if s != [] {
      var n := |s| - 1;
      TotalIsCount(s[..n], ones - {n});
      TotalNext(s, n);
      assert s[..n + 1] == s;
    } else {
      assert ones == {};
    }
  }

  /** One sum is at most another that is so term by term, and equal exactly if all terms are. */
  lemma {:induction false} TotalBelow(s: seq<nat>, t: seq<nat>)
    requires |s| == |t| && forall i :: 0 <= i < |s| ==> s[i] <= t[i]
    ensures Total(s) <= Total(t)
    ensures Total(s) == Total(t) <==> forall i :: 0 <= i < |s| ==> s[i] == t[i]
  {
    if s != [] {
      TotalBelow(s[1..], t[1..]);
      assert forall i :: 0 < i < |s| ==> s[i] == s[1..][i - 1] && t[i] == t[1..][i - 1];
    }
  }

  lemma TotalNext(s: seq<nat>, i: nat)
    requires i < |s|
    ensures Total(s[..i + 1]) == Total(s[..i]) + s[i]
  {
    assert s[..i + 1] == s[..i] + [s[i]];
    TotalAppend(s[..i], s[i]);
  }

  lemma {:induction false} TotalPlus(s: seq<nat>, t: seq<nat>, both: seq<nat>)
    requires |s| == |t| == |both| && forall i :: 0 <= i < |s| ==> both[i] == s[i] + t[i]
    ensures Total(both) == Total(s) + Total(t)
  {
    if s != [] {
      TotalPlus(s[1..], t[1..], both[1..]);
    }
  }
}
