/** Sums of natural numbers. */
module Sums {
  function Sum(s: seq<nat>): nat {
    if s == [] then 0 else s[0] + Sum(s[1..])
  }

  lemma {:induction false} SumUpdate(s: seq<nat>, i: nat, x: nat)
    requires i < |s|
    ensures Sum(s[i := x]) == Sum(s) - s[i] + x
  {
    if i == 0 {
      assert s[i := x][1..] == s[1..];
    } else {
      SumUpdate(s[1..], i - 1, x);
      assert s[i := x][1..] == s[1..][i - 1 := x];
    }
  }

  lemma {:induction false} SumAtLeast(s: seq<nat>, low: nat)
    requires forall i :: 0 <= i < |s| ==> low <= s[i]
    ensures low * |s| <= Sum(s)
  {
    if s != [] {
      SumAtLeast(s[1..], low);
      assert low * |s| == low * |s[1..]| + low;
    }
  }

  lemma {:induction false} SumAtMost(s: seq<nat>, high: nat)
    requires forall i :: 0 <= i < |s| ==> s[i] <= high
    ensures Sum(s) <= high * |s|
  {
    if s != [] {
      SumAtMost(s[1..], high);
      assert high * |s| == high * |s[1..]| + high;
    }
  }

  lemma {:induction false} SumAppend(s: seq<nat>, x: nat)
    ensures Sum(s + [x]) == Sum(s) + x
  {
    if s == [] {
      assert s + [x] == [x] && [x][1..] == [];
    } else {
      assert (s + [x])[1..] == s[1..] + [x];
      SumAppend(s[1..], x);
    }
  }
}
