/**
 Sums of a weight over a sequence. The batcher's byte accounting, the send gate's
 token accounting and the connect-attempt counters are all sums over a sequence of
 concurrent activities in which one step changes one activity.
 */
module Sums {

  function Sum<T>(s: seq<T>, w: T -> nat): nat {
    if s == [] then 0 else w(s[0]) + Sum(s[1..], w)
  }

  lemma {:induction false} SumConcat<T>(a: seq<T>, b: seq<T>, w: T -> nat)
    ensures Sum(a + b, w) == Sum(a, w) + Sum(b, w)
  {
    if a == [] {
      assert a + b == b;
    } else {
      assert (a + b)[1..] == a[1..] + b;
      SumConcat(a[1..], b, w);
    }
  }

  lemma SumAppend<T>(s: seq<T>, x: T, w: T -> nat)
    ensures Sum(s + [x], w) == Sum(s, w) + w(x)
  {
    SumConcat(s, [x], w);
    assert [x][1..] == [];
  }

  /** One activity changes: the sum moves by exactly the difference of its weights. */
  lemma {:induction false} SumUpdate<T>(s: seq<T>, i: nat, x: T, w: T -> nat)
    requires i < |s|
    ensures Sum(s[i := x], w) + w(s[i]) == Sum(s, w) + w(x)
  {
    if i == 0 {
      assert s[i := x][1..] == s[1..];
    } else {
      assert s[i := x][1..] == s[1..][i - 1 := x];
      SumUpdate(s[1..], i - 1, x, w);
    }
  }

  lemma {:induction false} SumAtLeast<T>(s: seq<T>, i: nat, w: T -> nat)
    requires i < |s|
    ensures w(s[i]) <= Sum(s, w)
  {
    if i > 0 {
      SumAtLeast(s[1..], i - 1, w);
    }
  }

  lemma {:induction false} SumAtMost<T>(s: seq<T>, w: T -> nat, cap: nat)
    requires forall i :: 0 <= i < |s| ==> w(s[i]) <= cap
    ensures Sum(s, w) <= |s| * cap
  {
    if s != [] {
      forall i | 0 <= i < |s[1..]| ensures w(s[1..][i]) <= cap {
        assert s[1..][i] == s[i + 1];
      }
      SumAtMost(s[1..], w, cap);
    }
  }

  /** All but activity `i` weigh at most `cap`. */
  lemma {:induction false} SumAtMostBut<T>(s: seq<T>, i: nat, w: T -> nat, cap: nat)
    requires i < |s|
    requires forall j :: 0 <= j < |s| ==> w(s[j]) <= cap
    ensures Sum(s, w) <= w(s[i]) + (|s| - 1) * cap
  {
    forall j | 0 <= j < |s[1..]| ensures w(s[1..][j]) <= cap {
      assert s[1..][j] == s[j + 1];
    }
    if i == 0 {
      SumAtMost(s[1..], w, cap);
    } else {
      SumAtMostBut(s[1..], i - 1, w, cap);
      assert (|s| - 2) * cap + cap == (|s| - 1) * cap;
    }
  }

  lemma {:induction false} SumZero<T>(s: seq<T>, w: T -> nat)
    requires forall i :: 0 <= i < |s| ==> w(s[i]) == 0
    ensures Sum(s, w) == 0
  {
    SumAtMost(s, w, 0);
  }

  /** Pointwise comparison of two weights. */
  lemma {:induction false} SumMonotone<T>(s: seq<T>, v: T -> nat, w: T -> nat)
    requires forall i :: 0 <= i < |s| ==> v(s[i]) <= w(s[i])
    ensures Sum(s, v) <= Sum(s, w)
  {
    if s != [] {
      forall i | 0 <= i < |s[1..]| ensures v(s[1..][i]) <= w(s[1..][i]) {
        assert s[1..][i] == s[i + 1];
      }
      SumMonotone(s[1..], v, w);
    }
  }
}
