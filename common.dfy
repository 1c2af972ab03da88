/**
 * Helpers shared by the reward system, the agents and the trainer: an optional value, the
 * replay-memory transition record, arithmetic over sequences of reals (the sums and means
 * NumPy computes), clipping, and the bounded queue that Python's `deque(maxlen=...)` provides.
 */
module Common {

  datatype Option<+T> = None | Some(value: T) {
    /** The value, or `default` when absent (Python's `dict.get(key, default)`). */
    function GetOr(default: T): T {
      match this
      case Some(v) => v
      case None => default
    }
  }

  /** One replay-memory entry: (state, action, reward, next_state, done). */
  datatype Transition = Transition(state: seq<real>, action: int, reward: real, nextState: seq<real>, done: bool)

  function Min(a: int, b: int): int { if a <= b then a else b }

  function Max(a: real, b: real): (m: real)
    ensures a <= m && b <= m && (m == a || m == b)
  {
    if a >= b then a else b
  }

  /** `np.clip(x, lo, hi)`. */
  function Clip(x: real, lo: real, hi: real): (r: real)
    requires lo <= hi
    ensures lo <= r <= hi
    ensures lo <= x <= hi ==> r == x
    ensures x < lo ==> r == lo
    ensures hi < x ==> r == hi
  {
    if x < lo then lo else if hi < x then hi else x
  }

  // ---------------------------------------------------------------------------------------------
  // Sums and means

  function Sum(s: seq<real>): real
  {
    if |s| == 0 then 0.0 else Sum(s[..|s| - 1]) + s[|s| - 1]
  }

  /** `np.mean(s)` on a non-empty list. */
  function Mean(s: seq<real>): real
    requires |s| > 0
  {
    Sum(s) / (|s| as real)
  }

  lemma {:induction false} SumConcat(a: seq<real>, b: seq<real>)
    ensures Sum(a + b) == Sum(a) + Sum(b)
    decreases |b|
  {
    if |b| == 0 {
      assert a + b == a;
    } else {
      assert (a + b)[..|a + b| - 1] == a + b[..|b| - 1];
      SumConcat(a, b[..|b| - 1]);
    }
  }

  /** Taking one element out of a sequence lowers its sum by exactly that element. */
  lemma SumRemove(s: seq<real>, j: nat)
    requires j < |s|
    ensures Sum(s) == Sum(s[..j] + s[j + 1..]) + s[j]
  {
    var front, back := s[..j], s[j + 1..];
    assert s == (front + [s[j]]) + back;
    SumConcat(front + [s[j]], back);
    assert (front + [s[j]])[..|front|] == front;
    SumConcat(front, back);
  }

  /** The sum does not depend on the order of the elements. */
  lemma {:induction false} SumPermutation(a: seq<real>, b: seq<real>)
    requires multiset(a) == multiset(b)
    ensures Sum(a) == Sum(b)
    decreases |a|
  {
    assert |a| == |multiset(a)| == |multiset(b)| == |b|;
    if |a| > 0 {
      var x := a[|a| - 1];
      var a' := a[..|a| - 1];
      assert a == a' + [x];
      assert x in multiset(b);
      var j :| 0 <= j < |b| && b[j] == x;
      var b' := b[..j] + b[j + 1..];
      assert b == b[..j] + [x] + b[j + 1..];
      assert multiset(b) == multiset(b[..j]) + multiset{x} + multiset(b[j + 1..]);
      assert multiset(b') == multiset(b[..j]) + multiset(b[j + 1..]);
      assert multiset(a) == multiset(a') + multiset{x};
      forall y
        ensures multiset(a')[y] == multiset(b')[y]
      {
        assert multiset(a)[y] == multiset(b)[y];
      }
      assert multiset(a') == multiset(b');
      SumPermutation(a', b');
      SumRemove(b, j);
    }
  }

  /** Elementwise `a[i] <= b[i]` carries over to the sums. */
  lemma {:induction false} SumMonotone(a: seq<real>, b: seq<real>)
    requires |a| == |b|
    requires forall i :: 0 <= i < |a| ==> a[i] <= b[i]
    ensures Sum(a) <= Sum(b)
    decreases |a|
  {
    if |a| > 0 {
      SumMonotone(a[..|a| - 1], b[..|b| - 1]);
    }
  }

  /** Elements within [lo, hi] give a sum within [n·lo, n·hi]. */
  lemma {:induction false} SumBounds(s: seq<real>, lo: real, hi: real)
    requires forall i :: 0 <= i < |s| ==> lo <= s[i] <= hi
    ensures (|s| as real) * lo <= Sum(s) <= (|s| as real) * hi
    decreases |s|
  {
    if |s| > 0 {
      var n := |s| - 1;
      SumBounds(s[..n], lo, hi);
      assert (n as real) * lo + lo == (|s| as real) * lo;
      assert (n as real) * hi + hi == (|s| as real) * hi;
    }
  }

  /** A mean lies within any bounds its elements lie within. */
  lemma MeanBounds(s: seq<real>, lo: real, hi: real)
    requires |s| > 0
    requires forall i :: 0 <= i < |s| ==> lo <= s[i] <= hi
    ensures lo <= Mean(s) <= hi
  {
    SumBounds(s, lo, hi);
    var n := |s| as real;
    var m := Mean(s);
    assert m * n == Sum(s);
    assert (m - lo) * n >= 0.0;
    assert (hi - m) * n >= 0.0;
  }

  /** The mean of a sequence whose elements are all `c` is `c`. */
  lemma MeanConstant(s: seq<real>, c: real)
    requires |s| > 0
    requires forall i :: 0 <= i < |s| ==> s[i] == c
    ensures Mean(s) == c
  {
    MeanBounds(s, c, c);
  }

  function SeqMax(s: seq<real>): (m: real)
    requires |s| > 0
    ensures forall i :: 0 <= i < |s| ==> s[i] <= m
    ensures exists i :: 0 <= i < |s| && s[i] == m
  {
    if |s| == 1 then s[0]
    else
      var rest := SeqMax(s[..|s| - 1]);
      assert forall i :: 0 <= i < |s| - 1 ==> s[..|s| - 1][i] == s[i];
      Max(rest, s[|s| - 1])
  }

  function SeqMin(s: seq<real>): (m: real)
    requires |s| > 0
    ensures forall i :: 0 <= i < |s| ==> m <= s[i]
    ensures exists i :: 0 <= i < |s| && s[i] == m
  {
    if |s| == 1 then s[0]
    else
      var rest := SeqMin(s[..|s| - 1]);
      assert forall i :: 0 <= i < |s| - 1 ==> s[..|s| - 1][i] == s[i];
      if rest <= s[|s| - 1] then rest else s[|s| - 1]
  }

  // ---------------------------------------------------------------------------------------------
  // Bounded FIFO queue: `deque(maxlen=cap)`

  /** The last `n` elements of `s` (all of `s` when it is shorter). */
  function Last<T>(s: seq<T>, n: nat): (r: seq<T>)
    ensures |r| == Min(n, |s|)
    ensures r == s[|s| - |r|..]
  {
    if |s| <= n then s else s[|s| - n..]
  }

  /**
   * `d.append(x)` on `d = deque(s, maxlen=cap)`: `x` goes to the back and, when the deque
   * was full, the oldest element leaves from the front.
   */
  function BoundedAppend<T>(s: seq<T>, x: T, cap: nat): (r: seq<T>)
    requires cap > 0
    requires |s| <= cap
    ensures |r| <= cap
    ensures |s| < cap ==> r == s + [x]
    ensures |s| == cap ==> r == s[1..] + [x]
  {
    Last(s + [x], cap)
  }

  /** Appending the elements of `xs` one at a time, oldest first. */
  function AppendAll<T>(s: seq<T>, xs: seq<T>, cap: nat): (r: seq<T>)
    requires cap > 0
    requires |s| <= cap
    decreases |xs|
  {
    if |xs| == 0 then s else AppendAll(BoundedAppend(s, xs[0], cap), xs[1..], cap)
  }

  lemma LastOfLast<T>(t: seq<T>, u: seq<T>, n: nat)
    ensures Last(Last(t, n) + u, n) == Last(t + u, n)
  {
    var l := Last(t, n);
    var a := Last(l + u, n);
    var b := Last(t + u, n);
    assert |a| == |b|;
    forall i | 0 <= i < |a|
      ensures a[i] == b[i]
    {
      var k := |a| - i;  // position counted from the back, 1-based
      assert a[i] == (l + u)[|l + u| - k];
      assert b[i] == (t + u)[|t + u| - k];
      if k <= |u| {
        assert (l + u)[|l + u| - k] == u[|u| - k];
        assert (t + u)[|t + u| - k] == u[|u| - k];
      } else {
        assert (l + u)[|l + u| - k] == l[|l| - (k - |u|)];
        assert l[|l| - (k - |u|)] == t[|t| - (k - |u|)];
      }
    }
  }

  /**
   * Feeding a sequence of elements through a bounded queue keeps exactly the newest `cap`
   * of everything that went in, in arrival order.
   */
  lemma {:induction false} AppendAllKeepsNewest<T>(s: seq<T>, xs: seq<T>, cap: nat)
    requires cap > 0
    requires |s| <= cap
    ensures AppendAll(s, xs, cap) == Last(s + xs, cap)
    decreases |xs|
  {
    if |xs| == 0 {
      assert s + xs == s;
    } else {
      AppendAllKeepsNewest(BoundedAppend(s, xs[0], cap), xs[1..], cap);
      BoundedAppendThenLast(s, xs[0], xs[1..], cap);
      assert [xs[0]] + xs[1..] == xs;
    }
  }

  lemma BoundedAppendThenLast<T>(s: seq<T>, x: T, rest: seq<T>, cap: nat)
    requires cap > 0
    requires |s| <= cap
    ensures Last(BoundedAppend(s, x, cap) + rest, cap) == Last(s + ([x] + rest), cap)
  {
    LastOfLast(s + [x], rest, cap);
    assert (s + [x]) + rest == s + ([x] + rest);
  }
}
