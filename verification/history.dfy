/** The fixed-length FIFO histories of the PID loop and what is computed from
    them: sums and means. */
module History {

  /** One push: `del h[0]` followed by `h.append(x)`. Deleting from an empty
      list raises, so the history must not be empty. */
  function Shift<T>(h: seq<T>, x: T): (r: seq<T>)
    requires |h| > 0
    ensures |r| == |h|
    ensures r[|r| - 1] == x
    ensures forall k :: 0 <= k < |h| - 1 ==> r[k] == h[k + 1]
  {
    h[1..] + [x]
  }

  /** The PID-output history appends before it deletes; on a non-empty list
      the outcome is the same push. */
  lemma AppendThenDelete<T>(h: seq<T>, x: T)
    requires |h| > 0
    ensures (h + [x])[1..] == Shift(h, x)
  {
  }

  /** `config.n * [v]` */
  function Filled<T>(n: nat, v: T): (r: seq<T>)
    ensures |r| == n && forall k :: 0 <= k < n ==> r[k] == v
  {
    seq(n, _ => v)
  }

  /** Pushing `n` copies of `v`. */
  function ShiftMany<T>(h: seq<T>, v: T, n: nat): (r: seq<T>)
    requires |h| > 0
    ensures |r| == |h|
    decreases n
  {
    if n == 0 then h else ShiftMany(Shift(h, v), v, n - 1)
  }

  /** Python's `sum` on a list of floats. */
  function Sum(s: seq<real>): real
  {
    if s == [] then 0.0 else s[0] + Sum(s[1..])
  }

  /** Python's `sum` on a list of ints. */
  function SumInt(s: seq<int>): int
  {
    if s == [] then 0 else s[0] + SumInt(s[1..])
  }

  /** `sum(h) / len(h)`. */
  function Mean(s: seq<real>): real
    requires |s| > 0
  {
    Sum(s) / |s| as real
  }

  predicate Within(s: seq<real>, b: real)
  {
    forall k :: 0 <= k < |s| ==> -b <= s[k] <= b
  }

  /** Every entry of a fault-flag history is 0 (read ok) or 1 (read failed). */
  predicate Flags(s: seq<int>)
  {
    forall k :: 0 <= k < |s| ==> s[k] == 0 || s[k] == 1
  }

  lemma ShiftKeepsWithin(h: seq<real>, x: real, b: real)
    requires |h| > 0 && Within(h, b) && -b <= x <= b
    ensures Within(Shift(h, x), b)
  {
  }

  lemma ShiftKeepsFlags(h: seq<int>, f: int)
    requires |h| > 0 && Flags(h) && (f == 0 || f == 1)
    ensures Flags(Shift(h, f))
  {
  }

  lemma {:induction false} SumWithin(s: seq<real>, b: real)
    requires Within(s, b)
    ensures -(|s| as real) * b <= Sum(s) <= |s| as real * b
  {
    if s != [] {
      assert Within(s[1..], b);
      SumWithin(s[1..], b);
      var n := |s[1..]| as real;
      assert |s| as real * b == n * b + b;
      assert -(|s| as real) * b == -n * b - b;
    }
  }

  /** The mean of values inside `[-b, b]` is inside `[-b, b]`. */
  lemma MeanWithin(s: seq<real>, b: real)
    requires |s| > 0 && Within(s, b)
    ensures -b <= Mean(s) <= b
  {
    SumWithin(s, b);
    var n := |s| as real;
    assert Mean(s) * n == Sum(s);
    assert (Mean(s) - b) * n <= 0.0;
    assert (Mean(s) + b) * n >= 0.0;
  }

  /** The number of failed reads recorded in a fault-flag history is between 0
      and its length. */
  lemma {:induction false} FlagSumBound(s: seq<int>)
    requires Flags(s)
    ensures 0 <= SumInt(s) <= |s|
  {
    if s != [] {
      assert Flags(s[1..]);
      FlagSumBound(s[1..]);
    }
  }

  /** The sensor-failure test `sum(temperr) >= 5 * temp_hist_len` can never
      hold for a non-empty history of flags, not even when every read failed. */
  lemma {:induction false} SensorAlarmUnreachable(s: seq<int>)
    requires |s| > 0 && Flags(s)
    ensures SumInt(s) < 5 * |s|
  {
    FlagSumBound(s);
  }

  lemma {:induction false} SumFilled(n: nat, v: real)
    ensures Sum(Filled(n, v)) == n as real * v
  {
    if n > 0 {
      assert Filled(n, v)[1..] == Filled(n - 1, v);
      SumFilled(n - 1, v);
    }
  }

  /** After `n` pushes of `v`, the last `n` entries (all of them when `n`
      reaches the length) are `v`, and the older ones have moved down by `n`. */
  lemma {:induction false} ShiftManyAt<T>(h: seq<T>, v: T, n: nat)
    requires |h| > 0
    ensures forall k :: 0 <= k < |h| ==>
      ShiftMany(h, v, n)[k] == if k + n < |h| then h[k + n] else v
    decreases n
  {
    if n > 0 {
      var h' := Shift(h, v);
      ShiftManyAt(h', v, n - 1);
      forall k | 0 <= k < |h|
        ensures ShiftMany(h, v, n)[k] == if k + n < |h| then h[k + n] else v
      {
        assert ShiftMany(h, v, n)[k] == if k + (n - 1) < |h'| then h'[k + (n - 1)] else v;
      }
    }
  }

  /** A reading held steady for at least a history's length fills the history:
      its mean is then exactly that reading. */
  lemma SteadyReadingFillsHistory(h: seq<real>, v: real, n: nat)
    requires |h| > 0 && n >= |h|
    ensures ShiftMany(h, v, n) == Filled(|h|, v)
    ensures Mean(ShiftMany(h, v, n)) == v
  {
    ShiftManyAt(h, v, n);
    assert ShiftMany(h, v, n) == Filled(|h|, v);
    SumFilled(|h|, v);
  }
}
