/** The framerate estimator behind the camera's `ts_d` member: a bounded
    window of instantaneous rates (one per frame, 1/dt) whose mean is the
    camera's effective framerate. */
module MovingAverage {

  /** The last `cap` elements of `s` (all of `s` when it is shorter). */
  function Tail(s: seq<real>, cap: nat): (r: seq<real>)
    ensures |r| == if |s| <= cap then |s| else cap
  {
    if |s| <= cap then s else s[|s| - cap..]
  }

  /** Adds one sample, dropping the oldest one once the window already holds `cap`. */
  function Push(w: seq<real>, x: real, cap: nat): (r: seq<real>)
    requires 0 < cap && |w| <= cap
    ensures 0 < |r| <= cap && r[|r| - 1] == x
    ensures r == Tail(w + [x], cap)
  {
    if |w| < cap then w + [x] else w[1..] + [x]
  }

  function Sum(w: seq<real>): real
  {
    if w == [] then 0.0 else w[0] + Sum(w[1..])
  }

  /** The window average; the camera only asks for it after a sample was added. */
  function Mean(w: seq<real>): (m: real)
    ensures |w| == 0 ==> m == 0.0
    ensures |w| > 0 ==> m * (|w| as real) == Sum(w)
  {
    if |w| == 0 then 0.0 else Sum(w) / (|w| as real)
  }

  /** `n` successive pushes of the same sample. */
  function PushMany(w: seq<real>, v: real, n: nat, cap: nat): (r: seq<real>)
    requires 0 < cap && |w| <= cap
    ensures |r| <= cap
    decreases n
  {
    if n == 0 then w else PushMany(Push(w, v, cap), v, n - 1, cap)
  }

  function Repeat(v: real, n: nat): (r: seq<real>)
    ensures |r| == n && forall i :: 0 <= i < n ==> r[i] == v
  {
    seq(n, _ => v)
  }

  /** Dropping a prefix that leaves at least `cap` elements keeps the tail. */
  lemma TailOfSuffix(x: seq<real>, k: nat, cap: nat)
    requires k + cap <= |x|
    ensures Tail(x[k..], cap) == Tail(x, cap)
  {
    assert x[k..][|x| - k - cap..] == x[|x| - cap..];
  }

  lemma TailOfTail(s: seq<real>, t: seq<real>, cap: nat)
    ensures Tail(Tail(s, cap) + t, cap) == Tail(s + t, cap)
  {
    if |s| > cap {
      assert Tail(s, cap) + t == (s + t)[|s| - cap..];
      TailOfSuffix(s + t, |s| - cap, cap);
    }
  }

  lemma {:induction false} SumOfConstant(w: seq<real>, v: real)
    requires forall i :: 0 <= i < |w| ==> w[i] == v
    ensures Sum(w) == (|w| as real) * v
  {
    if w != [] {
      SumOfConstant(w[1..], v);
    }
  }

  /** A window holding one repeated rate averages to exactly that rate. */
  lemma MeanOfConstant(w: seq<real>, v: real)
    requires 0 < |w|
    requires forall i :: 0 <= i < |w| ==> w[i] == v
    ensures Mean(w) == v
  {
    SumOfConstant(w, v);
  }

  lemma {:induction false} SumBetween(w: seq<real>, lo: real, hi: real)
    requires forall i :: 0 <= i < |w| ==> lo <= w[i] <= hi
    ensures (|w| as real) * lo <= Sum(w) <= (|w| as real) * hi
  {
    if w != [] {
      SumBetween(w[1..], lo, hi);
    }
  }

  /** The reported rate lies between the slowest and the fastest rate in the window. */
  lemma MeanBetween(w: seq<real>, lo: real, hi: real)
    requires 0 < |w|
    requires forall i :: 0 <= i < |w| ==> lo <= w[i] <= hi
    ensures lo <= Mean(w) <= hi
  {
    SumBetween(w, lo, hi);
  }

  /** The window after `n` pushes is the tail of the old window followed by the new samples. */
  lemma {:induction false} PushManyIsTail(w: seq<real>, v: real, n: nat, cap: nat)
    requires 0 < cap && |w| <= cap
    ensures PushMany(w, v, n, cap) == Tail(w + Repeat(v, n), cap)
    decreases n
  {
    if n == 0 {
      assert w + Repeat(v, 0) == w;
    } else {
      var w' := Push(w, v, cap);
      PushManyIsTail(w', v, n - 1, cap);
      TailOfTail(w + [v], Repeat(v, n - 1), cap);
      assert (w + [v]) + Repeat(v, n - 1) == w + Repeat(v, n);
    }
  }

  /** Constant inter-frame interval: once at least `cap` equal samples were
      pushed, the window is full and its mean is exactly that sample,
      whatever the window held before. */
  lemma ConstantRateConverges(w: seq<real>, v: real, n: nat, cap: nat)
    requires 0 < cap && |w| <= cap && cap <= n
    ensures |PushMany(w, v, n, cap)| == cap
    ensures Mean(PushMany(w, v, n, cap)) == v
  {
    PushManyIsTail(w, v, n, cap);
    var s := w + Repeat(v, n);
    var r := Tail(s, cap);
    assert |s| > cap || |s| == cap;
    forall i | 0 <= i < |r| ensures r[i] == v {
      assert r[i] == s[|s| - cap + i];
    }
    MeanOfConstant(r, v);
  }
}
