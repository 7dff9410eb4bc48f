/** The echo path's delay, learnt by an adaptive filter over a doubled window of the far
    end, in exact arithmetic. */
module DelayEstimator {
  const DECIMATE := 24
  const TAPS := 1600
  const EDGE := 40
  const MIN_PROMINENCE := 20.0

  type Signal = seq<real>

  function Dot(f: Signal, x: Signal): real
    requires |f| == |x|
    decreases |f|
  {
    if f == [] then 0.0 else Dot(f[..|f| - 1], x[..|f| - 1]) + f[|f| - 1] * x[|f| - 1]
  }

  function Power(x: Signal): real { Dot(x, x) }

  /** The far end's newest value goes in front. */
  lemma {:induction false} DotCons(a: real, f: Signal, b: real, x: Signal)
    requires |f| == |x|
    ensures Dot([a] + f, [b] + x) == a * b + Dot(f, x)
    decreases |f|
  {
    var n := |f|;
    if n == 0 {
      assert [a] + f == [a] && [b] + x == [b] && [a][..0] == [] && [b][..0] == [];
    } else {
      assert ([a] + f)[..n] == [a] + f[..n - 1] && ([b] + x)[..n] == [b] + x[..n - 1];
      DotCons(a, f[..n - 1], b, x[..n - 1]);
    }
  }

  /** A step of size `g` along `x` moves the product with `x` by `g` times its power. */
  lemma {:induction false} DotStep(f: Signal, g: real, x: Signal, f': Signal)
    requires |f| == |x| == |f'|
    requires forall k :: 0 <= k < |f| ==> f'[k] == f[k] + g * x[k]
    ensures Dot(f', x) == Dot(f, x) + g * Power(x)
    decreases |f|
  {
    hide *;
    var n := |f| - 1;
    if n < 0 {
      assert f == [] && x == [] && f' == [];
      DotEmpty();
    } else {
      DotStep(f[..n], g, x[..n], f'[..n]);
      DotSnoc(f, x, n);
      DotSnoc(f', x, n);
      assert f[..n + 1] == f && x[..n + 1] == x && f'[..n + 1] == f';
      StepAlgebra(Dot(f[..n], x[..n]), Power(x[..n]), g, f[n], x[n], Dot(f'[..n], x[..n]), f'[n]);
    }
  }

  lemma StepAlgebra(d: real, p: real, g: real, a: real, x: real, d': real, a': real)
    requires d' == d + g * p && a' == a + g * x
    ensures d' + a' * x == (d + a * x) + g * (p + x * x)
  {
    assert a' * x == a * x + g * (x * x);
    assert g * (p + x * x) == g * p + g * (x * x);
  }

  /** The newest `TAPS` values, newest first. */
  ghost function Newest(heard: Signal): Signal
    requires |heard| >= TAPS
  {
    heard[..TAPS]
  }

  lemma NewestCons(heard: Signal, far: real)
    requires |heard| >= TAPS
    ensures Newest([far] + heard) == [far] + Newest(heard)[..TAPS - 1]
  {
  }

  lemma Slide(w: Signal, far: real)
    requires |w| == TAPS
    ensures Power([far] + w[..TAPS - 1]) == Power(w) + far * far - w[TAPS - 1] * w[TAPS - 1]
  {
    DotCons(far, w[..TAPS - 1], far, w[..TAPS - 1]);
    assert Dot(w, w) == Dot(w[..TAPS - 1], w[..TAPS - 1]) + w[TAPS - 1] * w[TAPS - 1];
  }

  lemma {:induction false} SilentPower(x: Signal)
    requires forall k :: 0 <= k < |x| ==> x[k] == 0.0
    ensures Power(x) == 0.0
    decreases |x|
  {
    if x != [] {
      SilentPower(x[..|x| - 1]);
    }
  }

  /** Written at both places, the new value heads the window and the oldest falls out. */
  lemma WindowSlides(h: Signal, at: nat, head: nat, far: real)
    requires |h| == 2 * TAPS && at < TAPS && head == (at + TAPS - 1) % TAPS
    requires forall k :: 0 <= k < TAPS ==> h[k] == h[k + TAPS]
    ensures var g, w := h[head := far][head + TAPS := far], h[at..at + TAPS];
      && h[head] == w[TAPS - 1]
      && g[head..head + TAPS] == [far] + w[..TAPS - 1]
      && forall k :: 0 <= k < TAPS ==> g[k] == g[k + TAPS]
  {
    var g, w := h[head := far][head + TAPS := far], h[at..at + TAPS];
    assert head == if at == 0 then TAPS - 1 else at - 1;
    var u := g[head..head + TAPS];
    forall k | 1 <= k < |u|
      ensures u[k] == w[k - 1]
    {
      if at == 0 {
        assert h[head + k] == h[k - 1 + TAPS] == h[k - 1];
      }
    }
  }

  class Estimator {
    const history: array<real>
    const filter: array<real>
    var head: nat
    var energy: real
    /** Every far value so far, newest first, on the silence it began with. */
    ghost var heard: Signal

    ghost predicate Valid()
      reads this, history, filter
    {
      && history != filter && history.Length == 2 * TAPS && filter.Length == TAPS
      && head < TAPS && |heard| >= TAPS
      && (forall k :: 0 <= k < TAPS ==> history[k] == history[k + TAPS])
      && Window() == Newest(heard)
      && energy == Power(Newest(heard))
    }

    /** The window the filter runs over: one piece, wherever the head stands. */
    ghost function Window(): Signal
      requires history.Length == 2 * TAPS && head < TAPS
      reads this, history
    {
      history[head..head + TAPS]
    }

    constructor ()
      ensures Valid() && fresh(history) && fresh(filter)
      ensures forall k :: 0 <= k < TAPS ==> filter[k] == 0.0 && heard[k] == 0.0
    {
      history := new real[2 * TAPS](_ => 0.0);
      filter := new real[TAPS](_ => 0.0);
      head, energy := 0, 0.0;
      heard := seq(TAPS, _ => 0.0);
      new;
      hide Dot, Power;
      SilentPower(heard[..TAPS]);
    }

    /** The window slides by one: the mirror, the window and the energy hold again. */
    method Push(far: real)
      requires Valid()
      modifies this, history
      ensures Valid() && heard == [far] + old(heard)
    {
      hide Dot, Power, Newest;
      ghost var w := Window();
      Slide(w, far);
      NewestCons(heard, far);
      var was := Shift(far);
      energy := energy + far * far - was * was;
      heard := [far] + heard;
    }

    /** The new value at both places, ahead of the window; what falls out comes back. */
    method Shift(far: real) returns (was: real)
      requires history.Length == 2 * TAPS && head < TAPS
      requires forall k :: 0 <= k < TAPS ==> history[k] == history[k + TAPS]
      modifies this`head, history
      ensures head < TAPS && was == old(Window())[TAPS - 1] && Window() == [far] + old(Window())[..TAPS - 1]
      ensures forall k :: 0 <= k < TAPS ==> history[k] == history[k + TAPS]
    {
      ghost var h, at := history[..], head;
      head := (head + TAPS - 1) % TAPS;
      was := history[head];
      WindowSlides(h, at, head, far);
      history[head] := far;
      history[head + TAPS] := far;
      ghost var g := history[..];
      assert g == h[head := far][head + TAPS := far];
      assert Window() == g[head..head + TAPS] && old(Window()) == h[at..at + TAPS];
    }

    /** One decimated sample of both ends. Below the threshold nothing is learnt; above it
        the error of the prediction shrinks to exactly 70 percent on the same window. */
    method Step(far: real, mic: real)
      requires Valid()
      modifies this, history, filter
      ensures Valid() && heard == [far] + old(heard)
      ensures if energy < TAPS as real * 900.0 then filter[..] == old(filter[..])
        else mic - Dot(filter[..], Newest(heard)) == 7.0 / 10.0 * (mic - Dot(old(filter[..]), Newest(heard)))
    {
      hide Dot, Power;
      Push(far);
      if energy < TAPS as real * 30.0 * 30.0 {
        return;
      }
      ghost var x, f := Window(), filter[..];
      var predicted := Predict();
      var gain := 3.0 / 10.0 * (mic - predicted) / energy;
      Learn(gain);
      DotStep(f, gain, x, filter[..]);
      Shrinks(mic, predicted, energy, gain);
    }

    method Predict() returns (predicted: real)
      requires Valid()
      ensures predicted == Dot(filter[..], Window())
    {
      hide Dot, Power;
      ghost var x, f := Window(), filter[..];
      predicted := 0.0;
      DotEmpty();
      assert f[..0] == [] && x[..0] == [];
      for k := 0 to TAPS
        invariant predicted == Dot(f[..k], x[..k])
      {
        DotSnoc(f, x, k);
        assert x[k] == history[head + k] && f[k] == filter[k];
        predicted := predicted + filter[k] * history[head + k];
      }
      assert f[..TAPS] == f && x[..TAPS] == x;
    }

    method Learn(gain: real)
      requires Valid()
      modifies filter
      ensures forall h :: 0 <= h < TAPS ==> filter[h] == old(filter[h]) + gain * Window()[h]
    {
      ghost var x := Window();
      for k := 0 to TAPS
        invariant forall h :: 0 <= h < k ==> filter[h] == old(filter[h]) + gain * x[h]
        invariant forall h :: k <= h < TAPS ==> filter[h] == old(filter[h])
      {
        assert x[k] == history[head + k];
        filter[k] := filter[k] + gain * history[head + k];
      }
    }

    /** The first loop: the sum of all squares and the first greatest one between the bounds. */
    method Strongest(first: int, last: int) returns (top: real, sum: real, at: int)
      requires filter.Length == TAPS && 0 <= first && last <= TAPS
      ensures sum == Power(filter[..]) && sum >= 0.0 && top >= 0.0 && 0 <= at < TAPS
      ensures top > 0.0 ==> first <= at < last && Squared(filter[..], at) == top
      ensures forall h :: first <= h < last ==> Squared(filter[..], h) <= top
      ensures top > 0.0 ==> forall h :: first <= h < at ==> Squared(filter[..], h) < top
    {
      hide Dot, Power;
      ghost var f := filter[..];
      top, sum, at := 0.0, 0.0, 0;
      DotEmpty();
      assert f[..0] == [];
      for k := 0 to TAPS
        invariant sum == Power(f[..k]) && sum >= 0.0 && top >= 0.0 && 0 <= at < TAPS
        invariant top > 0.0 ==> first <= at < last && at < k && Squared(f, at) == top
        invariant forall h :: first <= h < last && h < k ==> Squared(f, h) <= top
        invariant top > 0.0 ==> forall h :: first <= h < at ==> Squared(f, h) < top
      {
        var v := filter[k] * filter[k];
        Square(filter[k]);
        DotSnoc(f, f, k);
        assert f[k] == filter[k] && v == Squared(f, k) && f[..k + 1] == f[..k] + [f[k]];
        sum := sum + v;
        if v > top && k >= first && k < last {
          top := v;
          at := k;
        }
      }
      assert f[..TAPS] == f;
    }

    /** The second loop: the energy anew, from the window. */
    method Recompute()
      requires Valid()
      modifies `energy
      ensures Valid() && energy == old(energy)
    {
      hide Dot, Power;
      energy := 0.0;
      ghost var x := Window();
      DotEmpty();
      assert x[..0] == [];
      for k := 0 to TAPS
        invariant energy == Power(x[..k])
        modifies `energy
      {
        DotSnoc(x, x, k);
        assert x[k] == history[head + k];
        assert x[..k + 1] == x[..k] + [x[k]];
        energy := energy + history[head + k] * history[head + k];
      }
      assert x[..TAPS] == x;
    }

    /** The strongest tap between the bounds, and how far it stands out; the running
        energy, recomputed, is what it was. */
    method Peak(earliest: int, latest: int) returns (delay: int, prominence: real)
      requires Valid()
      modifies `energy
      ensures Valid() && energy == old(energy)
      ensures exists top :: IsTop(filter[..], top, earliest, latest) && prominence == Prominence(filter[..], top)
      ensures delay == -1 <==> prominence < 20.0
      ensures delay != -1 ==>
        exists at :: 0 <= at < 1600 && delay == at * 24 && IsPeak(filter[..], at, earliest, latest)
    {
      hide Dot, Power;
      var first := Larger(EDGE, Larger(0, earliest) / DECIMATE);
      var last := Smaller(TAPS - EDGE, Larger(0, latest) / DECIMATE);
      var top, sum, at := Strongest(first, last);
      Recompute();
      prominence := if sum > 0.0 then top / (sum / TAPS as real) else 0.0;
      assert IsTop(filter[..], top, earliest, latest) && prominence == Prominence(filter[..], top);
      if top == 0.0 && sum > 0.0 {
        NothingStandsOut(sum);
      }
      assert prominence >= MIN_PROMINENCE ==> IsPeak(filter[..], at, earliest, latest);
      delay := if prominence >= MIN_PROMINENCE then at * DECIMATE else -1;
    }
  }

  function Squared(f: Signal, k: int): real
    requires 0 <= k < |f|
  {
    f[k] * f[k]
  }

  function Larger(a: int, b: int): int { if a > b then a else b }

  function Smaller(a: int, b: int): int { if a < b then a else b }

  /** The taps between the bounds and off the filter's edges. */
  predicate Inside(k: int, earliest: int, latest: int) {
    Larger(EDGE, Larger(0, earliest) / DECIMATE) <= k < Smaller(TAPS - EDGE, Larger(0, latest) / DECIMATE)
  }

  /** In numbers: off the forty taps at either edge, not before the earliest delay and whole
      before the latest. */
  lemma InsideExactly(k: int, earliest: int, latest: int)
    ensures Inside(k, earliest, latest) <==>
      40 <= k < 1560 && (earliest >= 0 ==> 24 * k > earliest - 24) && 24 * (k + 1) <= latest
  {
  }

  /** The greatest square there, 0 if none is above it. */
  ghost predicate IsTop(f: Signal, top: real, earliest: int, latest: int)
    requires |f| == TAPS
  {
    && (forall h :: 0 <= h < TAPS && Inside(h, earliest, latest) ==> Squared(f, h) <= top)
    && (top == 0.0 || exists h :: 0 <= h < TAPS && Inside(h, earliest, latest) && Squared(f, h) == top)
  }

  /** How far it stands above the mean square of all taps. */
  function Prominence(f: Signal, top: real): real {
    if Power(f) > 0.0 then top / (Power(f) / TAPS as real) else 0.0
  }

  /** The first tap of greatest square there. */
  ghost predicate IsPeak(f: Signal, at: int, earliest: int, latest: int)
    requires |f| == TAPS
  {
    && 0 <= at < TAPS && Inside(at, earliest, latest)
    && (forall h :: 0 <= h < TAPS && Inside(h, earliest, latest) ==> Squared(f, h) <= Squared(f, at))
    && (forall h :: 0 <= h < at && Inside(h, earliest, latest) ==> Squared(f, h) < Squared(f, at))
  }

  lemma Square(x: real)
    ensures x * x >= 0.0
  {
  }

  lemma NothingStandsOut(sum: real)
    requires sum > 0.0
    ensures 0.0 / (sum / TAPS as real) == 0.0
  {
  }

  lemma DotEmpty()
    ensures Dot([], []) == 0.0 && Power([]) == 0.0
  {
  }

  lemma DotSnoc(f: Signal, x: Signal, k: nat)
    requires |f| == |x| && k < |f|
    ensures Dot(f[..k + 1], x[..k + 1]) == Dot(f[..k], x[..k]) + f[k] * x[k]
    ensures Power(x[..k + 1]) == Power(x[..k]) + x[k] * x[k]
  {
    assert f[..k + 1][..k] == f[..k] && x[..k + 1][..k] == x[..k];
  }

  lemma Shrinks(mic: real, predicted: real, energy: real, gain: real)
    requires energy > 0.0 && gain == 3.0 / 10.0 * (mic - predicted) / energy
    ensures mic - (predicted + gain * energy) == 7.0 / 10.0 * (mic - predicted)
  {
    assert gain * energy == 3.0 / 10.0 * (mic - predicted);
  }
}
