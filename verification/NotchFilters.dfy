/** What the filters of the notches compute: each its difference equation, one after
    another, although they run sample by sample. */
module NotchFilters {
  import opened FeedbackSuppressors

  datatype Trace = Trace(notch: Notch, out: seq<real>)

  /** One notch over a whole signal. */
  function Traced(c: Coeffs, n: Notch, xs: seq<real>): (t: Trace)
    ensures |t.out| == |xs|
    decreases |xs|
  {
    if xs == [] then Trace(n, [])
    else
      var k := |xs| - 1;
      var t := Traced(c, n, xs[..k]);
      Trace(Heard(c, t.notch, xs[k]), t.out + [Out(c, t.notch, xs[k])])
  }

  /** Sample `k` of a signal, and before its beginning what the filter remembers of it. */
  function Sample(xs: seq<real>, k: int, last: real, last2: real): real {
    if 0 <= k < |xs| then xs[k] else if k == -1 then last else last2
  }

  /** The direct form of a second-order section, from any memory on. */
  ghost predicate Solves(c: Coeffs, n: Notch, xs: seq<real>, ys: seq<real>) {
    && |ys| == |xs|
    && forall k {:trigger ys[k]} :: 0 <= k < |xs| ==>
         ys[k] == Section(c, xs[k], Sample(xs, k - 1, n.x1, n.x2), Sample(xs, k - 2, n.x1, n.x2),
                          Sample(ys, k - 1, n.y1, n.y2), Sample(ys, k - 2, n.y1, n.y2))
  }

  /** A sample, the two before it, and the two that came out before. */
  function Section(c: Coeffs, x: real, x1: real, x2: real, y1: real, y2: real): real {
    c.b0 * x + c.b1 * x1 + c.b2 * x2 - c.a1 * y1 - c.a2 * y2
  }

  /** A notch's output solves its difference equation, and it remembers the last two samples
      of either side. */
  lemma {:induction false} DifferenceEquation(c: Coeffs, n: Notch, xs: seq<real>)
    ensures var t, k := Traced(c, n, xs), |xs|;
      && Solves(c, n, xs, t.out)
      && t.notch == n.(x1 := Sample(xs, k - 1, n.x1, n.x2), x2 := Sample(xs, k - 2, n.x1, n.x2),
                       y1 := Sample(t.out, k - 1, n.y1, n.y2), y2 := Sample(t.out, k - 2, n.y1, n.y2))
    decreases |xs|
  {
    if xs != [] {
      var k := |xs| - 1;
      DifferenceEquation(c, n, xs[..k]);
      SolvesMore(c, n, xs);
    }
  }

  lemma SolvesMore(c: Coeffs, n: Notch, xs: seq<real>)
    requires xs != [] && Solves(c, n, xs[..|xs| - 1], Traced(c, n, xs[..|xs| - 1]).out)
    requires var k, t := |xs| - 1, Traced(c, n, xs[..|xs| - 1]);
      t.notch == n.(x1 := Sample(xs[..k], k - 1, n.x1, n.x2), x2 := Sample(xs[..k], k - 2, n.x1, n.x2),
                    y1 := Sample(t.out, k - 1, n.y1, n.y2), y2 := Sample(t.out, k - 2, n.y1, n.y2))
    ensures Solves(c, n, xs, Traced(c, n, xs).out)
  {
    var k := |xs| - 1;
    var t, ys := Traced(c, n, xs[..k]), Traced(c, n, xs).out;
    assert ys == t.out + [Out(c, t.notch, xs[k])];
    SamplesAlike(t.out, ys, n.y1, n.y2);
    SamplesAlike(xs[..k], xs, n.x1, n.x2);
    OutIsSection(c, t.notch, xs[k]);
    hide Section, Out, Sample, Traced;
    forall i | 0 <= i < k
      ensures ys[i] == Section(c, xs[i], Sample(xs, i - 1, n.x1, n.x2), Sample(xs, i - 2, n.x1, n.x2),
                               Sample(ys, i - 1, n.y1, n.y2), Sample(ys, i - 2, n.y1, n.y2))
    {
      assert ys[i] == t.out[i] && xs[i] == xs[..k][i];
    }
  }

  lemma OutIsSection(c: Coeffs, n: Notch, x: real)
    ensures Out(c, n, x) == Section(c, x, n.x1, n.x2, n.y1, n.y2)
  {
  }

  lemma SamplesAlike(front: seq<real>, all: seq<real>, last: real, last2: real)
    requires |front| <= |all| && all[..|front|] == front
    ensures forall k :: k < |front| ==> Sample(all, k, last, last2) == Sample(front, k, last, last2)
  {
    forall k | k < |front| ensures Sample(all, k, last, last2) == Sample(front, k, last, last2) {
      if k >= 0 {
        assert all[..|front|][k] == all[k];
      }
    }
  }

  datatype Turns = Turns(notches: seq<Notch>, out: seq<real>)

  /** The whole signal through one notch after another. */
  function InTurn(design: real -> Coeffs, notches: seq<Notch>, xs: seq<real>): (t: Turns)
    ensures |t.notches| == |notches| && |t.out| == |xs|
    decreases |notches|
  {
    if notches == [] then Turns([], xs)
    else
      var n := |notches| - 1;
      var front := InTurn(design, notches[..n], xs);
      var t := Traced(design(notches[n].frequency), notches[n], front.out);
      Turns(front.notches + [t.notch], t.out)
  }

  lemma {:induction false} TracedKeepsFrequency(c: Coeffs, n: Notch, xs: seq<real>)
    ensures Traced(c, n, xs).notch.frequency == n.frequency
    decreases |xs|
  {
    if xs != [] {
      TracedKeepsFrequency(c, n, xs[..|xs| - 1]);
    }
  }

  /** One more sample of the signal is one more sample through them all. */
  lemma {:induction false} InTurnMore(design: real -> Coeffs, notches: seq<Notch>, xs: seq<real>, x: real)
    ensures var t := InTurn(design, notches, xs);
      var r := ThroughAll(design, t.notches, x);
      InTurn(design, notches, xs + [x]) == Turns(r.notches, t.out + [r.v])
    decreases |notches|
  {
    if notches != [] {
      var n := |notches| - 1;
      var c := design(notches[n].frequency);
      InTurnMore(design, notches[..n], xs, x);
      var front := InTurn(design, notches[..n], xs);
      var r := ThroughAll(design, front.notches, x);
      var t := Traced(c, notches[n], front.out);
      TracedKeepsFrequency(c, notches[n], front.out);
      assert (front.notches + [t.notch])[..n] == front.notches;
      hide ThroughAll, Traced;
      TracedMore(c, notches[n], front.out, r.v);
      ThroughLast(design, front.notches, t.notch, x);
    }
  }

  lemma ThroughLast(design: real -> Coeffs, front: seq<Notch>, n: Notch, x: real)
    ensures var r, c := ThroughAll(design, front, x), design(n.frequency);
      ThroughAll(design, front + [n], x) == Cascade(r.notches + [Heard(c, n, r.v)], Out(c, n, r.v))
  {
    assert (front + [n])[..|front|] == front;
  }

  lemma TracedMore(c: Coeffs, n: Notch, xs: seq<real>, x: real)
    ensures var t := Traced(c, n, xs);
      Traced(c, n, xs + [x]) == Trace(Heard(c, t.notch, x), t.out + [Out(c, t.notch, x)])
  {
    assert (xs + [x])[..|xs|] == xs;
  }

  function Reals(samples: seq<int>): (xs: seq<real>)
    ensures |xs| == |samples|
  {
    seq(|samples|, i requires 0 <= i < |samples| => samples[i] as real)
  }

  function Whole(ys: seq<real>): (out: seq<int>)
    ensures |out| == |ys|
  {
    seq(|ys|, i requires 0 <= i < |ys| => Clamp(Round(ys[i])))
  }

  /** Sample by sample through all notches is the whole signal through one after another,
      rounded at the end: so what comes out is the chain of the difference equations. */
  lemma {:induction false} SampleBySample(design: real -> Coeffs, notches: seq<Notch>, samples: seq<int>)
    ensures var t := InTurn(design, notches, Reals(samples));
      FilterAll(design, notches, samples) == Filtered(t.notches, Whole(t.out))
    decreases |samples|
  {
    hide ThroughAll, InTurn, FilterAll, Clamp, Round;
    if samples == [] {
      SilenceInTurn(design, notches);
      FilterNone(design, notches);
    } else {
      var n := |samples| - 1;
      SampleBySample(design, notches, samples[..n]);
      FilterMore(design, notches, samples);
      InTurnMore(design, notches, Reals(samples[..n]), samples[n] as real);
      assert Reals(samples) == Reals(samples[..n]) + [samples[n] as real];
      var t := InTurn(design, notches, Reals(samples[..n]));
      WholeMore(t.out, ThroughAll(design, t.notches, samples[n] as real).v);
    }
  }

  lemma FilterNone(design: real -> Coeffs, notches: seq<Notch>)
    ensures FilterAll(design, notches, []) == Filtered(notches, []) && Whole([]) == []
    ensures Reals([]) == []
  {
  }

  lemma FilterMore(design: real -> Coeffs, notches: seq<Notch>, samples: seq<int>)
    requires samples != []
    ensures var n := |samples| - 1;
      var before := FilterAll(design, notches, samples[..n]);
      var last := ThroughAll(design, before.notches, samples[n] as real);
      FilterAll(design, notches, samples) == Filtered(last.notches, before.out + [Clamp(Round(last.v))])
  {
    hide ThroughAll, Clamp, Round;
  }

  lemma WholeMore(ys: seq<real>, y: real)
    ensures Whole(ys + [y]) == Whole(ys) + [Clamp(Round(y))]
  {
    hide Clamp, Round;
  }

  lemma {:induction false} SilenceInTurn(design: real -> Coeffs, notches: seq<Notch>)
    ensures InTurn(design, notches, []) == Turns(notches, [])
    decreases |notches|
  {
    if notches != [] {
      SilenceInTurn(design, notches[..|notches| - 1]);
    }
  }

  /** Rounding goes to the nearest whole number, a half away from zero, and clamping to the
      nearest number of 16 bits. */
  lemma WholeIsNearest(v: real, i: int)
    ensures var r := Round(v);
      && -0.5 <= v - r as real <= 0.5
      && (v - r as real == 0.5 ==> v < 0.0) && (v - r as real == -0.5 ==> v > 0.0)
    ensures var c := Clamp(i);
      && (c == i <==> -32768 <= i <= 32767) && (i < -32768 ==> c == -32768) && (i > 32767 ==> c == 32767)
  {
  }
}
