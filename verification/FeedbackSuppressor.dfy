/** The howl suppressor fed with chunks of samples of any size: when it analyses, what it
    sees then, and which notches are on. */
module FeedbackSuppressors {
  import opened Complex
  import opened HowlTracks
  import Fft

  const SIZE := 2048
  const LOWEST := 200
  const HIGHEST := 8000
  const HOLD_SECONDS := 10
  const MAX_NOTCHES := 6
  const APART := 30.0

  /** The sampling rate, the analysis window, the transform's twiddles, 10 log10(x + 1e-3),
      and the coefficients of a notch at a frequency. */
  datatype Setup = Setup(rate: nat, window: nat -> real, step: nat -> C, db: real -> real, design: real -> Coeffs)

  datatype Coeffs = Coeffs(b0: real, b1: real, b2: real, a1: real, a2: real)

  /** Rates at which the band of interest lies inside the spectrum. */
  predicate InRange(rate: nat) { 1000 <= rate <= 400000 }

  ghost predicate Sane(s: Setup) { InRange(s.rate) && Fft.Twiddles(s.step, SIZE) }

  function Low(rate: nat): nat
    requires rate > 0
  {
    LOWEST * SIZE / rate
  }

  function High(rate: nat): nat
    requires rate > 0
  {
    var h := HIGHEST * SIZE / rate;
    if h < SIZE / 2 - 2 then h else SIZE / 2 - 2
  }

  function BandOf(rate: nat): (band: Band)
    requires InRange(rate)
    ensures 1 <= band.low <= band.high <= SIZE / 2 - 2
  {
    BandFits(rate);
    Band(Low(rate), High(rate))
  }

  lemma BandFits(rate: nat)
    requires InRange(rate)
    ensures 1 <= Low(rate) <= High(rate) <= SIZE / 2 - 2
  {
    QuotientAtLeast(LOWEST * SIZE, rate, 1);
    QuotientBelow(LOWEST * SIZE, rate, 410);
    Quotients(LOWEST * SIZE, HIGHEST * SIZE, rate);
  }

  /** The band reaches from the bin that holds 200 Hz to the one that holds 8 kHz, or the
      spectrum's last but one. */
  lemma BandIs(rate: nat)
    requires InRange(rate)
    ensures var band := BandOf(rate);
      && band.low * rate <= 200 * 2048 < (band.low + 1) * rate
      && band.high <= 1022 && band.high * rate <= 8000 * 2048
      && (band.high < 1022 ==> 8000 * 2048 < (band.high + 1) * rate)
  {
    Quotient(LOWEST * SIZE, rate);
    Quotient(HIGHEST * SIZE, rate);
    var h := HIGHEST * SIZE / rate;
    if h > 1022 {
      MulMono(1022, h, rate);
    }
  }

  lemma Quotient(a: nat, m: nat)
    requires m > 0
    ensures a / m * m <= a < (a / m + 1) * m
  {
  }

  lemma QuotientAtLeast(a: nat, m: nat, k: nat)
    requires m > 0 && a >= k * m
    ensures a / m >= k
  {
    if a / m < k {
      MulMono(a / m + 1, k, m);
    }
  }

  lemma QuotientBelow(a: nat, m: nat, k: nat)
    requires m > 0 && a < k * m
    ensures a / m < k
  {
    if a / m >= k {
      MulMono(k, a / m, m);
    }
  }

  lemma Quotients(a: nat, b: nat, m: nat)
    requires m > 0 && a <= b
    ensures a / m <= b / m
  {
    QuotientAtLeast(b, m, a / m);
  }

  lemma MulMono(a: nat, b: nat, m: nat)
    requires a <= b
    ensures a * m <= b * m
  {
  }

  // ------------------------------------------------ one analysis

  /** The samples under the window, oldest first. */
  function Windowed(s: Setup, heard: seq<int>): (x: seq<C>)
    requires |heard| == SIZE
    ensures |x| == SIZE
  {
    seq(SIZE, i requires 0 <= i < SIZE => C(heard[i] as real * s.window(i), 0.0))
  }

  function Norm(c: C): real { c.re * c.re + c.im * c.im }

  /** A number times its conjugate. */
  lemma NormIs(c: C)
    ensures Mul(c, C(c.re, -c.im)) == C(Norm(c), 0.0)
  {
  }

  /** Levels of the bins of interest and one on either side; the others stay 0. */
  function LookAt(s: Setup, heard: seq<int>): (look: Look)
    requires InRange(s.rate) && |heard| == SIZE
  {
    var band := BandOf(s.rate);
    seq(band.high + 2, b requires 0 <= b < band.high + 2 =>
      if b < band.low - 1 then 0.0 else s.db(Norm(Fft.Dft(Windowed(s, heard), s.step(SIZE), b))))
  }

  /** What an analysis looks at: the power of each coefficient of the transform, in dB. */
  lemma LookIs(s: Setup, heard: seq<int>, b: nat)
    requires InRange(s.rate) && |heard| == SIZE && BandOf(s.rate).low - 1 <= b <= BandOf(s.rate).high + 1
    ensures var look, c := LookAt(s, heard), Fft.Dft(Windowed(s, heard), s.step(2048), b);
      b < |look| == BandOf(s.rate).high + 2 && look[b] == s.db(Norm(c))
  {
    hide Fft.Dft, Windowed, Norm, Low, High;
  }

  /** Bin `b` between its neighbours, by the top of a parabola through the three. */
  function Offset(look: Look, b: int): real {
    var l, c, r := At(look, b - 1), At(look, b), At(look, b + 1);
    var denominator := l - 2.0 * c + r;
    if denominator != 0.0 then 0.5 * (l - r) / denominator else 0.0
  }

  function Frequency(s: Setup, look: Look, b: int): real {
    (b as real + Offset(look, b)) * (s.rate as real / SIZE as real)
  }

  /** The frequency of a peak lies within half a bin of it. */
  lemma OffsetIsSmall(look: Look, b: int)
    requires Peak(look, b)
    ensures -0.5 <= Offset(look, b) <= 0.5
  {
    var l, c, r := At(look, b - 1), At(look, b), At(look, b + 1);
    var d := l - 2.0 * c + r;
    assert d < 0.0 && d <= l - r <= -d;
    Ratio(l - r, d);
  }

  lemma Ratio(x: real, d: real)
    requires d < 0.0 && d <= x <= -d
    ensures -0.5 <= 0.5 * x / d <= 0.5
  {
    var q := 0.5 * x / d;
    assert q * d == 0.5 * x;
  }

  // ------------------------------------------------ notches

  /** A notch, and the last two samples into and out of its filter. */
  datatype Notch = Notch(frequency: real, until: int, x1: real, x2: real, y1: real, y2: real)

  function NewNotch(frequency: real, until: int): Notch { Notch(frequency, until, 0.0, 0.0, 0.0, 0.0) }

  predicate Within(a: real, b: real) { -APART < a - b < APART }

  /** Refreshes the first notch near this frequency, or switches a new one on, the
      first of six making room. */
  function Engage(notches: seq<Notch>, frequency: real, until: int): seq<Notch> {
    if exists i :: 0 <= i < |notches| && Within(notches[i].frequency, frequency)
    then Refreshed(notches, frequency, until)
    else (if |notches| >= MAX_NOTCHES then notches[1..] else notches) + [NewNotch(frequency, until)]
  }

  function Refreshed(notches: seq<Notch>, frequency: real, until: int): (r: seq<Notch>)
    ensures |r| == |notches|
  {
    if notches == [] then []
    else if Within(notches[0].frequency, frequency) then [notches[0].(until := until)] + notches[1..]
    else [notches[0]] + Refreshed(notches[1..], frequency, until)
  }

  function EngageAll(s: Setup, look: Look, notches: seq<Notch>, bins: seq<int>, until: int): seq<Notch>
    decreases |bins|
  {
    if bins == [] then notches
    else
      var n := |bins| - 1;
      Engage(EngageAll(s, look, notches, bins[..n], until), Frequency(s, look, bins[n]), until)
  }

  function Expire(notches: seq<Notch>, clock: int): seq<Notch>
    decreases |notches|
  {
    if notches == [] then []
    else
      var n := |notches| - 1;
      Expire(notches[..n], clock) + if notches[n].until < clock then [] else [notches[n]]
  }

  ghost predicate Spaced(notches: seq<Notch>) {
    && |notches| <= MAX_NOTCHES
    && forall i, j :: 0 <= i < j < |notches| ==> !Within(notches[i].frequency, notches[j].frequency)
  }

  lemma {:induction false} RefreshedIs(notches: seq<Notch>, f: real, until: int)
    ensures var r := Refreshed(notches, f, until);
      && (forall i :: 0 <= i < |r| ==> r[i].frequency == notches[i].frequency)
      && (forall i :: 0 <= i < |r| ==> r[i] == notches[i] || (Within(r[i].frequency, f) && r[i].until == until))
    decreases |notches|
  {
    if notches != [] && !Within(notches[0].frequency, f) {
      RefreshedIs(notches[1..], f, until);
    }
  }

  /** Never more than six notches, never two within 30 Hz: engaging keeps it. */
  lemma EngageKeepsSpaced(notches: seq<Notch>, f: real, until: int)
    requires Spaced(notches)
    ensures Spaced(Engage(notches, f, until))
  {
    hide Refreshed;
    RefreshedIs(notches, f, until);
  }

  lemma EngageHas(notches: seq<Notch>, f: real, until: int, n: Notch)
    requires n in Engage(notches, f, until)
    ensures n in notches || (Within(n.frequency, f) && n.until == until)
  {
    hide Refreshed;
    RefreshedIs(notches, f, until);
  }

  lemma {:induction false} EngageAllKeepsSpaced(s: Setup, look: Look, notches: seq<Notch>, bins: seq<int>, until: int)
    requires Spaced(notches)
    ensures Spaced(EngageAll(s, look, notches, bins, until))
    decreases |bins|
  {
    if bins != [] {
      var n := |bins| - 1;
      EngageAllKeepsSpaced(s, look, notches, bins[..n], until);
      EngageKeepsSpaced(EngageAll(s, look, notches, bins[..n], until), Frequency(s, look, bins[n]), until);
    }
  }

  lemma {:induction false} EngageAllHas(s: Setup, look: Look, notches: seq<Notch>, bins: seq<int>, until: int, n: Notch)
    requires n in EngageAll(s, look, notches, bins, until)
    ensures n in notches || (n.until == until && exists b :: b in bins && Within(n.frequency, Frequency(s, look, b)))
    decreases |bins|
  {
    hide Engage, Frequency, Within;
    if bins != [] {
      var k := |bins| - 1;
      EngageHas(EngageAll(s, look, notches, bins[..k], until), Frequency(s, look, bins[k]), until, n);
      if n in EngageAll(s, look, notches, bins[..k], until) {
        EngageAllHas(s, look, notches, bins[..k], until, n);
      }
    }
  }

  lemma {:induction false} ExpireIs(notches: seq<Notch>, clock: int)
    ensures forall n :: n in Expire(notches, clock) <==> n in notches && n.until >= clock
    ensures Spaced(notches) ==> Spaced(Expire(notches, clock))
    decreases |notches|
  {
    if notches != [] {
      var k := |notches| - 1;
      ExpireIs(notches[..k], clock);
      assert notches == notches[..k] + [notches[k]];
      if Spaced(notches) {
        ExpireSpaced(notches, clock);
      }
    }
  }

  lemma ExpireSpaced(notches: seq<Notch>, clock: int)
    requires Spaced(notches) && notches != []
    requires var k := |notches| - 1;
      Spaced(Expire(notches[..k], clock)) && forall n :: n in Expire(notches[..k], clock) ==> n in notches[..k]
    ensures Spaced(Expire(notches, clock))
  {
    var k := |notches| - 1;
    var e := Expire(notches[..k], clock);
    ExpireShrinks(notches, clock);
    forall i | 0 <= i < |e| ensures !Within(e[i].frequency, notches[k].frequency) {
      assert e[i] in notches[..k];
    }
  }

  lemma {:induction false} ExpireShrinks(notches: seq<Notch>, clock: int)
    ensures |Expire(notches, clock)| <= |notches|
    decreases |notches|
  {
    if notches != [] {
      ExpireShrinks(notches[..|notches| - 1], clock);
    }
  }

  // ------------------------------------------------ the filters

  /** What a notch's filter gives for one sample, and what it then remembers. */
  function Out(c: Coeffs, n: Notch, v: real): real {
    c.b0 * v + c.b1 * n.x1 + c.b2 * n.x2 - c.a1 * n.y1 - c.a2 * n.y2
  }

  function Heard(c: Coeffs, n: Notch, v: real): Notch { n.(x2 := n.x1, x1 := v, y2 := n.y1, y1 := Out(c, n, v)) }

  datatype Cascade = Cascade(notches: seq<Notch>, v: real)

  /** One sample through all the notches, one after another. */
  function ThroughAll(design: real -> Coeffs, notches: seq<Notch>, v: real): (r: Cascade)
    ensures |r.notches| == |notches|
    decreases |notches|
  {
    if notches == [] then Cascade([], v)
    else
      var n := |notches| - 1;
      var front, c := ThroughAll(design, notches[..n], v), design(notches[n].frequency);
      Cascade(front.notches + [Heard(c, notches[n], front.v)], Out(c, notches[n], front.v))
  }

  /** To the nearest whole number, halves away from zero. */
  function Round(v: real): int { if v >= 0.0 then (v + 0.5).Floor else -(0.5 - v).Floor }

  function Clamp(i: int): (c: int)
    ensures -32768 <= c <= 32767
  {
    if i < -32768 then -32768 else if i > 32767 then 32767 else i
  }

  datatype Filtered = Filtered(notches: seq<Notch>, out: seq<int>)

  function FilterAll(design: real -> Coeffs, notches: seq<Notch>, samples: seq<int>): (r: Filtered)
    ensures |r.notches| == |notches| && |r.out| == |samples|
    decreases |samples|
  {
    if samples == [] then Filtered(notches, [])
    else
      var n := |samples| - 1;
      var before := FilterAll(design, notches, samples[..n]);
      var last := ThroughAll(design, before.notches, samples[n] as real);
      Filtered(last.notches, before.out + [Clamp(Round(last.v))])
  }

  /** With no notch on the samples are left alone. */
  function Played(design: real -> Coeffs, notches: seq<Notch>, samples: seq<int>): Filtered {
    if notches == [] then Filtered([], samples) else FilterAll(design, notches, samples)
  }

  /** The filters carry on: as long as the same notches are on, what comes out does not
      depend on how the samples were cut. */
  lemma {:induction false} FilterCut(design: real -> Coeffs, notches: seq<Notch>, a: seq<int>, b: seq<int>)
    ensures var x := FilterAll(design, notches, a);
      var y := FilterAll(design, x.notches, b);
      FilterAll(design, notches, a + b) == Filtered(y.notches, x.out + y.out)
    decreases |b|
  {
    var x := FilterAll(design, notches, a);
    if b == [] {
      assert a + b == a && x.out + [] == x.out;
    } else {
      var n := |b| - 1;
      FilterCut(design, notches, a, b[..n]);
      assert (a + b)[..|a + b| - 1] == a + b[..n];
      var y := FilterAll(design, x.notches, b[..n]);
      var last := ThroughAll(design, y.notches, b[n] as real);
      hide ThroughAll, Clamp, Round;
      assert (x.out + y.out) + [Clamp(Round(last.v))] == x.out + (y.out + [Clamp(Round(last.v))]);
    }
  }

  /** Samples of 16 bits come out, whatever went in. */
  lemma {:induction false} FilterRange(design: real -> Coeffs, notches: seq<Notch>, samples: seq<int>)
    ensures forall v :: v in FilterAll(design, notches, samples).out ==> -32768 <= v <= 32767
    decreases |samples|
  {
    if samples != [] {
      FilterRange(design, notches, samples[..|samples| - 1]);
      hide ThroughAll, Round;
    }
  }

  lemma ThroughStep(design: real -> Coeffs, notches: seq<Notch>, i: nat, v: real)
    requires i < |notches|
    ensures ThroughAll(design, notches[..0], v) == Cascade([], v)
    ensures var front, c := ThroughAll(design, notches[..i], v), design(notches[i].frequency);
      ThroughAll(design, notches[..i + 1], v) ==
      Cascade(front.notches + [Heard(c, notches[i], front.v)], Out(c, notches[i], front.v))
  {
    assert notches[..i + 1][..i] == notches[..i];
  }

  /** Only what the filters remember has changed. */
  ghost predicate SameTones(a: seq<Notch>, b: seq<Notch>) {
    |a| == |b| && forall i :: 0 <= i < |a| ==> a[i].frequency == b[i].frequency && a[i].until == b[i].until
  }

  lemma {:induction false} ThroughKeepsTones(design: real -> Coeffs, notches: seq<Notch>, v: real)
    ensures SameTones(notches, ThroughAll(design, notches, v).notches)
    decreases |notches|
  {
    if notches != [] {
      ThroughKeepsTones(design, notches[..|notches| - 1], v);
    }
  }

  lemma {:induction false} FilterKeepsTones(design: real -> Coeffs, notches: seq<Notch>, samples: seq<int>)
    ensures SameTones(notches, FilterAll(design, notches, samples).notches)
    decreases |samples|
  {
    if samples != [] {
      var n := |samples| - 1;
      FilterKeepsTones(design, notches, samples[..n]);
      ThroughKeepsTones(design, FilterAll(design, notches, samples[..n]).notches, samples[n] as real);
    }
  }

  // ------------------------------------------------ runs

  /** The counter of samples since the last analysis, after `n` samples. */
  function Since(hop: nat, n: nat): nat
    decreases n, 1
  {
    if n == 0 || Due(hop, n) then 0 else Since(hop, n - 1) + 1
  }

  /** Whether the `n`th sample sets off an analysis. */
  predicate Due(hop: nat, n: nat)
    decreases n, 0
  {
    n > 0 && Since(hop, n - 1) + 1 >= hop && n >= SIZE
  }

  /** The first analysis comes with sample 2048, or later if a hop is longer. */
  lemma {:induction false} FirstDue(hop: nat, n: nat)
    requires hop >= 1 && (n < SIZE || n < hop)
    ensures Since(hop, n) == n && !Due(hop, n)
    decreases n
  {
    if n > 0 {
      FirstDue(hop, n - 1);
    }
  }

  /** There is one then. */
  lemma FirstIsDue(hop: nat)
    requires hop >= 1
    ensures Due(hop, if hop > 2048 then hop else 2048)
  {
    FirstDue(hop, (if hop > 2048 then hop else 2048) - 1);
  }

  /** And from then on one comes every hop, whatever chunks the samples come in. */
  lemma {:induction false} DueEveryHop(hop: nat, n: nat, j: nat)
    requires Due(hop, n) && 1 <= j <= hop
    ensures Due(hop, n + j) <==> j == hop
    ensures j < hop ==> Since(hop, n + j) == j
    decreases j
  {
    if j > 1 {
      DueEveryHop(hop, n, j - 1);
    }
  }

  /** What the analyses up to now saw: each the last 2048 samples, in order. */
  function Looks(s: Setup, heard: seq<int>): (looks: seq<Look>)
    requires InRange(s.rate)
    decreases |heard|
  {
    if heard == [] then []
    else
      var n := |heard|;
      Looks(s, heard[..n - 1]) + if Due(s.rate / 50, n) then [LookAt(s, heard[n - SIZE..])] else []
  }

  /** What a suppressor holds; `heard` stands for the ring and the counters. */
  datatype State = State(heard: seq<int>, clock: int, tracks: seq<Track>, notches: seq<Notch>)

  const Start := State([], 0, [], [])

  function Hear(s: Setup, m: State, sample: int): State
    requires Sane(s)
  {
    var heard := m.heard + [sample];
    if !Due(s.rate / 50, |heard|) then m.(heard := heard)
    else
      var look := LookAt(s, heard[|heard| - SIZE..]);
      var next := Next(look, BandOf(s.rate), m.tracks);
      State(heard, m.clock, next, EngageAll(s, look, m.notches, Standing(look, next), m.clock + HOLD_SECONDS * s.rate))
  }

  function HearAll(s: Setup, m: State, samples: seq<int>): State
    requires Sane(s)
    decreases |samples|
  {
    if samples == [] then m
    else Hear(s, HearAll(s, m, samples[..|samples| - 1]), samples[|samples| - 1])
  }

  /** A chunk: heard sample by sample, the notches that are over dropped, the rest filtering. */
  function Kept(s: Setup, m: State, samples: seq<int>): seq<Notch>
    requires Sane(s)
  {
    var h := HearAll(s, m, samples);
    Expire(h.notches, h.clock)
  }

  function Processed(s: Setup, m: State, samples: seq<int>): State
    requires Sane(s)
  {
    var h := HearAll(s, m, samples);
    h.(notches := Played(s.design, Kept(s, m, samples), samples).notches, clock := h.clock + |samples|)
  }

  function Run(s: Setup, chunks: seq<seq<int>>): State
    requires Sane(s)
    decreases |chunks|
  {
    if chunks == [] then Start
    else Processed(s, Run(s, chunks[..|chunks| - 1]), chunks[|chunks| - 1])
  }

  function Joined(chunks: seq<seq<int>>): seq<int>
    decreases |chunks|
  {
    if chunks == [] then [] else Joined(chunks[..|chunks| - 1]) + chunks[|chunks| - 1]
  }

  // ------------------------------------------------ what every run keeps

  /** The notch rests on an analysis, `at` samples in, that held a standing tone within
      30 Hz of it, and goes off no later than 10 s after that. */
  ghost predicate Earned(s: Setup, heard: seq<int>, notch: Notch, at: nat, b: int)
    requires Sane(s)
  {
    && SIZE <= at <= |heard| && Due(s.rate / 50, at)
    && Looks(s, heard[..at]) != []
    && b in Tones(Looks(s, heard[..at]), BandOf(s.rate))
    && Within(notch.frequency, Frequency(s, LookAt(s, heard[at - SIZE..at]), b))
    && notch.until <= at + HOLD_SECONDS * s.rate
  }

  ghost predicate AllEarned(s: Setup, heard: seq<int>, notches: seq<Notch>)
    requires Sane(s)
  {
    forall n :: n in notches ==> exists at: nat, b :: Earned(s, heard, n, at, b)
  }

  ghost predicate Followed(s: Setup, m: State)
    requires Sane(s)
  {
    && m.tracks == Tracks(Looks(s, m.heard), BandOf(s.rate))
  }

  ghost predicate Inv(s: Setup, m: State)
    requires Sane(s)
  {
    m.clock <= |m.heard| && Followed(s, m) && Spaced(m.notches) && AllEarned(s, m.heard, m.notches)
  }

  lemma StillEarned(s: Setup, heard: seq<int>, more: seq<int>, notches: seq<Notch>)
    requires Sane(s) && AllEarned(s, heard, notches)
    ensures AllEarned(s, heard + more, notches)
  {
    forall n | n in notches ensures exists at: nat, b :: Earned(s, heard + more, n, at, b) {
      var at: nat, b :| Earned(s, heard, n, at, b);
      hide Tones, Due, Frequency, Looks, LookAt;
      assert (heard + more)[..at] == heard[..at] && (heard + more)[at - SIZE..at] == heard[at - SIZE..at];
      assert Earned(s, heard + more, n, at, b);
    }
  }

  lemma LooksGrow(s: Setup, heard: seq<int>, sample: int)
    requires InRange(s.rate)
    ensures var h := heard + [sample];
      if Due(s.rate / 50, |h|) then Looks(s, h) == Looks(s, heard) + [LookAt(s, h[|h| - SIZE..])]
      else Looks(s, h) == Looks(s, heard)
  {
    assert (heard + [sample])[..|heard|] == heard;
  }

  lemma TracksGrow(looks: seq<Look>, band: Band, look: Look)
    requires band.low <= band.high
    ensures Tracks(looks + [look], band) == Next(look, band, Tracks(looks, band))
    ensures Tones(looks + [look], band) == Standing(look, Next(look, band, Tracks(looks, band)))
  {
    assert (looks + [look])[..|looks|] == looks;
  }

  lemma HearKeeps(s: Setup, m: State, sample: int)
    requires Sane(s) && Inv(s, m)
    ensures Inv(s, Hear(s, m, sample))
    ensures Hear(s, m, sample).heard == m.heard + [sample] && Hear(s, m, sample).clock == m.clock
  {
    hide Due, LookAt, Looks, Next, Tracks, Tones, Standing, EngageAll, AllEarned, Spaced, BandOf;
    var heard := m.heard + [sample];
    LooksGrow(s, m.heard, sample);
    StillEarned(s, m.heard, [sample], m.notches);
    if Due(s.rate / 50, |heard|) {
      DueSize(s.rate / 50, |heard|);
      HearTone(s, m, sample);
    }
  }

  lemma HearTone(s: Setup, m: State, sample: int)
    requires Sane(s) && Inv(s, m)
    requires var n := |m.heard| + 1; n >= SIZE && Due(s.rate / 50, n)
    ensures Inv(s, Hear(s, m, sample))
  {
    hide Due, LookAt, Looks, Next, Tracks, Tones, Standing, EngageAll, AllEarned, Spaced;
    var heard := m.heard + [sample];
    LooksGrow(s, m.heard, sample);
    StillEarned(s, m.heard, [sample], m.notches);
    var look := LookAt(s, heard[|heard| - SIZE..]);
    var band := BandOf(s.rate);
    TracksGrow(Looks(s, m.heard), band, look);
    var bins := Standing(look, Next(look, band, m.tracks));
    var until := m.clock + HOLD_SECONDS * s.rate;
    EngageAllKeepsSpaced(s, look, m.notches, bins, until);
    EngagedEarned(s, heard, m.notches, until);
  }

  lemma DueSize(hop: nat, n: nat)
    requires Due(hop, n)
    ensures n >= SIZE
  {
  }

  lemma EngagedEarned(s: Setup, heard: seq<int>, notches: seq<Notch>, until: int)
    requires Sane(s) && AllEarned(s, heard, notches)
    requires |heard| >= SIZE && Due(s.rate / 50, |heard|) && until <= |heard| + HOLD_SECONDS * s.rate
    requires Looks(s, heard) != []
    ensures AllEarned(s, heard,
      EngageAll(s, LookAt(s, heard[|heard| - SIZE..]), notches, Tones(Looks(s, heard), BandOf(s.rate)), until))
  {
    hide Due, LookAt, Looks, Tones, EngageAll, Frequency, Within;
    var look := LookAt(s, heard[|heard| - SIZE..]);
    var bins := Tones(Looks(s, heard), BandOf(s.rate));
    forall n | n in EngageAll(s, look, notches, bins, until)
      ensures exists at: nat, b :: Earned(s, heard, n, at, b)
    {
      EngageAllHas(s, look, notches, bins, until, n);
      if n !in notches {
        var b :| b in bins && Within(n.frequency, Frequency(s, look, b));
        assert heard[..|heard|] == heard;
        assert Earned(s, heard, n, |heard|, b);
      }
    }
  }

  lemma {:induction false} HearAllKeeps(s: Setup, m: State, samples: seq<int>)
    requires Sane(s) && Inv(s, m)
    ensures Inv(s, HearAll(s, m, samples))
    ensures HearAll(s, m, samples).heard == m.heard + samples && HearAll(s, m, samples).clock == m.clock
    decreases |samples|
  {
    hide Inv, Hear;
    if samples != [] {
      var n := |samples| - 1;
      HearAllKeeps(s, m, samples[..n]);
      HearKeeps(s, HearAll(s, m, samples[..n]), samples[n]);
      assert m.heard + samples == (m.heard + samples[..n]) + [samples[n]];
    }
  }

  lemma {:induction false} RunInv(s: Setup, chunks: seq<seq<int>>)
    requires Sane(s)
    ensures Inv(s, Run(s, chunks))
    ensures Run(s, chunks).heard == Joined(chunks) && Run(s, chunks).clock == |Joined(chunks)|
    decreases |chunks|
  {
    if chunks != [] {
      var n := |chunks| - 1;
      RunInv(s, chunks[..n]);
      var m := Run(s, chunks[..n]);
      ProcessedKeeps(s, m, chunks[n]);
    }
  }

  lemma ProcessedKeeps(s: Setup, m: State, samples: seq<int>)
    requires Sane(s) && Inv(s, m)
    ensures Inv(s, Processed(s, m, samples))
    ensures var p := Processed(s, m, samples); p.heard == m.heard + samples && p.clock == m.clock + |samples|
    ensures SameTones(Kept(s, m, samples), Processed(s, m, samples).notches)
  {
    HearAllKeeps(s, m, samples);
    var h := HearAll(s, m, samples);
    ExpireIs(h.notches, h.clock);
    var kept, p := Kept(s, m, samples), Processed(s, m, samples);
    FilterKeepsTones(s.design, kept, samples);
    assert AllEarned(s, h.heard, kept);
    SameEarned(s, h.heard, kept, p.notches);
    SameSpaced(kept, p.notches);
    hide HearAll, Looks, Tracks, Spaced, Expire, Earned, AllEarned, FilterAll, Kept;
  }

  lemma SameSpaced(a: seq<Notch>, b: seq<Notch>)
    requires SameTones(a, b) && Spaced(a)
    ensures Spaced(b)
  {
  }

  lemma SameEarned(s: Setup, heard: seq<int>, a: seq<Notch>, b: seq<Notch>)
    requires Sane(s) && SameTones(a, b) && AllEarned(s, heard, a)
    ensures AllEarned(s, heard, b)
  {
    forall n | n in b
      ensures exists at: nat, bin :: Earned(s, heard, n, at, bin)
    {
      var i :| 0 <= i < |b| && b[i] == n;
      assert a[i] in a;
      var at: nat, bin :| Earned(s, heard, a[i], at, bin);
      hide Tones, Due, Looks, LookAt, Frequency;
      assert Earned(s, heard, n, at, bin);
    }
  }

  /** The analyses and the tracks depend on the samples alone, not on how they were cut. */
  lemma ChunksDoNotMatter(s: Setup, a: seq<seq<int>>, b: seq<seq<int>>)
    requires Sane(s) && Joined(a) == Joined(b)
    ensures Run(s, a).tracks == Run(s, b).tracks
  {
    hide Run, Tracks, Looks, Joined;
    RunInv(s, a);
    RunInv(s, b);
  }

  /** In every run at most six notches are on, no two within 30 Hz. */
  lemma NotchesStayApart(s: Setup, chunks: seq<seq<int>>)
    requires Sane(s)
    ensures var notches := Run(s, chunks).notches;
      && |notches| <= 6
      && forall i, j :: 0 <= i < j < |notches| ==>
           || notches[i].frequency - notches[j].frequency >= 30.0
           || notches[j].frequency - notches[i].frequency >= 30.0
  {
    hide Run;
    RunInv(s, chunks);
    SpacedIs(s, Run(s, chunks));
  }

  lemma SpacedIs(s: Setup, m: State)
    requires Sane(s) && Inv(s, m)
    ensures Spaced(m.notches)
  {
  }

  /** A notch that is on after any run rests on a tone within 30 Hz of it that stood for
      at least 20 analyses in a row, the last of them within the 10 s before this chunk, or in it. */
  lemma NotchNeedsATone(s: Setup, chunks: seq<seq<int>>, notch: Notch) returns (at: nat, b: int, c: seq<int>)
    requires Sane(s) && chunks != [] && notch in Run(s, chunks).notches
    ensures Earned(s, Joined(chunks), notch, at, b)
    ensures var looks := Looks(s, Joined(chunks)[..at]);
      && Chain(looks, BandOf(s.rate), c) && |c| >= STANDING && c[|c| - 1] == b
      && At(looks[|looks| - 1], b) >= At(looks[|looks| - |c|], c[0])
    ensures at + HOLD_SECONDS * s.rate >= |Joined(chunks[..|chunks| - 1])|
  {
    hide Run, Looks, Tracks, Tones, Spaced, Chain, Due, Frequency, Within, LookAt, Fft.Twiddles, Earned, Joined;
    StillOn(s, chunks, notch);
    at, b := EarnedInRun(s, chunks, notch);
    c := ToneHeld(Looks(s, Joined(chunks)[..at]), BandOf(s.rate), b);
  }

  lemma EarnedInRun(s: Setup, chunks: seq<seq<int>>, notch: Notch) returns (at: nat, b: int)
    requires Sane(s) && notch in Run(s, chunks).notches
    ensures Earned(s, Joined(chunks), notch, at, b)
    ensures at <= |Joined(chunks)| && Looks(s, Joined(chunks)[..at]) != []
    ensures b in Tones(Looks(s, Joined(chunks)[..at]), BandOf(s.rate))
    ensures notch.until <= at + HOLD_SECONDS * s.rate
  {
    RunInv(s, chunks);
    hide Run, Looks, Tracks, Tones, Spaced, Due, Frequency, Within, LookAt;
    at, b :| Earned(s, Joined(chunks), notch, at, b);
  }

  /** A notch that is over when a chunk begins is off when it ends. */
  lemma StillOn(s: Setup, chunks: seq<seq<int>>, notch: Notch)
    requires Sane(s) && chunks != [] && notch in Run(s, chunks).notches
    ensures notch.until >= |Joined(chunks[..|chunks| - 1])|
  {
    var n := |chunks| - 1;
    RunInv(s, chunks[..n]);
    var m := Run(s, chunks[..n]);
    HearAllKeeps(s, m, chunks[n]);
    ProcessedKeeps(s, m, chunks[n]);
    hide HearAll, Inv, Expire, Processed;
    assert Run(s, chunks) == Processed(s, m, chunks[n]);
    ExpireIs(HearAll(s, m, chunks[n]).notches, |Joined(chunks[..n])|);
    var i :| 0 <= i < |Run(s, chunks).notches| && Run(s, chunks).notches[i] == notch;
    assert Kept(s, m, chunks[n])[i] in Kept(s, m, chunks[n]);
  }

  // ------------------------------------------------ the suppressor itself

  /** The last 2048 samples lie in the ring, each at its number modulo 2048. */
  ghost predicate Holds(ring: seq<int>, heard: seq<int>) {
    |ring| == SIZE &&
    forall p {:trigger heard[p]} :: 0 <= p < |heard| && |heard| - SIZE <= p ==> ring[p % SIZE] == heard[p]
  }

  lemma RingPut(ring: seq<int>, heard: seq<int>, x: int)
    requires Holds(ring, heard)
    ensures Holds(ring[|heard| % SIZE := x], heard + [x])
  {
    var r, h := ring[|heard| % SIZE := x], heard + [x];
    forall p | 0 <= p < |h| && |h| - SIZE <= p ensures r[p % SIZE] == h[p] {
      if p < |heard| {
        assert ring[p % SIZE] == heard[p];
      }
    }
  }

  lemma RingRead(ring: seq<int>, heard: seq<int>, i: nat)
    requires Holds(ring, heard) && |heard| >= SIZE && i < SIZE
    ensures ring[(|heard| % SIZE + i) % SIZE] == heard[|heard| - SIZE..][i]
  {
    var p := |heard| - SIZE + i;
    assert ring[p % SIZE] == heard[p];
    assert (|heard| % SIZE + i) % SIZE == p % SIZE;
  }

  method FindPeaks(look: Look, band: Band) returns (peaks: seq<int>)
    requires 1 <= band.low <= band.high && |look| == band.high + 2
    ensures peaks == AllPeaks(look, band)
  {
    peaks := [];
    for b := band.low to band.high + 1
      invariant peaks == Peaks(look, band.low, b)
    {
      if look[b] > look[b - 1] && look[b] >= look[b + 1] {
        peaks := peaks + [b];
      }
    }
  }

  method Rivals(look: Look, peaks: seq<int>, b: int) returns (rivals: int)
    ensures rivals == Louder(look, peaks, At(look, b) - RIVAL_RANGE) - 1
  {
    rivals := -1;
    for i := 0 to |peaks|
      invariant rivals == Louder(look, peaks[..i], At(look, b) - RIVAL_RANGE) - 1
    {
      assert peaks[..i + 1][..i] == peaks[..i];
      if At(look, peaks[i]) > At(look, b) - RIVAL_RANGE {
        rivals := rivals + 1;
      }
    }
    assert peaks[..|peaks|] == peaks;
  }

  method Continue(look: Look, tracks: seq<Track>, b: int) returns (track: Track)
    ensures track == TrackAt(look, tracks, b)
  {
    track := Track(b, 1, At(look, b));
    for i := 0 to |tracks|
      invariant TrackAt(look, tracks, b) == TrackAt(look, tracks[i..], b)
    {
      if Near(tracks[i].bin, b) {
        return track.(frames := tracks[i].frames + 1, firstLevel := tracks[i].firstLevel);
      }
      assert tracks[i..][1..] == tracks[i + 1..];
    }
  }

  lemma FollowStep(look: Look, band: Band, tracks: seq<Track>, peaks: seq<int>, n: nat)
    requires band.low <= band.high && n < |peaks|
    ensures Follow(look, band, tracks, peaks[..0]) == []
    ensures var f := Follow(look, band, tracks, peaks[..n]);
      Follow(look, band, tracks, peaks[..n + 1]) ==
      if StandsOut(look, band, peaks[n]) then f + [TrackAt(look, tracks, peaks[n])] else f
  {
    assert peaks[..n + 1][..n] == peaks[..n];
  }

  lemma StandingStep(s: Setup, look: Look, next: seq<Track>, t: Track, notches: seq<Notch>, until: int)
    ensures var b := Standing(look, next);
      if Stood(look, t) then
        && Standing(look, next + [t]) == b + [t.bin]
        && EngageAll(s, look, notches, b + [t.bin], until) ==
           Engage(EngageAll(s, look, notches, b, until), Frequency(s, look, t.bin), until)
      else Standing(look, next + [t]) == b
  {
    hide Engage, Frequency;
    var b := Standing(look, next);
    assert (next + [t])[..|next|] == next;
    assert (b + [t.bin])[..|b|] == b;
  }

  class FeedbackSuppressor {
    const setup: Setup
    const history: array<int>
    var filled: nat
    var since: nat
    var clock: int
    var tracks: seq<Track>
    var notches: seq<Notch>
    ghost var heard: seq<int>

    ghost predicate Valid()
      reads this, history
    {
      && Sane(setup) && history.Length == SIZE && Holds(history[..], heard)
      && filled == |heard| && since == Since(setup.rate / 50, filled)
    }

    ghost function Value(): State
      reads this
    {
      State(heard, clock, tracks, notches)
    }

    constructor (setup: Setup)
      requires Sane(setup)
      ensures Valid() && fresh(history) && this.setup == setup && Value() == Start
    {
      this.setup := setup;
      history := new int[SIZE](i => 0);
      filled, since, clock, tracks, notches, heard := 0, 0, 0, [], [], [];
    }

    /** The last 2048 samples under the window, oldest first. */
    method Gather() returns (spectrum: array<C>)
      requires Valid() && filled >= SIZE
      ensures fresh(spectrum) && spectrum.Length == SIZE
      ensures spectrum[..] == Windowed(setup, heard[filled - SIZE..])
    {
      hide Fft.Twiddles, Since, Holds;
      spectrum := new C[SIZE](i => Zero);
      var oldest := filled % SIZE;
      ghost var x := Windowed(setup, heard[filled - SIZE..]);
      for i := 0 to SIZE
        invariant forall k :: 0 <= k < i ==> spectrum[k] == x[k]
      {
        RingRead(history[..], heard, i);
        spectrum[i] := C(history[(oldest + i) % SIZE] as real * setup.window(i), 0.0);
      }
      assert spectrum[..] == x;
    }

    /** The levels over the last 2048 samples, oldest first. */
    method Listen() returns (look: Look)
      requires Valid() && filled >= SIZE
      ensures look == LookAt(setup, heard[filled - SIZE..])
    {
      hide Fft.Twiddles, Fft.Dft, Norm, Since, Holds, Windowed;
      var spectrum := Gather();
      ghost var x := Windowed(setup, heard[filled - SIZE..]);
      SizeIsPow2();
      Fft.Transform(spectrum, setup.step);
      var band := BandOf(setup.rate);
      look := seq(band.high + 2, b => 0.0);
      for b := band.low - 1 to band.high + 2
        invariant |look| == band.high + 2
        invariant forall k :: 0 <= k < band.low - 1 ==> look[k] == 0.0
        invariant forall k :: band.low - 1 <= k < b ==> look[k] == setup.db(Norm(Fft.Dft(x, setup.step(SIZE), k)))
      {
        look := look[b := setup.db(Norm(spectrum[b]))];
      }
    }

    /** Refreshes the notch at this frequency or switches one on. */
    method EngageAt(frequency: real, until: int)
      modifies this`notches
      ensures notches == Engage(old(notches), frequency, until)
    {
      for i := 0 to |notches|
        invariant notches == old(notches)
        invariant forall k :: 0 <= k < i ==> !Within(notches[k].frequency, frequency)
      {
        if Within(notches[i].frequency, frequency) {
          RefreshedAt(notches, frequency, until, i);
          notches := notches[i := notches[i].(until := until)];
          return;
        }
      }
      if |notches| >= MAX_NOTCHES {
        notches := notches[1..];
      }
      notches := notches + [NewNotch(frequency, until)];
    }

    /** The track of a peak that stands out, if it does; a notch if it stood long enough. */
    method Consider(look: Look, band: Band, peaks: seq<int>, median: real, b: int) returns (more: seq<Track>)
      requires band.low <= band.high && median == Median(look, band) && peaks == AllPeaks(look, band)
      modifies this`notches
      ensures more == if StandsOut(look, band, b) then [TrackAt(look, tracks, b)] else []
      ensures notches ==
        if more != [] && Stood(look, more[0])
        then Engage(old(notches), Frequency(setup, look, b), clock + HOLD_SECONDS * setup.rate)
        else old(notches)
    {
      hide Median, Peaks, Louder, Engage, Frequency, TrackAt;
      var rivals := Rivals(look, peaks, b);
      if At(look, b) - median < PROMINENCE || rivals > MAX_RIVALS {
        return [];
      }
      var track := Continue(look, tracks, b);
      TrackBin(look, tracks, b);
      if track.frames >= STANDING && At(look, b) >= track.firstLevel {
        EngageAt(Frequency(setup, look, b), clock + HOLD_SECONDS * setup.rate);
      }
      more := [track];
    }

    method FollowPeaks(look: Look, band: Band, peaks: seq<int>, median: real) returns (next: seq<Track>)
      requires band.low <= band.high && median == Median(look, band) && peaks == AllPeaks(look, band)
      modifies this`notches
      ensures next == Next(look, band, tracks)
      ensures notches == EngageAll(setup, look, old(notches), Standing(look, next), clock + HOLD_SECONDS * setup.rate)
    {
      hide AllPeaks, Median, Follow, Standing, Engage, EngageAll, Stood, TrackAt, StandsOut, Frequency;
      next := [];
      ghost var until := clock + HOLD_SECONDS * setup.rate;
      StandingNone(setup, look, notches, until);
      FollowNone(look, band, tracks, peaks);
      for i := 0 to |peaks|
        invariant next == Follow(look, band, tracks, peaks[..i])
        invariant notches == EngageAll(setup, look, old(notches), Standing(look, next), until)
      {
        FollowStep(look, band, tracks, peaks, i);
        var more := Consider(look, band, peaks, median, peaks[i]);
        if more != [] {
          TrackBin(look, tracks, peaks[i]);
          StandingStep(setup, look, next, more[0], old(notches), until);
        }
        next := next + more;
      }
      assert peaks[..|peaks|] == peaks;
    }

    /** One analysis of what the ring holds. */
    method Analyse()
      requires Valid() && filled >= SIZE
      modifies this`tracks, this`notches
      ensures var look := LookAt(setup, heard[filled - SIZE..]);
        && tracks == Next(look, BandOf(setup.rate), old(tracks))
        && notches == EngageAll(setup, look, old(notches), Standing(look, tracks), clock + HOLD_SECONDS * setup.rate)
    {
      hide LookAt, Median, Next, AllPeaks, Standing, EngageAll, Since, Holds, Fft.Twiddles;
      var band := BandOf(setup.rate);
      var look := Listen();
      LookLength(setup, heard[filled - SIZE..]);
      var peaks := FindPeaks(look, band);
      tracks := FollowPeaks(look, band, peaks, Median(look, band));
    }

    method TakeSample(sample: int)
      requires Valid()
      modifies this, history
      ensures Valid() && clock == old(clock) && Value() == Hear(setup, old(Value()), sample)
    {
      hide LookAt, Next, Standing, EngageAll, Holds, Since, Due, Fft.Twiddles;
      RingPut(history[..], heard, sample);
      SinceStep(setup.rate / 50, filled + 1);
      history[filled % SIZE] := sample;
      heard := heard + [sample];
      filled := filled + 1;
      since := since + 1;
      if since >= setup.rate / 50 && filled >= SIZE {
        since := 0;
        Analyse();
      }
    }

    /** Switches off the notches whose time is over. */
    method DropExpired()
      modifies this`notches
      ensures notches == Expire(old(notches), clock)
    {
      hide Expire;
      var kept: seq<Notch> := [];
      ExpireNone(clock);
      for i := 0 to |notches|
        invariant notches == old(notches)
        invariant kept == Expire(notches[..i], clock)
      {
        ExpireStep(notches, i, clock);
        if notches[i].until >= clock {
          kept := kept + [notches[i]];
        }
      }
      assert notches[..|notches|] == notches;
      notches := kept;
    }

    /** One sample through the filters that are on, one after another. */
    method FilterSample(sample: int) returns (out: int)
      modifies this`notches
      ensures var r := ThroughAll(setup.design, old(notches), sample as real);
        notches == r.notches && out == Clamp(Round(r.v))
    {
      var v := sample as real;
      ghost var was := notches;
      assert was[..0] == [] && ThroughAll(setup.design, [], v) == Cascade([], v);
      hide ThroughAll;
      for i := 0 to |notches|
        invariant |notches| == |was|
        invariant ThroughAll(setup.design, was[..i], sample as real) == Cascade(notches[..i], v)
        invariant notches[i..] == was[i..]
      {
        var n := notches[i];
        assert n == notches[i..][0] == was[i];
        ThroughStep(setup.design, was, i, sample as real);
        var c := setup.design(n.frequency);
        var y := c.b0 * v + c.b1 * n.x1 + c.b2 * n.x2 - c.a1 * n.y1 - c.a2 * n.y2;
        ghost var before := notches;
        notches := notches[i := n.(x2 := n.x1, x1 := v, y2 := n.y1, y1 := y)];
        assert y == Out(c, n, v) && notches[i] == Heard(c, n, v);
        assert ThroughAll(setup.design, was[..i], sample as real).v == v;
        assert notches[..i + 1] == before[..i] + [notches[i]];
        assert notches[i + 1..] == before[i..][1..];
        v := y;
      }
      assert was[..|was|] == was && notches[..|was|] == notches;
      out := Clamp(Round(v));
    }

    /** The samples of a chunk, filtered; with no notch on they stay as they are. */
    method Filter(samples: seq<int>) returns (out: seq<int>)
      modifies this`notches
      ensures Filtered(notches, out) == Played(setup.design, old(notches), samples)
    {
      hide ThroughAll, Clamp, Round;
      if notches == [] {
        return samples;
      }
      out := [];
      for i := 0 to |samples|
        invariant Filtered(notches, out) == FilterAll(setup.design, old(notches), samples[..i])
      {
        assert samples[..i + 1][..i] == samples[..i];
        var y := FilterSample(samples[i]);
        out := out + [y];
      }
      assert samples[..|samples|] == samples;
    }

    /** A chunk in; what the loudspeaker may play comes out. */
    method Process(samples: seq<int>) returns (out: seq<int>)
      requires Valid()
      modifies this, history
      ensures Valid() && Value() == Processed(setup, old(Value()), samples)
      ensures out == Played(setup.design, Kept(setup, old(Value()), samples), samples).out
    {
      hide Hear, Holds, Since, Sane, Expire, Played;
      for i := 0 to |samples|
        invariant Valid()
        invariant Value() == HearAll(setup, old(Value()), samples[..i])
      {
        assert samples[..i + 1][..i] == samples[..i];
        TakeSample(samples[i]);
      }
      assert samples[..|samples|] == samples;
      DropExpired();
      clock := clock + |samples|;
      out := Filter(samples);
    }
  }

  lemma ExpireNone(clock: int)
    ensures Expire([], clock) == []
  {
  }

  lemma LookLength(s: Setup, heard: seq<int>)
    requires InRange(s.rate) && |heard| == SIZE
    ensures |LookAt(s, heard)| == BandOf(s.rate).high + 2
  {
  }

  lemma StandingNone(s: Setup, look: Look, notches: seq<Notch>, until: int)
    ensures Standing(look, []) == [] && EngageAll(s, look, notches, [], until) == notches
  {
  }

  lemma FollowNone(look: Look, band: Band, tracks: seq<Track>, peaks: seq<int>)
    requires band.low <= band.high
    ensures Follow(look, band, tracks, peaks[..0]) == []
  {
  }

  lemma ExpireStep(notches: seq<Notch>, i: nat, clock: int)
    requires i < |notches|
    ensures var e := Expire(notches[..i], clock);
      Expire(notches[..i + 1], clock) == if notches[i].until < clock then e else e + [notches[i]]
  {
    assert notches[..i + 1][..i] == notches[..i];
  }

  lemma SinceStep(hop: nat, n: nat)
    requires n > 0
    ensures Due(hop, n) <==> Since(hop, n - 1) + 1 >= hop && n >= SIZE
    ensures Since(hop, n) == if Due(hop, n) then 0 else Since(hop, n - 1) + 1
    ensures Since(hop, 0) == 0
  {
  }

  lemma SizeIsPow2()
    ensures Fft.IsPow2(SIZE)
  {
    assert Fft.IsPow2(2) && Fft.IsPow2(4) && Fft.IsPow2(8) && Fft.IsPow2(16) && Fft.IsPow2(32);
    assert Fft.IsPow2(64) && Fft.IsPow2(128) && Fft.IsPow2(256) && Fft.IsPow2(512) && Fft.IsPow2(1024);
  }

  lemma {:induction false} RefreshedAt(notches: seq<Notch>, f: real, until: int, i: nat)
    requires i < |notches| && Within(notches[i].frequency, f)
    requires forall k :: 0 <= k < i ==> !Within(notches[k].frequency, f)
    ensures Refreshed(notches, f, until) == notches[i := notches[i].(until := until)]
    decreases |notches|
  {
    if i > 0 {
      RefreshedAt(notches[1..], f, until, i - 1);
    }
  }
}
