/** What becomes of a tone that stood long enough: its notch, and exactly when another tone
    of the same analysis takes it away again. */
module ToneNotches {
  import opened HowlTracks
  import opened FeedbackSuppressors
  import Fft

  predicate Near(a: real, b: real) { -30.0 < a - b < 30.0 }

  predicate Covered(notches: seq<Notch>, f: real) {
    exists i :: 0 <= i < |notches| && Near(notches[i].frequency, f)
  }

  /** The first notch near a frequency, or their number. */
  function FirstNear(notches: seq<Notch>, f: real): (i: nat)
    ensures i <= |notches|
    ensures forall k :: 0 <= k < i ==> !Near(notches[k].frequency, f)
    ensures i < |notches| ==> Near(notches[i].frequency, f)
  {
    if notches == [] || Near(notches[0].frequency, f) then 0 else 1 + FirstNear(notches[1..], f)
  }

  /** A near notch is refreshed where it is; else a silent one joins at the end, and of six
      the first makes room. All others stay, with what their filters remember. */
  lemma EngageIs(notches: seq<Notch>, f: real, until: int)
    ensures var r, i := Engage(notches, f, until), FirstNear(notches, f);
      var gone := if |notches| >= 6 then 1 else 0;
      if i < |notches| then r == notches[i := notches[i].(until := until)]
      else
        && |r| == |notches| - gone + 1 && r[..|r| - 1] == notches[gone..]
        && r[|r| - 1] == Notch(f, until, 0.0, 0.0, 0.0, 0.0)
  {
    var i := FirstNear(notches, f);
    if i < |notches| {
      RefreshedAt(notches, f, until, i);
    }
    hide Refreshed;
  }

  /** So it is heard: right after, a notch within 30 Hz is on, to the end of its time. */
  lemma EngageCovers(notches: seq<Notch>, f: real, until: int)
    ensures exists n :: n in Engage(notches, f, until) && Near(n.frequency, f) && n.until == until
  {
    var r, i := Engage(notches, f, until), FirstNear(notches, f);
    EngageIs(notches, f, until);
    hide Engage;
    var k := if i < |notches| then i else |r| - 1;
    assert r[k] in r;
  }

  // ------------------------------------------------ several tones in one analysis

  /** How many of the notches these tones take away: one for each that has none near it while
      six are on. */
  function Evicted(s: Setup, look: Look, notches: seq<Notch>, bins: seq<int>, until: int): (d: nat)
    ensures d <= |bins|
    decreases |bins|
  {
    if bins == [] then 0
    else
      var n := |bins| - 1;
      var before := EngageAll(s, look, notches, bins[..n], until);
      Evicted(s, look, notches, bins[..n], until) +
      if |before| >= 6 && !Covered(before, Frequency(s, look, bins[n])) then 1 else 0
  }

  predicate SameNotch(a: Notch, b: Notch) { a == b.(until := a.until) }

  /** Of the notches on before, the first so many are gone and all others are on in their
      order, with their memory; what was refreshed in this analysis stays so. */
  ghost predicate Shifted(before: seq<Notch>, after: seq<Notch>, gone: nat, more: nat, until: int) {
    && gone <= |before| && |before| - gone <= |after| <= |before| - gone + more && |after| <= 6
    && (gone > 0 ==> |after| == 6)
    && forall i {:trigger before[i]} :: gone <= i < |before| ==>
         && SameNotch(after[i - gone], before[i])
         && (after[i - gone].until == before[i].until || after[i - gone].until == until)
  }

  lemma {:induction false} EngageAllShifts(s: Setup, look: Look, notches: seq<Notch>, bins: seq<int>, until: int)
    requires |notches| <= 6 && |bins| <= 3
    ensures Shifted(notches, EngageAll(s, look, notches, bins, until),
                    Evicted(s, look, notches, bins, until), |bins|, until)
    decreases |bins|
  {
    hide Engage, Frequency, Shifted, Covered;
    if bins == [] {
      NoneShifts(notches, until);
    } else {
      var n := |bins| - 1;
      EngageAllShifts(s, look, notches, bins[..n], until);
      var before := EngageAll(s, look, notches, bins[..n], until);
      OneShifts(notches, before, Evicted(s, look, notches, bins[..n], until), n, Frequency(s, look, bins[n]), until);
    }
  }

  lemma NoneShifts(notches: seq<Notch>, until: int)
    requires |notches| <= 6
    ensures Shifted(notches, notches, 0, 0, until)
  {
  }

  lemma OneShifts(notches: seq<Notch>, before: seq<Notch>, gone: nat, more: nat, f: real, until: int)
    requires Shifted(notches, before, gone, more, until) && |notches| <= 6 && more <= 2
    ensures Shifted(notches, Engage(before, f, until),
                    gone + if |before| >= 6 && !Covered(before, f) then 1 else 0, more + 1, until)
  {
    var r, i := Engage(before, f, until), FirstNear(before, f);
    EngageIs(before, f, until);
    hide Engage, Near;
    var next := gone + if |before| >= 6 && !Covered(before, f) then 1 else 0;
    assert Covered(before, f) <==> i < |before|;
    forall k | next <= k < |notches|
      ensures SameNotch(r[k - next], notches[k])
      ensures r[k - next].until == notches[k].until || r[k - next].until == until
    {
      assert SameNotch(before[k - gone], notches[k]);
      if i == |before| {
        assert r[k - next] == r[..|r| - 1][k - next];
      }
    }
  }

  lemma {:induction false} EngageAllSplit(s: Setup, look: Look, notches: seq<Notch>, a: seq<int>, b: seq<int>,
                                          until: int)
    ensures var mid := EngageAll(s, look, notches, a, until);
      && EngageAll(s, look, notches, a + b, until) == EngageAll(s, look, mid, b, until)
      && Evicted(s, look, notches, a + b, until) ==
         Evicted(s, look, notches, a, until) + Evicted(s, look, mid, b, until)
    decreases |b|
  {
    if b == [] {
      assert a + b == a;
    } else {
      var n := |b| - 1;
      EngageAllSplit(s, look, notches, a, b[..n], until);
      assert (a + b)[..|a + b| - 1] == a + b[..n] && (a + b)[|a + b| - 1] == b[n];
      hide EngageAll, Evicted;
      OneMore(s, look, notches, a + b, until);
      OneMore(s, look, EngageAll(s, look, notches, a, until), b, until);
    }
  }

  lemma OneMore(s: Setup, look: Look, notches: seq<Notch>, bins: seq<int>, until: int)
    requires bins != []
    ensures var front, b := bins[..|bins| - 1], bins[|bins| - 1];
      var before := EngageAll(s, look, notches, front, until);
      && EngageAll(s, look, notches, bins, until) == Engage(before, Frequency(s, look, b), until)
      && Evicted(s, look, notches, bins, until) ==
         Evicted(s, look, notches, front, until)
         + if |before| >= 6 && !Covered(before, Frequency(s, look, b)) then 1 else 0
  {
    hide Engage, Frequency, Covered;
  }

  /** Where a tone's notch is once it was engaged. */
  function Place(before: seq<Notch>, f: real): nat {
    if Covered(before, f) then FirstNear(before, f) else if |before| >= 6 then |before| - 1 else |before|
  }

  /** A tone at `f` was engaged among the notches `before`, which made `mid`; at the end of the
      analysis there is `r`, the later tones having taken `gone` away. Its notch is on exactly if
      no more were taken than stood before it; one switched on for it always is. */
  ghost predicate KeptIn(before: seq<Notch>, mid: seq<Notch>, r: seq<Notch>, f: real, gone: nat, more: nat,
                         until: int)
  {
    var p := Place(before, f);
    && p < |mid| && Near(mid[p].frequency, f) && mid[p].until == until
    && Shifted(mid, r, gone, more, until)
    && (gone <= p ==> p - gone < |r| && Near(r[p - gone].frequency, f) && r[p - gone].until == until)
    && (!Covered(before, f) ==> gone <= p)
  }

  function NotchesBefore(s: Setup, look: Look, notches: seq<Notch>, bins: seq<int>, until: int, j: nat): seq<Notch>
    requires j <= |bins|
  {
    EngageAll(s, look, notches, bins[..j], until)
  }

  /** How many notches the tones after `bins[j]` take away. */
  function EvictedAfter(s: Setup, look: Look, notches: seq<Notch>, bins: seq<int>, until: int, j: nat): nat
    requires j < |bins|
  {
    Evicted(s, look, NotchesBefore(s, look, notches, bins, until, j + 1), bins[j + 1..], until)
  }

  /** Of at most three tones, each keeps its notch through the analysis exactly if no more are
      taken away after it than stand before it. A notch switched on for it always stays. */
  lemma ToneKeepsItsNotch(s: Setup, look: Look, notches: seq<Notch>, bins: seq<int>, until: int, j: nat)
    requires |notches| <= 6 && |bins| <= 3 && j < |bins|
    ensures KeptIn(NotchesBefore(s, look, notches, bins, until, j), NotchesBefore(s, look, notches, bins, until, j + 1),
                   EngageAll(s, look, notches, bins, until), Frequency(s, look, bins[j]),
                   EvictedAfter(s, look, notches, bins, until, j), |bins| - 1 - j, until)
  {
    hide Engage, EngageAll, Evicted, Frequency, Near, Shifted, KeptIn, Place, Covered;
    var f := Frequency(s, look, bins[j]);
    var mid, rest := NotchesBefore(s, look, notches, bins, until, j + 1), bins[j + 1..];
    EngageAllSix(s, look, notches, bins[..j], until);
    EngageAllOne(s, look, notches, bins, until, j);
    EngageAllSix(s, look, notches, bins[..j + 1], until);
    EngageAllShifts(s, look, mid, rest, until);
    EngageAllSplit(s, look, notches, bins[..j + 1], rest, until);
    assert bins == bins[..j + 1] + rest;
    var before := NotchesBefore(s, look, notches, bins, until, j);
    var r, gone := EngageAll(s, look, mid, rest, until), Evicted(s, look, mid, rest, until);
    KeptExactly(before, mid, r, f, gone, |rest|, until);
  }

  lemma EngageAllSix(s: Setup, look: Look, notches: seq<Notch>, bins: seq<int>, until: int)
    requires |notches| <= 6 && |bins| <= 3
    ensures |EngageAll(s, look, notches, bins, until)| <= 6
  {
    EngageAllShifts(s, look, notches, bins, until);
    hide EngageAll, Evicted;
  }

  lemma EngageAllOne(s: Setup, look: Look, notches: seq<Notch>, bins: seq<int>, until: int, j: nat)
    requires j < |bins|
    ensures EngageAll(s, look, notches, bins[..j + 1], until) ==
      Engage(EngageAll(s, look, notches, bins[..j], until), Frequency(s, look, bins[j]), until)
  {
    assert bins[..j + 1][..j] == bins[..j];
    hide Engage, Frequency;
  }

  lemma KeptExactly(before: seq<Notch>, mid: seq<Notch>, r: seq<Notch>, f: real, gone: nat, more: nat, until: int)
    requires |before| <= 6 && mid == Engage(before, f, until) && more <= 2 && Shifted(mid, r, gone, more, until)
    ensures KeptIn(before, mid, r, f, gone, more, until)
  {
    EngageIs(before, f, until);
    hide Engage;
    assert Covered(before, f) <==> FirstNear(before, f) < |before|;
    var p := Place(before, f);
    if gone <= p {
      assert SameNotch(r[p - gone], mid[p]);
    }
  }

  /** Exactly when a tone that has a notch near it has one no more after the next tone: six are
      on, none near that tone, the first was the only one near this, and so is not the new. */
  lemma StaysCovered(notches: seq<Notch>, f: real, g: real, until: int)
    requires Covered(notches, f)
    ensures !Covered(Engage(notches, g, until), f) <==>
      |notches| >= 6 && !Covered(notches, g) && !Covered(notches[1..], f) && !Near(g, f)
  {
    EngageIs(notches, g, until);
    hide Engage;
    var r, i := Engage(notches, g, until), FirstNear(notches, g);
    var h :| 0 <= h < |notches| && Near(notches[h].frequency, f);
    assert Covered(notches, g) <==> i < |notches|;
    if i < |notches| {
      assert Near(r[h].frequency, f);
    } else if |notches| < 6 {
      assert r[h] == r[..|r| - 1][h];
    } else {
      assert forall k :: 0 <= k < |notches| - 1 ==> r[k] == r[..|r| - 1][k] == notches[1..][k];
      if Near(g, f) {
        assert Near(r[|r| - 1].frequency, f);
      }
    }
  }

  /** The input: six notches are on, one tone is still at the first of them and another is at
      none. The first is refreshed and then taken away, and nothing is near the tone. */
  lemma RefreshedAndTaken(notches: seq<Notch>, f: real, g: real, until: int)
    requires |notches| == 6 && Near(notches[0].frequency, f)
    requires !Near(g, f) && forall i :: 1 <= i < 6 ==> !Near(notches[i].frequency, f)
    requires forall i :: 0 <= i < 6 ==> !Near(notches[i].frequency, g)
    ensures Covered(Engage(notches, f, until), f) && !Covered(Engage(Engage(notches, f, until), g, until), f)
  {
    var first := Engage(notches, f, until);
    EngageIs(notches, f, until);
    hide Engage;
    assert FirstNear(notches, f) == 0;
    assert Near(first[0].frequency, f);
    StaysCovered(first, f, g, until);
  }

  // ------------------------------------------------ in every run

  lemma {:induction false} StandingFew(look: Look, next: seq<Track>)
    ensures |Standing(look, next)| <= |next|
    decreases |next|
  {
    if next != [] {
      StandingFew(look, next[..|next| - 1]);
    }
  }

  /** No analysis comes in these samples. */
  ghost predicate Quiet(hop: nat, from: nat, to: nat) { forall q :: from < q <= to ==> !Due(hop, q) }

  lemma {:induction false} HearQuiet(s: Setup, m: State, samples: seq<int>)
    requires Sane(s) && Quiet(s.rate / 50, |m.heard|, |m.heard| + |samples|)
    ensures HearAll(s, m, samples) == m.(heard := m.heard + samples)
    decreases |samples|
  {
    if samples == [] {
      assert m.heard + [] == m.heard;
    } else {
      var n := |samples| - 1;
      HearQuiet(s, m, samples[..n]);
      assert (m.heard + samples[..n]) + [samples[n]] == m.heard + samples;
      hide Due, LookAt, Next, EngageAll, Standing, Sane;
    }
  }

  lemma {:induction false} HearSplit(s: Setup, m: State, a: seq<int>, b: seq<int>)
    requires Sane(s)
    ensures HearAll(s, m, a + b) == HearAll(s, HearAll(s, m, a), b)
    decreases |b|
  {
    if b == [] {
      assert a + b == a;
    } else {
      assert (a + b)[..|a + b| - 1] == a + b[..|b| - 1];
      HearSplit(s, m, a, b[..|b| - 1]);
      hide Hear, Sane;
    }
  }

  /** The state in which the last analysis of a run finds the suppressor: `k` samples into the
      last chunk. */
  function AtLastAnalysis(s: Setup, chunks: seq<seq<int>>, k: nat): State
    requires Sane(s) && chunks != [] && k < |chunks[|chunks| - 1]|
  {
    var n := |chunks| - 1;
    HearAll(s, Run(s, chunks[..n]), chunks[n][..k])
  }

  function AfterLastAnalysis(s: Setup, chunks: seq<seq<int>>, k: nat): State
    requires Sane(s) && chunks != [] && k < |chunks[|chunks| - 1]|
  {
    Hear(s, AtLastAnalysis(s, chunks, k), chunks[|chunks| - 1][k])
  }

  /** The sample `k` of the last chunk sets off its last analysis. */
  ghost predicate LastAnalysis(s: Setup, chunks: seq<seq<int>>, k: nat) {
    && chunks != [] && k < |chunks[|chunks| - 1]|
    && var before := |Joined(chunks[..|chunks| - 1])|;
       && Due(s.rate / 50, before + k + 1)
       && Quiet(s.rate / 50, before + k + 1, before + |chunks[|chunks| - 1]|)
  }

  /** Apart from what its filter remembers. */
  ghost predicate On(notches: seq<Notch>, n: Notch) {
    exists x :: x in notches && x.frequency == n.frequency && x.until == n.until
  }

  lemma KeepsCurrent(s: Setup, h: State, samples: seq<int>, n: Notch)
    requires n in h.notches && n.until >= h.clock
    ensures On(Played(s.design, Expire(h.notches, h.clock), samples).notches, n)
  {
    ExpireIs(h.notches, h.clock);
    var kept := Expire(h.notches, h.clock);
    hide Expire;
    assert n in kept;
    FilterKeepsTones(s.design, kept, samples);
    var i :| 0 <= i < |kept| && kept[i] == n;
    var r := FilterAll(s.design, kept, samples).notches;
    hide FilterAll;
    assert r[i] in r;
  }

  /** What the last analysis of a run leaves on is on after it. */
  lemma AfterTheAnalysis(s: Setup, chunks: seq<seq<int>>, k: nat, n: Notch)
    requires Sane(s) && LastAnalysis(s, chunks, k)
    requires n in AfterLastAnalysis(s, chunks, k).notches && n.until >= |Joined(chunks[..|chunks| - 1])|
    ensures On(Run(s, chunks).notches, n)
  {
    hide Run, Hear, HearAll, LookAt, Due, Sane, Joined, Inv, Quiet, Played, Expire, On;
    var last := |chunks| - 1;
    var start, samples := Run(s, chunks[..last]), chunks[last];
    RunInv(s, chunks[..last]);
    RestOfChunk(s, start, samples, k);
    KeepsCurrent(s, HearAll(s, start, samples), samples, n);
    RunLast(s, chunks);
  }

  lemma RunLast(s: Setup, chunks: seq<seq<int>>)
    requires Sane(s) && chunks != []
    ensures var last := |chunks| - 1;
      var h := HearAll(s, Run(s, chunks[..last]), chunks[last]);
      Run(s, chunks).notches == Played(s.design, Expire(h.notches, h.clock), chunks[last]).notches
  {
    hide HearAll, Played, Expire, Sane;
  }

  /** After its last analysis a chunk changes no notch. */
  lemma RestOfChunk(s: Setup, start: State, samples: seq<int>, k: nat)
    requires Sane(s) && Inv(s, start) && k < |samples|
    requires Quiet(s.rate / 50, |start.heard| + k + 1, |start.heard| + |samples|)
    ensures var m, h := HearAll(s, start, samples[..k]), HearAll(s, start, samples);
      h.notches == Hear(s, m, samples[k]).notches && h.clock == m.clock == start.clock
  {
    hide Inv, Hear, HearAll, LookAt, Due, Sane, Quiet;
    var m := HearAll(s, start, samples[..k]);
    HearAllKeeps(s, start, samples[..k]);
    HearKeeps(s, m, samples[k]);
    HearAllOne(s, m, samples[k]);
    HearSplit(s, start, samples[..k], [samples[k]]);
    assert samples[..k] + [samples[k]] == samples[..k + 1];
    HearSplit(s, start, samples[..k + 1], samples[k + 1..]);
    assert samples[..k + 1] + samples[k + 1..] == samples;
    HearQuiet(s, Hear(s, m, samples[k]), samples[k + 1..]);
  }

  lemma HearAllOne(s: Setup, m: State, x: int)
    requires Sane(s)
    ensures HearAll(s, m, [x]) == Hear(s, m, x)
  {
    assert [x][..0] == [];
    assert HearAll(s, m, []) == m;
    hide Hear, Sane;
  }

  /** What an analysis of these samples sees, and the tones it acts on. */
  function LookOf(s: Setup, heard: seq<int>): Look
    requires InRange(s.rate)
  {
    if |heard| < SIZE then [] else LookAt(s, heard[|heard| - SIZE..])
  }

  function TonesOf(s: Setup, heard: seq<int>): seq<int>
    requires InRange(s.rate)
  {
    if Looks(s, heard) == [] then [] else Tones(Looks(s, heard), BandOf(s.rate))
  }

  lemma HeardTones(s: Setup, m: State, x: int)
    requires Sane(s) && Inv(s, m) && Due(s.rate / 50, |m.heard| + 1)
    ensures var heard := m.heard + [x];
      && |TonesOf(s, heard)| <= 3
      && Hear(s, m, x).notches == EngageAll(s, LookOf(s, heard), m.notches, TonesOf(s, heard),
                                            m.clock + HOLD_SECONDS * s.rate)
  {
    hide LookAt, Next, Due, EngageAll, AllEarned, Standing, Tracks, Looks, Spaced, Fft.Twiddles;
    var heard := m.heard + [x];
    DueSize(s.rate / 50, |heard|);
    LooksGrow(s, m.heard, x);
    var look := LookAt(s, heard[|heard| - SIZE..]);
    TracksGrow(Looks(s, m.heard), BandOf(s.rate), look);
    FewTones(Looks(s, heard), BandOf(s.rate));
  }

  /** At most three, as there are no more tracks. */
  lemma FewTones(looks: seq<Look>, band: Band)
    requires band.low <= band.high && looks != []
    ensures |Tones(looks, band)| <= 3
  {
    AtMostThree(looks, band);
    StandingFew(looks[|looks| - 1], Tracks(looks, band));
    hide Tracks, Standing;
  }

  /** A tone an analysis acts on: its notch is among those then on, unless later tones take
      it away. */
  lemma ToneAnswered(s: Setup, m: State, x: int, j: nat)
    requires Sane(s) && Inv(s, m) && Due(s.rate / 50, |m.heard| + 1) && j < |TonesOf(s, m.heard + [x])|
    ensures var look, bins := LookOf(s, m.heard + [x]), TonesOf(s, m.heard + [x]);
      var until := m.clock + HOLD_SECONDS * s.rate;
      KeptIn(NotchesBefore(s, look, m.notches, bins, until, j), NotchesBefore(s, look, m.notches, bins, until, j + 1),
             Hear(s, m, x).notches, Frequency(s, look, bins[j]),
             EvictedAfter(s, look, m.notches, bins, until, j), |bins| - 1 - j, until)
  {
    hide Fft.Twiddles, Inv, LookOf, TonesOf, Due, Frequency, Hear, EngageAll, KeptIn, NotchesBefore, EvictedAfter;
    HeardTones(s, m, x);
    SpacedFew(s, m);
    ToneKeepsItsNotch(s, LookOf(s, m.heard + [x]), m.notches, TonesOf(s, m.heard + [x]),
                      m.clock + HOLD_SECONDS * s.rate, j);
  }

  /** The other way round from a notch that needs a tone: a tone the last analysis of a run
      acts on has a notch within 30 Hz of it on after that run, with ten seconds to go from
      the beginning of the chunk, unless it had one that later tones took away. */
  lemma ToneIsFiltered(s: Setup, chunks: seq<seq<int>>, k: nat, j: nat)
    requires Sane(s) && LastAnalysis(s, chunks, k) && j < |TonesOf(s, AfterLastAnalysis(s, chunks, k).heard)|
    ensures var m, heard := AtLastAnalysis(s, chunks, k), AfterLastAnalysis(s, chunks, k).heard;
      var look, bins, until := LookOf(s, heard), TonesOf(s, heard), |Joined(chunks[..|chunks| - 1])| + 10 * s.rate;
      var f, before := Frequency(s, look, bins[j]), NotchesBefore(s, look, m.notches, bins, until, j);
      EvictedAfter(s, look, m.notches, bins, until, j) <= Place(before, f) || !Covered(before, f) ==>
      exists n :: n in Run(s, chunks).notches && Near(n.frequency, f) && n.until == until
  {
    hide Fft.Twiddles, Inv, LookOf, TonesOf, Due, Frequency, Near, Hear, HearAll, NotchesBefore, EvictedAfter;
    hide Covered, Place, Run, Joined, Quiet, Shifted;
    var last := |chunks| - 1;
    var m, x := AtLastAnalysis(s, chunks, k), chunks[last][k];
    RunInv(s, chunks[..last]);
    HearAllKeeps(s, Run(s, chunks[..last]), chunks[last][..k]);
    HearKeeps(s, m, x);
    ToneAnswered(s, m, x, j);
    var look, bins := LookOf(s, m.heard + [x]), TonesOf(s, m.heard + [x]);
    var until := |Joined(chunks[..last])| + 10 * s.rate;
    var p := Place(NotchesBefore(s, look, m.notches, bins, until, j), Frequency(s, look, bins[j]));
    var gone := EvictedAfter(s, look, m.notches, bins, until, j);
    if gone <= p {
      AfterTheAnalysis(s, chunks, k, Hear(s, m, x).notches[p - gone]);
    }
  }

  lemma SpacedFew(s: Setup, m: State)
    requires Sane(s) && Inv(s, m)
    ensures |m.notches| <= 6
  {
  }

  // ------------------------------------------------ where between two bins a tone is

  /** The parabola through the levels of a bin and its neighbours. */
  function Parabola(l: real, c: real, r: real, t: real): real {
    c + 0.5 * (r - l) * t + 0.5 * (l - 2.0 * c + r) * t * t
  }

  /** Where the frequency of a peak lies: within half a bin of its bin, on the side of the
      louder neighbour. */
  lemma FrequencyLeans(s: Setup, look: Look, b: int)
    requires InRange(s.rate) && Peak(look, b)
    ensures var f := Frequency(s, look, b);
      && Hertz(s, b as real - 0.5) <= f <= Hertz(s, b as real + 0.5)
      && (f > Hertz(s, b as real) <==> At(look, b + 1) > At(look, b - 1))
      && (f < Hertz(s, b as real) <==> At(look, b + 1) < At(look, b - 1))
  {
    OffsetIsSmall(look, b);
    OffsetIsTheTop(look, b, 0.0);
    FrequencyIs(s, look, b);
    var x, o := b as real, Offset(look, b);
    hide Offset, Peak, Frequency, Hertz;
    HertzMoves(s, x - 0.5, x + o);
    HertzMoves(s, x + o, x + 0.5);
    HertzMoves(s, x, x + o);
    HertzMoves(s, x + o, x);
  }

  /** Where a bin, or a place between two, lies in the spectrum. */
  function Hertz(s: Setup, bins: real): real { bins * (s.rate as real / 2048.0) }

  lemma FrequencyIs(s: Setup, look: Look, b: int)
    ensures Frequency(s, look, b) == Hertz(s, b as real + Offset(look, b))
  {
    hide Offset;
  }

  lemma HertzMoves(s: Setup, x: real, y: real)
    requires InRange(s.rate)
    ensures (x < y ==> Hertz(s, x) < Hertz(s, y)) && (x == y ==> Hertz(s, x) == Hertz(s, y))
  {
    var bin := s.rate as real / 2048.0;
    assert bin > 0.0;
    if x < y {
      assert (y - x) * bin > 0.0;
    }
  }

  /** The frequency of a peak is read off the top of that parabola, which lies within half a
      bin and leans to the louder neighbour. */
  lemma OffsetIsTheTop(look: Look, b: int, t: real)
    requires Peak(look, b)
    ensures var l, c, r, o := At(look, b - 1), At(look, b), At(look, b + 1), Offset(look, b);
      && Parabola(l, c, r, -1.0) == l && Parabola(l, c, r, 0.0) == c && Parabola(l, c, r, 1.0) == r
      && Parabola(l, c, r, t) <= Parabola(l, c, r, o)
      && (o > 0.0 <==> r > l) && (o < 0.0 <==> r < l)
  {
    var l, c, r, o := At(look, b - 1), At(look, b), At(look, b + 1), Offset(look, b);
    var d := l - 2.0 * c + r;
    assert d < 0.0;
    Quotient(l - r, d, o);
    TopOf(c, r - l, d, o, t);
  }

  lemma Quotient(x: real, d: real, o: real)
    requires d < 0.0 && o == 0.5 * x / d
    ensures d * o == 0.5 * x && (o > 0.0 <==> x < 0.0) && (o < 0.0 <==> x > 0.0)
  {
  }

  lemma TopOf(c: real, slope: real, d: real, o: real, t: real)
    requires d < 0.0 && d * o == -0.5 * slope
    ensures c + 0.5 * slope * t + 0.5 * d * t * t <= c + 0.5 * slope * o + 0.5 * d * o * o
  {
    var q := o - t;
    Square(q, d);
    assert 0.5 * slope == -(d * o);
    assert 0.5 * slope * (o - t) + 0.5 * d * (o * o - t * t) == -0.5 * d * (q * q);
  }

  lemma Square(q: real, d: real)
    requires d < 0.0
    ensures -0.5 * d * (q * q) >= 0.0
  {
    if q >= 0.0 {
      assert q * q >= 0.0;
    } else {
      assert q * q == (-q) * (-q);
    }
  }
}
