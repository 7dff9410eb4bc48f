/** What the howl detector makes of a run of spectra: peaks that stand out, the tracks
    that follow them from one analysis to the next, and the tones that stood long enough. */
module HowlTracks {
  /** Levels by bin, in dB. */
  type Look = seq<real>

  datatype Band = Band(low: nat, high: nat)

  datatype Track = Track(bin: int, frames: nat, firstLevel: real)

  const PROMINENCE := 25.0
  const RIVAL_RANGE := 15.0
  const MAX_RIVALS := 2
  const STANDING := 20

  function At(look: Look, b: int): real { if 0 <= b < |look| then look[b] else 0.0 }

  // ------------------------------------------------ the middle of a band

  function Insert(s: seq<real>, x: real): (r: seq<real>)
    ensures |r| == |s| + 1
  {
    if s == [] || s[|s| - 1] <= x then s + [x] else Insert(s[..|s| - 1], x) + [s[|s| - 1]]
  }

  function Sorted(s: seq<real>): (r: seq<real>)
    ensures |r| == |s|
  {
    if s == [] then [] else Insert(Sorted(s[..|s| - 1]), s[|s| - 1])
  }

  function Levels(look: Look, band: Band): (s: seq<real>)
    requires band.low <= band.high
    ensures |s| == band.high + 1 - band.low
  {
    seq(band.high + 1 - band.low, i => At(look, band.low + i))
  }

  function Median(look: Look, band: Band): real
    requires band.low <= band.high
  {
    var s := Levels(look, band);
    Sorted(s)[|s| / 2]
  }

  ghost predicate Ordered(s: seq<real>) { forall i, j :: 0 <= i <= j < |s| ==> s[i] <= s[j] }

  lemma {:induction false} InsertKeeps(s: seq<real>, x: real)
    ensures multiset(Insert(s, x)) == multiset(s) + multiset{x}
    decreases |s|
  {
    if s != [] && s[|s| - 1] > x {
      InsertKeeps(s[..|s| - 1], x);
      assert s == s[..|s| - 1] + [s[|s| - 1]];
    }
  }

  lemma {:induction false} InsertBelow(s: seq<real>, x: real, top: real)
    requires x <= top && forall i :: 0 <= i < |s| ==> s[i] <= top
    ensures forall i :: 0 <= i < |s| + 1 ==> Insert(s, x)[i] <= top
    decreases |s|
  {
    if s != [] && s[|s| - 1] > x {
      InsertBelow(s[..|s| - 1], x, top);
    }
  }

  lemma {:induction false} InsertSorts(s: seq<real>, x: real)
    requires Ordered(s)
    ensures Ordered(Insert(s, x))
    decreases |s|
  {
    if s != [] && s[|s| - 1] > x {
      var n := |s| - 1;
      InsertSorts(s[..n], x);
      InsertBelow(s[..n], x, s[n]);
      var r := Insert(s[..n], x);
      hide Insert;
      assert Ordered(r + [s[n]]);
    }
  }

  /** The order statistic is taken from the values themselves, put in order. */
  lemma {:induction false} SortedIsSorted(s: seq<real>)
    ensures Ordered(Sorted(s)) && multiset(Sorted(s)) == multiset(s)
    decreases |s|
  {
    if s != [] {
      var n := |s| - 1;
      SortedIsSorted(s[..n]);
      InsertSorts(Sorted(s[..n]), s[n]);
      InsertKeeps(Sorted(s[..n]), s[n]);
      hide Ordered;
      assert s == s[..n] + [s[n]];
    }
  }

  function Below(s: seq<real>, x: real): (n: nat)
    decreases |s|
  {
    if s == [] then 0 else Below(s[..|s| - 1], x) + if s[|s| - 1] < x then 1 else 0
  }

  function Above(s: seq<real>, x: real): (n: nat)
    decreases |s|
  {
    if s == [] then 0 else Above(s[..|s| - 1], x) + if s[|s| - 1] > x then 1 else 0
  }

  lemma LevelsAre(look: Look, band: Band)
    requires band.low <= band.high < |look|
    ensures Levels(look, band) == look[band.low..band.high + 1]
  {
    var s := Levels(look, band);
    forall i | 0 <= i < |s| ensures s[i] == look[band.low..band.high + 1][i] {
      assert s[i] == At(look, band.low + i);
    }
  }

  lemma {:induction false} InsertCounts(s: seq<real>, v: real, x: real)
    ensures Below(Insert(s, v), x) == Below(s, x) + if v < x then 1 else 0
    ensures Above(Insert(s, v), x) == Above(s, x) + if v > x then 1 else 0
    decreases |s|
  {
    hide Below, Above;
    if s == [] || s[|s| - 1] <= v {
      CountMore(s, v, x);
    } else {
      var n := |s| - 1;
      InsertCounts(s[..n], v, x);
      CountMore(Insert(s[..n], v), s[n], x);
      CountMore(s[..n], s[n], x);
      assert s[..n] + [s[n]] == s;
    }
  }

  lemma CountMore(s: seq<real>, v: real, x: real)
    ensures Below(s + [v], x) == Below(s, x) + if v < x then 1 else 0
    ensures Above(s + [v], x) == Above(s, x) + if v > x then 1 else 0
  {
    assert (s + [v])[..|s|] == s;
  }

  lemma {:induction false} SortedCounts(s: seq<real>, x: real)
    ensures Below(Sorted(s), x) == Below(s, x) && Above(Sorted(s), x) == Above(s, x)
    decreases |s|
  {
    if s != [] {
      SortedCounts(s[..|s| - 1], x);
      InsertCounts(Sorted(s[..|s| - 1]), s[|s| - 1], x);
    }
  }

  lemma {:induction false} OrderedCounts(s: seq<real>, k: nat, i: nat)
    requires Ordered(s) && k < |s| && i <= |s|
    ensures Below(s[..i], s[k]) <= if i <= k then i else k
    ensures Above(s[..i], s[k]) <= if i <= k + 1 then 0 else i - k - 1
    decreases i
  {
    if i > 0 {
      OrderedCounts(s, k, i - 1);
      assert s[..i][..i - 1] == s[..i - 1];
    }
  }

  /** The median is a level of the band, with no more than half of the band below it and less
      than half above. */
  lemma MedianIsInTheMiddle(look: Look, band: Band)
    requires band.low <= band.high
    ensures var s, m := Levels(look, band), Median(look, band);
      m in s && 2 * Below(s, m) <= |s| && 2 * Above(s, m) < |s|
  {
    hide Sorted, Below, Above;
    var s := Levels(look, band);
    var k, o := |s| / 2, Sorted(s);
    SortedIsSorted(s);
    SortedCounts(s, o[k]);
    OrderedCounts(o, k, |o|);
    assert o[..|o|] == o;
    assert o[k] in multiset(o);
  }

  // ------------------------------------------------ peaks and rivals

  predicate Peak(look: Look, b: int) { At(look, b) > At(look, b - 1) && At(look, b) >= At(look, b + 1) }

  /** The peaks from `low` up to, but not at, `end`. */
  function Peaks(look: Look, low: int, end: int): (p: seq<int>)
    decreases end - low
  {
    if end <= low then [] else Peaks(look, low, end - 1) + if Peak(look, end - 1) then [end - 1] else []
  }

  function AllPeaks(look: Look, band: Band): seq<int> { Peaks(look, band.low, band.high + 1) }

  lemma {:induction false} PeaksAre(look: Look, low: int, end: int)
    ensures forall b :: b in Peaks(look, low, end) <==> low <= b < end && Peak(look, b)
    decreases end - low
  {
    if low < end {
      PeaksAre(look, low, end - 1);
    }
  }

  /** How many of the peaks are louder than this. */
  function Louder(look: Look, peaks: seq<int>, limit: real): (n: nat)
    decreases |peaks|
  {
    if peaks == [] then 0
    else Louder(look, peaks[..|peaks| - 1], limit) + if At(look, peaks[|peaks| - 1]) > limit then 1 else 0
  }

  /** Well above the median, and no more than two other peaks near its level. */
  predicate StandsOut(look: Look, band: Band, b: int)
    requires band.low <= band.high
  {
    && At(look, b) - Median(look, band) >= PROMINENCE
    && Louder(look, AllPeaks(look, band), At(look, b) - RIVAL_RANGE) - 1 <= MAX_RIVALS
  }

  predicate Qualifies(look: Look, band: Band, b: int)
    requires band.low <= band.high
  {
    band.low <= b <= band.high && Peak(look, b) && StandsOut(look, band, b)
  }

  /** The peaks that are louder than a limit. */
  ghost function LouderPeaks(look: Look, low: int, end: int, limit: real): set<int> {
    set o | low <= o < end && Peak(look, o) && At(look, o) > limit
  }

  lemma {:induction false} LouderCounts(look: Look, low: int, end: int, limit: real)
    ensures Louder(look, Peaks(look, low, end), limit) == |LouderPeaks(look, low, end, limit)|
    decreases end - low
  {
    hide LouderPeaks, Louder, Peaks;
    LouderPeaksMore(look, low, end, limit);
    PeaksMore(look, low, end, limit);
    if low < end {
      LouderCounts(look, low, end - 1, limit);
    }
  }

  lemma LouderPeaksMore(look: Look, low: int, end: int, limit: real)
    ensures var before := LouderPeaks(look, low, end - 1, limit);
      && LouderPeaks(look, low, end, limit) ==
         (if low < end && Peak(look, end - 1) && At(look, end - 1) > limit then before + {end - 1} else before)
      && end - 1 !in before && (low >= end ==> before == {})
  {
  }

  lemma PeaksMore(look: Look, low: int, end: int, limit: real)
    ensures Louder(look, Peaks(look, low, end), limit) ==
      if low >= end then 0
      else Louder(look, Peaks(look, low, end - 1), limit)
           + if Peak(look, end - 1) && At(look, end - 1) > limit then 1 else 0
  {
    if low < end {
      var p := Peaks(look, low, end - 1);
      assert (p + [end - 1])[..|p|] == p && p + [] == p;
    }
  }

  /** Which peaks are followed, in numbers: 25 dB above the median, and no more than two other
      peaks less than 15 dB below it or louder. */
  lemma QualifiesExactly(look: Look, band: Band, b: int)
    requires band.low <= band.high
    ensures Qualifies(look, band, b) <==>
      && band.low <= b <= band.high && At(look, b) > At(look, b - 1) && At(look, b) >= At(look, b + 1)
      && At(look, b) >= Median(look, band) + 25.0
      && |LouderPeaks(look, band.low, band.high + 1, At(look, b) - 15.0) - {b}| <= 2
  {
    hide Median, LouderPeaks;
    LouderCounts(look, band.low, band.high + 1, At(look, b) - RIVAL_RANGE);
    var louder := LouderPeaks(look, band.low, band.high + 1, At(look, b) - 15.0);
    if band.low <= b <= band.high && Peak(look, b) {
      IsLouder(look, band.low, band.high + 1, At(look, b) - 15.0, b);
      assert |louder - {b}| == |louder| - 1;
    }
  }

  lemma IsLouder(look: Look, low: int, end: int, limit: real, b: int)
    requires low <= b < end && Peak(look, b) && At(look, b) > limit
    ensures b in LouderPeaks(look, low, end, limit)
  {
  }

  // ------------------------------------------------ tracks

  predicate Near(a: int, b: int) { -1 <= a - b <= 1 }

  /** The track at `b`: continued from the first old one within a bin, or a new one. */
  function TrackAt(look: Look, tracks: seq<Track>, b: int): Track
    decreases |tracks|
  {
    if tracks == [] then Track(b, 1, At(look, b))
    else if Near(tracks[0].bin, b) then Track(b, tracks[0].frames + 1, tracks[0].firstLevel)
    else TrackAt(look, tracks[1..], b)
  }

  function Follow(look: Look, band: Band, tracks: seq<Track>, peaks: seq<int>): (next: seq<Track>)
    requires band.low <= band.high
    decreases |peaks|
  {
    if peaks == [] then []
    else
      var n := |peaks| - 1;
      Follow(look, band, tracks, peaks[..n]) +
      if StandsOut(look, band, peaks[n]) then [TrackAt(look, tracks, peaks[n])] else []
  }

  function Next(look: Look, band: Band, tracks: seq<Track>): seq<Track>
    requires band.low <= band.high
  {
    Follow(look, band, tracks, AllPeaks(look, band))
  }

  predicate Stood(look: Look, t: Track) { t.frames >= STANDING && At(look, t.bin) >= t.firstLevel }

  /** The bins whose tracks stood long enough and have not faded. */
  function Standing(look: Look, next: seq<Track>): (bins: seq<int>)
    decreases |next|
  {
    if next == [] then []
    else
      var n := |next| - 1;
      Standing(look, next[..n]) + if Stood(look, next[n]) then [next[n].bin] else []
  }

  /** The tracks after these analyses. */
  function Tracks(looks: seq<Look>, band: Band): seq<Track>
    requires band.low <= band.high
    decreases |looks|
  {
    if looks == [] then []
    else Next(looks[|looks| - 1], band, Tracks(looks[..|looks| - 1], band))
  }

  /** The tones the last of these analyses switches a notch on for. */
  function Tones(looks: seq<Look>, band: Band): seq<int>
    requires band.low <= band.high && looks != []
  {
    Standing(looks[|looks| - 1], Tracks(looks, band))
  }

  lemma {:induction false} FollowHas(look: Look, band: Band, tracks: seq<Track>, peaks: seq<int>)
    requires band.low <= band.high
    ensures forall t :: t in Follow(look, band, tracks, peaks) <==>
      t.bin in peaks && StandsOut(look, band, t.bin) && t == TrackAt(look, tracks, t.bin)
    decreases |peaks|
  {
    hide StandsOut;
    TrackBins(look, tracks);
    if peaks != [] {
      var n := |peaks| - 1;
      FollowHas(look, band, tracks, peaks[..n]);
      assert peaks == peaks[..n] + [peaks[n]];
    }
  }

  lemma {:induction false} TrackBin(look: Look, tracks: seq<Track>, b: int)
    ensures TrackAt(look, tracks, b).bin == b
    decreases |tracks|
  {
    if tracks != [] {
      TrackBin(look, tracks[1..], b);
    }
  }

  lemma TrackBins(look: Look, tracks: seq<Track>)
    ensures forall b :: TrackAt(look, tracks, b).bin == b
  {
    forall b ensures TrackAt(look, tracks, b).bin == b { TrackBin(look, tracks, b); }
  }

  /** A new analysis tracks exactly the peaks that qualify, each by its own track. */
  lemma NextHas(look: Look, band: Band, tracks: seq<Track>, t: Track)
    requires band.low <= band.high
    ensures t in Next(look, band, tracks) <==> Qualifies(look, band, t.bin) && t == TrackAt(look, tracks, t.bin)
  {
    hide StandsOut, Peaks, Follow;
    PeaksAre(look, band.low, band.high + 1);
    FollowHas(look, band, tracks, AllPeaks(look, band));
  }

  lemma {:induction false} StandingHas(look: Look, next: seq<Track>, b: int)
    ensures b in Standing(look, next) <==> exists t :: t in next && t.bin == b && Stood(look, t)
    decreases |next|
  {
    if next != [] {
      StandingHas(look, next[..|next| - 1], b);
      assert next == next[..|next| - 1] + [next[|next| - 1]];
    }
  }

  lemma {:induction false} TrackFrom(look: Look, tracks: seq<Track>, b: int)
    ensures var t := TrackAt(look, tracks, b);
      || t == Track(b, 1, At(look, b))
      || exists o :: o in tracks && Near(o.bin, b) && t == Track(b, o.frames + 1, o.firstLevel)
    decreases |tracks|
  {
    if tracks != [] && !Near(tracks[0].bin, b) {
      TrackFrom(look, tracks[1..], b);
    }
  }

  // ------------------------------------------------ what a track stands for

  /** One bin in each of the last `|c|` analyses, each qualifying there, each within a bin
      of the one before. */
  ghost predicate Chain(looks: seq<Look>, band: Band, c: seq<int>)
    requires band.low <= band.high
  {
    && 1 <= |c| <= |looks|
    && (forall i :: 0 <= i < |c| ==> Qualifies(looks[|looks| - |c| + i], band, c[i]))
    && (forall i :: 0 < i < |c| ==> Near(c[i - 1], c[i]))
  }

  /** A chain behind the track: as long as it says, from the level it says. */
  ghost predicate Behind(looks: seq<Look>, band: Band, t: Track, c: seq<int>)
    requires band.low <= band.high
  {
    && Chain(looks, band, c) && |c| == t.frames && c[|c| - 1] == t.bin
    && t.firstLevel == At(looks[|looks| - |c|], c[0])
  }

  lemma ChainGrows(looks: seq<Look>, band: Band, o: Track, c: seq<int>, b: int)
    requires band.low <= band.high && looks != [] && Near(o.bin, b)
    requires Behind(looks[..|looks| - 1], band, o, c) && Qualifies(looks[|looks| - 1], band, b)
    ensures Behind(looks, band, Track(b, o.frames + 1, o.firstLevel), c + [b])
  {
    hide Qualifies, At;
    var n := |looks| - 1;
    var d := c + [b];
    assert |looks| - |d| == n - |c|;
    forall i | 0 <= i < |d| ensures Qualifies(looks[|looks| - |d| + i], band, d[i]) {
      if i < |c| {
        assert Qualifies(looks[..n][n - |c| + i], band, c[i]);
      }
    }
  }

  /** Every track was seen in as many analyses in a row as it counts. */
  lemma {:induction false} TrackHeld(looks: seq<Look>, band: Band, t: Track) returns (c: seq<int>)
    requires band.low <= band.high && t in Tracks(looks, band)
    ensures Behind(looks, band, t, c)
    decreases |looks|
  {
    var n := |looks| - 1;
    var look, before := looks[n], Tracks(looks[..n], band);
    NextHas(look, band, before, t);
    TrackFrom(look, before, t.bin);
    hide Qualifies, Tracks, TrackAt;
    if t == Track(t.bin, 1, At(look, t.bin)) {
      c := [t.bin];
    } else {
      var o :| o in before && Near(o.bin, t.bin) && t == Track(t.bin, o.frames + 1, o.firstLevel);
      c := TrackHeld(looks[..n], band, o);
      ChainGrows(looks, band, o, c, t.bin);
      c := c + [t.bin];
    }
  }

  /** A tone is acted on only after 20 analyses in a row held a peak within a bin of the
      one before, the last no weaker than the first. */
  lemma ToneHeld(looks: seq<Look>, band: Band, b: int) returns (c: seq<int>)
    requires band.low <= band.high && looks != [] && b in Tones(looks, band)
    ensures Chain(looks, band, c) && |c| >= 20 && c[|c| - 1] == b
    ensures forall i :: 0 < i < |c| ==> -1 <= c[i] - c[i - 1] <= 1
    ensures At(looks[|looks| - 1], b) >= At(looks[|looks| - |c|], c[0])
  {
    hide Tracks, Qualifies;
    StandingHas(looks[|looks| - 1], Tracks(looks, band), b);
    var t :| t in Tracks(looks, band) && t.bin == b && Stood(looks[|looks| - 1], t);
    c := TrackHeld(looks, band, t);
  }

  lemma {:induction false} OnlyNear(look: Look, tracks: seq<Track>, t: Track)
    requires t in tracks && forall o :: o in tracks && Near(o.bin, t.bin) ==> o == t
    ensures TrackAt(look, tracks, t.bin) == Track(t.bin, t.frames + 1, t.firstLevel)
    decreases |tracks|
  {
    if !Near(tracks[0].bin, t.bin) {
      OnlyNear(look, tracks[1..], t);
    }
  }

  lemma {:induction false} NoneNear(look: Look, tracks: seq<Track>, b: int)
    requires forall o :: o in tracks ==> !Near(o.bin, b)
    ensures TrackAt(look, tracks, b) == Track(b, 1, At(look, b))
    decreases |tracks|
  {
    if tracks != [] {
      NoneNear(look, tracks[1..], b);
    }
  }

  /** The other way round: a tone that stays in one bin, where nothing was tracked before,
      is followed from its first analysis to its last. */
  lemma {:induction false} SteadyTone(looks: seq<Look>, band: Band, b: int, k: nat)
    requires band.low <= band.high && 1 <= k <= |looks|
    requires forall i :: |looks| - k <= i < |looks| ==> Qualifies(looks[i], band, b)
    requires forall o :: o in Tracks(looks[..|looks| - k], band) ==> !Near(o.bin, b)
    ensures Track(b, k, At(looks[|looks| - k], b)) in Tracks(looks, band)
    decreases k
  {
    hide Qualifies, Next;
    var n := |looks| - 1;
    var look, before := looks[n], Tracks(looks[..n], band);
    var t := Track(b, k, At(looks[|looks| - k], b));
    if k == 1 {
      NoneNear(look, before, b);
    } else {
      assert looks[..n][..n - (k - 1)] == looks[..|looks| - k];
      SteadyTone(looks[..n], band, b, k - 1);
      var o := Track(b, k - 1, t.firstLevel);
      Neighbours(looks[..n], band, o);
      OnlyNear(look, before, o);
    }
    NextHas(look, band, before, t);
  }

  /** Two peaks are never in neighbouring bins, so a track has no other near it. */
  lemma Neighbours(looks: seq<Look>, band: Band, t: Track)
    requires band.low <= band.high && t in Tracks(looks, band)
    ensures forall o :: o in Tracks(looks, band) && Near(o.bin, t.bin) ==> o == t
  {
    hide Next, StandsOut;
    var n := |looks| - 1;
    var before := Tracks(looks[..n], band);
    NextHas(looks[n], band, before, t);
    forall o | o in Tracks(looks, band) && Near(o.bin, t.bin) ensures o == t {
      NextHas(looks[n], band, before, o);
    }
  }

  /** Such a tone is acted on exactly if it stood for 20 analyses and has not faded. */
  lemma SteadyToneRings(looks: seq<Look>, band: Band, b: int, k: nat)
    requires band.low <= band.high && 1 <= k <= |looks|
    requires forall i :: |looks| - k <= i < |looks| ==> Qualifies(looks[i], band, b)
    requires forall o :: o in Tracks(looks[..|looks| - k], band) ==> o.bin < b - 1 || o.bin > b + 1
    ensures b in Tones(looks, band) <==>
      k >= 20 && At(looks[|looks| - 1], b) >= At(looks[|looks| - k], b)
  {
    hide Qualifies, Tracks;
    var t := Track(b, k, At(looks[|looks| - k], b));
    SteadyTone(looks, band, b, k);
    Neighbours(looks, band, t);
    StandingHas(looks[|looks| - 1], Tracks(looks, band), b);
  }

  /** In numbers: a peak goes on with the first track no more than one bin from it, and begins
      its own where there is none. */
  lemma {:induction false} TrackExactly(look: Look, tracks: seq<Track>, b: int, i: nat)
    requires i <= |tracks| && forall k :: 0 <= k < i ==> tracks[k].bin < b - 1 || tracks[k].bin > b + 1
    requires i < |tracks| ==> b - 1 <= tracks[i].bin <= b + 1
    ensures TrackAt(look, tracks, b) ==
      if i < |tracks| then Track(b, tracks[i].frames + 1, tracks[i].firstLevel) else Track(b, 1, At(look, b))
    decreases |tracks|
  {
    if i > 0 {
      TrackExactly(look, tracks[1..], b, i - 1);
    }
  }

  // ------------------------------------------------ how many tracks there can be

  lemma {:induction false} LouderThanAll(look: Look, band: Band, tracks: seq<Track>, peaks: seq<int>, limit: real)
    requires band.low <= band.high
    requires forall t :: t in Follow(look, band, tracks, peaks) ==> At(look, t.bin) > limit
    ensures |Follow(look, band, tracks, peaks)| <= Louder(look, peaks, limit)
    decreases |peaks|
  {
    hide StandsOut;
    if peaks != [] {
      var n := |peaks| - 1;
      LouderThanAll(look, band, tracks, peaks[..n], limit);
      TrackBin(look, tracks, peaks[n]);
      if StandsOut(look, band, peaks[n]) {
        assert TrackAt(look, tracks, peaks[n]) in Follow(look, band, tracks, peaks);
      }
    }
  }

  lemma {:induction false} Weakest(look: Look, tracks: seq<Track>) returns (t: Track)
    requires tracks != []
    ensures t in tracks && forall o :: o in tracks ==> At(look, t.bin) <= At(look, o.bin)
    decreases |tracks|
  {
    t := tracks[0];
    if |tracks| > 1 {
      var u := Weakest(look, tracks[1..]);
      if At(look, u.bin) < At(look, t.bin) {
        t := u;
      }
      assert forall o :: o in tracks ==> o == tracks[0] || o in tracks[1..];
    }
  }

  /** The rival rule leaves no room for more than three tracks, weakest included. */
  lemma AtMostThree(looks: seq<Look>, band: Band)
    requires band.low <= band.high
    ensures |Tracks(looks, band)| <= 3
  {
    if Tracks(looks, band) != [] {
      hide Median, Peaks, Follow, Louder;
      var n := |looks| - 1;
      var before := Tracks(looks[..n], band);
      var t := Weakest(looks[n], Tracks(looks, band));
      NextHas(looks[n], band, before, t);
      LouderThanAll(looks[n], band, before, AllPeaks(looks[n], band), At(looks[n], t.bin) - RIVAL_RANGE);
    }
  }
}
