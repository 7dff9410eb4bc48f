/** Capture buffers of any size through a processor of 10 ms frames: what goes out lags
    what comes in by exactly one frame. */
module EchoFrames {
  const FRAME := 480

  type Samples = seq<int>

  /** The echo canceller's chain as an opaque transducer of frames: its state, where the
      frame lies and the frame in; its state and the cleaned frame out. */
  type Chain<!T> = (T, int, Samples) -> (T, Samples)

  ghost predicate FrameToFrame<T(!new)>(run: Chain<T>) {
    forall t, p, f {:trigger run(t, p, f)} :: |f| == FRAME ==> |run(t, p, f).1| == FRAME
  }

  datatype Through<T> = Through(state: T, out: Samples)

  /** Every full frame of `s`, one after another. */
  function Processed<T>(run: Chain<T>, t: T, pos: int, s: Samples): Through<T>
    decreases |s|
  {
    if |s| < FRAME then Through(t, [])
    else
      var first := run(t, pos, s[..FRAME]);
      var rest := Processed(run, first.0, pos + FRAME, s[FRAME..]);
      Through(rest.state, first.1 + rest.out)
  }

  /** The samples of the last, unfinished frame. */
  function Waiting(s: Samples): (w: Samples)
    ensures |w| == |s| % FRAME
  {
    s[|s| - |s| % FRAME..]
  }

  lemma {:induction false} ProcessedLength<T(!new)>(run: Chain<T>, t: T, pos: int, s: Samples)
    requires FrameToFrame(run)
    ensures |Processed(run, t, pos, s).out| == |s| - |s| % 480
    decreases |s|
  {
    if |s| >= FRAME {
      ProcessedLength(run, run(t, pos, s[..FRAME]).0, pos + FRAME, s[FRAME..]);
    }
  }

  /** Cutting after whole frames changes nothing. */
  lemma {:induction false} ProcessedCut<T>(run: Chain<T>, t: T, pos: int, a: Samples, b: Samples)
    requires |a| % FRAME == 0
    ensures var x := Processed(run, t, pos, a);
      var y := Processed(run, x.state, pos + |a|, b);
      Processed(run, t, pos, a + b) == Through(y.state, x.out + y.out)
    decreases |a|
  {
    if a == [] {
      assert a + b == b;
    } else {
      var first := run(t, pos, a[..FRAME]);
      ProcessedCut(run, first.0, pos + FRAME, a[FRAME..], b);
      assert (a + b)[..FRAME] == a[..FRAME] && (a + b)[FRAME..] == a[FRAME..] + b;
      var x := Processed(run, first.0, pos + FRAME, a[FRAME..]);
      var y := Processed(run, x.state, pos + |a|, b);
      assert first.1 + (x.out + y.out) == (first.1 + x.out) + y.out;
    }
  }

  /** New samples join what was waiting; the rest is already through. */
  lemma ProcessedMore<T>(run: Chain<T>, t: T, pos: int, s: Samples, more: Samples)
    ensures var x := Processed(run, t, pos, s);
      var y := Processed(run, x.state, pos + |s| - |s| % FRAME, Waiting(s) + more);
      && Processed(run, t, pos, s + more) == Through(y.state, x.out + y.out)
      && Waiting(s + more) == Waiting(Waiting(s) + more)
  {
    hide *;
    WaitingMore(s, more);
    WaitingRest(s);
    var n := |s| - |s| % FRAME;
    ProcessedJoin(run, t, pos, s[..n], Waiting(s), more);
    assert s + more == s[..n] + (Waiting(s) + more);
  }

  lemma WaitingRest(s: Samples)
    ensures var n := |s| - |s| % FRAME;
      && 0 <= n <= |s| && n % FRAME == 0 && s == s[..n] + Waiting(s)
    ensures |Waiting(s)| < FRAME
    ensures s == [] ==> Waiting(s) == []
  {
  }

  lemma ProcessedJoin<T>(run: Chain<T>, t: T, pos: int, whole: Samples, w: Samples, more: Samples)
    requires |whole| % FRAME == 0 && |w| < FRAME
    ensures var x := Processed(run, t, pos, whole + w);
      var y := Processed(run, x.state, pos + |whole|, w + more);
      Processed(run, t, pos, whole + (w + more)) == Through(y.state, x.out + y.out)
  {
    hide *;
    var x := Processed(run, t, pos, whole);
    ProcessedCut(run, t, pos, whole, w);
    ProcessedShort(run, x.state, pos + |whole|, w);
    assert x.out + [] == x.out;
    ProcessedCut(run, t, pos, whole, w + more);
  }

  lemma WaitingMore(s: Samples, more: Samples)
    ensures Waiting(s + more) == Waiting(Waiting(s) + more)
  {
    var whole := |s| - |s| % FRAME;
    var all, tail := s + more, Waiting(s) + more;
    WholeFrames(whole, |tail|);
    var n := |tail| % FRAME;
    assert all == s[..whole] + tail;
    assert all[|all| - n..] == tail[|tail| - n..];
  }

  lemma WholeFrames(whole: nat, n: nat)
    requires whole % FRAME == 0
    ensures (whole + n) % FRAME == n % FRAME
  {
  }

  /** One frame of silence, then the stream: the output of a recording heard from `pos` on,
      as long as it is, whatever buffers it came in. */
  function Delayed<T>(run: Chain<T>, t: T, pos: int, s: Samples): Samples {
    var all := Silence() + Processed(run, t, pos, s).out;
    if |s| <= |all| then all[..|s|] else all
  }

  /** What a capture has given out; and since the last jump: the chain's state and position
      there, the samples heard, and what had been queued before. */
  datatype Record<T> = Record(given: Samples, since: T, from: int, segment: Samples, before: Samples)

  /** All that comes out once enough goes in. */
  function Stream<T>(run: Chain<T>, h: Record<T>): Samples {
    h.before + Processed(run, h.since, h.from, h.segment).out
  }

  /** A buffer without a stamp belongs where the last one ended, and so does one stamped
      within half a frame of that place, once a place is known. */
  predicate Continues<T>(h: Record<T>, pos: int) {
    || pos < 0
    || ((h.from >= 0 || |h.segment| >= 480) && -240 <= pos - (h.from + |h.segment|) <= 240)
  }

  /** What a buffer makes of it: one that continues joins the segment, any other the next
      one. */
  function Captured<T>(run: Chain<T>, h: Record<T>, pos: int, samples: Samples): Record<T> {
    Taken(run, if Continues(h, pos) then h else Over(run, h, pos), samples)
  }

  /** A segment ends: what was waiting goes out as it came, and the next begins at `pos`. */
  function Over<T>(run: Chain<T>, h: Record<T>, pos: int): Record<T> {
    Record(h.given, Processed(run, h.since, h.from, h.segment).state, pos, [], Stream(run, h) + Waiting(h.segment))
  }

  /** Samples in, and as many out. */
  function Taken<T>(run: Chain<T>, h: Record<T>, samples: Samples): Record<T> {
    var w := h.(segment := h.segment + samples);
    w.(given := Upto(Stream(run, w), |h.given| + |samples|))
  }

  function Upto(s: Samples, n: nat): Samples { if n <= |s| then s[..n] else s }

  function Silence(): (s: Samples)
    ensures |s| == FRAME
  {
    seq(FRAME, _ => 0)
  }

  class Capture<T(!new)> {
    const run: Chain<T>
    var state: T
    var captureIn: Samples
    var captureOut: Samples
    var capturePos: int
    /** Everything given out; and since the last jump: the chain's state and position
        there, the samples heard, and what had been queued before. */
    ghost var given: Samples
    ghost var since: T
    ghost var from: int
    ghost var segment: Samples
    ghost var before: Samples

    ghost predicate Valid()
      reads this
    {
      && FrameToFrame(run)
      && |captureIn| + |captureOut| == FRAME
      && captureIn == Waiting(segment)
      && state == Processed(run, since, from, segment).state
      && capturePos == from + |segment| - |segment| % FRAME
      && given + captureOut == Stream(run, Value())
      && from >= -1
    }

    ghost function Value(): Record<T>
      reads this
    {
      Record(given, since, from, segment, before)
    }

    constructor (run: Chain<T>, state: T)
      requires FrameToFrame(run)
      ensures Valid() && this.run == run && since == state && from == -1
      ensures given == [] && segment == [] && before == Silence()
    {
      this.run := run;
      this.state := state;
      captureIn, captureOut, capturePos := [], Silence(), -1;
      given, since, from, segment, before := [], state, -1, [], Silence();
      new;
      hide Silence, Processed;
      ProcessedShort(run, state, -1, []);
      assert given + captureOut == before + [];
    }

    /** Whether a buffer stamped `pos` does not continue the last one. */
    predicate Jumps(pos: int)
      reads this
    {
      var expected := capturePos + |captureIn|;
      pos >= 0 && (capturePos < 0 || (if pos >= expected then pos - expected else expected - pos) > FRAME / 2)
    }

    lemma JumpsIs(pos: int)
      requires Valid()
      ensures Jumps(pos) <==> !Continues(Value(), pos)
    {
      hide Processed, Waiting;
    }

    /** A gap or a jump: what is half a frame goes out as it came. */
    method Rejoin(pos: int)
      requires Valid() && 0 <= pos
      modifies this
      ensures Valid() && Value() == Over(run, old(Value()), pos)
    {
      hide Processed, Waiting;
      WaitingRest([]);
      captureOut := captureOut + captureIn;
      before := Stream(run, Value()) + captureIn;
      assert given + captureOut == before;
      captureIn := [];
      capturePos := pos;
      since, from, segment := state, pos, [];
      ProcessedShort(run, since, from, []);
      assert before + [] == before;
    }

    /** The loop over whole frames, and what is left waiting. */
    method RunFrames()
      requires FrameToFrame(run)
      modifies `state, `captureIn, `captureOut, `capturePos
      ensures captureIn == Waiting(old(captureIn))
      ensures var through := Processed(run, old(state), old(capturePos), old(captureIn));
        state == through.state && captureOut == old(captureOut) + through.out
      ensures capturePos == old(capturePos + |captureIn| - |captureIn| % FRAME)
    {
      hide Processed;
      ghost var all, start := captureIn, capturePos;
      ghost var through := Processed(run, state, start, all);
      var done := 0;
      assert all[0..] == all;
      while done + FRAME <= |captureIn|
        invariant 0 <= done <= |captureIn| && done % FRAME == 0 && captureIn == all
        invariant capturePos == start + done
        invariant Processed(run, state, capturePos, all[done..]).state == through.state
        invariant captureOut + Processed(run, state, capturePos, all[done..]).out == old(captureOut) + through.out
      {
        ghost var left := all[done..];
        ProcessedFirst(run, state, capturePos, left);
        assert left[..FRAME] == captureIn[done..done + FRAME] && left[FRAME..] == all[done + FRAME..];
        ghost var out := captureOut;
        ghost var rest := Processed(run, run(state, capturePos, left[..FRAME]).0, capturePos + FRAME, left[FRAME..]);
        Process(captureIn[done..done + FRAME]);
        assert captureOut + rest.out == out + (captureOut[|out|..] + rest.out);
        done := done + FRAME;
      }
      ProcessedShort(run, state, capturePos, all[done..]);
      captureIn := captureIn[done..];
    }

    /** One buffer, overwritten in place by the caller with what comes back. */
    method OnCapture(pos: int, samples: Samples) returns (out: Samples)
      requires Valid()
      modifies this
      ensures Valid()
      ensures |out| == |samples| && given == old(given) + out
      ensures Value() == Captured(run, old(Value()), pos, samples)
    {
      JumpsIs(pos);
      hide Processed, Continues, Over, Taken, Valid;
      if Jumps(pos) {
        Rejoin(pos);
      }
      out := Take(samples);
    }

    /** Samples in, and as many out. */
    method Take(samples: Samples) returns (out: Samples)
      requires Valid()
      modifies this
      ensures Valid() && |out| == |samples| && given == old(given) + out
      ensures Value() == Taken(run, old(Value()), samples)
    {
      hide Processed, Waiting;
      ghost var was, held, queued := segment, captureOut, Processed(run, since, from, segment).out;
      ProcessedMore(run, since, from, segment, samples);
      segment := segment + samples;
      captureIn := captureIn + samples;
      ghost var through := Processed(run, state, capturePos, captureIn).out;
      ProcessedLength(run, state, capturePos, captureIn);
      RunFrames();
      out := captureOut[..|samples|];
      captureOut := captureOut[|samples|..];
      Regroup(given, held, through, before, queued, |samples|);
      given := given + out;
      assert (given + captureOut)[..|given|] == given;
    }

    lemma Regroup(g: Samples, held: Samples, through: Samples, b: Samples, queued: Samples, n: nat)
      requires g + held == b + queued && n <= |held + through|
      ensures (g + (held + through)[..n]) + (held + through)[n..] == b + (queued + through)
    {
      var all := held + through;
      assert all == all[..n] + all[n..];
      assert (g + all[..n]) + all[n..] == g + all == (g + held) + through;
      assert b + (queued + through) == (b + queued) + through;
    }

    /** One frame through the chain. */
    method Process(frame: Samples)
      requires |frame| == FRAME
      modifies `state, `captureOut, `capturePos
      ensures state == run(old(state), old(capturePos), frame).0
      ensures captureOut == old(captureOut) + run(old(state), old(capturePos), frame).1
      ensures capturePos == old(capturePos) + FRAME
    {
      var cleaned := run(state, capturePos, frame);
      state := cleaned.0;
      captureOut := captureOut + cleaned.1;
      capturePos := capturePos + FRAME;
    }
  }

  // ------------------------------------------------ any number of buffers

  function Unheard<T>(t: T): Record<T> { Record([], t, -1, [], Silence()) }

  /** Buffers with their stamps, one after another. */
  function Recorded<T>(run: Chain<T>, h: Record<T>, stamps: seq<int>, buffers: seq<Samples>): Record<T>
    requires |stamps| == |buffers|
    decreases |buffers|
  {
    if buffers == [] then h
    else
      var n := |buffers| - 1;
      Captured(run, Recorded(run, h, stamps[..n], buffers[..n]), stamps[n], buffers[n])
  }

  function Joined(buffers: seq<Samples>): Samples
    decreases |buffers|
  {
    if buffers == [] then [] else Joined(buffers[..|buffers| - 1]) + buffers[|buffers| - 1]
  }

  /** Which buffers begin anew, in numbers: the stamped ones that come before any whole frame
      had a place, or lie more than 240 samples from where the last buffer ended. */
  lemma JumpsExactly<T>(run: Chain<T>, h: Record<T>, pos: int, samples: Samples)
    requires h.from >= -1
    ensures var w, end := Captured(run, h, pos, samples), h.from + |h.segment|;
      if pos >= 0 && ((h.from < 0 && |h.segment| < 480) || pos > end + 240 || pos < end - 240)
      then
        && w.from == pos && w.segment == samples && w.since == Processed(run, h.since, h.from, h.segment).state
        && w.before == Stream(run, h) + Waiting(h.segment)
      else w.from == h.from && w.segment == h.segment + samples && w.since == h.since && w.before == h.before
  {
    hide Processed, Waiting;
  }

  /** What is given is the beginning of the stream, and lags by one frame with what waits. */
  ghost predicate Lags<T>(run: Chain<T>, h: Record<T>) {
    && |h.given| <= |Stream(run, h)| && h.given == Stream(run, h)[..|h.given|]
    && |Stream(run, h)| + |Waiting(h.segment)| == |h.given| + FRAME
  }

  lemma CapturedLags<T(!new)>(run: Chain<T>, h: Record<T>, pos: int, samples: Samples)
    requires FrameToFrame(run) && Lags(run, h)
    ensures Lags(run, Captured(run, h, pos, samples))
    ensures |Captured(run, h, pos, samples).given| == |h.given| + |samples|
    ensures Captured(run, h, pos, samples).given[..|h.given|] == h.given
  {
    var w := Captured(run, h, pos, samples);
    ProcessedLength(run, h.since, h.from, h.segment);
    ProcessedLength(run, w.since, w.from, w.segment);
    if Continues(h, pos) {
      ProcessedMore(run, h.since, h.from, h.segment, samples);
    }
    hide Processed, Continues;
    assert Stream(run, h) <= Stream(run, w);
  }

  /** In every run, jumps or not, as many samples are given as came in, none taken back. */
  lemma {:induction false} AsMuchAsCame<T(!new)>(run: Chain<T>, t: T, stamps: seq<int>, buffers: seq<Samples>)
    requires FrameToFrame(run) && |stamps| == |buffers|
    ensures var h := Recorded(run, Unheard(t), stamps, buffers);
      Lags(run, h) && |h.given| == |Joined(buffers)| && |Stream(run, h)| + |Waiting(h.segment)| == |h.given| + 480
    decreases |buffers|
  {
    hide Captured;
    if buffers == [] {
      UnheardLags(run, t);
    } else {
      var n := |buffers| - 1;
      AsMuchAsCame(run, t, stamps[..n], buffers[..n]);
      CapturedLags(run, Recorded(run, Unheard(t), stamps[..n], buffers[..n]), stamps[n], buffers[n]);
    }
  }

  lemma UnheardLags<T>(run: Chain<T>, t: T)
    ensures Lags(run, Unheard(t))
  {
  }

  /** The first buffer is stamped, and every other within half a frame of where the one before
      ended, or not at all. */
  predicate InStep(stamps: seq<int>, buffers: seq<Samples>)
    requires |stamps| == |buffers|
  {
    && (stamps != [] ==> stamps[0] >= 0)
    && forall i {:trigger stamps[i]} :: 0 < i < |stamps| ==>
         stamps[i] < 0 || -240 <= stamps[i] - stamps[0] - |Joined(buffers[..i])| <= 240
  }

  lemma {:induction false} OneSegment<T>(run: Chain<T>, t: T, stamps: seq<int>, buffers: seq<Samples>)
    requires |stamps| == |buffers| > 0 && InStep(stamps, buffers)
    ensures var h := Recorded(run, Unheard(t), stamps, buffers);
      h.since == t && h.from == stamps[0] && h.segment == Joined(buffers) && h.before == Silence()
    decreases |buffers|
  {
    var n := |buffers| - 1;
    hide Silence, Processed, Joined, Recorded;
    RecordedMore(run, Unheard(t), stamps, buffers);
    JoinedMore(buffers);
    if n == 0 {
      FirstSegment(run, t, stamps[0], buffers[0]);
      assert [] + buffers[0] == buffers[0];
    } else {
      forall i | 0 < i < n
        ensures stamps[i] < 0 || -240 <= stamps[..n][i] - stamps[0] - |Joined(buffers[..n][..i])| <= 240
      {
        assert buffers[..n][..i] == buffers[..i];
      }
      OneSegment(run, t, stamps[..n], buffers[..n]);
    }
  }

  lemma FirstSegment<T>(run: Chain<T>, t: T, pos: int, samples: Samples)
    requires pos >= 0
    ensures var h := Captured(run, Unheard(t), pos, samples);
      h.since == t && h.from == pos && h.segment == samples && h.before == Silence()
  {
    hide Silence;
    assert Silence() + [] + [] == Silence();
  }

  lemma RecordedMore<T>(run: Chain<T>, h: Record<T>, stamps: seq<int>, buffers: seq<Samples>)
    requires |stamps| == |buffers| > 0
    ensures var n := |buffers| - 1;
      Recorded(run, h, stamps, buffers) ==
      Captured(run, Recorded(run, h, stamps[..n], buffers[..n]), stamps[n], buffers[n])
    ensures Recorded(run, h, [], []) == h
  {
    hide Captured;
  }

  lemma JoinedMore(buffers: seq<Samples>)
    requires buffers != []
    ensures var n := |buffers| - 1; Joined(buffers) == Joined(buffers[..n]) + buffers[n]
    ensures Joined([]) == []
  {
  }

  /** Over every such run what is given out is determined by what was heard: it does not depend
      on how the stream was cut, and no frame goes around the canceller. */
  lemma CutsDoNotMatter<T(!new)>(run: Chain<T>, t: T, stamps: seq<int>, buffers: seq<Samples>)
    requires FrameToFrame(run) && |stamps| == |buffers| > 0 && InStep(stamps, buffers)
    ensures Recorded(run, Unheard(t), stamps, buffers).given == Delayed(run, t, stamps[0], Joined(buffers))
  {
    AsMuchAsCame(run, t, stamps, buffers);
    OneSegment(run, t, stamps, buffers);
    ProcessedLength(run, t, stamps[0], Joined(buffers));
    hide Processed, Recorded, Joined, InStep, Silence;
  }

  lemma ProcessedShort<T>(run: Chain<T>, t: T, pos: int, s: Samples)
    requires |s| < FRAME
    ensures Processed(run, t, pos, s) == Through(t, [])
  {
  }

  lemma ProcessedFirst<T>(run: Chain<T>, t: T, pos: int, s: Samples)
    requires |s| >= FRAME
    ensures var first := run(t, pos, s[..FRAME]);
      var rest := Processed(run, first.0, pos + FRAME, s[FRAME..]);
      Processed(run, t, pos, s) == Through(rest.state, first.1 + rest.out)
  {
  }
}
