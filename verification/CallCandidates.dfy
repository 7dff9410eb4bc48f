/** What happens to ICE candidates over a whole run of one engine, both ways. */
module CallCandidates {
  import opened CallEngine

  /** An engine and what a witness beside it has seen: the candidates the other side sent
      for the call being answered and those the pipeline was given since it rang; and, for
      the running pipeline, what it gathered, what was sent of that, and for which call. */
  datatype Trace = Trace(e: Engine, heard: seq<Candidate>, handed: seq<Candidate>,
                         gathered: seq<Candidate>, sent: seq<Candidate>, builtFor: Id)

  const Start := Trace(Fresh, [], [], [], [], No)

  function Given(out: seq<Out>): seq<Candidate>
    decreases |out|
  {
    if out == [] then []
    else Given(out[..|out| - 1]) + if out[|out| - 1].AddIce? then [out[|out| - 1].candidate] else []
  }

  function Batched(out: seq<Out>): seq<Candidate>
    decreases |out|
  {
    if out == [] then []
    else Batched(out[..|out| - 1]) + if out[|out| - 1].SendCandidates? then out[|out| - 1].batch else []
  }

  predicate Rings(e: Engine, a: Action) { a.GotInvite? && e.state == Idle }

  function Next(t: Trace, a: Action): Trace {
    var r := Step(t.e, a);
    var heard :=
      if Rings(t.e, a) then []
      else if a.GotCandidates? && InCall(t.e) && Hears(t.e, a.room, a.sender, a.call) then t.heard + NonEmpty(a.cs)
      else t.heard;
    var handed := if Rings(t.e, a) then [] else t.handed + Given(r.out);
    if r.e.generation != t.e.generation then Trace(r.e, heard, handed, [], [], r.e.call)
    else Trace(r.e, heard, handed,
               t.gathered + (if a.Gathered? && Current(t.e, a.g) then [a.candidate] else []),
               t.sent + Batched(r.out), t.builtFor)
  }

  ghost predicate Run(ts: seq<Trace>, actions: seq<Action>) {
    && |ts| == |actions| + 1 && ts[0] == Start
    && forall i :: 0 <= i < |actions| ==> Possible(ts[i].e, actions[i]) && ts[i + 1] == Next(ts[i], actions[i])
  }

  /** In a call being answered the pipeline holds exactly what was heard, each once and in
      order; before there is one, exactly that is held back. */
  ghost predicate NothingLost(t: Trace) {
    InCall(t.e) ==> if t.e.webrtc then t.handed == t.heard else t.handed == [] && NonEmpty(t.e.early) == t.heard
  }

  /** What the pipeline gathered is what was sent for its call plus what waits, in order. */
  ghost predicate NothingMixed(t: Trace) {
    t.e.webrtc ==> t.e.call == t.builtFor && t.sent + t.e.pending == t.gathered
  }

  lemma {:induction false} NonEmptyConcat(a: seq<Candidate>, b: seq<Candidate>)
    ensures NonEmpty(a + b) == NonEmpty(a) + NonEmpty(b)
    decreases |b|
  {
    if b == [] {
      assert a + b == a;
    } else {
      assert (a + b)[..|a + b| - 1] == a + b[..|b| - 1];
      NonEmptyConcat(a, b[..|b| - 1]);
    }
  }

  lemma {:induction false} GivenConcat(a: seq<Out>, b: seq<Out>)
    ensures Given(a + b) == Given(a) + Given(b)
    decreases |b|
  {
    if b == [] {
      assert a + b == a;
    } else {
      assert (a + b)[..|a + b| - 1] == a + b[..|b| - 1];
      GivenConcat(a, b[..|b| - 1]);
    }
  }

  lemma {:induction false} GivenIces(cs: seq<Candidate>)
    ensures Given(Ices(cs)) == NonEmpty(cs)
    ensures forall o :: o in Ices(cs) ==> o.AddIce?
    decreases |cs|
  {
    if cs != [] {
      var front, last := Ices(cs[..|cs| - 1]), if cs[|cs| - 1] == End then [] else [AddIce(cs[|cs| - 1])];
      GivenIces(cs[..|cs| - 1]);
      GivenConcat(front, last);
      OneOut(AddIce(cs[|cs| - 1]));
      hide Given;
    }
  }

  lemma {:induction false} NoneGiven(out: seq<Out>)
    ensures (forall o :: o in out ==> !o.AddIce?) ==> Given(out) == []
    ensures (forall o :: o in out ==> !o.SendCandidates?) ==> Batched(out) == []
    decreases |out|
  {
    if out != [] {
      NoneGiven(out[..|out| - 1]);
      assert out[|out| - 1] in out;
      assert forall o :: o in out[..|out| - 1] ==> o in out;
    }
  }

  lemma OneOut(o: Out)
    ensures Given([o]) == if o.AddIce? then [o.candidate] else []
    ensures Batched([o]) == if o.SendCandidates? then o.batch else []
    ensures Given([]) == [] && Batched([]) == []
  {
    assert [o][..0] == [];
  }

  lemma StartsGood()
    ensures Sound(Start.e) && NothingLost(Start) && NothingMixed(Start)
  {
  }

  /** What a step says, and what it does to the pipeline, the call and the queues. */
  ghost predicate ShapeOut(e: Engine, a: Action, r: Result) {
    && (!a.GotCandidates? && !a.DoAccept? && !a.RelayCame? ==> forall o :: o in r.out ==> !o.AddIce?)
    && (!a.Flush? ==> forall o :: o in r.out ==> !o.SendCandidates?)
    && (a.Flush? ==> r.out == [] || r.out == [SendCandidates(e.room, e.call, e.party, e.pending)])
    && (a.Flush? && e.webrtc && e.room != No && e.call != No && e.pending != [] ==> r.out != [])
    && (a.Flush? && !e.webrtc && e.pending == [] ==> r.out == [])
  }

  ghost predicate ShapeState(e: Engine, a: Action, e': Engine) {
    && (e'.generation != e.generation ==>
          e'.pending == [] && (InCall(e') ==> a.DoAccept? || a.RelayCame?))
    && (e'.generation == e.generation ==>
          && e'.webrtc == e.webrtc
          && (e.webrtc ==> e'.call == e.call && e'.room == e.room)
          && (InCall(e') ==> InCall(e) || Rings(e, a))
          && (!a.GotCandidates? && !Rings(e, a) ==> e'.early == e.early)
          && (e.webrtc ==> e'.pending == Waits(e, a)))
  }

  ghost predicate Shape(e: Engine, a: Action, r: Result) { ShapeOut(e, a, r) && ShapeState(e, a, r.e) }

  function Waits(e: Engine, a: Action): seq<Candidate> {
    if a.Flush? then [] else if a.Gathered? && Current(e, a.g) then e.pending + [a.candidate] else e.pending
  }

  lemma EndShape(e: Engine, a: Action)
    requires Sound(e) && Possible(e, a)
    requires a.DoHangUp? || a.RingTimeout? || a.GraceExpired? || a.MediaSilent? || a.MediaFailed? || a.Disconnected?
    ensures Shape(e, a, Step(e, a))
  {
    hide Sound, Possible;
  }

  lemma ToldShape(e: Engine, a: Action)
    requires Sound(e) && Possible(e, a)
    requires a.GotElsewhere? || a.GotSelect? || a.GotHangup? || a.PipelineError? || a.GotAnswer?
    ensures Shape(e, a, Step(e, a))
  {
    hide Possible;
  }

  lemma GoShape(e: Engine, a: Action)
    requires Sound(e) && Possible(e, a)
    requires a.DoPlace? || a.ExpectPeer? || a.GotInvite? || a.Connected? || a.Described? || a.Gathered? || a.Flush?
    ensures Shape(e, a, Step(e, a))
  {
  }

  lemma HearShape(e: Engine, a: Action)
    requires Sound(e) && Possible(e, a) && a.GotCandidates?
    ensures Shape(e, a, Step(e, a))
  {
    GivenIces(a.cs);
    hide Ices, Sound, Possible, Given, NonEmpty;
  }

  lemma AnswerShape(e: Engine, a: Action)
    requires Sound(e) && Possible(e, a) && (a.DoAccept? || a.RelayCame?)
    ensures Shape(e, a, Step(e, a))
  {
    GivenIces(e.early);
    hide Ices, Possible, Given, NonEmpty;
    var r := Step(e, a);
    assert ShapeState(e, a, r.e);
  }

  lemma HasShape(e: Engine, a: Action)
    requires Sound(e) && Possible(e, a)
    ensures Shape(e, a, Step(e, a))
  {
    hide Shape, Step, Sound, Possible;
    if a.GotCandidates? {
      HearShape(e, a);
    } else if a.DoAccept? || a.RelayCame? {
      AnswerShape(e, a);
    } else if a.DoPlace? || a.ExpectPeer? || a.GotInvite? || a.Connected? || a.Described? || a.Gathered? || a.Flush? {
      GoShape(e, a);
    } else if a.GotElsewhere? || a.GotSelect? || a.GotHangup? || a.PipelineError? || a.GotAnswer? {
      ToldShape(e, a);
    } else {
      EndShape(e, a);
    }
  }

  lemma HearingGives(t: Trace, a: Action)
    requires Sound(t.e) && NothingLost(t) && Possible(t.e, a) && a.GotCandidates?
    ensures NothingLost(Next(t, a))
  {
    var e, cs := t.e, a.cs;
    assert Step(e, a) == RemoteCandidates(e, a.room, a.sender, a.call, cs);
    GivenIces(cs);
    NonEmptyConcat(e.early, cs);
    OneOut(NeedRelay);
    hide Given, NonEmpty, Ices, Batched, Sound, Possible, Step;
    var n := Next(t, a);
    if Hears(e, a.room, a.sender, a.call) && InCall(e) && e.webrtc {
      assert n.handed == t.handed + NonEmpty(cs);
    } else {
      assert n.handed == t.handed + Given(RemoteCandidates(e, a.room, a.sender, a.call, cs).out);
    }
  }

  /** Accepting, at once or when the relay has come, gives what was held. */
  lemma AnsweringGives(t: Trace, a: Action)
    requires Sound(t.e) && NothingLost(t) && Possible(t.e, a) && (a.DoAccept? || a.RelayCame?)
    ensures NothingLost(Next(t, a))
  {
    AnswerGives(t.e);
    OneOut(NeedRelay);
    hide Given, NonEmpty, Ices, Batched;
    var r := Step(t.e, a);
    if InCall(r.e) && r.e.webrtc && !t.e.webrtc {
      assert r.out == [ApplyRemote(t.e.offer, true)] + Ices(t.e.early);
      assert Next(t, a).handed == NonEmpty(t.e.early);
    } else {
      assert InCall(r.e) ==> r.out == [] || r.out == [NeedRelay];
    }
  }

  lemma LostKept(t: Trace, a: Action)
    requires Sound(t.e) && NothingLost(t) && Possible(t.e, a)
    ensures NothingLost(Next(t, a))
  {
    if a.DoAccept? || a.RelayCame? {
      AnsweringGives(t, a);
    } else if a.GotCandidates? {
      HearingGives(t, a);
    } else {
      HasShape(t.e, a);
      NoneGiven(Step(t.e, a).out);
      NonEmptyNone();
      if Rings(t.e, a) {
        assert NothingLost(Next(t, a));
      } else {
        hide Step, Given, NonEmpty, Batched;
      }
    }
  }

  lemma NonEmptyNone()
    ensures NonEmpty([]) == []
  {
  }

  lemma AnswerGives(e: Engine)
    ensures Given([ApplyRemote(e.offer, true)] + Ices(e.early)) == NonEmpty(e.early)
  {
    GivenConcat([ApplyRemote(e.offer, true)], Ices(e.early));
    OneOut(ApplyRemote(e.offer, true));
    GivenIces(e.early);
  }

  lemma BatchIsWaiting(e: Engine, a: Action)
    requires Sound(e) && Possible(e, a)
    ensures var out := Step(e, a).out;
      && (e.webrtc ==> Batched(out) == if a.Flush? then e.pending else [])
      && forall o :: o in out && o.SendCandidates? ==>
           e.webrtc && o == SendCandidates(e.room, e.call, e.party, e.pending)
  {
    HasShape(e, a);
    var out := Step(e, a).out;
    NoneGiven(out);
    OneOut(SendCandidates(e.room, e.call, e.party, e.pending));
    hide Step, Given, Batched, Possible, ShapeState, Waits;
  }

  lemma MixedKept(t: Trace, a: Action)
    requires Sound(t.e) && NothingMixed(t) && Possible(t.e, a)
    ensures NothingMixed(Next(t, a))
    ensures forall o :: o in Step(t.e, a).out && o.SendCandidates? ==>
      t.e.webrtc && o.call == t.builtFor && o.room == t.e.room && t.sent + o.batch == t.gathered
  {
    HasShape(t.e, a);
    BatchIsWaiting(t.e, a);
    hide Step, Given, Batched, InCall, Hears, Possible, Sound, ShapeOut, NonEmpty;
    var e, n := t.e, Next(t, a);
    if n.e.generation == e.generation && e.webrtc {
      assert t.sent + e.pending == t.gathered;
      if a.Flush? {
        assert n.sent + [] == n.sent;
      } else {
        assert t.sent + [] == t.sent;
      }
    }
  }

  /** Over every run: what is heard for an answered call reaches its pipeline, all of it,
      once and in order, whether it came while ringing, waiting for a relay or after; and
      every batch sent is the next stretch of what the call's own pipeline gathered. */
  lemma {:induction false} CandidatesArrive(ts: seq<Trace>, actions: seq<Action>, i: nat)
    requires Run(ts, actions) && i < |ts|
    ensures Sound(ts[i].e) && NothingLost(ts[i]) && NothingMixed(ts[i])
    ensures i < |actions| ==> forall o :: o in Step(ts[i].e, actions[i]).out && o.SendCandidates? ==>
      o.call == ts[i].builtFor && ts[i].sent + o.batch == ts[i].gathered
    decreases i
  {
    hide Sound, NothingLost, NothingMixed, Step, Possible;
    if i == 0 {
      StartsGood();
    } else {
      CandidatesArrive(ts, actions, i - 1);
      SoundKept(ts[i - 1].e, actions[i - 1]);
      LostKept(ts[i - 1], actions[i - 1]);
      MixedKept(ts[i - 1], actions[i - 1]);
    }
    if i < |actions| {
      MixedKept(ts[i], actions[i]);
    }
  }
}
