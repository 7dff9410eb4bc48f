/** One device's call engine: its handlers as functions of its state, and the object
    that carries them out. Voice only. */
module CallEngine {
  /** A room, user, call or party id, or none. */
  datatype Id = No | Id(name: string)

  /** The party whose answer was taken; an answer without a party id is anonymous. */
  datatype Choice = Open | Anonymous | Chosen(party: Id)

  /** The version an invite carries; only 0 is told apart. */
  datatype Version = Unset | Zero | Later

  /** A session description, or none. */
  datatype Sdp = NoSdp | Sdp(text: string)

  /** An ICE candidate line, or the marker that ends a list. */
  datatype Candidate = End | Line(text: string)

  datatype Phase = Idle | Calling | Ringing | Connecting | Active

  /** What `resumeAfterRelay` goes on with. */
  datatype Resume = Nothing | Outgoing | Answering

  datatype Engine = Engine(
    state: Phase,
    room: Id,
    peer: Id,
    call: Id,
    party: Id,
    isCaller: bool,
    selected: Choice,
    version: Version,
    offer: Sdp,
    afterRelay: Resume,
    generation: nat,
    webrtc: bool,
    early: seq<Candidate>,
    pending: seq<Candidate>)

  const Fresh := Engine(Idle, No, No, No, No, false, Open, Unset, NoSdp, Nothing, 0, false, [], [])

  /** What a handler says on the wire, and what it hands to the media pipeline. */
  datatype Out =
    | SendInvite(room: Id, call: Id, party: Id)
    | SendAnswer(room: Id, call: Id, party: Id)
    | SendCandidates(room: Id, call: Id, party: Id, batch: seq<Candidate>)
    | SendHangup(room: Id, call: Id, party: Id)
    | SendReject(room: Id, call: Id, party: Id)
    | SendSelect(room: Id, call: Id, party: Id, chosen: Id)
    | NeedRelay
    | ApplyRemote(sdp: Sdp, isOffer: bool)
    | AddIce(candidate: Candidate)

  datatype Result = Result(e: Engine, out: seq<Out>)

  // ------------------------------------------------ the ways a call ends

  function TornDown(e: Engine): Engine {
    e.(pending := [], afterRelay := Nothing, webrtc := false, generation := e.generation + 1)
  }

  /** `reportFailure`: says goodbye, goes idle and keeps the ids. */
  function Failed(e: Engine): Result {
    Result(TornDown(e).(state := Idle),
           if e.room != No && e.call != No then [SendHangup(e.room, e.call, e.party)] else [])
  }

  function Stopped(e: Engine): Engine {
    TornDown(e).(call := No, room := No, peer := No, offer := NoSdp, state := Idle)
  }

  function HungUp(e: Engine): Result {
    if e.state == Idle then Result(e, [])
    else Result(Stopped(e),
                if e.room == No || e.call == No then []
                else if !e.isCaller && e.state == Ringing && e.version != Zero
                then [SendReject(e.room, e.call, e.party)] else [SendHangup(e.room, e.call, e.party)])
  }

  // ------------------------------------------------ placing and answering

  /** The pipeline for a call just named: `ok` is the media's word on whether it starts. */
  function Begun(e: Engine, ok: bool): Result {
    if ok then Result(TornDown(e).(webrtc := true), []) else Failed(TornDown(e))
  }

  function StartedOutgoing(e: Engine, call: Id, party: Id, ok: bool): Result {
    Begun(e.(call := call, party := party, isCaller := true, selected := Open, offer := NoSdp), ok)
  }

  function Placed(e: Engine, room: Id, stale: bool, call: Id, party: Id, ok: bool): Result {
    if room == No || e.state != Idle then Result(e, [])
    else
      var c := e.(room := room, peer := No, state := Calling);
      if stale then Result(c.(afterRelay := Outgoing), [NeedRelay]) else StartedOutgoing(c, call, party, ok)
  }

  function NonEmpty(cs: seq<Candidate>): seq<Candidate>
    decreases |cs|
  {
    if cs == [] then []
    else NonEmpty(cs[..|cs| - 1]) + if cs[|cs| - 1] == End then [] else [cs[|cs| - 1]]
  }

  function Ices(cs: seq<Candidate>): seq<Out>
    decreases |cs|
  {
    if cs == [] then []
    else Ices(cs[..|cs| - 1]) + if cs[|cs| - 1] == End then [] else [AddIce(cs[|cs| - 1])]
  }

  /** Their offer first, then what was held while it rang. */
  function OfferAnswered(e: Engine, ok: bool, readable: bool): Result {
    var b := Begun(e, ok);
    if !ok then b
    else if !readable then var f := Failed(b.e); Result(f.e.(offer := NoSdp, early := []), f.out)
    else Result(b.e.(offer := NoSdp, early := []), [ApplyRemote(e.offer, true)] + Ices(e.early))
  }

  function Accepted(e: Engine, stale: bool, ok: bool, readable: bool): Result {
    if e.state != Ringing || e.offer == NoSdp then Result(e, [])
    else
      var c := e.(state := Connecting);
      if stale then Result(c.(afterRelay := Answering), [NeedRelay]) else OfferAnswered(c, ok, readable)
  }

  function Resumed(e: Engine, call: Id, party: Id, ok: bool, readable: bool): Result {
    var c := e.(afterRelay := Nothing);
    if e.afterRelay == Outgoing && e.state == Calling then StartedOutgoing(c, call, party, ok)
    else if e.afterRelay == Answering && e.state == Connecting then OfferAnswered(c, ok, readable)
    else Result(c, [])
  }

  // ------------------------------------------------ what others say

  function Invited(e: Engine, room: Id, sender: Id, call: Id, party: Id, sdp: Sdp): Result {
    if e.state != Idle then Result(e, [SendHangup(room, call, party)])
    else Result(e.(room := room, peer := sender, call := call, party := party, isCaller := false, selected := Open,
                   version := Unset, offer := sdp, early := [], state := Ringing), [])
  }

  function VersionNoted(e: Engine, call: Id, version: Version): Engine {
    if call == e.call then e.(version := version) else e
  }

  function Elsewhere(e: Engine, room: Id, call: Id, party: Id): Engine {
    if e.state != Ringing || call != e.call || room != e.room || (party != No && party == e.party)
    then e else Stopped(e)
  }

  function Selected(e: Engine, room: Id, sender: Id, call: Id, chosen: Id): Engine {
    if e.isCaller || call != e.call || room != e.room || e.state == Idle || sender == No || sender != e.peer
       || chosen == No || chosen == e.party
    then e else Stopped(e)
  }

  function Answered(e: Engine, room: Id, sender: Id, call: Id, party: Id, sdp: Sdp,
                    readable: bool): Result {
    if call != e.call || !e.isCaller || room != e.room || (e.peer != No && sender != e.peer) || e.selected != Open
    then Result(e, [])
    else
      var c := e.(peer := sender, selected := if party == No then Anonymous else Chosen(party), state := Connecting);
      var say := if party == No then [] else [SendSelect(e.room, e.call, e.party, party)];
      if !e.webrtc then Result(c, say)
      else if !readable then Result(Failed(c).e, say + Failed(c).out)
      else Result(c, say + [ApplyRemote(sdp, false)])
  }

  predicate Hears(e: Engine, room: Id, sender: Id, call: Id) {
    call == e.call && room == e.room && (e.peer == No || sender == e.peer)
  }

  function RemoteCandidates(e: Engine, room: Id, sender: Id, call: Id, cs: seq<Candidate>): Result {
    if !Hears(e, room, sender, call) then Result(e, [])
    else if !e.webrtc then
      Result(if !e.isCaller && e.state != Idle then e.(early := e.early + cs) else e, [])
    else Result(e, Ices(cs))
  }

  predicate HangupMeant(e: Engine, room: Id, sender: Id, call: Id, party: Id, reject: bool) {
    && !(e.isCaller && e.selected != Open && call == e.call
         && (reject || (e.selected != Anonymous && Chosen(party) != e.selected)))
    && (room == No || room == e.room)
    && (e.peer == No || sender == No || sender == e.peer)
    && e.state != Idle && call != No && e.call != No && call == e.call
  }

  function RemoteHangup(e: Engine, room: Id, sender: Id, call: Id, party: Id, reject: bool): Engine {
    if HangupMeant(e, room, sender, call, party, reject)
    then TornDown(e).(call := No, room := No, peer := No, state := Idle) else e
  }

  // ------------------------------------------------ every input as one action

  datatype Action =
    | DoPlace(room: Id, stale: bool, call: Id, party: Id, ok: bool)
    | DoAccept(stale: bool, ok: bool, readable: bool)
    | DoHangUp
    | RingTimeout
    | GraceExpired
    | MediaSilent
    | RelayCame(call: Id, party: Id, ok: bool, readable: bool)
    | ExpectPeer(peer: Id)
    | GotInvite(room: Id, sender: Id, call: Id, party: Id, version: Version, sdp: Sdp)
    | GotElsewhere(room: Id, call: Id, party: Id)
    | GotSelect(room: Id, sender: Id, call: Id, chosen: Id)
    | GotAnswer(room: Id, sender: Id, call: Id, party: Id, sdp: Sdp, readable: bool)
    | GotCandidates(room: Id, sender: Id, call: Id, cs: seq<Candidate>)
    | GotHangup(room: Id, sender: Id, call: Id, party: Id, reject: bool)
    | Connected(g: nat)
    | MediaFailed(g: nat)
    | Disconnected(g: nat)
    | PipelineError(g: nat)
    | Described(g: nat, isOffer: bool)
    | Gathered(g: nat, candidate: Candidate)
    | Flush

  predicate Current(e: Engine, g: nat) { g == e.generation }

  function Step(e: Engine, a: Action): Result {
    match a
    case DoPlace(room, stale, call, party, ok) => Placed(e, room, stale, call, party, ok)
    case DoAccept(stale, ok, readable) => Accepted(e, stale, ok, readable)
    case DoHangUp => HungUp(e)
    case RingTimeout => if e.state == Ringing then HungUp(e) else Result(e, [])
    case GraceExpired => if e.state == Connecting then HungUp(e) else Result(e, [])
    case MediaSilent => if e.state == Active then HungUp(e) else Result(e, [])
    case RelayCame(call, party, ok, readable) => Resumed(e, call, party, ok, readable)
    case ExpectPeer(peer) =>
      Result(if !e.isCaller || peer == No || e.state == Idle then e else e.(peer := peer), [])
    case GotInvite(room, sender, call, party, version, sdp) =>
      var r := Invited(e, room, sender, call, party, sdp);
      Result(VersionNoted(r.e, call, version), r.out)
    case GotElsewhere(room, call, party) => Result(Elsewhere(e, room, call, party), [])
    case GotSelect(room, sender, call, chosen) => Result(Selected(e, room, sender, call, chosen), [])
    case GotAnswer(room, sender, call, party, sdp, readable) => Answered(e, room, sender, call, party, sdp, readable)
    case GotCandidates(room, sender, call, cs) => RemoteCandidates(e, room, sender, call, cs)
    case GotHangup(room, sender, call, party, reject) => Result(RemoteHangup(e, room, sender, call, party, reject), [])
    case Connected(g) => Result(if Current(e, g) && e.state != Idle then e.(state := Active) else e, [])
    case MediaFailed(g) => if Current(e, g) && e.state != Connecting then HungUp(e) else Result(e, [])
    case Disconnected(g) => if Current(e, g) then HungUp(e) else Result(e, [])
    case PipelineError(g) => if Current(e, g) then Failed(e) else Result(e, [])
    case Described(g, isOffer) =>
      Result(e, if !Current(e, g) then []
                else if isOffer then [SendInvite(e.room, e.call, e.party)] else [SendAnswer(e.room, e.call, e.party)])
    case Gathered(g, c) =>
      Result(if Current(e, g) && e.room != No && e.call != No then e.(pending := e.pending + [c]) else e, [])
    case Flush =>
      Result(e.(pending := []),
             if e.pending == [] || e.room == No || e.call == No then []
             else [SendCandidates(e.room, e.call, e.party, e.pending)])
  }

  /** What the surroundings can do: ids are not empty, callbacks of the current generation
      come from its pipeline, as do the grace and silence timers, which a tear-down stops,
      and a pipeline describes the side it was built for. */
  predicate Possible(e: Engine, a: Action) {
    match a
    case DoPlace(_, _, call, party, _) => call != No && party != No
    case GraceExpired => e.webrtc
    case MediaSilent => e.webrtc
    case RelayCame(call, party, _, _) => call != No && party != No
    case GotInvite(room, sender, call, party, _, _) => room != No && sender != No && call != No && party != No
    case GotElsewhere(room, call, _) => room != No && call != No
    case GotSelect(room, _, call, _) => room != No && call != No
    case GotAnswer(room, sender, call, _, _, _) => room != No && sender != No && call != No
    case GotCandidates(room, _, call, _) => room != No && call != No
    case GotHangup(room, _, call, _, _) => room != No && call != No
    case Connected(g) => Current(e, g) ==> e.webrtc
    case MediaFailed(g) => Current(e, g) ==> e.webrtc
    case Disconnected(g) => Current(e, g) ==> e.webrtc
    case PipelineError(g) => Current(e, g) ==> e.webrtc
    case Described(g, isOffer) => Current(e, g) ==> e.webrtc && isOffer == e.isCaller
    case Gathered(g, _) => Current(e, g) ==> e.webrtc
    case _ => true
  }

  // ------------------------------------------------ what one device keeps

  /** In a call somebody else placed. */
  predicate InCall(e: Engine) { !e.isCaller && e.state in {Ringing, Connecting, Active} }

  predicate Sound(e: Engine) {
    && (e.webrtc ==> e.room != No && e.call != No && e.state in {Calling, Connecting, Active})
    && (e.webrtc ==> e.isCaller || e.state != Calling)
    && (e.state == Ringing ==> !e.isCaller && !e.webrtc && e.afterRelay == Nothing)
    && (e.afterRelay == Answering ==> !e.isCaller && e.state == Connecting && !e.webrtc)
    && (e.afterRelay == Outgoing ==> e.state in {Calling, Connecting} && !e.webrtc)
    && (e.afterRelay == Outgoing ==> e.isCaller || e.state == Calling)
    && (InCall(e) ==> e.call != No && e.room != No)
    && (InCall(e) && !e.webrtc ==> e.state == Ringing || e.afterRelay == Answering)
    && (e.state != Idle ==> e.room != No)
    && (e.state == Active ==> e.webrtc)
    && (e.state == Connecting && e.isCaller ==> e.selected != Open)
    && (e.state == Calling && !e.webrtc ==> e.afterRelay == Outgoing)
    && (!e.webrtc ==> e.pending == [])
  }

  /** The pipeline that runs belongs to the call the engine is in, on its side of it. */
  lemma SoundKept(e: Engine, a: Action)
    requires Sound(e) && Possible(e, a)
    ensures Sound(Step(e, a).e)
  {
    hide Sound, Possible, Step;
    if a.DoPlace? || a.DoAccept? || a.RelayCame? || a.ExpectPeer? {
      SoundGoing(e, a);
    } else if a.GotInvite? || a.GotElsewhere? || a.GotSelect? || a.GotAnswer? || a.GotCandidates? || a.GotHangup? {
      SoundTold(e, a);
    } else {
      SoundEnding(e, a);
    }
  }

  lemma SoundGoing(e: Engine, a: Action)
    requires Sound(e) && Possible(e, a) && (a.DoPlace? || a.DoAccept? || a.RelayCame? || a.ExpectPeer?)
    ensures Sound(Step(e, a).e)
  {
  }

  lemma SoundInvited(e: Engine, room: Id, sender: Id, call: Id, party: Id, sdp: Sdp)
    requires Sound(e) && Possible(e, GotInvite(room, sender, call, party, e.version, sdp))
    ensures Sound(Invited(e, room, sender, call, party, sdp).e)
  {
  }

  lemma SoundTold(e: Engine, a: Action)
    requires Sound(e) && Possible(e, a)
    requires a.GotInvite? || a.GotElsewhere? || a.GotSelect? || a.GotAnswer? || a.GotCandidates? || a.GotHangup?
    ensures Sound(Step(e, a).e)
  {
  }

  lemma SoundEnding(e: Engine, a: Action)
    requires Sound(e) && Possible(e, a)
    requires !(a.DoPlace? || a.DoAccept? || a.RelayCame? || a.ExpectPeer? || a.GotInvite? || a.GotElsewhere?)
    requires !(a.GotSelect? || a.GotAnswer? || a.GotCandidates? || a.GotHangup?)
    ensures Sound(Step(e, a).e)
  {
  }

  // ------------------------------------------------ the object

  class CallEngine {
    var state: Phase
    var room: Id
    var peer: Id
    var call: Id
    var party: Id
    var isCaller: bool
    var selected: Choice
    var version: Version
    var offer: Sdp
    var afterRelay: Resume
    var generation: nat
    var webrtc: bool
    var early: seq<Candidate>
    var pending: seq<Candidate>

    ghost function State(): Engine
      reads this
    {
      Engine(state, room, peer, call, party, isCaller, selected, version, offer, afterRelay, generation, webrtc,
             early, pending)
    }

    constructor ()
      ensures State() == Fresh && Sound(State())
    {
      state, room, peer, call, party, isCaller := Idle, No, No, No, No, false;
      selected, version, offer, afterRelay := Open, Unset, NoSdp, Nothing;
      generation, webrtc, early, pending := 0, false, [], [];
    }

    method TearDown()
      modifies this
      ensures State() == TornDown(old(State()))
    {
      pending := [];
      afterRelay := Nothing;
      webrtc := false;
      generation := generation + 1;
    }

    method ReportFailure() returns (out: seq<Out>)
      modifies this
      ensures Result(State(), out) == Failed(old(State()))
    {
      out := [];
      if room != No && call != No {
        out := [SendHangup(room, call, party)];
      }
      TearDown();
      state := Idle;
    }

    method HangUp() returns (out: seq<Out>)
      requires Sound(State())
      modifies this
      ensures Result(State(), out) == HungUp(old(State()))
      ensures Sound(State())
    {
      hide Sound;
      SoundKept(State(), DoHangUp);
      out := [];
      if state == Idle {
        return;
      }
      if room != No && call != No {
        if !isCaller && state == Ringing && version != Zero {
          out := [SendReject(room, call, party)];
        } else {
          out := [SendHangup(room, call, party)];
        }
      }
      StopQuietly();
    }

    method StopQuietly()
      modifies this
      ensures State() == Stopped(old(State()))
    {
      TearDown();
      call, room, peer, offer := No, No, No, NoSdp;
      state := Idle;
    }

    method BuildPipeline(ok: bool) returns (out: seq<Out>)
      modifies this
      ensures Result(State(), out) == Begun(old(State()), ok)
    {
      TearDown();
      out := [];
      if ok {
        webrtc := true;
      } else {
        out := ReportFailure();
      }
    }

    method StartOutgoing(newCall: Id, newParty: Id, ok: bool) returns (out: seq<Out>)
      modifies this
      ensures Result(State(), out) == StartedOutgoing(old(State()), newCall, newParty, ok)
    {
      NameOwn(newCall, newParty);
      hide Begun;
      out := BuildPipeline(ok);
    }

    /** Whose call this is now, from the caller's side. */
    method NameOwn(newCall: Id, newParty: Id)
      modifies this
      ensures State() == old(State()).(
        call := newCall, party := newParty, isCaller := true, selected := Open, offer := NoSdp)
    {
      call, party := newCall, newParty;
      isCaller := true;
      selected, offer := Open, NoSdp;
    }

    method PlaceCall(inRoom: Id, stale: bool, newCall: Id, newParty: Id, ok: bool) returns (out: seq<Out>)
      requires Sound(State()) && Possible(State(), DoPlace(inRoom, stale, newCall, newParty, ok))
      modifies this
      ensures Result(State(), out) == Placed(old(State()), inRoom, stale, newCall, newParty, ok)
      ensures Sound(State())
    {
      hide Sound, Possible;
      SoundKept(State(), DoPlace(inRoom, stale, newCall, newParty, ok));
      out := [];
      if inRoom == No || state != Idle {
        return;
      }
      room, peer := inRoom, No;
      state := Calling;
      if stale {
        afterRelay := Outgoing;
        out := [NeedRelay];
      } else {
        out := StartOutgoing(newCall, newParty, ok);
      }
    }

    method AnswerOffer(ok: bool, readable: bool) returns (out: seq<Out>)
      modifies this
      ensures Result(State(), out) == OfferAnswered(old(State()), ok, readable)
    {
      out := BuildPipeline(ok);
      if !ok {
        return;
      }
      if readable {
        out := out + [ApplyRemote(offer, true)];
      } else {
        var bye := ReportFailure();
        out := out + bye;
      }
      offer := NoSdp;
      var held := early;
      early := [];
      var ices := AddAll(held);
      out := out + ices;
    }

    /** `addRemoteCandidate` for each of a list: an empty one ends the list and adds nothing. */
    method AddAll(cs: seq<Candidate>) returns (out: seq<Out>)
      ensures out == if webrtc then Ices(cs) else []
    {
      out := [];
      for i := 0 to |cs|
        invariant out == if webrtc then Ices(cs[..i]) else []
      {
        assert cs[..i + 1][..i] == cs[..i];
        if cs[i] != End && webrtc {
          out := out + [AddIce(cs[i])];
        }
      }
      assert cs[..|cs|] == cs;
    }

    method AcceptCall(stale: bool, ok: bool, readable: bool) returns (out: seq<Out>)
      requires Sound(State())
      modifies this
      ensures Result(State(), out) == Accepted(old(State()), stale, ok, readable)
      ensures Sound(State())
    {
      hide Sound;
      SoundKept(State(), DoAccept(stale, ok, readable));
      out := [];
      if state != Ringing || offer == NoSdp {
        return;
      }
      state := Connecting;
      if stale {
        afterRelay := Answering;
        out := [NeedRelay];
      } else {
        out := AnswerOffer(ok, readable);
      }
    }

    method ResumeAfterRelay(newCall: Id, newParty: Id, ok: bool, readable: bool) returns (out: seq<Out>)
      requires Sound(State()) && Possible(State(), RelayCame(newCall, newParty, ok, readable))
      modifies this
      ensures Result(State(), out) == Resumed(old(State()), newCall, newParty, ok, readable)
      ensures Sound(State())
    {
      hide Sound, Possible;
      SoundKept(State(), RelayCame(newCall, newParty, ok, readable));
      out := [];
      var next := afterRelay;
      afterRelay := Nothing;
      if next == Outgoing && state == Calling {
        out := StartOutgoing(newCall, newParty, ok);
      } else if next == Answering && state == Connecting {
        out := AnswerOffer(ok, readable);
      }
    }

    method OnRemoteInvite(inRoom: Id, sender: Id, newCall: Id, newParty: Id, sdp: Sdp)
      returns (out: seq<Out>)
      requires Sound(State()) && Possible(State(), GotInvite(inRoom, sender, newCall, newParty, version, sdp))
      modifies this
      ensures Result(State(), out) == Invited(old(State()), inRoom, sender, newCall, newParty, sdp)
      ensures Sound(State())
    {
      hide Sound, Possible;
      SoundInvited(State(), inRoom, sender, newCall, newParty, sdp);
      if state != Idle {
        out := [SendHangup(inRoom, newCall, newParty)];
        return;
      }
      out := [];
      Name(inRoom, sender, newCall, newParty);
      version := Unset;
      offer := sdp;
      early := [];
      state := Ringing;
    }

    /** Whose call this is now, from the callee's side. */
    method Name(inRoom: Id, sender: Id, newCall: Id, newParty: Id)
      modifies `room, `peer, `call, `party, `isCaller, `selected
      ensures room == inRoom && peer == sender && call == newCall && party == newParty
      ensures !isCaller && selected == Open
    {
      room := inRoom;
      peer := sender;
      call := newCall;
      party := newParty;
      isCaller := false;
      selected := Open;
    }

    method NoteInviteVersion(theCall: Id, v: Version)
      modifies this
      ensures State() == VersionNoted(old(State()), theCall, v) && (Sound(old(State())) ==> Sound(State()))
    {
      if theCall == call {
        version := v;
      }
    }

    method OnAnsweredElsewhere(inRoom: Id, theCall: Id, whose: Id)
      requires Sound(State()) && Possible(State(), GotElsewhere(inRoom, theCall, whose))
      modifies this
      ensures State() == Elsewhere(old(State()), inRoom, theCall, whose)
      ensures Sound(State())
    {
      hide Sound, Possible;
      SoundKept(State(), GotElsewhere(inRoom, theCall, whose));
      if state != Ringing || theCall != call || inRoom != room {
        return;
      }
      if whose != No && whose == party {
        return;
      }
      StopQuietly();
    }

    method OnSelectAnswer(inRoom: Id, sender: Id, theCall: Id, chosen: Id)
      requires Sound(State()) && Possible(State(), GotSelect(inRoom, sender, theCall, chosen))
      modifies this
      ensures State() == Selected(old(State()), inRoom, sender, theCall, chosen)
      ensures Sound(State())
    {
      hide Sound, Possible;
      SoundKept(State(), GotSelect(inRoom, sender, theCall, chosen));
      if isCaller || theCall != call || inRoom != room || state == Idle || sender == No || sender != peer
         || chosen == No || chosen == party {
        return;
      }
      StopQuietly();
    }

    method OnRemoteAnswer(inRoom: Id, sender: Id, theCall: Id, whose: Id, sdp: Sdp, readable: bool)
      returns (out: seq<Out>)
      requires Sound(State()) && Possible(State(), GotAnswer(inRoom, sender, theCall, whose, sdp, readable))
      modifies this
      ensures Result(State(), out) == Answered(old(State()), inRoom, sender, theCall, whose, sdp, readable)
      ensures Sound(State())
    {
      hide Sound, Possible;
      SoundKept(State(), GotAnswer(inRoom, sender, theCall, whose, sdp, readable));
      out := [];
      if theCall != call || !isCaller || inRoom != room {
        return;
      }
      if peer != No && sender != peer {
        return;
      }
      if selected != Open {
        return;
      }
      peer := sender;
      selected := if whose == No then Anonymous else Chosen(whose);
      if whose != No {
        out := [SendSelect(room, call, party, whose)];
      }
      state := Connecting;
      if webrtc {
        if readable {
          out := out + [ApplyRemote(sdp, false)];
        } else {
          var bye := ReportFailure();
          out := out + bye;
        }
      }
    }

    method OnRemoteCandidates(inRoom: Id, sender: Id, theCall: Id, cs: seq<Candidate>) returns (out: seq<Out>)
      requires Sound(State()) && Possible(State(), GotCandidates(inRoom, sender, theCall, cs))
      modifies this
      ensures Result(State(), out) == RemoteCandidates(old(State()), inRoom, sender, theCall, cs)
      ensures Sound(State())
    {
      hide Sound, Possible;
      SoundKept(State(), GotCandidates(inRoom, sender, theCall, cs));
      out := [];
      if theCall != call || inRoom != room {
        return;
      }
      if peer != No && sender != peer {
        return;
      }
      if !webrtc {
        if !isCaller && state != Idle {
          early := early + cs;
        }
        return;
      }
      out := AddAll(cs);
    }

    method OnRemoteHangup(inRoom: Id, sender: Id, theCall: Id, whose: Id, reject: bool)
      requires Sound(State()) && Possible(State(), GotHangup(inRoom, sender, theCall, whose, reject))
      modifies this
      ensures State() == RemoteHangup(old(State()), inRoom, sender, theCall, whose, reject)
      ensures Sound(State())
    {
      hide Sound, Possible;
      SoundKept(State(), GotHangup(inRoom, sender, theCall, whose, reject));
      if isCaller && selected != Open && theCall == call {
        if reject {
          return;
        }
        if selected != Anonymous && Chosen(whose) != selected {
          return;
        }
      }
      if inRoom != No && inRoom != room {
        return;
      }
      if peer != No && sender != No && sender != peer {
        return;
      }
      if state == Idle {
        return;
      }
      if theCall == No || call == No || theCall != call {
        return;
      }
      Leave();
    }

    method Leave()
      modifies this
      ensures State() == TornDown(old(State())).(call := No, room := No, peer := No, state := Idle)
    {
      TearDown();
      call, room, peer := No, No, No;
      state := Idle;
    }

    method MarkConnected(g: nat)
      requires Sound(State()) && Possible(State(), Connected(g))
      modifies this
      ensures State() == Step(old(State()), Connected(g)).e
      ensures Sound(State())
    {
      hide Sound, Possible;
      SoundKept(State(), Connected(g));
      if g == generation && state != Idle {
        state := Active;
      }
    }

    method MarkDisconnected(g: nat) returns (out: seq<Out>)
      requires Sound(State()) && Possible(State(), Disconnected(g))
      modifies this
      ensures Result(State(), out) == Step(old(State()), Disconnected(g))
      ensures Sound(State())
    {
      hide Sound, Possible;
      SoundKept(State(), Disconnected(g));
      out := [];
      if g != generation || state == Idle {
        return;
      }
      out := HangUp();
    }

    method MarkFailed(g: nat) returns (out: seq<Out>)
      requires Sound(State()) && Possible(State(), MediaFailed(g))
      modifies this
      ensures Result(State(), out) == Step(old(State()), MediaFailed(g))
      ensures Sound(State())
    {
      hide Sound;
      SoundKept(State(), MediaFailed(g));
      out := [];
      if g != generation || state == Idle || state == Connecting {
        return;
      }
      out := MarkDisconnected(g);
    }

    method DeliverCandidate(g: nat, candidate: Candidate)
      requires Sound(State()) && Possible(State(), Gathered(g, candidate))
      modifies this
      ensures State() == Step(old(State()), Gathered(g, candidate)).e
      ensures Sound(State())
    {
      hide Sound, Possible;
      SoundKept(State(), Gathered(g, candidate));
      if g != generation || room == No || call == No {
        return;
      }
      pending := pending + [candidate];
    }

    method FlushCandidates() returns (out: seq<Out>)
      requires Sound(State())
      modifies this
      ensures Result(State(), out) == Step(old(State()), Flush)
      ensures Sound(State())
    {
      hide Sound;
      SoundKept(State(), Flush);
      out := [];
      if pending == [] || room == No || call == No {
        pending := [];
        return;
      }
      out := [SendCandidates(room, call, party, pending)];
      pending := [];
    }
  }
}
