/** Every way into a call and out of it, on one device and in the room. */
module CallTurns {
  import opened CallEngine
  import opened CallWorld
  import opened CallAgreement

  // ------------------------------------------------ how a call ends

  /** Ended by this device: its user, its timers, its pipeline, or one it cannot build. */
  predicate EndsHere(e: Engine, a: Action) {
    match a
    case DoHangUp => true
    case RingTimeout => e.state == Ringing
    case GraceExpired => e.state == Connecting
    case MediaSilent => e.state == Active
    case DoAccept(stale, ok, readable) => e.state == Ringing && e.offer != NoSdp && !stale && !(ok && readable)
    case RelayCame(_, _, ok, readable) =>
      || (e.afterRelay == Outgoing && e.state == Calling && !ok)
      || (e.afterRelay == Answering && e.state == Connecting && !(ok && readable))
    case MediaFailed(g) => g == e.generation && e.state != Connecting
    case Disconnected(g) => g == e.generation
    case PipelineError(g) => g == e.generation
    case _ => false
  }

  /** Ended by a word from elsewhere: another device of the account took it or declined, the
      caller chose another party, the other side hung up, or its answer cannot be read. */
  predicate EndsThere(e: Engine, a: Action) {
    match a
    case GotElsewhere(room, call, party) =>
      e.state == Ringing && call == e.call && room == e.room && (party == No || party != e.party)
    case GotSelect(room, sender, call, chosen) =>
      && !e.isCaller && call == e.call && room == e.room && sender == e.peer && sender != No
      && chosen != No && chosen != e.party
    case GotAnswer(_, _, _, _, _, readable) => Meant(e, a) && e.webrtc && !readable
    case GotHangup(room, sender, call, party, reject) =>
      && call == e.call && room == e.room && (e.peer == No || sender == No || sender == e.peer)
      && (e.isCaller && e.selected != Open ==> !reject && (e.selected == Anonymous || e.selected == Chosen(party)))
    case _ => false
  }

  /** An answer for the call placed here, from its peer, while none is taken. */
  predicate Meant(e: Engine, a: Action) {
    && a.GotAnswer? && e.isCaller && a.call == e.call && a.room == e.room && e.selected == Open
    && (e.peer == No || a.sender == e.peer)
  }

  lemma EndsExactly(e: Engine, a: Action)
    requires Sound(e) && Possible(e, a) && e.state != Idle
    ensures Step(e, a).e.state == Idle <==> EndsHere(e, a) || EndsThere(e, a)
  {
  }

  /** The call that ends: a relay that came names it only then. */
  function Ended(e: Engine, a: Action): Id { if a.RelayCame? && e.state == Calling then a.call else e.call }

  predicate Goodbye?(o: Out) { o.SendHangup? || o.SendReject? }

  /** Nothing to a call that has no id, nor where the end was told; else one goodbye at the
      end, a reject of a ringing call that is not of version 0. */
  predicate Parting(e: Engine, a: Action, out: seq<Out>) {
    if Ended(e, a) == No || (EndsThere(e, a) && !a.GotAnswer?) then out == []
    else
      && out != [] && Goodbye?(out[|out| - 1]) && out[|out| - 1].room == e.room && out[|out| - 1].call == Ended(e, a)
      && (out[|out| - 1].SendReject? <==> e.state == Ringing && !a.DoAccept? && e.version != Zero)
      && forall i :: 0 <= i < |out| - 1 ==> !Goodbye?(out[i])
  }

  /** Who ends a call says goodbye to it, once, and says nothing after; a ringing one is
      declined, unless it is of version 0. Who is told says nothing. */
  lemma LastWord(e: Engine, a: Action)
    requires Sound(e) && Possible(e, a) && e.state != Idle && Step(e, a).e.state == Idle
    ensures Parting(e, a, Step(e, a).out)
  {
    hide Sound, Possible, Step, Parting;
    if a.GotInvite? || a.GotElsewhere? || a.GotSelect? || a.GotAnswer? || a.GotCandidates? || a.GotHangup? {
      ToldLastWord(e, a);
    } else {
      OwnLastWord(e, a);
    }
  }

  lemma ToldLastWord(e: Engine, a: Action)
    requires Sound(e) && Possible(e, a) && e.state != Idle && Step(e, a).e.state == Idle
    requires a.GotInvite? || a.GotElsewhere? || a.GotSelect? || a.GotAnswer? || a.GotCandidates? || a.GotHangup?
    ensures Parting(e, a, Step(e, a).out)
  {
  }

  lemma OwnLastWord(e: Engine, a: Action)
    requires Sound(e) && Possible(e, a) && e.state != Idle && Step(e, a).e.state == Idle && Local(a)
    ensures Parting(e, a, Step(e, a).out)
  {
  }

  /** A call that ends in a failure keeps its room and id; any other is forgotten, with its
      peer. An offer that was taken up is gone, with the candidates that came for it. */
  lemma ForgetsExactly(e: Engine, a: Action)
    requires Sound(e) && Possible(e, a) && e.state != Idle && Step(e, a).e.state == Idle
    ensures var r := Step(e, a).e;
      && !r.webrtc && r.pending == [] && r.afterRelay == Nothing
      && (if a.PipelineError? || a.DoAccept? || a.RelayCame? || a.GotAnswer?
          then r.call == Ended(e, a) && r.room == e.room
          else r.call == No && r.room == No && r.peer == No)
      && (a.DoHangUp? || a.GotElsewhere? || a.GotSelect? ==> r.offer == NoSdp)
      && ((a.DoAccept? || (a.RelayCame? && e.state == Connecting)) && a.ok ==> r.offer == NoSdp && r.early == [])
  {
  }

  // ------------------------------------------------ how it rings, starts, connects and talks

  lemma RingsExactly(e: Engine, a: Action)
    requires Sound(e) && Possible(e, a) && e.state != Ringing
    ensures Step(e, a).e.state == Ringing <==> a.GotInvite? && e.state == Idle
  {
  }

  /** An invite is taken whole when idle; any other time it is declined and changes nothing
      but the version of the call it names. */
  lemma InviteTaken(e: Engine, a: Action)
    requires Sound(e) && Possible(e, a) && a.GotInvite?
    ensures var r := Step(e, a);
      if e.state == Idle
      then
        && r.out == [] && InCall(r.e) && r.e.room == a.room && r.e.peer == a.sender && r.e.call == a.call
        && r.e.party == a.party && r.e.version == a.version && r.e.offer == a.sdp && r.e.early == []
        && r.e.selected == Open
      else
        && r.out == [SendHangup(a.room, a.call, a.party)] && r.e.(version := e.version) == e
        && r.e.version == if a.call == e.call then a.version else e.version
  {
  }

  /** A pipeline is built for exactly these, under a new generation, so that callbacks of an
      older one no longer count. */
  lemma StartsExactly(e: Engine, a: Action)
    requires Sound(e) && Possible(e, a) && !e.webrtc
    ensures Step(e, a).e.webrtc <==>
      || (a.DoPlace? && e.state == Idle && a.room != No && !a.stale && a.ok)
      || (a.DoAccept? && e.state == Ringing && e.offer != NoSdp && !a.stale && a.ok && a.readable)
      || (a.RelayCame? && e.state == Calling && a.ok)
      || (a.RelayCame? && e.state == Connecting && e.afterRelay == Answering && a.ok && a.readable)
    ensures Step(e, a).e.webrtc ==> Step(e, a).e.generation > e.generation
  {
  }

  /** It goes with the call, and with it its generation. */
  lemma StopsExactly(e: Engine, a: Action)
    requires Sound(e) && Possible(e, a) && e.webrtc
    ensures Step(e, a).e.webrtc <==> Step(e, a).e.state != Idle
    ensures if Step(e, a).e.webrtc then Step(e, a).e.generation == e.generation
            else Step(e, a).e.generation > e.generation
  {
  }

  /** What a call starts with: placed, its own fresh ids and no choice yet; answered, the
      offer that rang. */
  lemma StartsWith(e: Engine, a: Action)
    requires Sound(e) && Possible(e, a) && !e.webrtc && Step(e, a).e.webrtc
    ensures var r := Step(e, a);
      if a.DoPlace? || e.state == Calling
      then
        && r.e.isCaller && r.e.state == Calling && r.e.call == a.call && r.e.party == a.party && r.e.selected == Open
        && r.e.room == (if a.DoPlace? then a.room else e.room) && r.out == [] && r.e.offer == NoSdp
      else
        && !r.e.isCaller && r.e.state == Connecting && r.e.call == e.call && r.e.room == e.room && r.e.peer == e.peer
        && r.out != [] && r.out[0] == ApplyRemote(e.offer, true) && r.e.offer == NoSdp && r.e.early == []
  {
  }

  /** The relay is asked for exactly when it is stale, and the call then waits for it. */
  lemma RelayNeeded(e: Engine, a: Action)
    requires Sound(e) && Possible(e, a) && !a.GotCandidates?
    ensures NeedRelay in Step(e, a).out <==>
      || (a.DoPlace? && e.state == Idle && a.room != No && a.stale)
      || (a.DoAccept? && e.state == Ringing && e.offer != NoSdp && a.stale)
    ensures NeedRelay in Step(e, a).out ==>
      var r := Step(e, a).e; if a.DoPlace? then r.afterRelay == Outgoing && r.room == a.room && r.peer == No
                             else r == e.(state := Connecting, afterRelay := Answering)
  {
    if a.DoAccept? || a.RelayCame? {
      IcesOnly(e.early, 0);
      hide Ices;
    }
  }

  /** When it comes nothing waits for it any more, and where nothing did it does nothing else. */
  lemma RelayOver(e: Engine, a: Action)
    requires Sound(e) && Possible(e, a) && a.RelayCame?
    ensures Step(e, a).e.afterRelay == Nothing
    ensures e.afterRelay == Nothing ==> Step(e, a) == Result(e, [])
  {
  }

  lemma ConnectsExactly(e: Engine, a: Action)
    requires Sound(e) && Possible(e, a) && e.state != Connecting
    ensures Step(e, a).e.state == Connecting <==>
      || (a.DoAccept? && e.state == Ringing && e.offer != NoSdp && (a.stale || (a.ok && a.readable)))
      || (Meant(e, a) && (e.webrtc ==> a.readable))
  {
  }

  lemma TalksExactly(e: Engine, a: Action)
    requires Sound(e) && Possible(e, a) && e.state != Active
    ensures Step(e, a).e.state == Active <==> a.Connected? && a.g == e.generation && e.state != Idle
  {
  }

  /** An answer that is not meant changes nothing. One that is makes its party the choice and
      its sender the peer, the party is told, and the pipeline gets what it can read. */
  lemma AnswerTaken(e: Engine, a: Action)
    requires Sound(e) && Possible(e, a) && a.GotAnswer?
    ensures var r := Step(e, a);
      if !Meant(e, a) then r == Result(e, [])
      else
        && r.e.selected == (if a.party == No then Anonymous else Chosen(a.party))
        && r.e.peer == a.sender && r.e.call == e.call && r.e.room == e.room
        && (forall o :: o in r.out && o.SendSelect? <==>
              a.party != No && o == SendSelect(e.room, e.call, e.party, a.party))
        && (forall o :: o in r.out && o.ApplyRemote? <==> e.webrtc && a.readable && o == ApplyRemote(a.sdp, false))
  {
  }

  /** The peer of a call placed here is learnt from whoever opened it, and from nothing else
      but an answer. */
  lemma PeerExactly(e: Engine, a: Action)
    requires Sound(e) && Possible(e, a) && e.state != Idle && Step(e, a).e.state != Idle
    ensures Step(e, a).e.peer ==
      if a.ExpectPeer? && e.isCaller && a.peer != No then a.peer else if Meant(e, a) then a.sender else e.peer
  {
  }

  /** A pipeline's description goes out once it is there, as an invite from the caller and an
      answer from the callee, and from nobody else's pipeline. */
  lemma DescribedExactly(e: Engine, a: Action)
    requires Sound(e) && Possible(e, a) && (a.Described? || a.Gathered?)
    ensures Step(e, a).out ==
      if a.Gathered? || a.g != e.generation then []
      else if e.isCaller then [SendInvite(e.room, e.call, e.party)] else [SendAnswer(e.room, e.call, e.party)]
    ensures Step(e, a).e == if a.Gathered? then e.(pending := Step(e, a).e.pending) else e
  {
  }

  /** The candidates of a list, without the marks that end it. */
  function AddIces(cs: seq<Candidate>): seq<Out> {
    if cs == [] then [] else (if cs[0] == End then [] else [AddIce(cs[0])]) + AddIces(cs[1..])
  }

  lemma {:induction false} AddsInOrder(cs: seq<Candidate>, more: seq<Candidate>)
    ensures Ices(cs + more) == Ices(cs) + AddIces(more)
    decreases |more|
  {
    hide Ices;
    if more == [] {
      assert cs + more == cs && Ices(cs) + [] == Ices(cs);
    } else {
      var one := if more[0] == End then [] else [AddIce(more[0])];
      AddsInOrder(cs + [more[0]], more[1..]);
      OneMoreIce(cs, more[0]);
      assert (cs + [more[0]]) + more[1..] == cs + more;
      assert (Ices(cs) + one) + AddIces(more[1..]) == Ices(cs) + (one + AddIces(more[1..]));
    }
  }

  lemma OneMoreIce(cs: seq<Candidate>, c: Candidate)
    ensures Ices(cs + [c]) == Ices(cs) + (if c == End then [] else [AddIce(c)])
  {
    assert (cs + [c])[..|cs|] == cs;
  }

  /** Candidates of another call, room or peer are nothing here. The others are given to the
      pipeline in order, or held while one that was called has none yet. */
  lemma CandidatesExactly(e: Engine, a: Action)
    requires Sound(e) && Possible(e, a) && a.GotCandidates?
    ensures var r := Step(e, a);
      var heard := a.call == e.call && a.room == e.room && (e.peer == No || a.sender == e.peer);
      && r.e == (if heard && !e.webrtc && !e.isCaller && e.state != Idle then e.(early := e.early + a.cs) else e)
      && r.out == (if heard && e.webrtc then AddIces(a.cs) else [])
  {
    AddsInOrder([], a.cs);
    assert [] + a.cs == a.cs;
    hide Ices, AddIces;
  }

  /** What the current pipeline gathers waits, and all that waits goes out at once, for the
      call in hand. */
  lemma PendingExactly(e: Engine, a: Action)
    requires Sound(e) && Possible(e, a) && (a.Gathered? || a.Flush?)
    ensures var r := Step(e, a);
      if a.Gathered?
      then r == Result(if a.g == e.generation then e.(pending := e.pending + [a.candidate]) else e, [])
      else r == Result(e.(pending := []),
                       if e.pending == [] then [] else [SendCandidates(e.room, e.call, e.party, e.pending)])
  {
  }

  // ------------------------------------------------ what a device reads that ends its call

  /** The event is the end of the call this device is in: its own account took it or declined
      while it rang, or its peer chose another party or hung up. */
  predicate ReadsTheEnd(us: seq<Id>, e: Engine, d: nat, x: Event)
    requires d < |us| && x.from < |us|
  {
    && x.room == e.room && x.body.call == e.call
    && if us[x.from] == us[d]
       then e.state == Ringing && (x.body.Answer? || x.body.Reject?) && (x.body.party == No || x.body.party != e.party)
       else
         && us[x.from] == e.peer
         && (x.body.Hangup? || x.body.Reject? || (x.body.Select? && x.body.chosen != No && x.body.chosen != e.party))
  }

  predicate InThisCall(e: Engine, c: Id) { InCall(e) && e.call == c }

  /** In every run a device leaves a call it was invited to exactly by ending it itself, or by
      reading such an event. */
  lemma LeavesExactly(us: seq<Id>, ws: seq<World>, moves: seq<Move>, n: nat)
    requires n < |moves| && |ws| == |moves| + 1
    requires var w, d := ws[n], moves[n].d;
      d < |us| == |w.engines| == |w.cursors| == |ws[n + 1].engines| && Shaped(us, w) && InCall(w.engines[d])
    requires Run(us, ws, moves)
    ensures !InThisCall(ws[n + 1].engines[moves[n].d], ws[n].engines[moves[n].d].call) <==> Leaving(us, ws[n], moves[n])
  {
    var w, m := ws[n], moves[n];
    RunStep(us, ws, moves, n);
    CalleeKnows(us, w, m.d);
    hide Run, Inv;
    match Taken(us, w, m)
    case None => NothingRead(us, w, m);
    case Some(a) => CalleeTurns(us, w, m, a);
  }

  predicate Leaving(us: seq<Id>, w: World, m: Move)
    requires Shaped(us, w) && m.d < |us|
  {
    var e := w.engines[m.d];
    match m
    case Act(_, a) => EndsHere(e, a)
    case Deliver(d, _) => w.cursors[d] < |w.timeline| && ReadsTheEnd(us, e, d, w.timeline[w.cursors[d]])
  }

  lemma CalleeKnows(us: seq<Id>, w: World, d: nat)
    requires Inv(us, w) && d < |us| && InCall(w.engines[d])
    ensures var e := w.engines[d]; Sound(e) && e.peer != No && e.peer != us[d]
  {
    assert Honest(w.timeline, w.drawn, w.engines[d], d) && Faithful(us, w.timeline, w.engines[d], w.cursors[d], d);
    var i: nat :| ReadInvite(us, w.timeline, w.engines[d], w.cursors[d], d, i);
  }

  lemma NothingRead(us: seq<Id>, w: World, m: Move)
    requires Enabled(us, w, m) && Taken(us, w, m) == None && InCall(w.engines[m.d])
    ensures Moved(us, w, m).engines == w.engines && !Leaving(us, w, m)
  {
  }

  lemma CalleeTurns(us: seq<Id>, w: World, m: Move, a: Action)
    requires Enabled(us, w, m) && Taken(us, w, m) == Some(a)
    requires var e := w.engines[m.d]; Sound(e) && InCall(e) && e.peer != No && e.peer != us[m.d]
    ensures Moved(us, w, m).engines[m.d] == Step(w.engines[m.d], a).e
    ensures !InThisCall(Step(w.engines[m.d], a).e, w.engines[m.d].call) <==> Leaving(us, w, m)
  {
    var e := w.engines[m.d];
    MovesEngine(us, w, m, a);
    StaysInCall(e, a);
    EndsExactly(e, a);
    EndsAsRead(us, w, m, a);
    hide Step, Moved, Sound, EndsHere, EndsThere, Leaving;
  }

  lemma EndsAsRead(us: seq<Id>, w: World, m: Move, a: Action)
    requires Enabled(us, w, m) && Taken(us, w, m) == Some(a)
    requires var e := w.engines[m.d]; InCall(e) && e.peer != No && e.peer != us[m.d]
    ensures EndsHere(w.engines[m.d], a) || EndsThere(w.engines[m.d], a) <==> Leaving(us, w, m)
  {
    hide Step, Moved, Posts, Fair;
  }

  lemma MovesEngine(us: seq<Id>, w: World, m: Move, a: Action)
    requires Enabled(us, w, m) && Taken(us, w, m) == Some(a)
    ensures Moved(us, w, m).engines[m.d] == Step(w.engines[m.d], a).e
  {
    hide Step;
  }

  lemma StaysInCall(e: Engine, a: Action)
    requires Sound(e) && Possible(e, a) && InCall(e)
    ensures InThisCall(Step(e, a).e, e.call) <==> Step(e, a).e.state != Idle
  {
  }

  /** So the party a caller chose stays when it reads that it was chosen: the other half of
      what a selection is for. */
  lemma TheSelectedStays(us: seq<Id>, ws: seq<World>, moves: seq<Move>, n: nat)
    requires n < |moves| && |ws| == |moves| + 1 && moves[n].Deliver?
    requires var w, d := ws[n], moves[n].d;
      d < |us| == |w.engines| == |w.cursors| == |ws[n + 1].engines| && Shaped(us, w) && InCall(w.engines[d])
    requires var w, d := ws[n], moves[n].d;
      && w.cursors[d] < |w.timeline|
      && var x := w.timeline[w.cursors[d]];
         x.body.Select? && x.body.call == w.engines[d].call && x.body.chosen == w.engines[d].party
    requires Run(us, ws, moves)
    ensures ws[n + 1].engines[moves[n].d] == ws[n].engines[moves[n].d]
  {
    RunStep(us, ws, moves, n);
    hide Run, Inv;
    match Taken(us, ws[n], moves[n])
    case None => NothingRead(us, ws[n], moves[n]);
    case Some(a) => MovesEngine(us, ws[n], moves[n], a);
  }

  /** Over whole runs: it stays in the call exactly as long as it does not end it and reads no
      end of it. */
  lemma {:induction false} StaysExactly(us: seq<Id>, ws: seq<World>, moves: seq<Move>, d: nat, c: Id, i: nat, j: nat)
    requires i <= j < |ws| == |moves| + 1 && d < |us|
    requires (forall k :: i <= k <= j ==> Shaped(us, ws[k])) && Shaped(us, ws[i])
    requires InThisCall(ws[i].engines[d], c)
    requires Run(us, ws, moves)
    ensures (forall k {:trigger ws[k]} :: i <= k <= j ==> Shaped(us, ws[k]) && InThisCall(ws[k].engines[d], c)) <==>
      forall k :: i <= k < j && moves[k].d == d ==> !Leaving(us, ws[k], moves[k])
    decreases j
  {
    hide Run, InThisCall, Leaving;
    if i < j {
      StaysExactly(us, ws, moves, d, c, i, j - 1);
      if forall k {:trigger ws[k]} :: i <= k < j ==> InThisCall(ws[k].engines[d], c) {
        OneMove(us, ws, moves, d, c, j - 1);
      }
    }
  }

  lemma OneMove(us: seq<Id>, ws: seq<World>, moves: seq<Move>, d: nat, c: Id, k: nat)
    requires k < |moves| && |ws| == |moves| + 1 && d < |us| && Shaped(us, ws[k]) && Shaped(us, ws[k + 1])
    requires InThisCall(ws[k].engines[d], c)
    requires Run(us, ws, moves)
    ensures moves[k].d < |us|
    ensures InThisCall(ws[k + 1].engines[d], c) <==> !(moves[k].d == d && Leaving(us, ws[k], moves[k]))
  {
    RunStep(us, ws, moves, k);
    hide Run, Inv;
    if moves[k].d == d {
      LeavesExactly(us, ws, moves, k);
      hide Moved;
    } else {
      hide Step, Posts;
    }
  }

  // ------------------------------------------------ what is said, and who hears it

  lemma {:induction false} InPosts(d: nat, out: seq<Out>, o: Out)
    requires o in out
    ensures forall ev :: ev in Post(d, o) ==> ev in Posts(d, out)
    decreases |out|
  {
    hide Post;
    if o != out[|out| - 1] {
      InPosts(d, out[..|out| - 1], o);
    }
  }

  /** Every word of a handler stands in the timeline after its move, from its device, in its
      room, with its ids. */
  lemma SaidIsPosted(us: seq<Id>, w: World, m: Move, a: Action, o: Out)
    requires Enabled(us, w, m) && Taken(us, w, m) == Some(a) && o in Step(w.engines[m.d], a).out
    ensures var t, d := Moved(us, w, m).timeline, m.d;
      match o
      case SendInvite(room, c, p) => Event(d, room, Invite(c, p)) in t
      case SendAnswer(room, c, p) => Event(d, room, Answer(c, p)) in t
      case SendCandidates(room, c, _, cs) => Event(d, room, Candidates(c, cs)) in t
      case SendHangup(room, c, p) => Event(d, room, Hangup(c, p)) in t
      case SendReject(room, c, p) => Event(d, room, Reject(c, p)) in t
      case SendSelect(room, c, p, s) => Event(d, room, Select(c, p, s)) in t
      case _ => true
  {
    InPosts(m.d, Step(w.engines[m.d], a).out, o);
    PostedAll(us, w, m, a);
    hide Step, Posts, Moved;
  }

  lemma PostedAll(us: seq<Id>, w: World, m: Move, a: Action)
    requires Enabled(us, w, m) && Taken(us, w, m) == Some(a)
    ensures forall ev :: ev in Posts(m.d, Step(w.engines[m.d], a).out) ==> ev in Moved(us, w, m).timeline
    ensures forall ev :: ev in w.timeline ==> ev in Moved(us, w, m).timeline
  {
    hide Step, Posts;
  }

  /** Which handler an event reaches: of its own account's a device hears that a call was taken
      or declined, of others' everything, but invites it does not let ring. */
  lemma HandedOver(us: seq<Id>, d: nat, ev: Event, luck: Luck)
    requires d < |us| && ev.from < |us|
    ensures var r, sender, c := Route(us, d, ev, luck), us[ev.from], ev.body.call;
      if sender == us[d]
      then
        if ev.body.Answer? || ev.body.Reject? then r == Some(GotElsewhere(ev.room, c, ev.body.party)) else r == None
      else match ev.body
        case Invite(_, _) =>
          if luck.rings then r == Some(GotInvite(ev.room, sender, c, luck.party, luck.version, luck.sdp)) else r == None
        case Answer(_, p) => r == Some(GotAnswer(ev.room, sender, c, p, luck.sdp, luck.readable))
        case Candidates(_, cs) => r == Some(GotCandidates(ev.room, sender, c, cs))
        case Hangup(_, p) => r == Some(GotHangup(ev.room, sender, c, p, false))
        case Reject(_, p) => r == Some(GotHangup(ev.room, sender, c, p, true))
        case Select(_, _, s) => r == Some(GotSelect(ev.room, sender, c, s))
  {
  }

  /** An idle device of another user rings on reading an invite it lets ring, for that call, in
      that room, with the caller for its peer. */
  lemma RingsInTheRoom(us: seq<Id>, w: World, m: Move)
    requires Enabled(us, w, m) && m.Deliver? && m.luck.rings && Sound(w.engines[m.d])
    requires w.engines[m.d].state == Idle
    requires var x := w.timeline[w.cursors[m.d]]; x.body.Invite? && us[x.from] != us[m.d]
    ensures var e, x := Moved(us, w, m).engines[m.d], w.timeline[w.cursors[m.d]];
      InCall(e) && e.state == Ringing && e.call == x.body.call && e.room == x.room && e.peer == us[x.from]
  {
    var a := Taken(us, w, m).a;
    MovesEngine(us, w, m, a);
    InviteTaken(w.engines[m.d], a);
    RingsExactly(w.engines[m.d], a);
    hide Step, Moved, Posts;
  }

  /** A caller reading an acceptable answer of a named party takes it, and says so to all. */
  lemma SelectsInTheRoom(us: seq<Id>, w: World, m: Move)
    requires Enabled(us, w, m) && m.Deliver? && Sound(w.engines[m.d])
    requires var e, x := w.engines[m.d], w.timeline[w.cursors[m.d]];
      && x.body.Answer? && x.body.party != No && us[x.from] != us[m.d] && e.isCaller && e.selected == Open
      && x.body.call == e.call && x.room == e.room && (e.peer == No || e.peer == us[x.from])
    ensures var e, x, y := w.engines[m.d], w.timeline[w.cursors[m.d]], Moved(us, w, m);
      && Event(m.d, e.room, Select(e.call, e.party, x.body.party)) in y.timeline
      && y.engines[m.d].selected == Chosen(x.body.party) && y.engines[m.d].peer == us[x.from]
  {
    var e, x, a := w.engines[m.d], w.timeline[w.cursors[m.d]], Taken(us, w, m).a;
    MovesEngine(us, w, m, a);
    AnswerTaken(e, a);
    hide Step, Moved, Posts;
    SaidIsPosted(us, w, m, a, SendSelect(e.room, e.call, e.party, x.body.party));
  }
}
