/** What the ids kept after a failure lead to: an answer that comes too late is taken, and
    the call it brings back has no pipeline and never gets one; and a next call that waits for
    its relay is ended by what was meant for the old one. */
module CallRevival {
  import opened CallEngine
  import opened CallWorld
  import opened CallAgreement

  /** The guard of an answer: the engine's own call, its room, its peer if it has one, and no
      answer taken yet. Nothing here asks whether the call is still being placed. */
  predicate AnswerMeant(e: Engine, room: Id, sender: Id, call: Id) {
    e.isCaller && call == e.call && room == e.room && e.selected == Open && (e.peer == No || sender == e.peer)
  }

  /** A caller that connects without a pipeline. */
  predicate Revived(e: Engine) { e.isCaller && e.state == Connecting && !e.webrtc }

  /** Given up while nobody had answered: the ids that a late answer will match. */
  predicate Lingering(e: Engine) { e.isCaller && e.call != No && e.selected == Open && !e.webrtc }

  // ------------------------------------------------ exactly when

  /** Every way into that state, for every engine: an answer that is meant, to an engine
      without a pipeline - idle after a failure, or waiting for the relay of its next call. */
  lemma RevivedExactly(e: Engine, a: Action)
    requires Sound(e) && Possible(e, a) && !Revived(e)
    ensures Revived(Step(e, a).e) <==> a.GotAnswer? && !e.webrtc && AnswerMeant(e, a.room, a.sender, a.call)
  {
  }

  /** Only a lingering engine has an answer left to be taken that way. */
  lemma RevivedFromLingering(e: Engine, a: Action)
    requires Sound(e) && Possible(e, a) && !Revived(e) && Revived(Step(e, a).e)
    ensures Lingering(e) && (e.state == Idle || (e.state == Calling && e.afterRelay == Outgoing))
  {
    RevivedExactly(e, a);
  }

  /** An engine begins to linger exactly where its own call fails before it was answered. */
  lemma LingersExactly(e: Engine, a: Action)
    requires Sound(e) && Possible(e, a) && !Lingering(e)
    ensures Lingering(Step(e, a).e) <==>
      || (a.PipelineError? && Current(e, a.g) && e.isCaller && e.selected == Open)
      || (a.DoPlace? && a.room != No && e.state == Idle && !a.stale && !a.ok)
      || (a.RelayCame? && e.afterRelay == Outgoing && e.state == Calling && !a.ok)
  {
  }

  /** The first input: answered while idle. Goodbye has been said, and the selection goes out
      all the same. */
  lemma AnsweredWhenIdle(e: Engine, sender: Id, party: Id, sdp: Sdp, readable: bool)
    requires Sound(e) && e.webrtc && e.isCaller && e.selected == Open && party != No
    requires e.peer == No || e.peer == sender
    ensures var failed := Failed(e);
      var taken := Answered(failed.e, e.room, sender, e.call, party, sdp, readable);
      && failed.e.state == Idle && SendHangup(e.room, e.call, e.party) in failed.out
      && taken.out == [SendSelect(e.room, e.call, e.party, party)] && Revived(taken.e)
  {
  }

  /** The second: answered while the next call to the room waits for its relay, still under
      the old call id. When the relay comes, that next call is never started. */
  lemma AnsweredWhileWaiting(e: Engine, sender: Id, party: Id, sdp: Sdp, readable: bool,
                             call: Id, next: Id, ok: bool)
    requires Sound(e) && e.webrtc && e.isCaller && e.selected == Open && party != No
    ensures var placed := Placed(Failed(e).e, e.room, true, call, next, ok);
      var taken := Answered(placed.e, e.room, sender, e.call, party, sdp, readable);
      var resumed := Resumed(taken.e, call, next, ok, readable);
      && placed.e.state == Calling && placed.e.call == e.call && placed.out == [NeedRelay]
      && taken.out == [SendSelect(e.room, e.call, e.party, party)] && Revived(taken.e)
      && resumed.out == [] && Revived(resumed.e) && resumed.e.call == e.call
  {
  }

  // ------------------------------------------------ what becomes of it

  /** Says goodbye at most, and hands nothing to media. */
  predicate Mute(o: Out) { o.SendHangup? }

  /** It is left exactly by hanging up here, or by a hangup of the selected party there. */
  predicate Ends(e: Engine, a: Action) {
    a.DoHangUp? || (a.GotHangup? && HangupMeant(e, a.room, a.sender, a.call, a.party, a.reject))
  }

  lemma RevivedStep(e: Engine, a: Action)
    requires Sound(e) && Possible(e, a) && Revived(e)
    ensures var r := Step(e, a);
      && (Ends(e, a) <==> r.e.state == Idle) && !r.e.webrtc
      && (!Ends(e, a) ==> Revived(r.e) && r.e.call == e.call && r.e.room == e.room)
      && forall o :: o in r.out ==> Mute(o)
  {
  }

  ghost predicate EngineRun(es: seq<Engine>, actions: seq<Action>) {
    && |es| == |actions| + 1 && es[0] == Fresh
    && forall i :: 0 <= i < |actions| ==> Possible(es[i], actions[i]) && es[i + 1] == Step(es[i], actions[i]).e
  }

  lemma {:induction false} RunIsSound(es: seq<Engine>, actions: seq<Action>, i: nat)
    requires EngineRun(es, actions) && i < |es|
    ensures Sound(es[i])
    decreases i
  {
    hide Sound, Possible, Step;
    if i == 0 {
      assert Sound(Fresh) by { FreshIsSound(); }
    } else {
      RunIsSound(es, actions, i - 1);
      SoundKept(es[i - 1], actions[i - 1]);
    }
  }

  lemma FreshIsSound()
    ensures Sound(Fresh)
  {
  }

  /** Over every run: once revived, the engine connects for ever. Until somebody hangs up it
      has no pipeline, starts no call and says nothing but goodbye to others. */
  lemma {:induction false} RevivedForEver(es: seq<Engine>, actions: seq<Action>, i: nat, j: nat)
    requires EngineRun(es, actions) && i <= j < |es| && Revived(es[i])
    requires forall k :: i <= k < j ==> !Ends(es[k], actions[k])
    ensures Revived(es[j]) && es[j].call == es[i].call && es[j].room == es[i].room
    ensures j < |actions| ==> forall o :: o in Step(es[j], actions[j]).out ==> Mute(o)
    decreases j
  {
    hide Sound, Possible, Step, Revived, Ends, Mute;
    RunIsSound(es, actions, j);
    if i < j {
      RunIsSound(es, actions, j - 1);
      RevivedForEver(es, actions, i, j - 1);
      RevivedStep(es[j - 1], actions[j - 1]);
    }
    if j < |actions| {
      RevivedStep(es[j], actions[j]);
    }
  }

  // ------------------------------------------------ the next call, while it waits for its relay

  /** A call of its own that has no id yet: until the relay comes it goes by the last one's. */
  predicate Waiting(e: Engine) { e.state == Calling && e.afterRelay == Outgoing }

  /** Idle under the ids of a call that failed, on either side of it. */
  predicate Stale(e: Engine) { e.state == Idle && e.call != No }

  predicate AnswersOffer(e: Engine, a: Action) {
    || (a.DoAccept? && e.state == Ringing && e.offer != NoSdp && !a.stale)
    || (a.RelayCame? && e.state == Connecting && e.afterRelay == Answering)
  }

  /** Every way to become so: a pipeline that fails or is not built, or a description from the
      other side that cannot be read. */
  lemma StaleExactly(e: Engine, a: Action)
    requires Sound(e) && Possible(e, a) && !Stale(e)
    ensures Stale(Step(e, a).e) <==>
      || (a.PipelineError? && Current(e, a.g))
      || (a.DoPlace? && a.room != No && e.state == Idle && !a.stale && !a.ok)
      || (a.RelayCame? && Waiting(e) && !a.ok)
      || (AnswersOffer(e, a) && (!a.ok || !a.readable))
      || (a.GotAnswer? && AnswerMeant(e, a.room, a.sender, a.call) && e.webrtc && !a.readable)
  {
  }

  /** The input: a call fails, the next one to the room waits for its relay, and a late hangup
      or reject of the first, from whoever sent it, ends the second. The relay then starts
      nothing. On either side of the first call, and after an answer from its party. */
  lemma HungUpWhileWaiting(e: Engine, sender: Id, party: Id, reject: bool, call: Id, next: Id, ok: bool, readable: bool)
    requires Sound(e) && e.webrtc
    requires e.isCaller && e.selected != Open ==> !reject && (e.selected == Anonymous || Chosen(party) == e.selected)
    ensures var placed := Placed(Failed(e).e, e.room, true, call, next, ok);
      var hung := RemoteHangup(placed.e, e.room, sender, e.call, party, reject);
      && Waiting(placed.e) && placed.out == [NeedRelay]
      && hung.state == Idle && hung.afterRelay == Nothing
      && Resumed(hung, call, next, ok, readable) == Result(hung, [])
  {
  }

  /** Hanging up the waiting call says goodbye to the failed one, in the new call's room. */
  lemma GoodbyeToTheOldCall(e: Engine, room: Id, call: Id, next: Id, ok: bool)
    requires Sound(e) && e.webrtc && room != No
    ensures HungUp(Placed(Failed(e).e, room, true, call, next, ok).e).out == [SendHangup(room, e.call, e.party)]
  {
  }

  /** A message meant for the call whose id it still has. */
  predicate Loses(e: Engine, a: Action) {
    || (a.GotAnswer? && AnswerMeant(e, a.room, a.sender, a.call))
    || (a.GotHangup? && HangupMeant(e, a.room, a.sender, a.call, a.party, a.reject))
  }

  /** Where a callee's call failed, placing forgot the peer, and only callers learn a new one. */
  predicate Peerless(e: Engine) { Waiting(e) && !e.isCaller ==> e.peer == No }

  lemma PeerlessKept(e: Engine, a: Action)
    requires Sound(e) && Possible(e, a) && Peerless(e)
    ensures Peerless(Step(e, a).e)
  {
  }

  /** A waiting call is left exactly by its relay, by hanging up, or by such a message. */
  lemma WaitingLeft(e: Engine, a: Action)
    requires Sound(e) && Possible(e, a) && Waiting(e) && Peerless(e)
    ensures !Waiting(Step(e, a).e) <==> a.RelayCame? || a.DoHangUp? || Loses(e, a)
  {
  }

  /** Nothing but placing one makes a call wait. */
  lemma WaitingBegins(e: Engine, a: Action)
    requires Sound(e) && Possible(e, a) && !Waiting(e)
    ensures Waiting(Step(e, a).e) <==> a.DoPlace? && a.room != No && e.state == Idle && a.stale
    ensures Waiting(Step(e, a).e) ==> Step(e, a).e.call == e.call
  {
  }

  /** Without an id of old no message can end it. */
  lemma NothingToLose(e: Engine, a: Action)
    requires Sound(e) && Possible(e, a) && Waiting(e) && e.call == No
    ensures !Loses(e, a)
    ensures Waiting(Step(e, a).e) ==> Step(e, a).e.call == No
  {
  }

  lemma {:induction false} RunIsPeerless(es: seq<Engine>, actions: seq<Action>, i: nat)
    requires EngineRun(es, actions) && i < |es|
    ensures Peerless(es[i])
    decreases i
  {
    hide Sound, Possible, Step, Peerless;
    if i == 0 {
      FreshIsPeerless();
    } else {
      RunIsSound(es, actions, i - 1);
      RunIsPeerless(es, actions, i - 1);
      PeerlessKept(es[i - 1], actions[i - 1]);
    }
  }

  lemma FreshIsPeerless()
    ensures Peerless(Fresh)
  {
  }

  /** One placed call, until a relay comes for it. */
  ghost predicate WaitsFrom(es: seq<Engine>, actions: seq<Action>, i: nat, j: nat) {
    && EngineRun(es, actions) && i <= j < |actions| && Waiting(es[i])
    && forall k :: i <= k < j ==> !actions[k].RelayCame? && !actions[k].DoHangUp? && !actions[k].DoPlace?
  }

  /** Over every run: a call that waits, and is not hung up here, still waits when its relay
      comes exactly if no message for the old call came in between. */
  lemma {:induction false} StillWaits(es: seq<Engine>, actions: seq<Action>, i: nat, j: nat)
    requires WaitsFrom(es, actions, i, j)
    ensures Waiting(es[j]) <==> forall k :: i <= k < j ==> !Loses(es[k], actions[k])
    decreases j
  {
    hide Sound, Possible, Step, Waiting, Peerless, Loses;
    if i < j {
      var e, a := es[j - 1], actions[j - 1];
      StillWaits(es, actions, i, j - 1);
      RunIsSound(es, actions, j - 1);
      RunIsPeerless(es, actions, j - 1);
      if Waiting(e) {
        WaitingLeft(e, a);
      } else {
        WaitingBegins(e, a);
      }
    }
  }

  /** And it is started then, or no call is. */
  lemma StartedExactly(es: seq<Engine>, actions: seq<Action>, i: nat, j: nat)
    requires WaitsFrom(es, actions, i, j) && actions[j].RelayCame?
    ensures var a := actions[j];
      if forall k :: i <= k < j ==> !Loses(es[k], actions[k])
      then es[j + 1] == StartedOutgoing(es[j].(afterRelay := Nothing), a.call, a.party, a.ok).e
      else es[j + 1].call == es[j].call && (es[j + 1].webrtc ==> es[j].webrtc || InCall(es[j]))
  {
    hide Loses, Sound, Possible, Step, Waiting, InCall, StartedOutgoing;
    StillWaits(es, actions, i, j);
    RunIsSound(es, actions, j);
    if Waiting(es[j]) {
      RelayStarts(es[j], actions[j]);
    } else {
      NotStarted(es[j], actions[j]);
    }
  }

  lemma RelayStarts(e: Engine, a: Action)
    requires a.RelayCame? && Waiting(e)
    ensures Step(e, a) == StartedOutgoing(e.(afterRelay := Nothing), a.call, a.party, a.ok)
  {
  }

  lemma NotStarted(e: Engine, a: Action)
    requires Sound(e) && a.RelayCame? && !Waiting(e)
    ensures Step(e, a).e.call == e.call && (Step(e, a).e.webrtc ==> e.webrtc || InCall(e))
  {
  }

  /** A call that did not come after a failed one has nothing to lose: it is started. */
  lemma {:induction false} FreshIsStarted(es: seq<Engine>, actions: seq<Action>, i: nat, j: nat)
    requires WaitsFrom(es, actions, i, j) && es[i].call == No
    ensures Waiting(es[j]) && es[j].call == No
    decreases j
  {
    hide Sound, Possible, Step, Waiting, Peerless, Loses;
    if i < j {
      var e, a := es[j - 1], actions[j - 1];
      FreshIsStarted(es, actions, i, j - 1);
      RunIsSound(es, actions, j - 1);
      RunIsPeerless(es, actions, j - 1);
      WaitingLeft(e, a);
      NothingToLose(e, a);
    }
  }

  // ------------------------------------------------ in the room

  /** In every run of all devices: a selection follows the caller's own goodbye to that call
      exactly if the caller has no pipeline when it selects. */
  lemma SelectionAfterGoodbye(us: seq<Id>, ws: seq<World>, moves: seq<Move>, n: nat, a: Action, o: Out)
    requires n < |moves| && |ws| == |moves| + 1 && moves[n].d < |us| == |ws[n].engines|
    requires Shaped(us, ws[n]) && Taken(us, ws[n], moves[n]) == Some(a)
    requires o in Step(ws[n].engines[moves[n].d], a).out && o.SendSelect?
    requires Run(us, ws, moves)
    ensures var w, d := ws[n], moves[n].d;
      && a.GotAnswer? && a.call == o.call && AnswerMeant(w.engines[d], a.room, a.sender, a.call)
      && (SaidBye(w, d, o.call) <==> !w.engines[d].webrtc)
      && (!w.engines[d].webrtc ==> Revived(Step(w.engines[d], a).e))
  {
    InvHolds(us, ws, moves, n);
    var w, d := ws[n], moves[n].d;
    var e := w.engines[d];
    RunStep(us, ws, moves, n);
    HasEngine(us, w, d);
    AnyActs(e, a);
    assert Says(e, a, Step(e, a), o);
    ByeExactly(w, e, d);
    hide Run, Inv, Says, Honest;
  }

  lemma HasEngine(us: seq<Id>, w: World, d: nat)
    requires Inv(us, w) && d < |us| && d < |w.engines|
    ensures Honest(w.timeline, w.drawn, w.engines[d], d)
  {
  }

  lemma ByeExactly(w: World, e: Engine, d: nat)
    requires Honest(w.timeline, w.drawn, e, d) && e.isCaller && e.call != No
    ensures SaidBye(w, d, e.call) <==> !e.webrtc
  {
    if !e.webrtc {
      var h :| 0 <= h < |w.timeline| && Goodbye(w.timeline, h, e.call, d);
      assert w.timeline[h] in w.timeline;
    }
  }

  predicate SaidBye(w: World, d: nat, c: Id) {
    exists ev :: ev in w.timeline && ev.from == d && ev.body.Hangup? && ev.body.call == c
  }
}
