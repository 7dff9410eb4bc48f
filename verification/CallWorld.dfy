/** Any number of devices of any number of users, all running the call engine over one
    totally ordered room timeline that each reads at its own pace. */
module CallWorld {
  import opened CallEngine

  datatype Body =
    | Invite(call: Id, party: Id)
    | Answer(call: Id, party: Id)
    | Candidates(call: Id, cs: seq<Candidate>)
    | Hangup(call: Id, party: Id)
    | Reject(call: Id, party: Id)
    | Select(call: Id, party: Id, chosen: Id)

  /** `from` is the device that sent it; others only see its user. */
  datatype Event = Event(from: nat, room: Id, body: Body)

  /** `drawn` says which device drew each random id. */
  datatype World = World(engines: seq<Engine>, cursors: seq<nat>, timeline: seq<Event>, drawn: map<Id, nat>)

  /** What a delivery leaves to chance: the party id drawn for it, whether the policy and
      the ring history let an invite ring, and what its session description is. */
  datatype Luck = Luck(party: Id, rings: bool, version: Version, sdp: Sdp, readable: bool)

  datatype Move = Act(d: nat, a: Action) | Deliver(d: nat, luck: Luck)

  datatype Maybe = None | Some(a: Action)

  // ------------------------------------------------ from the wire to a handler

  /** Which handler an event reaches on device `d`: one's own account's events mean that
      another of its devices took or declined the call, or nothing. */
  function Route(us: seq<Id>, d: nat, ev: Event, luck: Luck): Maybe
    requires d < |us| && ev.from < |us|
  {
    var own, sender := us[ev.from] == us[d], us[ev.from];
    match ev.body
    case Invite(c, _) =>
      if own || !luck.rings then None else Some(GotInvite(ev.room, sender, c, luck.party, luck.version, luck.sdp))
    case Answer(c, p) =>
      if own then Some(GotElsewhere(ev.room, c, p)) else Some(GotAnswer(ev.room, sender, c, p, luck.sdp, luck.readable))
    case Candidates(c, cs) => if own then None else Some(GotCandidates(ev.room, sender, c, cs))
    case Hangup(c, p) => if own then None else Some(GotHangup(ev.room, sender, c, p, false))
    case Reject(c, p) => if own then Some(GotElsewhere(ev.room, c, p)) else Some(GotHangup(ev.room, sender, c, p, true))
    case Select(c, _, s) => if own then None else Some(GotSelect(ev.room, sender, c, s))
  }

  function Post(d: nat, o: Out): seq<Event> {
    match o
    case SendInvite(r, c, p) => [Event(d, r, Invite(c, p))]
    case SendAnswer(r, c, p) => [Event(d, r, Answer(c, p))]
    case SendCandidates(r, c, _, cs) => [Event(d, r, Candidates(c, cs))]
    case SendHangup(r, c, p) => [Event(d, r, Hangup(c, p))]
    case SendReject(r, c, p) => [Event(d, r, Reject(c, p))]
    case SendSelect(r, c, p, s) => [Event(d, r, Select(c, p, s))]
    case _ => []
  }

  function Posts(d: nat, out: seq<Out>): seq<Event>
    decreases |out|
  {
    if out == [] then [] else Posts(d, out[..|out| - 1]) + Post(d, out[|out| - 1])
  }

  // ------------------------------------------------ moves

  /** What a device does on its own: anything that does not come from the timeline. */
  predicate Local(a: Action) {
    !a.GotInvite? && !a.GotElsewhere? && !a.GotSelect? && !a.GotAnswer? && !a.GotCandidates? && !a.GotHangup?
  }

  predicate Draws(a: Action) { a.DoPlace? || a.RelayCame? }

  function AfterDraw(drawn: map<Id, nat>, d: nat, a: Action): map<Id, nat> {
    if Draws(a) then drawn[a.call := d][a.party := d]
    else if a.GotInvite? then drawn[a.party := d] else drawn
  }

  /** Ids are drawn fresh, and a call's pipeline makes one offer. */
  ghost predicate Fair(w: World, d: nat, a: Action)
    requires d < |w.engines|
  {
    && (Draws(a) ==> a.call !in w.drawn && a.party !in w.drawn && a.call != a.party)
    && (a.GotInvite? ==> a.party !in w.drawn)
    && (a.Described? && a.isOffer && Current(w.engines[d], a.g) ==>
          forall ev :: ev in w.timeline && ev.body.Invite? ==> ev.body.call != w.engines[d].call)
  }

  predicate Shaped(us: seq<Id>, w: World) {
    && |w.engines| == |w.cursors| == |us|
    && (forall d :: 0 <= d < |us| ==> us[d] != No && w.cursors[d] <= |w.timeline|)
    && (forall ev :: ev in w.timeline ==> ev.from < |us|)
  }

  /** The action a move makes its device take. */
  function Taken(us: seq<Id>, w: World, m: Move): Maybe
    requires Shaped(us, w) && m.d < |us|
  {
    match m
    case Act(_, a) => Some(a)
    case Deliver(d, luck) =>
      if w.cursors[d] == |w.timeline| then None else Route(us, d, w.timeline[w.cursors[d]], luck)
  }

  ghost predicate Enabled(us: seq<Id>, w: World, m: Move) {
    && Shaped(us, w) && m.d < |us|
    && (m.Act? ==> Local(m.a))
    && (m.Deliver? ==> w.cursors[m.d] < |w.timeline| && m.luck.party != No)
    && (Taken(us, w, m).Some? ==> Possible(w.engines[m.d], Taken(us, w, m).a) && Fair(w, m.d, Taken(us, w, m).a))
  }

  ghost function Moved(us: seq<Id>, w: World, m: Move): World
    requires Enabled(us, w, m)
  {
    var d := m.d;
    var cursors := if m.Deliver? then w.cursors[d := w.cursors[d] + 1] else w.cursors;
    match Taken(us, w, m)
    case None => w.(cursors := cursors)
    case Some(a) =>
      var r := Step(w.engines[d], a);
      World(w.engines[d := r.e], cursors, w.timeline + Posts(d, r.out), AfterDraw(w.drawn, d, a))
  }

  ghost predicate Run(us: seq<Id>, ws: seq<World>, moves: seq<Move>) {
    && |ws| == |moves| + 1
    && ws[0] == World(seq(|us|, _ => Fresh), seq(|us|, _ => 0), [], map[])
    && (forall d :: 0 <= d < |us| ==> us[d] != No)
    && forall i :: 0 <= i < |moves| ==> Enabled(us, ws[i], moves[i]) && ws[i + 1] == Moved(us, ws[i], moves[i])
  }

  // ------------------------------------------------ what one action can do to the world

  /** The call an engine names as its own, before and after. */
  ghost predicate KeepsCaller(e: Engine, a: Action, e': Engine) {
    && (e'.isCaller && e'.call != No ==> (e.isCaller && e'.call == e.call) || (Draws(a) && e'.call == a.call))
    && (e'.isCaller && e.isCaller && e'.call == e.call != No && e.selected != Open ==>
          e'.selected == e.selected || (Draws(a) && e'.call == a.call))
    && (!e'.isCaller && e'.call != No ==> (!e.isCaller && e'.call == e.call) || (a.GotInvite? && e'.call == a.call))
    && (e'.webrtc && e'.isCaller && e.webrtc && e.isCaller && e'.call == e.call ==> e'.room == e.room)
    && (e'.call != No ==> e'.call == e.call || ((Draws(a) || a.GotInvite?) && e'.call == a.call))
    && (e'.webrtc && e'.isCaller ==>
          (e.webrtc && e.isCaller && e'.call == e.call) || (Draws(a) && e'.call == a.call))
  }

  /** The call it answers. */
  ghost predicate KeepsCallee(e: Engine, a: Action, e': Engine) {
    InCall(e') ==>
      || (InCall(e) && e'.call == e.call && e'.room == e.room && e'.party == e.party && e'.peer == e.peer)
      || (a.GotInvite? && e.state == Idle && e'.call == a.call && e'.room == a.room && e'.party == a.party
        && e'.peer == a.sender)
  }

  /** What it may say, and what it then no longer is. */
  ghost predicate Says(e: Engine, a: Action, r: Result, o: Out) {
    match o
    case SendInvite(room, c, _) =>
      && a.Described? && a.isOffer && Current(e, a.g) && e.webrtc && e.isCaller
      && c == e.call && room == e.room && r.e == e
    case SendAnswer(room, c, _) => InCall(e) && c == e.call && room == e.room && r.e == e
    case SendSelect(room, c, _, s) =>
      && e.isCaller && e.selected == Open && c == e.call && room == e.room && s != No && e.call != No
      && a.GotAnswer? && a.call == c && a.room == room && a.party == s
      && (r.e.isCaller && r.e.call == c ==> r.e.selected == Chosen(s))
    case SendHangup(room, c, _) =>
      || (c == e.call && c != No && room == e.room && !r.e.webrtc)
      || (Draws(a) && c == a.call && !r.e.webrtc)
      || (a.GotInvite? && c == a.call && r.e.webrtc == e.webrtc && r.e.call == e.call && r.e.isCaller == e.isCaller)
    case _ => true
  }

  /** A caller that loses its pipeline and keeps the call has said goodbye to it. */
  ghost predicate Leaves(e: Engine, a: Action, r: Result) {
    r.e.isCaller && r.e.call != No && !r.e.webrtc ==>
      || (e.isCaller && e.call == r.e.call && !e.webrtc)
      || (e.isCaller && e.call == r.e.call && SendHangup(e.room, e.call, e.party) in r.out)
      || (Draws(a) && r.e.call == a.call && exists o :: o in r.out && o.SendHangup? && o.call == a.call)
  }

  ghost predicate Acts(e: Engine, a: Action, r: Result) {
    && KeepsCaller(e, a, r.e) && KeepsCallee(e, a, r.e) && Leaves(e, a, r)
    && (forall o :: o in r.out ==> Says(e, a, r, o))
  }

  lemma EndActs(e: Engine, a: Action)
    requires Sound(e) && Possible(e, a)
    requires a.DoHangUp? || a.RingTimeout? || a.GraceExpired? || a.MediaSilent? || a.MediaFailed? || a.Disconnected?
      || a.PipelineError?
    ensures Acts(e, a, Step(e, a))
  {
  }

  lemma ToldActs(e: Engine, a: Action)
    requires Sound(e) && Possible(e, a)
    requires a.GotElsewhere? || a.GotSelect? || a.GotHangup? || a.GotInvite?
    ensures Acts(e, a, Step(e, a))
  {
  }

  lemma AnswerActs(e: Engine, a: Action)
    requires Sound(e) && Possible(e, a) && a.GotAnswer?
    ensures Acts(e, a, Step(e, a))
  {
    var r := Step(e, a);
    if e.webrtc && !r.e.webrtc {
      assert r.out[|r.out| - 1] == SendHangup(e.room, e.call, e.party);
    }
  }

  lemma GoActs(e: Engine, a: Action)
    requires Sound(e) && Possible(e, a)
    requires a.ExpectPeer? || a.Connected? || a.Described? || a.Gathered? || a.Flush?
    ensures Acts(e, a, Step(e, a))
  {
  }

  lemma PlaceActs(e: Engine, a: Action)
    requires Sound(e) && Possible(e, a) && a.DoPlace?
    ensures Acts(e, a, Step(e, a))
  {
    hide Possible;
  }

  lemma {:induction false} PostsConcat(d: nat, x: seq<Out>, y: seq<Out>)
    ensures Posts(d, x + y) == Posts(d, x) + Posts(d, y)
    decreases |y|
  {
    hide Post;
    if y == [] {
      assert x + y == x;
    } else {
      assert (x + y)[..|x + y| - 1] == x + y[..|y| - 1];
      PostsConcat(d, x, y[..|y| - 1]);
    }
  }

  lemma PostsOne(d: nat, o: Out)
    ensures Posts(d, [o]) == Post(d, o) && Posts(d, []) == []
  {
    assert [o][..0] == [];
  }

  lemma {:induction false} IcesOnly(cs: seq<Candidate>, d: nat)
    ensures forall o :: o in Ices(cs) ==> o.AddIce?
    ensures Posts(d, Ices(cs)) == []
    decreases |cs|
  {
    PostsOne(d, AddIce(End));
    if cs != [] {
      var front := Ices(cs[..|cs| - 1]);
      IcesOnly(cs[..|cs| - 1], d);
      PostsConcat(d, front, [AddIce(cs[|cs| - 1])]);
      PostsOne(d, AddIce(cs[|cs| - 1]));
      assert front + [] == front;
      hide Posts;
    }
  }

  lemma HearActs(e: Engine, a: Action)
    requires Sound(e) && Possible(e, a) && a.GotCandidates?
    ensures Acts(e, a, Step(e, a))
  {
    HeardOut(e, a.room, a.sender, a.call, a.cs);
    hide RemoteCandidates, Possible;
  }

  lemma HeardOut(e: Engine, room: Id, sender: Id, call: Id, cs: seq<Candidate>)
    ensures var r := RemoteCandidates(e, room, sender, call, cs);
      r.e == e.(early := r.e.early) && forall o :: o in r.out ==> o.AddIce?
  {
    IcesOnly(cs, 0);
    hide Ices;
  }

  /** The answer given: goodbye if the pipeline fails, else the offer and what was held. */
  lemma OfferOut(e: Engine, ok: bool, readable: bool)
    requires e.room != No && e.call != No && !e.isCaller && e.state == Connecting
    ensures var r := OfferAnswered(e, ok, readable);
      && r.e == e.(state := r.e.state, offer := r.e.offer, early := r.e.early, pending := [], afterRelay := Nothing,
                   webrtc := r.e.webrtc, generation := r.e.generation)
      && (r.e.state == Idle || (r.e.state == e.state && r.e.webrtc)) && (r.e.state == Idle ==> !r.e.webrtc)
      && forall o :: o in r.out ==>
           o.AddIce? || o.ApplyRemote? || (o == SendHangup(e.room, e.call, e.party) && !r.e.webrtc)
  {
    IcesOnly(e.early, 0);
    hide Ices;
  }

  lemma AcceptActs(e: Engine, a: Action)
    requires Sound(e) && Possible(e, a) && a.DoAccept?
    ensures Acts(e, a, Step(e, a))
  {
    if e.state == Ringing {
      OfferOut(e.(state := Connecting), a.ok, a.readable);
    }
    hide OfferAnswered, Possible;
  }

  lemma RelayActs(e: Engine, a: Action)
    requires Sound(e) && Possible(e, a) && a.RelayCame?
    ensures Acts(e, a, Step(e, a))
  {
    if e.afterRelay == Answering {
      OfferOut(e.(afterRelay := Nothing), a.ok, a.readable);
    }
    hide OfferAnswered, Possible;
  }

  lemma AnyActs(e: Engine, a: Action)
    requires Sound(e) && Possible(e, a)
    ensures Acts(e, a, Step(e, a))
  {
    hide Sound, Possible, Step, Acts;
    if a.DoAccept? {
      AcceptActs(e, a);
    } else if a.RelayCame? {
      RelayActs(e, a);
    } else if a.GotCandidates? {
      HearActs(e, a);
    } else if a.DoPlace? {
      PlaceActs(e, a);
    } else if a.ExpectPeer? || a.Connected? || a.Described? || a.Gathered? || a.Flush? {
      GoActs(e, a);
    } else if a.GotElsewhere? || a.GotSelect? || a.GotHangup? || a.GotInvite? {
      ToldActs(e, a);
    } else if a.GotAnswer? {
      AnswerActs(e, a);
    } else {
      EndActs(e, a);
    }
  }

  // ------------------------------------------------ what every run keeps

  /** An invite to call `c` at `i`. */
  predicate Invites(t: seq<Event>, i: int, c: Id) { 0 <= i < |t| && t[i].body.Invite? && t[i].body.call == c }

  /** The timeline is causal: a call is invited once, by the device that drew its id; an
      answer follows its invite; a selection follows the answer it names, comes from the
      caller and is the only one; the caller's goodbye is never before its invite, and one
      of them goes to the room of the invite. */
  ghost predicate Orderly(t: seq<Event>, drawn: map<Id, nat>, i: nat)
    requires i < |t|
  {
    match t[i].body
    case Invite(c, _) =>
      && c in drawn && drawn[c] == t[i].from
      && forall j {:trigger Invites(t, j, c)} :: Invites(t, j, c) ==> j == i
    case Answer(c, _) =>
      exists j {:trigger Invites(t, j, c)} :: j < i && Invites(t, j, c) && t[j].room == t[i].room
    case Select(c, _, s) =>
      && s != No && c in drawn && drawn[c] == t[i].from
      && (exists j {:trigger t[j]} :: 0 <= j < i && t[j].body == Answer(c, s) && t[j].room == t[i].room)
      && (exists j {:trigger Invites(t, j, c)} :: j < i && Invites(t, j, c) && t[j].room == t[i].room)
      && forall j {:trigger t[j]} :: 0 <= j < |t| && t[j].body.Select? && t[j].body.call == c ==> j == i
    case Hangup(c, _) =>
      c in drawn && drawn[c] == t[i].from ==>
        && (forall j {:trigger Invites(t, j, c)} :: Invites(t, j, c) ==> j < i)
        && SaidGoodbye(t, c, t[i].from)
    case _ => true
  }

  /** Goodbye from `d` to call `c`, where the call was invited. */
  ghost predicate SaidGoodbye(t: seq<Event>, c: Id, d: nat) {
    exists h :: 0 <= h < |t| && Goodbye(t, h, c, d)
  }

  ghost predicate Goodbye(t: seq<Event>, h: nat, c: Id, d: nat) {
    && h < |t| && t[h].from == d && t[h].body.Hangup? && t[h].body.call == c
    && forall j {:trigger Invites(t, j, c)} :: Invites(t, j, c) ==> t[j].room == t[h].room
  }

  /** A device in somebody's call has read the invite; of the caller's later words it has
      read no goodbye and no selection but of itself. */
  ghost predicate Faithful(us: seq<Id>, t: seq<Event>, e: Engine, k: nat, d: nat)
    requires d < |us| && k <= |t| && forall ev :: ev in t ==> ev.from < |us|
  {
    InCall(e) ==> exists i :: ReadInvite(us, t, e, k, d, i)
  }

  ghost predicate ReadInvite(us: seq<Id>, t: seq<Event>, e: Engine, k: nat, d: nat, i: nat)
    requires d < |us| && k <= |t| && forall ev :: ev in t ==> ev.from < |us|
  {
    && i < k && Invites(t, i, e.call) && us[t[i].from] == e.peer != us[d] && t[i].room == e.room
    && forall j {:trigger t[j]} :: 0 <= j < k && t[j].room == e.room ==>
      && (t[j].body.Select? && t[j].body.call == e.call ==> t[j].body.chosen == e.party)
      && (t[j].body.Hangup? && t[j].body.call == e.call ==> t[j].from != t[i].from)
  }

  /** A device's own call is one it drew, and another's never is. What was selected for its
      own is its choice. With a pipeline it has said no goodbye to it and the invite went to
      the room it is in; without one it has said goodbye. */
  ghost predicate Honest(t: seq<Event>, drawn: map<Id, nat>, e: Engine, d: nat) {
    && Sound(e)
    && (e.call != No ==> e.call in drawn && (drawn[e.call] == d <==> e.isCaller))
    && (e.isCaller && e.call != No ==> Chose(t, e))
    && (e.isCaller && e.webrtc ==> InvitedHere(t, e))
    && (e.isCaller && e.webrtc ==>
          forall ev {:trigger ev in t} :: ev in t && ev.body.Hangup? && ev.from == d ==> ev.body.call != e.call)
    && (e.isCaller && e.call != No && !e.webrtc ==> SaidGoodbye(t, e.call, d))
    && (InCall(e) ==> e.party in drawn && drawn[e.party] == d)
  }

  ghost predicate Chose(t: seq<Event>, e: Engine) {
    forall ev {:trigger ev in t} ::
      ev in t && ev.body.Select? && ev.body.call == e.call ==> e.selected == Chosen(ev.body.chosen)
  }

  ghost predicate InvitedHere(t: seq<Event>, e: Engine) {
    forall j {:trigger Invites(t, j, e.call)} :: Invites(t, j, e.call) ==> t[j].room == e.room
  }

  ghost predicate Inv(us: seq<Id>, w: World) {
    && Shaped(us, w)
    && No !in w.drawn
    && (forall ev {:trigger ev in w.timeline} :: ev in w.timeline && ev.body.Hangup? ==> ev.body.call in w.drawn)
    && (forall i {:trigger w.timeline[i]} :: 0 <= i < |w.timeline| ==> Orderly(w.timeline, w.drawn, i))
    && (forall d {:trigger w.engines[d]} :: 0 <= d < |us| ==>
          && Honest(w.timeline, w.drawn, w.engines[d], d)
          && Faithful(us, w.timeline, w.engines[d], w.cursors[d], d))
  }

  // ------------------------------------------------ one move

  lemma {:induction false} PostsFrom(d: nat, out: seq<Out>)
    ensures forall ev :: ev in Posts(d, out) ==> ev.from == d && exists o :: o in out && Post(d, o) == [ev]
    decreases |out|
  {
    if out != [] {
      var front, o := out[..|out| - 1], out[|out| - 1];
      PostsFrom(d, front);
      forall ev | ev in Posts(d, out)
        ensures ev.from == d && exists o :: o in out && Post(d, o) == [ev]
      {
        if ev in Posts(d, front) {
          var x :| x in front && Post(d, x) == [ev];
          assert x in out;
        } else {
          assert ev in Post(d, o) && o in out;
        }
      }
    }
  }

  /** An invite goes out alone; with a selection at most a goodbye. */
  lemma PostsFew(e: Engine, a: Action, d: nat)
    ensures var p := Posts(d, Step(e, a).out);
      && (a.Described? ==> |p| <= 1)
      && (a.GotAnswer? ==> |p| <= 2 && (|p| == 2 ==> p[1].body.Hangup?))
  {
    if a.Described? {
      PostsOne(d, SendInvite(e.room, e.call, e.party));
      PostsOne(d, SendAnswer(e.room, e.call, e.party));
    } else if a.GotAnswer? {
      AnsweredPosts(e, a, d);
    }
  }

  lemma AnsweredOut(e: Engine, a: Action) returns (x: seq<Out>, y: seq<Out>)
    requires a.GotAnswer?
    ensures Step(e, a).out == x + y && |x| <= 1 && |y| <= 1
    ensures y != [] ==> y[0].SendHangup? || y[0].ApplyRemote?
  {
    var out := Step(e, a).out;
    assert out == Answered(e, a.room, a.sender, a.call, a.party, a.sdp, a.readable).out;
    x := if out != [] && out[0].SendSelect? then out[..1] else [];
    y := out[|x|..];
  }

  lemma AnsweredPosts(e: Engine, a: Action, d: nat)
    requires a.GotAnswer?
    ensures var p := Posts(d, Step(e, a).out);
      |p| <= 2 && (|p| == 2 ==> p[1].body.Hangup?)
  {
    hide Posts, Step;
    var x, y := AnsweredOut(e, a);
    PostsConcat(d, x, y);
    PostsOne(d, if x == [] then NeedRelay else x[0]);
    PostsOne(d, if y == [] then NeedRelay else y[0]);
    assert x == [] || x == [x[0]];
    assert y == [] || y == [y[0]];
  }

  /** What the mover's posts can be, in terms of the world. */
  ghost predicate Posted(us: seq<Id>, w: World, d: nat, a: Action, e': Engine, ev: Event)
    requires d < |w.engines|
  {
    var e := w.engines[d];
    && ev.from == d
    && match ev.body
       case Invite(c, _) => a.Described? && e.webrtc && e.isCaller && c == e.call && ev.room == e.room && e' == e
         && forall x {:trigger x in w.timeline} :: x in w.timeline && x.body.Invite? ==> x.body.call != c
       case Answer(c, _) => InCall(e) && c == e.call && ev.room == e.room
       case Select(c, _, s) =>
         && a.GotAnswer? && e.isCaller && e.selected == Open && c == e.call != No && s != No
         && a.call == c && a.room == ev.room && a.party == s
         && (e'.isCaller && e'.call == c ==> e'.selected == Chosen(s))
       case Hangup(c, _) =>
         || (c == e.call && c != No && ev.room == e.room && !e'.webrtc)
         || (Draws(a) && c == a.call && !e'.webrtc)
         || (a.GotInvite? && c == a.call && e'.call == e.call && e'.isCaller == e.isCaller)
       case _ => true
  }

  lemma PostsArePosted(us: seq<Id>, w: World, d: nat, a: Action)
    requires d < |w.engines| && Sound(w.engines[d]) && Possible(w.engines[d], a) && Fair(w, d, a)
    ensures var r := Step(w.engines[d], a);
      forall ev :: ev in Posts(d, r.out) ==> Posted(us, w, d, a, r.e, ev)
  {
    var e := w.engines[d];
    var r := Step(e, a);
    AnyActs(e, a);
    PostsFrom(d, r.out);
    hide Step, Possible, Posts;
    forall ev | ev in Posts(d, r.out)
      ensures Posted(us, w, d, a, r.e, ev)
    {
      var o :| o in r.out && Post(d, o) == [ev];
      OnePosted(us, w, d, a, r, o, ev);
    }
  }

  lemma OnePosted(us: seq<Id>, w: World, d: nat, a: Action, r: Result, o: Out, ev: Event)
    requires d < |w.engines| && Sound(w.engines[d]) && Fair(w, d, a)
    requires Says(w.engines[d], a, r, o) && Post(d, o) == [ev]
    ensures Posted(us, w, d, a, r.e, ev)
  {
    assert Post(d, o)[0] == ev;
  }
}
