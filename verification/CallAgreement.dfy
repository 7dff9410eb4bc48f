/** Agreement between the devices of a call: one selection, and no other device stays. */
module CallAgreement {
  import opened CallEngine
  import opened CallWorld

  /** Everything one taken action has to go on. */
  ghost predicate Taking(us: seq<Id>, w: World, m: Move, a: Action) {
    && Inv(us, w) && Enabled(us, w, m) && Taken(us, w, m) == Some(a)
  }

  /** The mover's posts and draw against the timeline before. */
  ghost predicate Around(us: seq<Id>, w: World, m: Move, a: Action, e': Engine, p: seq<Event>) {
    && Taking(us, w, m, a)
    && (forall ev {:trigger ev in p} :: ev in p ==> Posted(us, w, m.d, a, e', ev))
    && (a.Described? ==> |p| <= 1)
    && (a.GotAnswer? ==> |p| <= 2 && (|p| == 2 ==> p[1].body.Hangup?))
  }

  lemma HasAround(us: seq<Id>, w: World, m: Move, a: Action)
    requires Taking(us, w, m, a)
    ensures var r := Step(w.engines[m.d], a);
      Around(us, w, m, a, r.e, Posts(m.d, r.out))
      && KeepsCaller(w.engines[m.d], a, r.e) && KeepsCallee(w.engines[m.d], a, r.e) && Sound(r.e)
      && Leaves(w.engines[m.d], a, r)
  {
    assert Honest(w.timeline, w.drawn, w.engines[m.d], m.d);
    hide Step, Inv, Posts, Posted;
    AnyActs(w.engines[m.d], a);
    PostsArePosted(us, w, m.d, a);
    PostsFew(w.engines[m.d], a, m.d);
    SoundKept(w.engines[m.d], a);
  }

  /** A message handed to a handler is the next event of the timeline, from another user
      where the handler is for those. */
  lemma FromTimeline(us: seq<Id>, w: World, m: Move, a: Action)
    requires Taking(us, w, m, a) && !Local(a)
    ensures m.Deliver? && w.cursors[m.d] < |w.timeline|
    ensures w.timeline[w.cursors[m.d]] in w.timeline
    ensures Route(us, m.d, w.timeline[w.cursors[m.d]], m.luck) == Some(a)
  {
  }

  lemma DrawnGrows(us: seq<Id>, w: World, m: Move, a: Action, c: Id)
    requires Taking(us, w, m, a) && c in w.drawn
    ensures var after := AfterDraw(w.drawn, m.d, a);
      c in after && after[c] == w.drawn[c] && No !in after
  {
  }

  /** Drawn ids are old: nothing in the timeline names a fresh one as a call. */
  lemma CallsAreDrawn(us: seq<Id>, w: World, i: nat)
    requires Inv(us, w) && i < |w.timeline|
    ensures w.timeline[i].body.Invite? || w.timeline[i].body.Select? || w.timeline[i].body.Hangup? ==>
      w.timeline[i].body.call in w.drawn
  {
    assert Orderly(w.timeline, w.drawn, i);
    assert w.timeline[i] in w.timeline;
  }

  lemma NewPosted(us: seq<Id>, w: World, m: Move, a: Action, e': Engine, p: seq<Event>, j: nat)
    requires Around(us, w, m, a, e', p) && |w.timeline| <= j < |w.timeline + p|
    ensures Posted(us, w, m.d, a, e', (w.timeline + p)[j])
    ensures (w.timeline + p)[j] == p[j - |w.timeline|] && p[j - |w.timeline|] in p
  {
    assert p[j - |w.timeline|] in p;
  }

  lemma OldOrderly(us: seq<Id>, w: World, m: Move, a: Action, e': Engine, p: seq<Event>, i: nat)
    requires Around(us, w, m, a, e', p) && i < |w.timeline|
    ensures Orderly(w.timeline + p, AfterDraw(w.drawn, m.d, a), i)
  {
    var t, t', d, e := w.timeline, w.timeline + p, m.d, w.engines[m.d];
    var ev := t[i];
    assert Orderly(t, w.drawn, i) && Honest(t, w.drawn, e, d);
    assert ev in t;
    CallsAreDrawn(us, w, i);
    if !ev.body.Answer? && !ev.body.Candidates? && !ev.body.Reject? {
      DrawnGrows(us, w, m, a, ev.body.call);
    }
    forall j | |t| <= j < |t'| && ev.body.Invite? && Invites(t', j, ev.body.call)
      ensures false
    {
      NewPosted(us, w, m, a, e', p, j);
    }
    forall j | |t| <= j < |t'| && ev.body.Select? && t'[j].body.Select? && t'[j].body.call == ev.body.call
      ensures false
    {
      NewPosted(us, w, m, a, e', p, j);
    }
    forall j | |t| <= j < |t'| && ev.body.Hangup? && w.drawn[ev.body.call] == ev.from && Invites(t', j, ev.body.call)
      ensures false
    {
      NewPosted(us, w, m, a, e', p, j);
    }
    hide Posted;
    assert forall j, c {:trigger Invites(t', j, c)} :: j < |t| ==> Invites(t', j, c) == Invites(t, j, c);
    assert forall j {:trigger t'[j]} :: 0 <= j < |t| ==> t'[j] == t[j];
    OldOrderlyTail(t, p, w.drawn, AfterDraw(w.drawn, d, a), i);
  }

  lemma OldOrderlyTail(t: seq<Event>, p: seq<Event>, drawn: map<Id, nat>, drawn': map<Id, nat>, i: nat)
    requires i < |t| && Orderly(t, drawn, i)
    requires var ev, t' := t[i], t + p;
      && (ev.body.Invite? || ev.body.Select? || ev.body.Hangup? ==>
            ev.body.call in drawn && ev.body.call in drawn' && drawn'[ev.body.call] == drawn[ev.body.call])
      && (ev.body.Invite? || (ev.body.Hangup? && drawn[ev.body.call] == ev.from) ==>
            forall j {:trigger Invites(t', j, ev.body.call)} :: j >= |t| ==> !Invites(t', j, ev.body.call))
      && (ev.body.Select? ==>
            forall j {:trigger t'[j]} :: |t| <= j < |t'| ==> !(t'[j].body.Select? && t'[j].body.call == ev.body.call))
    ensures Orderly(t + p, drawn', i)
  {
    var t', ev := t + p, t[i];
    assert forall j, c {:trigger Invites(t', j, c)} :: j < |t| ==> Invites(t', j, c) == Invites(t, j, c);
    assert forall j {:trigger t'[j]} :: 0 <= j < |t| ==> t'[j] == t[j];
    match ev.body
    case Answer(c, _) =>
      var j :| j < i && Invites(t, j, c) && t[j].room == t[i].room;
      assert Invites(t', j, c);
    case Select(c, _, s) =>
      var j :| j < i && Invites(t, j, c) && t[j].room == t[i].room;
      assert Invites(t', j, c);
      var h :| 0 <= h < i && t[h].body == Answer(c, s) && t[h].room == t[i].room;
      assert t'[h] == t[h];
    case Hangup(c, _) =>
      if drawn[c] == ev.from {
        GoodbyeGrows(t, p, c, ev.from);
      }
    case _ =>
  }

  lemma GoodbyeGrows(t: seq<Event>, p: seq<Event>, c: Id, d: nat)
    requires SaidGoodbye(t, c, d)
    requires forall j {:trigger Invites(t + p, j, c)} :: j >= |t| ==> !Invites(t + p, j, c)
    ensures SaidGoodbye(t + p, c, d)
  {
    var h :| 0 <= h < |t| && Goodbye(t, h, c, d);
    assert forall j {:trigger Invites(t + p, j, c)} :: Invites(t + p, j, c) ==> Invites(t, j, c) && (t + p)[j] == t[j];
    assert Goodbye(t + p, h, c, d);
  }

  /** A new invite comes alone, from a caller with a pipeline that stays as it is. */
  lemma InvitesAlone(us: seq<Id>, w: World, m: Move, a: Action, e': Engine, p: seq<Event>, c: Id, j: nat)
    requires Around(us, w, m, a, e', p) && j >= |w.timeline| && Invites(w.timeline + p, j, c)
    ensures var e := w.engines[m.d];
      |p| == 1 && e' == e && e.webrtc && e.isCaller && c == e.call && (w.timeline + p)[j].room == e.room
  {
    NewPosted(us, w, m, a, e', p, j);
  }

  /** Each kind of post finds its place: after what it answers, and the only one. */
  lemma NewOrderly(us: seq<Id>, w: World, m: Move, a: Action, e': Engine, p: seq<Event>, i: nat)
    requires Around(us, w, m, a, e', p) && |w.timeline| <= i < |w.timeline + p|
    ensures Orderly(w.timeline + p, AfterDraw(w.drawn, m.d, a), i)
  {
    var t, t' := w.timeline, w.timeline + p;
    NewPosted(us, w, m, a, e', p, i);
    match t'[i].body
    case Invite(c, _) => NewInvite(us, w, m, a, e', p, i);
    case Answer(c, _) => NewAnswer(us, w, m, a, e', p, i);
    case Select(c, _, s) => NewSelect(us, w, m, a, e', p, i);
    case Hangup(c, _) => NewHangup(us, w, m, a, e', p, i);
    case _ =>
  }

  lemma NewInvite(us: seq<Id>, w: World, m: Move, a: Action, e': Engine, p: seq<Event>, i: nat)
    requires Around(us, w, m, a, e', p) && |w.timeline| <= i < |w.timeline + p| && (w.timeline + p)[i].body.Invite?
    ensures Orderly(w.timeline + p, AfterDraw(w.drawn, m.d, a), i)
  {
    var t, t', e := w.timeline, w.timeline + p, w.engines[m.d];
    NewPosted(us, w, m, a, e', p, i);
    var c := t'[i].body.call;
    assert Honest(t, w.drawn, e, m.d);
    DrawnGrows(us, w, m, a, c);
    assert |p| == 1;
    forall j | 0 <= j < |t|
      ensures !Invites(t', j, c)
    {
      assert t'[j] == t[j] && t[j] in t;
    }
  }

  lemma NewAnswer(us: seq<Id>, w: World, m: Move, a: Action, e': Engine, p: seq<Event>, i: nat)
    requires Around(us, w, m, a, e', p) && |w.timeline| <= i < |w.timeline + p| && (w.timeline + p)[i].body.Answer?
    ensures Orderly(w.timeline + p, AfterDraw(w.drawn, m.d, a), i)
  {
    var t, t', e, k := w.timeline, w.timeline + p, w.engines[m.d], w.cursors[m.d];
    NewPosted(us, w, m, a, e', p, i);
    assert Faithful(us, t, e, k, m.d);
    var h: nat :| ReadInvite(us, t, e, k, m.d, h);
    assert Invites(t', h, e.call) && t'[h] == t[h];
  }

  lemma NewSelect(us: seq<Id>, w: World, m: Move, a: Action, e': Engine, p: seq<Event>, i: nat)
    requires Around(us, w, m, a, e', p) && |w.timeline| <= i < |w.timeline + p| && (w.timeline + p)[i].body.Select?
    ensures Orderly(w.timeline + p, AfterDraw(w.drawn, m.d, a), i)
  {
    var t, t', e, k := w.timeline, w.timeline + p, w.engines[m.d], w.cursors[m.d];
    NewPosted(us, w, m, a, e', p, i);
    FromTimeline(us, w, m, a);
    var c, s := t'[i].body.call, t'[i].body.chosen;
    assert Honest(t, w.drawn, e, m.d) && Orderly(t, w.drawn, k);
    DrawnGrows(us, w, m, a, c);
    assert t[k].body == Answer(c, s) && t[k].room == t'[i].room && t'[k] == t[k];
    var h :| h < k && Invites(t, h, c) && t[h].room == t[k].room;
    assert Invites(t', h, c) && t'[h] == t[h];
    NotYetSelected(t, p, w.drawn, e, m.d);
  }

  lemma NotYetSelected(t: seq<Event>, p: seq<Event>, drawn: map<Id, nat>, e: Engine, d: nat)
    requires Honest(t, drawn, e, d) && e.isCaller && e.call != No && e.selected == Open
    ensures forall j {:trigger (t + p)[j]} :: 0 <= j < |t| ==>
      !((t + p)[j].body.Select? && (t + p)[j].body.call == e.call)
  {
    forall j | 0 <= j < |t|
      ensures !((t + p)[j].body.Select? && (t + p)[j].body.call == e.call)
    {
      assert (t + p)[j] == t[j] && t[j] in t;
    }
  }

  lemma NewHangup(us: seq<Id>, w: World, m: Move, a: Action, e': Engine, p: seq<Event>, i: nat)
    requires Around(us, w, m, a, e', p) && |w.timeline| <= i < |w.timeline + p| && (w.timeline + p)[i].body.Hangup?
    ensures Orderly(w.timeline + p, AfterDraw(w.drawn, m.d, a), i)
    ensures (w.timeline + p)[i].body.call in AfterDraw(w.drawn, m.d, a)
  {
    var t, t', e := w.timeline, w.timeline + p, w.engines[m.d];
    NewPosted(us, w, m, a, e', p, i);
    var c := t'[i].body.call;
    assert Honest(t, w.drawn, e, m.d);
    if a.GotInvite? {
      FromTimeline(us, w, m, a);
      assert Orderly(t, w.drawn, w.cursors[m.d]);
    }
    if c in w.drawn {
      DrawnGrows(us, w, m, a, c);
    }
    forall j | j >= |t| && Invites(t', j, c)
      ensures false
    {
      InvitesAlone(us, w, m, a, e', p, c, j);
    }
    if AfterDraw(w.drawn, m.d, a)[c] == m.d {
      NewGoodbye(us, w, m, a, e', p, i);
    }
    hide Posted, Honest;
  }

  /** The caller's goodbye reaches the room of the invite, this one or an earlier one. */
  lemma NewGoodbye(us: seq<Id>, w: World, m: Move, a: Action, e': Engine, p: seq<Event>, i: nat)
    requires Around(us, w, m, a, e', p) && |w.timeline| <= i < |w.timeline + p| && (w.timeline + p)[i].body.Hangup?
    requires var c := (w.timeline + p)[i].body.call;
      c in AfterDraw(w.drawn, m.d, a) && AfterDraw(w.drawn, m.d, a)[c] == m.d
      && forall j {:trigger Invites(w.timeline + p, j, c)} :: j >= |w.timeline| ==> !Invites(w.timeline + p, j, c)
    ensures SaidGoodbye(w.timeline + p, (w.timeline + p)[i].body.call, m.d)
  {
    var t, t', e, d := w.timeline, w.timeline + p, w.engines[m.d], m.d;
    var c := t'[i].body.call;
    NewPosted(us, w, m, a, e', p, i);
    assert Honest(t, w.drawn, e, d);
    assert forall j {:trigger Invites(t', j, c)} :: Invites(t', j, c) ==> Invites(t, j, c) && t'[j] == t[j];
    if c in w.drawn {
      DrawnGrows(us, w, m, a, c);
    }
    if a.GotInvite? {
      InviteIsAnothers(us, w, m, a);
    }
    if Draws(a) && c == a.call {
      assert c !in w.drawn;
      forall j | Invites(t', j, c)
        ensures false
      {
        CallsAreDrawn(us, w, j);
      }
      assert Goodbye(t', i, c, d);
    } else if e.webrtc {
      assert Goodbye(t', i, c, d);
    } else {
      GoodbyeGrows(t, p, c, d);
    }
  }

  lemma InviteIsAnothers(us: seq<Id>, w: World, m: Move, a: Action)
    requires Taking(us, w, m, a) && a.GotInvite?
    ensures a.call in w.drawn && w.drawn[a.call] != m.d
  {
    FromTimeline(us, w, m, a);
    assert Orderly(w.timeline, w.drawn, w.cursors[m.d]);
  }

  /** The mover's own promises: it selects for its own call, once, and that is its choice;
      it gives a call up only with a goodbye. */
  lemma MoverHonest(us: seq<Id>, w: World, m: Move, a: Action, r: Result, p: seq<Event>)
    requires Around(us, w, m, a, r.e, p) && Sound(r.e) && p == Posts(m.d, r.out)
    requires KeepsCaller(w.engines[m.d], a, r.e) && KeepsCallee(w.engines[m.d], a, r.e) && Leaves(w.engines[m.d], a, r)
    ensures Honest(w.timeline + p, AfterDraw(w.drawn, m.d, a), r.e, m.d)
  {
    var t, t', e, d, drawn' := w.timeline, w.timeline + p, w.engines[m.d], m.d, AfterDraw(w.drawn, m.d, a);
    var e' := r.e;
    assert Honest(t, w.drawn, e, d);
    if a.GotInvite? {
      FromTimeline(us, w, m, a);
      assert Orderly(t, w.drawn, w.cursors[d]);
    }
    if e'.call in w.drawn {
      DrawnGrows(us, w, m, a, e'.call);
    }
    if InCall(e') && e'.party in w.drawn {
      DrawnGrows(us, w, m, a, e'.party);
    }
    assert e'.call != No ==> e'.call in drawn';
    assert e'.call != No ==> (drawn'[e'.call] == d <==> e'.isCaller);
    if e'.isCaller && e'.call != No {
      MoverChose(us, w, m, a, e', p);
      if e'.webrtc {
        MoverInvited(us, w, m, a, e', p);
      } else {
        MoverSaid(us, w, m, a, r, p);
      }
    }
    hide Posted;
  }

  lemma MoverChose(us: seq<Id>, w: World, m: Move, a: Action, e': Engine, p: seq<Event>)
    requires Around(us, w, m, a, e', p) && KeepsCaller(w.engines[m.d], a, e') && e'.isCaller && e'.call != No
    ensures Chose(w.timeline + p, e')
  {
    var t, t', e := w.timeline, w.timeline + p, w.engines[m.d];
    assert Honest(t, w.drawn, e, m.d);
    forall ev | ev in t' && ev.body.Select? && ev.body.call == e'.call
      ensures e'.selected == Chosen(ev.body.chosen)
    {
      if ev in t {
        InTimeline(us, w, ev);
      }
    }
  }

  lemma MoverInvited(us: seq<Id>, w: World, m: Move, a: Action, e': Engine, p: seq<Event>)
    requires Around(us, w, m, a, e', p) && Sound(e') && KeepsCaller(w.engines[m.d], a, e') && e'.isCaller && e'.webrtc
    ensures InvitedHere(w.timeline + p, e')
    ensures forall ev {:trigger ev in w.timeline + p} ::
      ev in w.timeline + p && ev.body.Hangup? && ev.from == m.d ==> ev.body.call != e'.call
  {
    var t, t', e := w.timeline, w.timeline + p, w.engines[m.d];
    assert Honest(t, w.drawn, e, m.d);
    forall j | Invites(t', j, e'.call)
      ensures t'[j].room == e'.room
    {
      if j >= |t| {
        InvitesAlone(us, w, m, a, e', p, e'.call, j);
      } else {
        assert t'[j] == t[j] && Invites(t, j, e'.call);
        CallsAreDrawn(us, w, j);
      }
    }
    forall ev | ev in t' && ev.body.Hangup? && ev.from == m.d
      ensures ev.body.call != e'.call
    {
      if ev in t {
        InTimeline(us, w, ev);
      } else {
        assert Posted(us, w, m.d, a, e', ev);
        if a.GotInvite? {
          FromTimeline(us, w, m, a);
          assert Orderly(t, w.drawn, w.cursors[m.d]);
        }
      }
    }
  }

  lemma MoverSaid(us: seq<Id>, w: World, m: Move, a: Action, r: Result, p: seq<Event>)
    requires Around(us, w, m, a, r.e, p) && p == Posts(m.d, r.out) && Leaves(w.engines[m.d], a, r)
    requires r.e.isCaller && r.e.call != No && !r.e.webrtc
    requires r.e.call in AfterDraw(w.drawn, m.d, a) && AfterDraw(w.drawn, m.d, a)[r.e.call] == m.d
    ensures SaidGoodbye(w.timeline + p, r.e.call, m.d)
  {
    var t, t', e, c := w.timeline, w.timeline + p, w.engines[m.d], r.e.call;
    assert Honest(t, w.drawn, e, m.d);
    forall j | j >= |t| && Invites(t', j, c)
      ensures false
    {
      InvitesAlone(us, w, m, a, r.e, p, c, j);
    }
    hide Inv, Enabled, Taken, Posted, Fair, Posts, Sound;
    if e.isCaller && e.call == c && !e.webrtc {
      GoodbyeGrows(t, p, c, m.d);
    } else {
      var o :| o in r.out && o.SendHangup? && o.call == c;
      OutIsPosted(m.d, r.out, o);
      var i :| 0 <= i < |p| && p[i] == Event(m.d, o.room, Hangup(c, o.party));
      assert t'[|t| + i] == p[i];
      NewGoodbye(us, w, m, a, r.e, p, |t| + i);
    }
  }

  lemma {:induction false} OutIsPosted(d: nat, out: seq<Out>, o: Out)
    requires o in out && o.SendHangup?
    ensures Event(d, o.room, Hangup(o.call, o.party)) in Posts(d, out)
    decreases |out|
  {
    var n := |out| - 1;
    if out[n] != o {
      assert out == out[..n] + [out[n]];
      OutIsPosted(d, out[..n], o);
    }
  }

  lemma InTimeline(us: seq<Id>, w: World, ev: Event)
    requires Inv(us, w) && ev in w.timeline
    ensures ev.body.Invite? || ev.body.Select? || ev.body.Hangup? ==> ev.body.call in w.drawn
  {
    var i :| 0 <= i < |w.timeline| && w.timeline[i] == ev;
    CallsAreDrawn(us, w, i);
  }

  /** A device already in a call reads one more event and is still in it. */
  lemma StaysFaithful(us: seq<Id>, w: World, m: Move, a: Action, p: seq<Event>)
    requires Taking(us, w, m, a)
    requires var e, e' := w.engines[m.d], Step(w.engines[m.d], a).e;
      InCall(e) && InCall(e') && e'.call == e.call && e'.room == e.room && e'.party == e.party && e'.peer == e.peer
    requires forall ev :: ev in w.timeline + p ==> ev.from < |us|
    ensures var k := if m.Deliver? then w.cursors[m.d] + 1 else w.cursors[m.d];
      Faithful(us, w.timeline + p, Step(w.engines[m.d], a).e, k, m.d)
  {
    var t, t', d, e, k := w.timeline, w.timeline + p, m.d, w.engines[m.d], w.cursors[m.d];
    assert Faithful(us, t, e, k, d);
    var i: nat :| ReadInvite(us, t, e, k, d, i);
    var e' := Step(e, a).e;
    var k' := if m.Deliver? then k + 1 else k;
    if m.Deliver? {
      ReadsOn(us, w, m, a, i);
    }
    hide Step, Inv, Possible, Fair, Route;
    assert Invites(t', i, e'.call) && t'[i] == t[i];
    forall j | 0 <= j < k' && t'[j].room == e'.room
      ensures t'[j].body.Select? && t'[j].body.call == e'.call ==> t'[j].body.chosen == e'.party
      ensures t'[j].body.Hangup? && t'[j].body.call == e'.call ==> t'[j].from != t'[i].from
    {
      assert t'[j] == t[j];
    }
    assert ReadInvite(us, t', e', k', d, i);
  }

  /** The event just read is no selection of another and no goodbye of the caller's. */
  lemma ReadsOn(us: seq<Id>, w: World, m: Move, a: Action, i: nat)
    requires Taking(us, w, m, a) && m.Deliver?
    requires var e, e' := w.engines[m.d], Step(w.engines[m.d], a).e;
      InCall(e) && InCall(e') && ReadInvite(us, w.timeline, e, w.cursors[m.d], m.d, i)
    ensures var e, x := w.engines[m.d], w.timeline[w.cursors[m.d]];
      x.room == e.room ==>
        && (x.body.Select? && x.body.call == e.call ==> x.body.chosen == e.party)
        && (x.body.Hangup? && x.body.call == e.call ==> x.from != w.timeline[i].from)
  {
    var t, d, k, e := w.timeline, m.d, w.cursors[m.d], w.engines[m.d];
    var x := t[k];
    assert Route(us, d, x, m.luck) == Some(a);
    assert Orderly(t, w.drawn, k) && Orderly(t, w.drawn, i);
    assert Honest(t, w.drawn, e, d);
    hide Inv, Fair;
  }

  /** A device that starts to ring has read nothing yet that would end the call. */
  lemma StartsFaithful(us: seq<Id>, w: World, m: Move, a: Action, p: seq<Event>)
    requires Taking(us, w, m, a)
    requires var e, e' := w.engines[m.d], Step(w.engines[m.d], a).e;
      InCall(e') && a.GotInvite? && e'.call == a.call && e'.room == a.room && e'.party == a.party && e'.peer == a.sender
    requires forall ev :: ev in w.timeline + p ==> ev.from < |us|
    ensures m.Deliver? && Faithful(us, w.timeline + p, Step(w.engines[m.d], a).e, w.cursors[m.d] + 1, m.d)
  {
    FromTimeline(us, w, m, a);
    var t, t', d, k := w.timeline, w.timeline + p, m.d, w.cursors[m.d];
    var e', x := Step(w.engines[d], a).e, t[k];
    assert Orderly(t, w.drawn, k) && t'[k] == x;
    hide Step;
    assert Invites(t', k, a.call) && Invites(t, k, a.call);
    forall j | 0 <= j < k + 1 && t'[j].room == e'.room
      ensures t'[j].body.Select? && t'[j].body.call == e'.call ==> t'[j].body.chosen == e'.party
      ensures t'[j].body.Hangup? && t'[j].body.call == e'.call ==> t'[j].from != x.from
    {
      assert t'[j] == t[j] && Orderly(t, w.drawn, j);
    }
    assert ReadInvite(us, t', e', k + 1, d, k);
  }

  /** Nobody else's promises are touched. */
  lemma OthersKept(us: seq<Id>, w: World, m: Move, a: Action, e': Engine, p: seq<Event>, d: nat)
    requires Around(us, w, m, a, e', p) && d < |us| && d != m.d
    ensures Honest(w.timeline + p, AfterDraw(w.drawn, m.d, a), w.engines[d], d)
    ensures (forall ev :: ev in w.timeline + p ==> ev.from < |us|)
    ensures Faithful(us, w.timeline + p, w.engines[d], w.cursors[d], d)
  {
    var t, t', e, drawn' := w.timeline, w.timeline + p, w.engines[d], AfterDraw(w.drawn, m.d, a);
    assert Honest(t, w.drawn, e, d) && Honest(t, w.drawn, w.engines[m.d], m.d);
    assert Faithful(us, t, e, w.cursors[d], d);
    assert forall ev :: ev in p ==> Posted(us, w, m.d, a, e', ev);
    if e.call != No {
      DrawnGrows(us, w, m, a, e.call);
    }
    if e.isCaller && e.call != No {
      forall j | j >= |t| && Invites(t', j, e.call)
        ensures false
      {
        InvitesAlone(us, w, m, a, e', p, e.call, j);
      }
      assert forall j {:trigger Invites(t', j, e.call)} ::
          Invites(t', j, e.call) ==> Invites(t, j, e.call) && t'[j] == t[j];
      if !e.webrtc {
        GoodbyeGrows(t, p, e.call, d);
      }
    }
    if InCall(e) {
      DrawnGrows(us, w, m, a, e.party);
      FaithfulGrows(us, t, p, e, w.cursors[d], d);
    }
  }

  lemma FaithfulGrows(us: seq<Id>, t: seq<Event>, p: seq<Event>, e: Engine, k: nat, d: nat)
    requires d < |us| && k <= |t| && (forall ev :: ev in t + p ==> ev.from < |us|)
    requires (forall ev :: ev in t ==> ev.from < |us|) && Faithful(us, t, e, k, d)
    ensures Faithful(us, t + p, e, k, d)
  {
    if InCall(e) {
      var i: nat :| ReadInvite(us, t, e, k, d, i);
      assert Invites(t + p, i, e.call) && (t + p)[i] == t[i];
      assert forall j :: 0 <= j < k ==> (t + p)[j] == t[j];
      assert ReadInvite(us, t + p, e, k, d, i);
    }
  }

  lemma InvKept(us: seq<Id>, w: World, m: Move)
    requires Inv(us, w) && Enabled(us, w, m)
    ensures Inv(us, Moved(us, w, m))
  {
    match Taken(us, w, m)
    case None =>
      NothingTaken(us, w, m);
    case Some(a) =>
      SomethingTaken(us, w, m, a);
  }

  /** An event that reaches no handler is only read. */
  lemma NothingTaken(us: seq<Id>, w: World, m: Move)
    requires Inv(us, w) && Enabled(us, w, m) && Taken(us, w, m) == None
    ensures Inv(us, Moved(us, w, m))
  {
    var t, d, k, e := w.timeline, m.d, w.cursors[m.d], w.engines[m.d];
    assert Honest(t, w.drawn, e, d) && Faithful(us, t, e, k, d) && Orderly(t, w.drawn, k);
    if InCall(e) {
      var i: nat :| ReadInvite(us, t, e, k, d, i);
      assert Orderly(t, w.drawn, i);
      assert Route(us, d, t[k], m.luck) == None;
      assert ReadInvite(us, t, e, k + 1, d, i);
    }
    var w' := Moved(us, w, m);
    assert w' == w.(cursors := w.cursors[d := k + 1]);
    forall x | 0 <= x < |us|
      ensures Honest(t, w.drawn, w.engines[x], x) && Faithful(us, t, w'.engines[x], w'.cursors[x], x)
    {
      assert Honest(t, w.drawn, w.engines[x], x) && Faithful(us, t, w.engines[x], w.cursors[x], x);
    }
    hide Honest, Faithful;
    forall i | 0 <= i < |t|
      ensures Orderly(t, w.drawn, i)
    {
    }
    hide Orderly;
  }

  lemma SomethingTaken(us: seq<Id>, w: World, m: Move, a: Action)
    requires Taking(us, w, m, a)
    ensures Inv(us, Moved(us, w, m))
  {
    var r := Step(w.engines[m.d], a);
    var p := Posts(m.d, r.out);
    HasAround(us, w, m, a);
    MoverHonest(us, w, m, a, r, p);
    AllFrom(us, w, m, a, r.e, p);
    MoverFaithful(us, w, m, a, p);
    MovedIs(us, w, m, a);
    var w' := Moved(us, w, m);
    hide *;
    forall i | 0 <= i < |w'.timeline|
      ensures Orderly(w'.timeline, w'.drawn, i)
    {
      if i < |w.timeline| {
        OldOrderly(us, w, m, a, r.e, p, i);
      } else {
        NewOrderly(us, w, m, a, r.e, p, i);
      }
    }
    forall x | 0 <= x < |us|
      ensures Honest(w'.timeline, w'.drawn, w'.engines[x], x)
      ensures Faithful(us, w'.timeline, w'.engines[x], w'.cursors[x], x)
    {
      if x != m.d {
        OthersKept(us, w, m, a, r.e, p, x);
      }
    }
    HangupsDrawn(us, w, m, a, r.e, p);
    DrawnNames(us, w, m, a);
    ShapeKept(us, w, m, a, p);
    InvIntro(us, w');
  }

  lemma AllFrom(us: seq<Id>, w: World, m: Move, a: Action, e': Engine, p: seq<Event>)
    requires Around(us, w, m, a, e', p)
    ensures forall ev :: ev in w.timeline + p ==> ev.from < |us|
  {
    assert forall ev :: ev in p ==> Posted(us, w, m.d, a, e', ev);
  }

  lemma MovedIs(us: seq<Id>, w: World, m: Move, a: Action)
    requires Taking(us, w, m, a)
    ensures var w', r, d := Moved(us, w, m), Step(w.engines[m.d], a), m.d;
      && w'.timeline == w.timeline + Posts(d, r.out) && w'.drawn == AfterDraw(w.drawn, d, a)
      && d < |us| == |w'.engines| == |w'.cursors| == |w.engines| == |w.cursors|
      && w'.engines[d] == r.e && w'.cursors[d] == (if m.Deliver? then w.cursors[d] + 1 else w.cursors[d])
      && forall x :: 0 <= x < |us| && x != d ==> w'.engines[x] == w.engines[x] && w'.cursors[x] == w.cursors[x]
  {
    hide Step, Posts, Orderly, Honest, Faithful, Fair, Possible;
  }

  lemma MoverFaithful(us: seq<Id>, w: World, m: Move, a: Action, p: seq<Event>)
    requires Taking(us, w, m, a) && forall ev :: ev in w.timeline + p ==> ev.from < |us|
    requires KeepsCallee(w.engines[m.d], a, Step(w.engines[m.d], a).e)
    ensures var k := if m.Deliver? then w.cursors[m.d] + 1 else w.cursors[m.d];
      Faithful(us, w.timeline + p, Step(w.engines[m.d], a).e, k, m.d)
  {
    hide Step, Inv, Possible, Fair, Route, Invites;
    if InCall(Step(w.engines[m.d], a).e) {
      if a.GotInvite? && w.engines[m.d].state == Idle {
        StartsFaithful(us, w, m, a, p);
      } else {
        StaysFaithful(us, w, m, a, p);
      }
    }
  }

  lemma DrawnNames(us: seq<Id>, w: World, m: Move, a: Action)
    requires Taking(us, w, m, a)
    ensures No !in AfterDraw(w.drawn, m.d, a)
  {
  }

  lemma ShapeKept(us: seq<Id>, w: World, m: Move, a: Action, p: seq<Event>)
    requires Taking(us, w, m, a) && p == Posts(m.d, Step(w.engines[m.d], a).out)
    requires forall ev :: ev in w.timeline + p ==> ev.from < |us|
    ensures Shaped(us, Moved(us, w, m))
  {
    hide Step, Posts, Orderly, Honest, Faithful;
  }

  lemma InvIntro(us: seq<Id>, w: World)
    requires Shaped(us, w) && No !in w.drawn
    requires forall ev {:trigger ev in w.timeline} :: ev in w.timeline && ev.body.Hangup? ==> ev.body.call in w.drawn
    requires forall i :: 0 <= i < |w.timeline| ==> Orderly(w.timeline, w.drawn, i)
    requires forall d :: 0 <= d < |us| ==> Honest(w.timeline, w.drawn, w.engines[d], d)
    requires forall d :: 0 <= d < |us| ==> Faithful(us, w.timeline, w.engines[d], w.cursors[d], d)
    ensures Inv(us, w)
  {
    hide Orderly, Honest, Faithful;
  }

  lemma HangupsDrawn(us: seq<Id>, w: World, m: Move, a: Action, e': Engine, p: seq<Event>)
    requires Around(us, w, m, a, e', p)
    ensures forall ev {:trigger ev in w.timeline + p} :: ev in w.timeline + p && ev.body.Hangup? ==>
      ev.body.call in AfterDraw(w.drawn, m.d, a)
  {
    forall ev | ev in w.timeline + p && ev.body.Hangup?
      ensures ev.body.call in AfterDraw(w.drawn, m.d, a)
    {
      var i :| 0 <= i < |w.timeline + p| && (w.timeline + p)[i] == ev;
      if i < |w.timeline| {
        assert ev in w.timeline;
        DrawnGrows(us, w, m, a, ev.body.call);
      } else {
        NewHangup(us, w, m, a, e', p, i);
      }
    }
  }

  lemma {:induction false} InvHolds(us: seq<Id>, ws: seq<World>, moves: seq<Move>, i: nat)
    requires i < |ws| && Run(us, ws, moves)
    ensures Inv(us, ws[i])
    decreases i
  {
    hide Inv;
    if i == 0 {
      InvStarts(us, ws[0]);
    } else {
      InvHolds(us, ws, moves, i - 1);
      InvKept(us, ws[i - 1], moves[i - 1]);
    }
  }

  lemma InvStarts(us: seq<Id>, w: World)
    requires w == World(seq(|us|, _ => Fresh), seq(|us|, _ => 0), [], map[])
    requires forall d :: 0 <= d < |us| ==> us[d] != No
    ensures Inv(us, w)
  {
  }

  // ------------------------------------------------ the theorems

  /** A call id gets at most one selection, from the device that drew it, and it names a
      party that answered before. */
  lemma OneSelection(us: seq<Id>, ws: seq<World>, moves: seq<Move>, n: nat, i: nat, j: nat)
    requires n < |ws| && i < |ws[n].timeline| && j < |ws[n].timeline|
    requires var t := ws[n].timeline; t[i].body.Select? && t[j].body.Select? && t[i].body.call == t[j].body.call
    requires Run(us, ws, moves)
    ensures i == j
    ensures var t := ws[n].timeline;
      && t[i].body.call in ws[n].drawn && ws[n].drawn[t[i].body.call] == t[i].from
      && exists h :: 0 <= h < i && t[h].body == Answer(t[i].body.call, t[i].body.chosen) && t[h].room == t[i].room
    ensures var x := ws[n].timeline[i];
      forall d :: 0 <= d < |us| && d < |ws[n].engines|
                  && ws[n].engines[d].isCaller && ws[n].engines[d].call == x.body.call ==>
        d == x.from && ws[n].engines[d].selected == Chosen(x.body.chosen)
  {
    InvHolds(us, ws, moves, n);
    assert Orderly(ws[n].timeline, ws[n].drawn, i);
    forall d | 0 <= d < |us| && ws[n].engines[d].isCaller && ws[n].engines[d].call == ws[n].timeline[i].body.call
      ensures d == ws[n].timeline[i].from && ws[n].engines[d].selected == Chosen(ws[n].timeline[i].body.chosen)
    {
      assert Honest(ws[n].timeline, ws[n].drawn, ws[n].engines[d], d);
      assert ws[n].timeline[i] in ws[n].timeline;
    }
  }

  /** A selection is said on reading the answer it names, for the device's own call, while
      no answer to it had been taken. */
  lemma SelectsWhatItRead(us: seq<Id>, ws: seq<World>, moves: seq<Move>, n: nat, a: Action, o: Out)
    requires n < |moves| && n < |ws| && moves[n].d < |ws[n].engines| && Shaped(us, ws[n]) && moves[n].d < |us|
    requires Taken(us, ws[n], moves[n]) == Some(a) && o in Step(ws[n].engines[moves[n].d], a).out && o.SendSelect?
    requires Run(us, ws, moves)
    ensures var w, d := ws[n], moves[n].d;
      && moves[n].Deliver? && w.cursors[d] < |w.timeline|
      && var x := w.timeline[w.cursors[d]];
      && x.body == Answer(o.call, o.chosen) && x.room == o.room && x.from < |us| && us[x.from] != us[d]
      && w.engines[d].isCaller && w.engines[d].call == o.call && w.engines[d].selected == Open
  {
    InvHolds(us, ws, moves, n);
    var e := ws[n].engines[moves[n].d];
    assert Honest(ws[n].timeline, ws[n].drawn, e, moves[n].d);
    AnyActs(e, a);
    assert Says(e, a, Step(e, a), o);
    hide Step;
    FromTimeline(us, ws[n], moves[n], a);
  }

  predicate CallerOf(w: World, d: nat, c: Id) {
    d < |w.engines| && w.engines[d].isCaller && w.engines[d].call == c != No
  }

  function ChoiceOf(w: World, d: nat): Choice { if d < |w.engines| then w.engines[d].selected else Open }

  /** ... and the answer once taken stays the one taken, as long as the call is the device's:
      it is the first acceptable one. */
  lemma {:induction false} ChoiceStays(us: seq<Id>, ws: seq<World>, moves: seq<Move>, d: nat, c: Id, i: nat, j: nat)
    requires i <= j < |ws| && CallerOf(ws[i], d, c) && ChoiceOf(ws[i], d) != Open && CallerOf(ws[j], d, c)
    requires d < |us| && Run(us, ws, moves)
    ensures ChoiceOf(ws[j], d) == ChoiceOf(ws[i], d)
    decreases j
  {
    hide *;
    RunLength(us, ws, moves);
    if i < j {
      StillCaller(us, ws, moves, d, c, i, j - 1);
      ChoiceStays(us, ws, moves, d, c, i, j - 1);
    }
  }

  lemma StillCaller(us: seq<Id>, ws: seq<World>, moves: seq<Move>, d: nat, c: Id, i: nat, k: nat)
    requires i <= k < |moves| && |ws| == |moves| + 1 && CallerOf(ws[i], d, c) && CallerOf(ws[k + 1], d, c)
    requires d < |us| && Run(us, ws, moves)
    ensures CallerOf(ws[k], d, c)
    ensures ChoiceOf(ws[k], d) != Open ==> ChoiceOf(ws[k + 1], d) == ChoiceOf(ws[k], d)
  {
    assert |ws| == |moves| + 1;
    hide Run, Moved, Inv, Enabled;
    RunStep(us, ws, moves, i);
    RunStep(us, ws, moves, k);
    CallerDrew(us, ws, moves, d, i);
    DrawnStays(us, ws, moves, i, k, c);
    StaysCaller(us, ws[k], moves[k], d, c);
  }

  lemma CallerDrew(us: seq<Id>, ws: seq<World>, moves: seq<Move>, d: nat, i: nat)
    requires i < |ws| && d < |us| && |ws[i].engines| == |us| && Run(us, ws, moves)
    ensures ws[i].engines[d].call != No ==> ws[i].engines[d].call in ws[i].drawn
  {
    InvHolds(us, ws, moves, i);
    assert Honest(ws[i].timeline, ws[i].drawn, ws[i].engines[d], d);
  }

  lemma RunLength(us: seq<Id>, ws: seq<World>, moves: seq<Move>)
    requires Run(us, ws, moves)
    ensures |ws| == |moves| + 1
  {
  }

  lemma RunStep(us: seq<Id>, ws: seq<World>, moves: seq<Move>, k: nat)
    requires k < |moves| && |ws| == |moves| + 1 && Run(us, ws, moves)
    ensures Enabled(us, ws[k], moves[k]) && ws[k + 1] == Moved(us, ws[k], moves[k])
    ensures Inv(us, ws[k]) && |ws[k].engines| == |us|
  {
    InvHolds(us, ws, moves, k);
    hide Moved, Enabled;
  }

  lemma {:induction false} DrawnStays(us: seq<Id>, ws: seq<World>, moves: seq<Move>, i: nat, j: nat, c: Id)
    requires i <= j < |ws| && c in ws[i].drawn && Run(us, ws, moves)
    ensures c in ws[j].drawn
    decreases j
  {
    hide *;
    RunLength(us, ws, moves);
    if i < j {
      DrawnStays(us, ws, moves, i, j - 1, c);
      RunStep(us, ws, moves, j - 1);
      DrawnMoves(us, ws[j - 1], moves[j - 1], c);
    }
  }

  lemma DrawnMoves(us: seq<Id>, w: World, m: Move, c: Id)
    requires c in w.drawn && Inv(us, w) && Enabled(us, w, m)
    ensures c in Moved(us, w, m).drawn
  {
    match Taken(us, w, m)
    case None =>
    case Some(a) => DrawnGrows(us, w, m, a, c);
  }

  /** Whoever is the caller of a drawn call was so before, with the same choice if it had one. */
  lemma StaysCaller(us: seq<Id>, w: World, m: Move, d: nat, c: Id)
    requires Inv(us, w) && Enabled(us, w, m) && d < |us| && c in w.drawn && c != No
    requires |Moved(us, w, m).engines| == |us|
    requires Moved(us, w, m).engines[d].isCaller && Moved(us, w, m).engines[d].call == c
    ensures w.engines[d].isCaller && w.engines[d].call == c
    ensures w.engines[d].selected != Open ==> Moved(us, w, m).engines[d].selected == w.engines[d].selected
  {
    match Taken(us, w, m)
    case None =>
    case Some(a) =>
      if m.d == d {
        HasAround(us, w, m, a);
      }
      hide Step, Inv;
  }

  /** A device that rings, connects or talks in somebody's call has not yet read a selection
      of another party, nor the caller's goodbye in that room. */
  lemma StillInCall(us: seq<Id>, ws: seq<World>, moves: seq<Move>, n: nat, d: nat, i: nat)
    requires n < |ws| && d < |us| && i < |ws[n].timeline|
    requires |ws[n].engines| == |ws[n].cursors| == |us|
    requires var e, x := ws[n].engines[d], ws[n].timeline[i];
      && InCall(e) && x.body.call == e.call
      && ((x.body.Select? && x.body.chosen != e.party)
          || (x.body.Hangup? && x.room == e.room && e.call in ws[n].drawn && ws[n].drawn[e.call] == x.from))
    requires Run(us, ws, moves)
    ensures ws[n].cursors[d] <= i
  {
    InvHolds(us, ws, moves, n);
    var w := ws[n];
    var t, e, k := w.timeline, w.engines[d], w.cursors[d];
    assert Faithful(us, t, e, k, d) && Orderly(t, w.drawn, i);
    var h: nat :| ReadInvite(us, t, e, k, d, h);
    assert Orderly(t, w.drawn, h);
  }

  /** Once everything is delivered, only the selected device is left in the call. */
  lemma OnlyTheSelectedIsLeft(us: seq<Id>, ws: seq<World>, moves: seq<Move>, n: nat, i: nat, d: nat, x: nat)
    requires n < |ws| && d < |us| && x < |us| && i < |ws[n].timeline|
    requires |ws[n].engines| == |ws[n].cursors| == |us|
    requires forall y :: 0 <= y < |us| ==> ws[n].cursors[y] == |ws[n].timeline|
    requires ws[n].timeline[i].body.Select?
    requires var c := ws[n].timeline[i].body.call;
      InCall(ws[n].engines[d]) && ws[n].engines[d].call == c && InCall(ws[n].engines[x]) && ws[n].engines[x].call == c
    requires Run(us, ws, moves)
    ensures d == x && ws[n].engines[d].party == ws[n].timeline[i].body.chosen
  {
    InvHolds(us, ws, moves, n);
    var w := ws[n];
    assert Honest(w.timeline, w.drawn, w.engines[d], d) && Honest(w.timeline, w.drawn, w.engines[x], x);
    if w.engines[d].party != w.timeline[i].body.chosen {
      StillInCall(us, ws, moves, n, d, i);
    }
    if w.engines[x].party != w.timeline[i].body.chosen {
      StillInCall(us, ws, moves, n, x, i);
    }
  }

  /** ... and after the caller's goodbye, wherever it was said, nobody is. */
  lemma NobodyAfterGoodbye(us: seq<Id>, ws: seq<World>, moves: seq<Move>, n: nat, i: nat, d: nat)
    requires n < |ws| && d < |us| && i < |ws[n].timeline|
    requires |ws[n].engines| == |ws[n].cursors| == |us| && ws[n].cursors[d] == |ws[n].timeline|
    requires var x, w := ws[n].timeline[i], ws[n];
      x.body.Hangup? && x.body.call in w.drawn && w.drawn[x.body.call] == x.from
    requires Run(us, ws, moves)
    ensures !(InCall(ws[n].engines[d]) && ws[n].engines[d].call == ws[n].timeline[i].body.call)
  {
    InvHolds(us, ws, moves, n);
    var e, x := ws[n].engines[d], ws[n].timeline[i];
    if InCall(e) && e.call == x.body.call {
      var h := GoodbyeInTheRoom(us, ws[n], d, i);
      StillInCall(us, ws, moves, n, d, h);
    }
  }

  lemma GoodbyeInTheRoom(us: seq<Id>, w: World, d: nat, i: nat) returns (h: nat)
    requires Inv(us, w) && d < |us| && i < |w.timeline|
    requires var e, x := w.engines[d], w.timeline[i];
      InCall(e) && x.body.Hangup? && x.body.call == e.call && e.call in w.drawn && w.drawn[e.call] == x.from
    ensures h < |w.timeline| && w.timeline[h].from == w.timeline[i].from && w.timeline[h].room == w.engines[d].room
    ensures w.timeline[h].body.Hangup? && w.timeline[h].body.call == w.engines[d].call
  {
    var e, x := w.engines[d], w.timeline[i];
    assert Orderly(w.timeline, w.drawn, i) && Faithful(us, w.timeline, e, w.cursors[d], d);
    h :| 0 <= h < |w.timeline| && Goodbye(w.timeline, h, e.call, x.from);
    var k: nat :| ReadInvite(us, w.timeline, e, w.cursors[d], d, k);
    assert Invites(w.timeline, k, e.call);
  }
}
