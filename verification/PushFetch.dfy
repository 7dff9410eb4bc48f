/** Fetching what pushes name: two at a time, one a room, the latest push of a room waiting
    for a free slot. */
module PushFetch {
  type Room = nat

  /** The number of the push, in the order they came. */
  type Push = nat

  const MAX_FETCHES := 2
  const MAX_QUEUED := 16

  datatype Sent = Sent(room: Room, push: Push)

  /** The two tables, the next request id, and what came in and went out so far. */
  datatype State = State(
    fetching: map<nat, Room>, queued: map<Room, Push>, nextId: nat, came: seq<Room>, sent: seq<Sent>)

  const Start := State(map[], map[], 1, [], [])

  predicate RoomBusy(v: State, room: Room) { room in v.fetching.Values }

  /** The command goes out; without a core it gets no id and is not remembered. */
  function Emitted(v: State, room: Room, push: Push, online: bool): State {
    var w := v.(sent := v.sent + [Sent(room, push)]);
    if online then w.(fetching := v.fetching[v.nextId := room], nextId := v.nextId + 1) else w
  }

  function Fetch(v: State, room: Room, push: Push, online: bool): State {
    if !RoomBusy(v, room) && |v.fetching| < MAX_FETCHES then Emitted(v, room, push, online)
    else if room in v.queued || |v.queued| < MAX_QUEUED then v.(queued := v.queued[room := push])
    else v
  }

  /** The waiting rooms in the order the table happens to list them. */
  function FetchQueued(v: State, rooms: seq<Room>, online: bool): State
    decreases |rooms|
  {
    if rooms == [] || |v.fetching| >= MAX_FETCHES then v
    else if RoomBusy(v, rooms[0]) || rooms[0] !in v.queued then FetchQueued(v, rooms[1..], online)
    else
      var w := Fetch(v.(queued := v.queued - {rooms[0]}), rooms[0], v.queued[rooms[0]], online);
      FetchQueued(w, rooms[1..], online)
  }

  function Finish(v: State, id: nat, rooms: seq<Room>, online: bool): State {
    if id in v.fetching then FetchQueued(v.(fetching := v.fetching - {id}), rooms, online) else v
  }

  // ------------------------------------------------ runs

  datatype Step =
    | Pushed(room: Room, online: bool)
    | Finished(id: nat, rooms: seq<Room>, online: bool)
    | Forgotten

  /** A finished fetch (answered, refused or given up) makes way in any order of the table. */
  ghost predicate Possible(v: State, s: Step) {
    s.Finished? ==> forall r :: r in v.queued ==> r in s.rooms
  }

  function Apply(v: State, s: Step): State {
    match s
    case Pushed(room, online) => Fetch(v.(came := v.came + [room]), room, |v.came|, online)
    case Finished(id, rooms, online) => Finish(v, id, rooms, online)
    case Forgotten => v.(fetching := map[], queued := map[])
  }

  ghost predicate Reaches(v: State, steps: seq<Step>, w: State)
    decreases |steps|
  {
    if steps == [] then w == v else Possible(v, steps[0]) && Reaches(Apply(v, steps[0]), steps[1..], w)
  }

  // ------------------------------------------------ what every run keeps

  /** The two bounds, and a room fetched once at a time. */
  ghost predicate Bounded(v: State) {
    && |v.fetching| <= MAX_FETCHES && |v.queued| <= MAX_QUEUED
    && (forall i :: i in v.fetching ==> i < v.nextId)
    && (forall i, j :: i in v.fetching && j in v.fetching && v.fetching[i] == v.fetching[j] ==> i == j)
  }

  /** A room waits only behind its own fetch or behind full slots. */
  ghost predicate Conserving(v: State) {
    forall r :: r in v.queued ==> RoomBusy(v, r) || |v.fetching| >= MAX_FETCHES
  }

  /** The latest push of its room. */
  ghost predicate Latest(came: seq<Room>, room: Room, push: Push) {
    && push < |came| && came[push] == room
    && forall k :: push < k < |came| ==> came[k] != room
  }

  /** What waits is the latest of its room; a room's pushes are fetched in order, none twice. */
  ghost predicate Ordered(v: State) {
    && (forall r :: r in v.queued ==> Latest(v.came, r, v.queued[r]))
    && (forall i :: 0 <= i < |v.sent| ==> v.sent[i].push < |v.came| && v.came[v.sent[i].push] == v.sent[i].room)
    && (forall i, j :: 0 <= i < j < |v.sent| && v.sent[i].room == v.sent[j].room ==> v.sent[i].push < v.sent[j].push)
    && (forall i :: 0 <= i < |v.sent| && v.sent[i].room in v.queued ==> v.sent[i].push < v.queued[v.sent[i].room])
  }

  ghost predicate Inv(v: State) { Bounded(v) && Conserving(v) && Ordered(v) }

  /** A push may go out if it is newer than all sent of its room and nothing of it waits. */
  lemma EmittedKeeps(v: State, room: Room, push: Push, online: bool)
    requires Bounded(v) && Ordered(v) && room !in v.queued && !RoomBusy(v, room) && |v.fetching| < MAX_FETCHES
    requires push < |v.came| && v.came[push] == room
    requires forall i :: 0 <= i < |v.sent| && v.sent[i].room == room ==> v.sent[i].push < push
    ensures Bounded(Emitted(v, room, push, online)) && Ordered(Emitted(v, room, push, online))
  {
    var w := Emitted(v, room, push, online);
    assert v.nextId !in v.fetching;
    assert forall i :: 0 <= i < |v.sent| ==> w.sent[i] == v.sent[i];
  }

  lemma PushedKeeps(v: State, room: Room, online: bool)
    requires Inv(v)
    ensures Inv(Apply(v, Pushed(room, online)))
  {
    if !RoomBusy(v, room) && |v.fetching| < MAX_FETCHES {
      PushGoesOut(v, room, online);
    } else if room in v.queued || |v.queued| < MAX_QUEUED {
      PushWaits(v, room);
    } else {
      var w := v.(came := v.came + [room]);
      OthersOrdered(v, room);
      SameBusy(v, w);
      hide Ordered, RoomBusy;
    }
  }

  lemma PushGoesOut(v: State, room: Room, online: bool)
    requires Inv(v) && !RoomBusy(v, room) && |v.fetching| < MAX_FETCHES
    ensures Inv(Emitted(v.(came := v.came + [room]), room, |v.came|, online))
  {
    var w := v.(came := v.came + [room]);
    assert room !in v.queued;
    OthersOrdered(v, room);
    SentBefore(v);
    hide Ordered, Conserving;
    EmittedKeeps(w, room, |v.came|, online);
    StillConserving(v, Emitted(w, room, |v.came|, online));
  }

  lemma SameBusy(v: State, w: State)
    requires v.fetching == w.fetching
    ensures forall r :: RoomBusy(w, r) == RoomBusy(v, r)
  {
  }

  lemma SentBefore(v: State)
    requires Ordered(v)
    ensures forall i :: 0 <= i < |v.sent| ==> v.sent[i].push < |v.came|
  {
  }

  lemma OthersOrdered(v: State, room: Room)
    requires Ordered(v) && room !in v.queued
    ensures Ordered(v.(came := v.came + [room]))
  {
    var w := v.(came := v.came + [room]);
    forall r | r in w.queued ensures Latest(w.came, r, w.queued[r]) {
      assert Latest(v.came, r, v.queued[r]);
    }
  }

  lemma StillConserving(v: State, w: State)
    requires Conserving(v) && |v.fetching| < MAX_FETCHES && w.queued == v.queued
    requires forall i :: i in v.fetching ==> i in w.fetching && w.fetching[i] == v.fetching[i]
    ensures Conserving(w)
  {
    forall r | r in w.queued ensures RoomBusy(w, r) {
      var i :| i in v.fetching && v.fetching[i] == r;
      assert w.fetching[i] == r;
    }
  }

  lemma PushWaits(v: State, room: Room)
    requires Inv(v) && (RoomBusy(v, room) || |v.fetching| >= MAX_FETCHES)
    requires room in v.queued || |v.queued| < MAX_QUEUED
    ensures Inv(v.(came := v.came + [room], queued := v.queued[room := |v.came|]))
  {
    var w := v.(came := v.came + [room], queued := v.queued[room := |v.came|]);
    assert room in v.queued ==> |w.queued| == |v.queued|;
    forall r | r in w.queued ensures Latest(w.came, r, w.queued[r]) {
      if r != room {
        assert Latest(v.came, r, v.queued[r]);
      }
    }
  }

  /** While slots are free and these rooms are still to be looked at, only they may wait
      behind nothing. */
  ghost predicate AllButConserving(v: State, rooms: seq<Room>) {
    forall r :: r in v.queued && r !in rooms ==> RoomBusy(v, r) || |v.fetching| >= MAX_FETCHES
  }

  lemma {:induction false} FetchQueuedKeeps(v: State, rooms: seq<Room>, online: bool)
    requires Bounded(v) && Ordered(v) && AllButConserving(v, rooms)
    ensures Inv(FetchQueued(v, rooms, online))
    decreases |rooms|
  {
    if rooms == [] || |v.fetching| >= MAX_FETCHES {
    } else if RoomBusy(v, rooms[0]) || rooms[0] !in v.queued {
      assert forall r :: r in rooms <==> r == rooms[0] || r in rooms[1..];
      FetchQueuedKeeps(v, rooms[1..], online);
    } else {
      var w := Fetch(v.(queued := v.queued - {rooms[0]}), rooms[0], v.queued[rooms[0]], online);
      TakenOut(v, rooms, online);
      FetchQueuedKeeps(w, rooms[1..], online);
    }
  }

  lemma TakenOut(v: State, rooms: seq<Room>, online: bool)
    requires Bounded(v) && Ordered(v) && AllButConserving(v, rooms) && rooms != []
    requires |v.fetching| < MAX_FETCHES && !RoomBusy(v, rooms[0]) && rooms[0] in v.queued
    ensures var w := Fetch(v.(queued := v.queued - {rooms[0]}), rooms[0], v.queued[rooms[0]], online);
      Bounded(w) && Ordered(w) && AllButConserving(w, rooms[1..])
  {
    var room := rooms[0];
    var push := v.queued[room];
    var u := v.(queued := v.queued - {room});
    assert u.queued.Keys == v.queued.Keys - {room};
    assert |u.queued.Keys| == |v.queued.Keys| - 1;
    assert Latest(v.came, room, push);
    EmittedKeeps(u, room, push, online);
    var w := Emitted(u, room, push, online);
    assert v.nextId !in v.fetching;
    forall r | r in w.queued && r !in rooms[1..] ensures RoomBusy(w, r) {
      assert r !in rooms;
      var i :| i in v.fetching && v.fetching[i] == r;
      assert w.fetching[i] == r;
    }
  }

  lemma StepKeepsInv(v: State, s: Step)
    requires Inv(v) && Possible(v, s)
    ensures Inv(Apply(v, s))
  {
    match s {
      case Pushed(room, online) => PushedKeeps(v, room, online);
      case Finished(id, rooms, online) =>
        if id in v.fetching {
          var w := v.(fetching := v.fetching - {id});
          assert w.fetching.Keys == v.fetching.Keys - {id};
          assert |w.fetching.Keys| == |v.fetching.Keys| - 1;
          FetchQueuedKeeps(w, rooms, online);
        }
      case Forgotten =>
    }
  }

  lemma {:induction false} RunKeepsInv(v: State, steps: seq<Step>, w: State)
    requires Inv(v) && Reaches(v, steps, w)
    ensures Inv(w)
    decreases |steps|
  {
    hide Inv, Apply, Possible;
    if steps != [] {
      StepKeepsInv(v, steps[0]);
      RunKeepsInv(Apply(v, steps[0]), steps[1..], w);
    }
  }

  /** After every run: at most two fetches, one a room; at most 16 rooms waiting, each with
      its latest push, each behind its own fetch or full slots; no push fetched twice. */
  lemma EveryRun(steps: seq<Step>, v: State)
    requires Reaches(Start, steps, v)
    ensures |v.fetching| <= 2 && |v.queued| <= 16
    ensures forall i, j :: i in v.fetching && j in v.fetching && v.fetching[i] == v.fetching[j] ==> i == j
    ensures forall r :: r in v.queued ==> r in v.fetching.Values || |v.fetching| == 2
    ensures forall r :: r in v.queued ==> Latest(v.came, r, v.queued[r])
    ensures forall i, j :: 0 <= i < j < |v.sent| ==> v.sent[i] != v.sent[j]
  {
    assert Inv(Start);
    RunKeepsInv(Start, steps, v);
    hide Reaches;
  }

  /** A push is passed over exactly if slots or room are taken, it is not waiting and sixteen
      others are; otherwise it is sent or it waits. */
  lemma PushIsKept(v: State, room: Room, online: bool)
    requires Inv(v)
    ensures var w, push := Apply(v, Pushed(room, online)), |v.came|;
      var free, place := room !in v.fetching.Values && |v.fetching| < 2, room in v.queued || |v.queued| < 16;
      && w.came == v.came + [room]
      && w.sent == (if free then v.sent + [Sent(room, push)] else v.sent)
      && w.fetching == (if free && online then v.fetching[v.nextId := room] else v.fetching)
      && w.queued == (if !free && place then v.queued[room := push] else v.queued)
      && v.nextId !in v.fetching
  {
    assert room in v.queued ==> Latest(v.came, room, v.queued[room]);
  }

  /** Of the rooms that waited each waits on with its push, or was sent with it, and what was
      sent is nothing else; with a core it is all in flight. */
  ghost predicate Served(v: State, w: State, online: bool) {
    && w.came == v.came && v.sent <= w.sent && w.queued.Keys <= v.queued.Keys
    && (forall r :: r in w.queued ==> w.queued[r] == v.queued[r])
    && (forall r :: r in v.queued && r !in w.queued ==> Sent(r, v.queued[r]) in w.sent[|v.sent|..])
    && (forall x :: x in w.sent[|v.sent|..] ==>
          x.room in v.queued && x.room !in w.queued && x.push == v.queued[x.room])
    && (forall i :: i in v.fetching ==> i in w.fetching && w.fetching[i] == v.fetching[i])
    && (if online then forall x :: x in w.sent[|v.sent|..] ==> x.room in w.fetching.Values
        else w.fetching == v.fetching)
    && (forall i :: i in w.fetching && i !in v.fetching ==> i >= v.nextId)
    && w.nextId >= v.nextId
  }

  lemma {:induction false} QueuedServes(v: State, rooms: seq<Room>, online: bool)
    requires forall i :: i in v.fetching ==> i < v.nextId
    ensures Served(v, FetchQueued(v, rooms, online), online)
    decreases |rooms|
  {
    hide Served;
    if rooms == [] || |v.fetching| >= MAX_FETCHES {
      NoneServed(v, online);
    } else if RoomBusy(v, rooms[0]) || rooms[0] !in v.queued {
      QueuedServes(v, rooms[1..], online);
    } else {
      var u := Emitted(v.(queued := v.queued - {rooms[0]}), rooms[0], v.queued[rooms[0]], online);
      QueuedServes(u, rooms[1..], online);
      OneServed(v, rooms[0], online);
      BothServed(v, u, FetchQueued(u, rooms[1..], online), online);
    }
  }

  lemma NoneServed(v: State, online: bool)
    ensures Served(v, v, online)
  {
  }

  lemma OneServed(v: State, room: Room, online: bool)
    requires room in v.queued && forall i :: i in v.fetching ==> i < v.nextId
    ensures Served(v, Emitted(v.(queued := v.queued - {room}), room, v.queued[room], online), online)
  {
    var w := Emitted(v.(queued := v.queued - {room}), room, v.queued[room], online);
    assert w.sent[|v.sent|..] == [Sent(room, v.queued[room])];
    if online {
      assert w.fetching[v.nextId] == room;
    }
  }

  lemma BothServed(v: State, u: State, w: State, online: bool)
    requires Served(v, u, online) && Served(u, w, online)
    ensures Served(v, w, online)
  {
    assert w.sent[|v.sent|..] == u.sent[|v.sent|..] + w.sent[|u.sent|..];
    forall x | online && x in u.sent[|v.sent|..] ensures x.room in w.fetching.Values {
      var i :| i in u.fetching && u.fetching[i] == x.room;
      assert w.fetching[i] == x.room;
    }
  }

  /** A fetch that is over frees its slot, and no waiting push is dropped: each still waits,
      or is sent as it was. One that is not known changes nothing. */
  lemma FinishedServes(v: State, id: nat, rooms: seq<Room>, online: bool)
    requires Inv(v)
    ensures var w := Apply(v, Finished(id, rooms, online));
      if id in v.fetching then id !in w.fetching && Served(v.(fetching := v.fetching - {id}), w, online) else w == v
  {
    if id in v.fetching {
      QueuedServes(v.(fetching := v.fetching - {id}), rooms, online);
      hide FetchQueued;
    }
  }

  /** After a sign-out nothing waits, and what was in flight before changes nothing when it
      comes in. */
  lemma ForgottenIsOver(v: State, id: nat, rooms: seq<Room>, online: bool)
    ensures var w := Apply(v, Forgotten);
      && w.queued == map[] && w.sent == v.sent && w.came == v.came
      && Apply(w, Finished(id, rooms, online)) == w
  {
  }

  /** The pushes a step gives up for good: one that finds all taken and sixteen other rooms
      waiting, and at a sign-out those that wait. */
  function PassedOver(v: State, s: Step): set<Push> {
    match s
    case Pushed(room, _) =>
      if (room in v.fetching.Values || |v.fetching| >= 2) && room !in v.queued && |v.queued| >= 16
      then {|v.came|} else {}
    case Forgotten => v.queued.Values
    case Finished(_, _, _) => {}
  }

  ghost function GivenUp(v: State, steps: seq<Step>): set<Push>
    decreases |steps|
  {
    if steps == [] then {} else PassedOver(v, steps[0]) + GivenUp(Apply(v, steps[0]), steps[1..])
  }

  /** The latest push of each room was sent, waits, or is among these. */
  ghost predicate Accounted(v: State, lost: set<Push>) {
    forall r, p :: Latest(v.came, r, p) ==>
      Sent(r, p) in v.sent || (r in v.queued && v.queued[r] == p) || p in lost
  }

  lemma StepAccounts(v: State, s: Step, lost: set<Push>)
    requires Inv(v) && Accounted(v, lost)
    ensures Accounted(Apply(v, s), lost + PassedOver(v, s))
  {
    var w := Apply(v, s);
    match s {
      case Pushed(room, online) =>
        PushIsKept(v, room, online);
        hide Fetch, Inv;
        forall r, p | Latest(w.came, r, p)
          ensures Sent(r, p) in w.sent || (r in w.queued && w.queued[r] == p) || p in lost + PassedOver(v, s)
        {
          PushAccounts(v, room, online, lost, r, p);
        }
      case Finished(id, rooms, online) =>
        FinishedServes(v, id, rooms, online);
        hide Finish, Inv, Latest;
      case Forgotten =>
    }
  }

  lemma PushAccounts(v: State, room: Room, online: bool, lost: set<Push>, r: Room, p: Push)
    requires Inv(v) && Accounted(v, lost) && Latest(v.came + [room], r, p)
    ensures var w := Apply(v, Pushed(room, online));
      Sent(r, p) in w.sent || (r in w.queued && w.queued[r] == p) || p in lost + PassedOver(v, Pushed(room, online))
  {
    PushIsKept(v, room, online);
    hide Fetch, Inv;
    var came := v.came + [room];
    if r == room {
      assert came[|v.came|] == room;
      assert p == |v.came|;
    } else {
      assert p < |v.came| && forall k :: p < k < |v.came| ==> came[k] == v.came[k];
      assert Latest(v.came, r, p);
    }
  }

  lemma {:induction false} RunAccounts(v: State, steps: seq<Step>, w: State, lost: set<Push>)
    requires Inv(v) && Accounted(v, lost) && Reaches(v, steps, w)
    ensures Accounted(w, lost + GivenUp(v, steps))
    decreases |steps|
  {
    hide Inv, Apply, Possible, PassedOver, Accounted;
    if steps == [] {
      assert lost + {} == lost;
    } else {
      var u, gone := Apply(v, steps[0]), PassedOver(v, steps[0]);
      StepKeepsInv(v, steps[0]);
      StepAccounts(v, steps[0], lost);
      RunAccounts(u, steps[1..], w, lost + gone);
      assert lost + gone + GivenUp(u, steps[1..]) == lost + (gone + GivenUp(u, steps[1..]));
    }
  }

  /** After every run the latest push of a room was sent or waits, unless it was one of the
      few given up. */
  lemma NoPushIsLost(steps: seq<Step>, v: State)
    requires Reaches(Start, steps, v)
    ensures Accounted(v, GivenUp(Start, steps))
  {
    assert Inv(Start) && Accounted(Start, {});
    hide Inv, Accounted, Reaches;
    RunAccounts(Start, steps, v, {});
    assert {} + GivenUp(Start, steps) == GivenUp(Start, steps);
  }

  // ------------------------------------------------ the object

  class PushActions {
    var fetching: map<nat, Room>
    var queued: map<Room, Push>
    var nextId: nat
    ghost var came: seq<Room>
    ghost var sent: seq<Sent>

    ghost function Value(): State
      reads this
    {
      State(fetching, queued, nextId, came, sent)
    }

    constructor ()
      ensures Value() == Start && Inv(Value())
    {
      fetching, queued, nextId, came, sent := map[], map[], 1, [], [];
    }

    /** `commandReady` and the id the bridge hands back at once, 0 without a core. */
    method Emit(room: Room, push: Push, online: bool)
      modifies this
      ensures Value() == Emitted(old(Value()), room, push, online)
    {
      sent := sent + [Sent(room, push)];
      var id := 0;
      if online {
        id := nextId;
        nextId := nextId + 1;
        fetching := fetching[id := room];
      }
    }

    method FetchOrQueue(room: Room, push: Push, online: bool)
      modifies this
      ensures Value() == Fetch(old(Value()), room, push, online)
    {
      var busy := room in fetching.Values;
      if busy || |fetching| >= MAX_FETCHES {
        if room in queued || |queued| < MAX_QUEUED {
          queued := queued[room := push];
        }
        return;
      }
      Emit(room, push, online);
    }

    method OnPush(room: Room, push: Push, online: bool)
      requires Inv(Value()) && push == |came|
      modifies this
      ensures Value() == Apply(old(Value()), Pushed(room, online)) && Inv(Value())
    {
      PushedKeeps(Value(), room, online);
      hide Inv, Fetch;
      came := came + [room];
      FetchOrQueue(room, push, online);
    }

    method FetchWaiting(rooms: seq<Room>, online: bool)
      requires forall r :: r in rooms ==> r in queued
      requires forall i, j :: 0 <= i < j < |rooms| ==> rooms[i] != rooms[j]
      modifies this
      ensures Value() == FetchQueued(old(Value()), rooms, online)
    {
      ghost var start := Value();
      for i := 0 to |rooms|
        invariant FetchQueued(Value(), rooms[i..], online) == FetchQueued(start, rooms, online)
        invariant forall j :: i <= j < |rooms| ==> rooms[j] in queued
      {
        if |fetching| >= MAX_FETCHES {
          return;
        }
        assert rooms[i..][1..] == rooms[i + 1..];
        if rooms[i] !in fetching.Values {
          var push := queued[rooms[i]];
          queued := queued - {rooms[i]};
          FetchOrQueue(rooms[i], push, online);
        }
      }
    }

    /** Answered, refused or given up. */
    method FinishFetch(id: nat, rooms: seq<Room>, online: bool)
      requires Inv(Value())
      requires forall r :: r in rooms <==> r in queued
      requires forall i, j :: 0 <= i < j < |rooms| ==> rooms[i] != rooms[j]
      modifies this
      ensures Value() == Finish(old(Value()), id, rooms, online) && Inv(Value())
    {
      StepKeepsInv(Value(), Finished(id, rooms, online));
      hide Inv, FetchQueued;
      if id in fetching {
        fetching := fetching - {id};
        FetchWaiting(rooms, online);
      }
    }

    method Forget()
      requires Inv(Value())
      modifies this
      ensures Value() == Apply(old(Value()), Forgotten) && Inv(Value())
    {
      fetching := map[];
      queued := map[];
    }
  }
}
