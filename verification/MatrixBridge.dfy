/** The bridge as an object: sending, answering and giving up, field by field. */
module Bridge {
  import opened Requests

  class MatrixBridge {
    const core: bool
    var nextId: nat
    var pending: map<nat, Pending>
    var watching: bool
    var paginate: nat
    var directChat: nat
    var opening: nat
    var search: nat
    var index: nat
    var media: map<nat, Key>
    var hierarchy: map<nat, Key>
    var remove: map<nat, Key>
    var readers: map<nat, Key>
    var throwaway: map<nat, Key>
    var reactors: set<nat>
    var room: nat
    var ready: bool
    var cache: set<Key>
    ghost var asked: multiset<Key>
    ghost var settled: multiset<Key>
    ghost var told: multiset<Key>

    ghost function Value(): State
      reads this
    {
      State(core, nextId, pending, watching, paginate, directChat, opening, search, index,
            media, hierarchy, remove, readers, throwaway, reactors, room, ready, cache, asked, settled, told)
    }

    constructor (core: bool)
      ensures Value() == Start(core) && Inv(Value())
    {
      this.core := core;
      nextId, pending, watching, paginate, directChat, opening, search, index := 1, map[], false, 0, 0, 0, 0, 0;
      media, hierarchy, remove, readers, throwaway, reactors := map[], map[], map[], map[], map[], {};
      room, ready, cache, asked, settled, told := 0, false, {}, multiset{}, multiset{}, multiset{};
      new;
      StartInv(core);
    }

    method Send(command: Command, now: nat) returns (id: nat)
      modifies this
      ensures id == SentId(old(Value())) && Value() == Sent(old(Value()), command, now)
    {
      if !core {
        return 0;
      }
      id := nextId;
      nextId := nextId + 1;
      pending := pending[id := Pending(command, now, false)];
      watching := true;
    }

    method RequestPicture(key: Key, there: bool, usable: bool, now: nat)
      requires Inv(Value())
      modifies this
      ensures Value() == RequestMedia(old(Value()), key, there, usable, now) && Inv(Value())
    {
      hide Inv, Fetched, Spinner;
      MediaKeeps(Value(), key, there, usable, now);
      InvGives(Value());
      if key in cache && there {
        return;
      }
      FetchAgain(key, usable, now);
    }

    method FetchAgain(key: Key, usable: bool, now: nat)
      requires nextId > 0
      modifies this
      ensures Value() == (
        var w := old(Value()).(cache := old(cache) - {key}); if usable then Fetched(w, key, now) else w)
    {
      hide Fetched;
      ForgetFile(key);
      if usable {
        FetchPicture(key, now);
      }
    }

    method ForgetFile(key: Key)
      modifies this
      ensures Value() == old(Value()).(cache := old(cache) - {key})
    {
      cache := cache - {key};
    }

    method FetchPicture(key: Key, now: nat)
      requires nextId > 0
      modifies this
      ensures Value() == Fetched(old(Value()), key, now)
    {
      SentIs(Value(), Media, now);
      NothingSent(Value(), Media, now);
      hide Sent;
      if key in media.Values {
        return;
      }
      var id := Send(Media, now);
      if id != 0 {
        media := media[id := key];
        asked := asked + multiset{key};
      }
    }

    method LoadOlder(now: nat)
      requires Inv(Value())
      modifies this
      ensures Value() == Load(old(Value()), now) && Inv(Value())
    {
      hide Inv, Sent;
      LoadKeeps(Value(), now);
      InvGives(Value());
      SentIs(Value(), Paginate, now);
      NothingSent(Value(), Paginate, now);
      if paginate != 0 {
        return;
      }
      var id := Send(Paginate, now);
      if id == 0 {
        return;
      }
      paginate := id;
    }

    method LoadNewer(atEnd: bool, now: nat)
      requires Inv(Value())
      modifies this
      ensures Value() == (if atEnd then old(Value()) else Load(old(Value()), now)) && Inv(Value())
    {
      hide Inv;
      if paginate != 0 || atEnd {
        return;
      }
      LoadOlder(now);
    }

    method ShowRoom(id: nat, keeps: bool, now: nat)
      requires Inv(Value())
      modifies this
      ensures Value() == OpenRoom(old(Value()), id, keeps, now) && Inv(Value())
    {
      hide Inv, Opening, Entered;
      OpenKeeps(Value(), id, keeps, now);
      if id == 0 {
        return;
      }
      if id != room || !keeps {
        EnterRoom(id);
      }
      SendOpen(now);
    }

    method SendOpen(now: nat)
      modifies this
      ensures Value() == Opening(old(Value()), now)
    {
      SentIs(Value(), Open, now);
      hide Sent;
      opening := Send(Open, now);
    }

    method EnterRoom(id: nat)
      modifies this
      ensures Value() == Entered(old(Value()), id)
    {
      cache := if room != id then {} else cache;
      ready := false;
      room := id;
      paginate := 0;
    }

    method LeaveRoom(now: nat)
      requires Inv(Value())
      modifies this
      ensures Value() == CloseRoom(old(Value()), now) && Inv(Value())
    {
      hide Inv, Sent;
      CloseKeeps(Value(), now);
      SentIs(Value(), Other, now);
      if room == 0 {
        return;
      }
      ghost var v := Value();
      room := 0;
      ready := false;
      SentOf(v, Value(), Other, now);
      var id := Send(Other, now);
    }

    /** Signed out, or signed out of: no room is open any more. What is in flight stays so. */
    method EndSession()
      requires Inv(Value())
      modifies this`room
      ensures Value() == Apply(old(Value()), SessionOver, 0) && Inv(Value())
    {
      hide Inv;
      AsideInv(Value(), Value().(room := 0));
      room := 0;
    }

    method StartChat(now: nat)
      requires Inv(Value())
      modifies this
      ensures Value() == StartDirectChat(old(Value()), now) && Inv(Value())
    {
      hide Inv, Sent;
      DirectChatKeeps(Value(), now);
      SentIs(Value(), DirectChat, now);
      if directChat != 0 {
        return;
      }
      directChat := Send(DirectChat, now);
    }

    method StartIndex(now: nat)
      requires Inv(Value())
      modifies this
      ensures Value() == IndexRoom(old(Value()), now) && Inv(Value())
    {
      hide Inv, Sent;
      IndexKeeps(Value(), now);
      SentIs(Value(), Index, now);
      if index != 0 {
        return;
      }
      index := Send(Index, now);
    }

    method StartSearch(empty: bool, now: nat)
      requires Inv(Value())
      modifies this
      ensures Value() == SearchRoom(old(Value()), empty, now) && Inv(Value())
    {
      hide Inv, Sent;
      SearchKeeps(Value(), empty, now);
      SentIs(Value(), Search, now);
      if empty {
        if search != 0 {
          search := 0;
        }
        return;
      }
      search := Send(Search, now);
    }

    method ContinueSearch(more: bool, now: nat)
      requires Inv(Value())
      modifies this
      ensures Value() == SearchMore(old(Value()), more, now) && Inv(Value())
    {
      hide Inv, SearchRoom;
      if search != 0 || !more {
        return;
      }
      StartSearch(false, now);
    }

    method RemoveFromRoom(who: Key, now: nat)
      requires Inv(Value())
      modifies this
      ensures Value() == RemoveMember(old(Value()), who, now) && Inv(Value())
    {
      hide Inv, Sent;
      RemoveKeeps(Value(), who, now);
      SentIs(Value(), Remove, now);
      var id := Send(Remove, now);
      remove := remove[id := who];
    }

    method FetchSpace(space: Key, now: nat)
      requires Inv(Value())
      modifies this
      ensures Value() == FetchHierarchy(old(Value()), space, now) && Inv(Value())
    {
      hide Inv, Sent;
      HierarchyKeeps(Value(), space, now);
      SentIs(Value(), Hierarchy, now);
      var id := Send(Hierarchy, now);
      hierarchy := hierarchy[id := space];
    }

    method ShowReaders(event: Key, now: nat)
      requires Inv(Value())
      modifies this
      ensures Value() == LoadReaders(old(Value()), event, now) && Inv(Value())
    {
      hide Inv, Sent;
      ReadersKeeps(Value(), event, now);
      SentIs(Value(), Readers, now);
      var id := Send(Readers, now);
      readers := readers[id := event];
    }

    method ShowReactors(now: nat)
      requires Inv(Value())
      modifies this
      ensures Value() == LoadReactors(old(Value()), now) && Inv(Value())
    {
      hide Inv, Sent;
      ReactorsKeeps(Value(), now);
      SentIs(Value(), Reactors, now);
      var id := Send(Reactors, now);
      reactors := reactors + {id};
    }

    method SendPicture(own: bool, file: Key, now: nat)
      requires Inv(Value())
      modifies this
      ensures Value() == SendFile(old(Value()), own, file, now) && Inv(Value())
    {
      hide Inv, Sent;
      SendFileKeeps(Value(), own, file, now);
      SentIs(Value(), SendMedia, now);
      var id := Send(SendMedia, now);
      if own {
        throwaway := throwaway[id := file];
      }
    }

    method ForgetRequest(id: nat)
      modifies this
      ensures Value() == Forget(old(Value()), id)
    {
      media := media - {id};
      hierarchy := hierarchy - {id};
      remove := remove - {id};
      ForgetRest(id);
    }

    method ForgetRest(id: nat)
      modifies this
      ensures Value() == old(Value()).(
        readers := old(readers) - {id}, reactors := old(reactors) - {id}, throwaway := old(throwaway) - {id})
    {
      readers := readers - {id};
      reactors := reactors - {id};
      throwaway := throwaway - {id};
    }

    /** An opening that is over leaves the room ready. */
    method EndOpening(id: nat)
      modifies this
      ensures Value() == OpenOver(old(Value()), id)
    {
      if id != 0 && id == opening {
        opening := 0;
        ready := true;
      }
    }

    method SettlePicture(id: nat)
      modifies this
      ensures Value() == PictureFailed(old(Value()), id)
    {
      if id in media {
        settled := settled + multiset{media[id]};
        told := told + multiset{media[id]};
      }
    }

    method TakePending(id: nat)
      modifies this
      ensures Value() == Taken(old(Value()), id)
    {
      pending := pending - {id};
      watching := pending != map[];
      if id != 0 {
        StopLoading(id);
      }
    }

    method OnRefused(id: nat, superseded: bool)
      modifies this
      ensures Value() == Refused(old(Value()), id, superseded)
    {
      RefusedBySteps(Value(), id, superseded);
      hide Forget, OpenOver, FailedIds, Refused;
      EndOpening(id);
      if !superseded {
        OnFailure(id);
      }
      ForgetRequest(id);
    }

    method OnFailure(id: nat)
      modifies this
      ensures Value() == FailedIds(old(Value()), id)
    {
      hide PictureFailed;
      StopSearch(id);
      SettlePicture(id);
    }

    method StopSearch(id: nat)
      modifies this
      ensures Value() == old(Value()).(
        index := if id == old(index) then 0 else old(index), search := if id == old(search) then 0 else old(search))
    {
      index := if id == index then 0 else index;
      search := if id == search then 0 else search;
    }

    method OnPicture(id: nat, path: bool)
      modifies this
      ensures Value() == Granted(old(Value()), id, Media, path)
    {
      if id in media {
        var key := media[id];
        media := media - {id};
        settled := settled + multiset{key};
        if path {
          cache := cache + {key};
          told := told + multiset{key};
        }
      } else {
        MinusNone(media, id);
      }
    }

    method OnRoomOrMember(id: nat, command: Command)
      requires command == Hierarchy || command == Remove
      modifies this
      ensures Value() == Granted(old(Value()), id, command, false)
    {
      if command == Hierarchy {
        hierarchy := hierarchy - {id};
      } else {
        remove := remove - {id};
      }
    }

    method OnSearch(id: nat, command: Command)
      requires command == Search || command == Index
      modifies this
      ensures Value() == Granted(old(Value()), id, command, false)
    {
      if command == Index {
        index := 0;
      } else if id == search {
        search := 0;
      }
    }

    method OnOpened(id: nat)
      modifies this
      ensures Value() == Granted(old(Value()), id, Open, false)
    {
      if id != 0 && id != opening {
        return;
      }
      opening := 0;
      ready := true;
    }

    method OnTimeline(id: nat, command: Command)
      requires command == SendMedia || command == Readers || command == Reactors
      modifies this
      ensures Value() == Granted(old(Value()), id, command, false)
    {
      if command == SendMedia {
        throwaway := throwaway - {id};
      } else if command == Readers {
        readers := readers - {id};
      } else {
        reactors := reactors - {id};
      }
    }

    method OnGranted(id: nat, command: Command, path: bool)
      modifies this
      ensures Value() == Granted(old(Value()), id, command, path)
    {
      GrantedPath(Value(), id, command, path);
      hide Granted;
      match command {
        case Hierarchy => OnRoomOrMember(id, command);
        case Remove => OnRoomOrMember(id, command);
        case Index => OnSearch(id, command);
        case Search => OnSearch(id, command);
        case Open => OnOpened(id);
        case Media => OnPicture(id, path);
        case SendMedia => OnTimeline(id, command);
        case Readers => OnTimeline(id, command);
        case Reactors => OnTimeline(id, command);
        case _ =>
      }
    }

    method HandleReply(id: nat, answer: Answer)
      requires Inv(Value())
      modifies this
      ensures Value() == Reply(old(Value()), id, answer) && Inv(Value())
    {
      hide Inv, Taken, Refused, Granted;
      AnyReplyKeeps(Value(), id, answer);
      var known := id in pending;
      var command := if known then pending[id].command else Other;
      TakePending(id);
      match answer {
        case Failed(superseded) => OnRefused(id, superseded && known && command == Open);
        case Good(path) =>
          if known {
            OnGranted(id, command, path);
          }
      }
    }

    /** The waits worth a line in the journal, each noted once. */
    method ReportWaits(now: nat)
      modifies this`pending
      ensures Value() == NotedAll(old(Value()), now)
    {
      var left := pending.Keys;
      while left != {}
        invariant left <= pending.Keys == old(pending).Keys
        invariant forall id :: id in pending ==>
          pending[id] == if id in left then old(pending)[id] else Noted(old(pending)[id], now)
        decreases |left|
      {
        var id :| id in left;
        left := left - {id};
        if !pending[id].reported && now - pending[id].sentAt >= REPORT_AFTER {
          pending := pending[id := pending[id].(reported := true)];
        }
      }
    }

    method GiveUpOn(id: nat)
      requires id != 0
      modifies this
      ensures Value() == Without(old(Value()), {id})
    {
      GivenUp(Value(), id);
      hide Keys, Without, Forget, OpenOver, Waitless, PictureFailed;
      StopWaiting(id);
      EndOpening(id);
      SettlePicture(id);
      ForgetRequest(id);
      pending := pending - {id};
    }

    method StopWaiting(id: nat)
      modifies this
      ensures Value() == Waitless(old(Value()), id)
    {
      StopLoading(id);
      StopSearch(id);
    }

    method StopLoading(id: nat)
      modifies this
      ensures Value() == old(Value()).(
        paginate := if id == old(paginate) then 0 else old(paginate),
        directChat := if id == old(directChat) then 0 else old(directChat))
    {
      paginate := if id == paginate then 0 else paginate;
      directChat := if id == directChat then 0 else directChat;
    }

    method GiveUpOverdue(now: nat) returns (abandoned: bool)
      requires Pictures(Value()) && forall id :: id in pending ==> id != 0
      modifies this
      ensures Value() == Without(old(Value()), Overdue(old(Value()), now))
      ensures abandoned <==> Overdue(old(Value()), now) != {}
    {
      hide Pictures, Without;
      ghost var v := Value();
      ghost var gone: set<nat> := {};
      var left := pending.Keys;
      abandoned := false;
      WithoutNone(v);
      while left != {}
        invariant left <= v.pending.Keys && left !! gone && 0 !in gone
        invariant Value() == Without(v, gone) && (abandoned <==> gone != {})
        invariant forall id :: id in gone <==> id in Overdue(v, now) && id !in left
        decreases |left|
      {
        var id :| id in left;
        left := left - {id};
        WithoutPending(v, gone);
        if now - pending[id].sentAt >= GIVE_UP {
          WithoutOne(v, gone, id);
          GiveUpOn(id);
          gone := gone + {id};
          abandoned := true;
        }
      }
      assert gone == Overdue(v, now);
    }

    method CheckStalledCommands(now: nat)
      requires Inv(Value())
      modifies this
      ensures Value() == Sweep(old(Value()), now) && Inv(Value())
    {
      ghost var v := Value();
      hide Inv, Pictures, Without, NotedAll, Overdue, Noted;
      SweepKeeps(v, now);
      InvPictures(v);
      NotedSame(v, now);
      ReportWaits(now);
      var abandoned := GiveUpOverdue(now);
      if abandoned {
        UpdateStallWatch();
      }
    }

    method UpdateStallWatch()
      modifies this
      ensures Value() == old(Value()).(watching := old(pending) != map[])
    {
      watching := pending != map[];
    }
  }

  lemma NotedSame(v: State, now: nat)
    requires Pictures(v) && forall id :: id in v.pending ==> id != 0
    ensures var w := NotedAll(v, now);
      Overdue(w, now) == Overdue(v, now) && Pictures(w) && forall id :: id in w.pending ==> id != 0
  {
    SamePictures(v, NotedAll(v, now));
  }

  /** A path matters to pictures alone, and some answers change nothing. */
  lemma GrantedPath(v: State, id: nat, command: Command, path: bool)
    ensures command != Media ==> Granted(v, id, command, path) == Granted(v, id, command, false)
    ensures command == Paginate || command == DirectChat || command == Other ==> Granted(v, id, command, path) == v
  {
  }

  function Forget(v: State, id: nat): State {
    v.(media := v.media - {id}, hierarchy := v.hierarchy - {id}, remove := v.remove - {id},
       readers := v.readers - {id}, reactors := v.reactors - {id}, throwaway := v.throwaway - {id})
  }

  function OpenOver(v: State, id: nat): State {
    var over := id != 0 && id == v.opening;
    v.(opening := if over then 0 else v.opening, ready := v.ready || over)
  }

  /** What waited for the answer hears of the failure. */
  function FailedIds(v: State, id: nat): State {
    PictureFailed(
      v.(index := if id == v.index then 0 else v.index, search := if id == v.search then 0 else v.search), id)
  }

  /** Who asked for the picture is told that it does not come. */
  function PictureFailed(v: State, id: nat): State {
    var lost := if id in v.media then multiset{v.media[id]} else multiset{};
    v.(settled := v.settled + lost, told := v.told + lost)
  }

  lemma RefusedBySteps(v: State, id: nat, superseded: bool)
    ensures var w := OpenOver(v, id);
      Refused(v, id, superseded) == Forget(if superseded then w else FailedIds(w, id), id)
  {
  }

  function Waitless(v: State, id: nat): State {
    v.(paginate := if id == v.paginate then 0 else v.paginate,
       directChat := if id == v.directChat then 0 else v.directChat,
       search := if id == v.search then 0 else v.search, index := if id == v.index then 0 else v.index)
  }

  lemma GivenUp(v: State, id: nat)
    requires id != 0
    ensures Without(v, {id}) ==
      Forget(PictureFailed(OpenOver(Waitless(v, id), id), id), id).(pending := v.pending - {id})
  {
    assert Keys(v.media, {id}) == if id in v.media then {v.media[id]} else {};
    IdsGivenUp(v, id);
    hide Keys, OpenOver, Waitless;
  }

  lemma IdsGivenUp(v: State, id: nat)
    requires id != 0
    ensures OpenOver(Waitless(v, id), id) == v.(
      paginate := if v.paginate in {id} then 0 else v.paginate,
      directChat := if v.directChat in {id} then 0 else v.directChat,
      opening := if v.opening in {id} then 0 else v.opening,
      ready := v.ready || v.opening in {id},
      search := if v.search in {id} then 0 else v.search,
      index := if v.index in {id} then 0 else v.index)
  {
  }
}
