/** The bridge's bookkeeping of commands in flight: the pending table, the registers that
    remember what a command was about, and the watchdog that gives up on lost answers. */
module Requests {
  type Key = nat

  datatype Command =
    | Open | Paginate | DirectChat | Search | Index
    | Media | Hierarchy | Remove | Readers | Reactors | SendMedia
    | Other

  datatype Pending = Pending(command: Command, sentAt: nat, reported: bool)

  const REPORT_AFTER := 10000
  const GIVE_UP := 120000

  /** The ids held, the registers by id, the room on screen, and how often each picture was
      asked for, settled, and told of when it was. */
  datatype State = State(
    core: bool, nextId: nat, pending: map<nat, Pending>, watching: bool,
    paginate: nat, directChat: nat, opening: nat, search: nat, index: nat,
    media: map<nat, Key>, hierarchy: map<nat, Key>, remove: map<nat, Key>, readers: map<nat, Key>,
    throwaway: map<nat, Key>, reactors: set<nat>,
    room: nat, ready: bool, cache: set<Key>, asked: multiset<Key>, settled: multiset<Key>, told: multiset<Key>)

  function Start(core: bool): State {
    State(core, 1, map[], false, 0, 0, 0, 0, 0, map[], map[], map[], map[], map[], {}, 0, false, {},
          multiset{}, multiset{}, multiset{})
  }

  // ------------------------------------------------ what goes out

  /** Without a core nothing is sent and the id is 0. */
  function Sent(v: State, command: Command, now: nat): State {
    if !v.core then v
    else v.(nextId := v.nextId + 1, pending := v.pending[v.nextId := Pending(command, now, false)], watching := true)
  }

  function SentId(v: State): nat { if v.core then v.nextId else 0 }

  /** One request per picture at a time; the register keeps the id really used. */
  function Fetched(v: State, key: Key, now: nat): State {
    if key in v.media.Values || !v.core then v
    else Sent(v, Media, now).(media := v.media[v.nextId := key], asked := v.asked + multiset{key})
  }

  function RequestMedia(v: State, key: Key, there: bool, usable: bool, now: nat): State {
    if key in v.cache && there then v
    else
      var w := v.(cache := v.cache - {key});
      if usable then Fetched(w, key, now) else w
  }

  function Load(v: State, now: nat): State {
    if v.paginate != 0 || !v.core then v else Sent(v, Paginate, now).(paginate := v.nextId)
  }

  function Opening(v: State, now: nat): State { Sent(v, Open, now).(opening := SentId(v)) }

  function Entered(v: State, room: nat): State {
    v.(ready := false, room := room, paginate := 0, cache := if v.room != room then {} else v.cache)
  }

  /** `keeps`: the same room, unfocused before and after, and no rebuild asked for. */
  function OpenRoom(v: State, room: nat, keeps: bool, now: nat): State {
    if room == 0 then v
    else if room == v.room && keeps then Opening(v, now)
    else Opening(Entered(v, room), now)
  }

  function CloseRoom(v: State, now: nat): State {
    if v.room == 0 then v else Sent(v, Other, now).(room := 0, ready := false)
  }

  function StartDirectChat(v: State, now: nat): State {
    if v.directChat != 0 then v else Sent(v, DirectChat, now).(directChat := SentId(v))
  }

  function IndexRoom(v: State, now: nat): State {
    if v.index != 0 then v else Sent(v, Index, now).(index := SentId(v))
  }

  function SearchRoom(v: State, empty: bool, now: nat): State {
    if empty then v.(search := 0) else Sent(v, Search, now).(search := SentId(v))
  }

  function SearchMore(v: State, more: bool, now: nat): State {
    if v.search != 0 || !more then v else SearchRoom(v, false, now)
  }

  function RemoveMember(v: State, who: Key, now: nat): State {
    Sent(v, Remove, now).(remove := v.remove[SentId(v) := who])
  }

  function FetchHierarchy(v: State, space: Key, now: nat): State {
    Sent(v, Hierarchy, now).(hierarchy := v.hierarchy[SentId(v) := space])
  }

  function LoadReaders(v: State, event: Key, now: nat): State {
    Sent(v, Readers, now).(readers := v.readers[SentId(v) := event])
  }

  function LoadReactors(v: State, now: nat): State {
    Sent(v, Reactors, now).(reactors := v.reactors + {SentId(v)})
  }

  /** A recording or a written text is thrown away once it is out. */
  function SendFile(v: State, own: bool, file: Key, now: nat): State {
    var w := Sent(v, SendMedia, now);
    if own then w.(throwaway := v.throwaway[SentId(v) := file]) else w
  }

  // ------------------------------------------------ what comes back

  datatype Answer = Failed(superseded: bool) | Good(path: bool)

  /** Off the table; a page load or a direct chat is over whatever the answer. */
  function Taken(v: State, id: nat): State {
    v.(pending := v.pending - {id}, watching := v.pending - {id} != map[],
       paginate := if id != 0 && id == v.paginate then 0 else v.paginate,
       directChat := if id != 0 && id == v.directChat then 0 else v.directChat)
  }

  /** An opening is over, and what waited for the answer hears of the failure, unless the
      command was superseded. */
  function Refused(v: State, id: nat, superseded: bool): State {
    var over := id != 0 && id == v.opening;
    var lost := if !superseded && id in v.media then multiset{v.media[id]} else multiset{};
    v.(
      opening := if over then 0 else v.opening,
      ready := v.ready || over,
      index := if !superseded && id == v.index then 0 else v.index,
      search := if !superseded && id == v.search then 0 else v.search,
      settled := v.settled + lost, told := v.told + lost,
      media := v.media - {id}, hierarchy := v.hierarchy - {id}, remove := v.remove - {id},
      readers := v.readers - {id}, reactors := v.reactors - {id}, throwaway := v.throwaway - {id})
  }

  /** Each command's answer touches its own place and no other. */
  function Granted(v: State, id: nat, command: Command, path: bool): State {
    var over := command == Open && (id == 0 || id == v.opening);
    var fetched := command == Media && id in v.media;
    v.(
      opening := if over then 0 else v.opening,
      ready := v.ready || over,
      search := if command == Search && id == v.search then 0 else v.search,
      index := if command == Index then 0 else v.index,
      media := if command == Media then v.media - {id} else v.media,
      settled := if fetched then v.settled + multiset{v.media[id]} else v.settled,
      told := if fetched && path then v.told + multiset{v.media[id]} else v.told,
      cache := if fetched && path then v.cache + {v.media[id]} else v.cache,
      hierarchy := if command == Hierarchy then v.hierarchy - {id} else v.hierarchy,
      remove := if command == Remove then v.remove - {id} else v.remove,
      readers := if command == Readers then v.readers - {id} else v.readers,
      reactors := if command == Reactors then v.reactors - {id} else v.reactors,
      throwaway := if command == SendMedia then v.throwaway - {id} else v.throwaway)
  }

  function Reply(v: State, id: nat, answer: Answer): State {
    var w := Taken(v, id);
    match answer
    case Failed(superseded) => Refused(w, id, superseded && id in v.pending && v.pending[id].command.Open?)
    case Good(path) => if id in v.pending then Granted(w, id, v.pending[id].command, path) else w
  }

  /** The commands that have waited too long. */
  function Overdue(v: State, now: nat): set<nat> {
    set id | id in v.pending && now - v.pending[id].sentAt >= GIVE_UP
  }

  function Noted(p: Pending, now: nat): Pending {
    if now - p.sentAt >= REPORT_AFTER then p.(reported := true) else p
  }

  /** Commands given up: off the table, and all that waited for them let go. */
  function Without(v: State, gone: set<nat>): State {
    v.(
      pending := v.pending - gone,
      paginate := if v.paginate in gone then 0 else v.paginate,
      directChat := if v.directChat in gone then 0 else v.directChat,
      opening := if v.opening in gone then 0 else v.opening,
      ready := v.ready || v.opening in gone,
      search := if v.search in gone then 0 else v.search,
      index := if v.index in gone then 0 else v.index,
      media := v.media - gone, hierarchy := v.hierarchy - gone, remove := v.remove - gone,
      readers := v.readers - gone, reactors := v.reactors - gone, throwaway := v.throwaway - gone,
      settled := v.settled + multiset(Keys(v.media, gone)), told := v.told + multiset(Keys(v.media, gone)))
  }

  function Keys(media: map<nat, Key>, ids: set<nat>): set<Key> { set id | id in ids && id in media :: media[id] }

  function NotedAll(v: State, now: nat): State {
    v.(pending := map id | id in v.pending :: Noted(v.pending[id], now))
  }

  function Sweep(v: State, now: nat): State {
    var gone := Overdue(v, now);
    var w := Without(NotedAll(v, now), gone);
    if gone == {} then w else w.(watching := w.pending != map[])
  }

  // ------------------------------------------------ runs

  datatype Step =
    | MediaAsked(key: Key, there: bool, usable: bool)
    | Scrolled
    | Opened(room: nat, keeps: bool)
    | Closed
    | DirectChatAsked
    | IndexAsked
    | Searched(empty: bool)
    | SearchedOn(more: bool)
    | MemberRemoved(who: Key)
    | SpaceShown(space: Key)
    | ReadersAsked(event: Key)
    | ReactorsAsked
    | FileSent(own: bool, file: Key)
    | OtherSent
    | FilesDropped
    | SessionOver
    | Answered(id: nat, answer: Answer)
    | Swept

  function Apply(v: State, s: Step, now: nat): State {
    match s
    case MediaAsked(key, there, usable) => RequestMedia(v, key, there, usable, now)
    case Scrolled => Load(v, now)
    case Opened(room, keeps) => OpenRoom(v, room, keeps, now)
    case Closed => CloseRoom(v, now)
    case DirectChatAsked => StartDirectChat(v, now)
    case IndexAsked => IndexRoom(v, now)
    case Searched(empty) => SearchRoom(v, empty, now)
    case SearchedOn(more) => SearchMore(v, more, now)
    case MemberRemoved(who) => RemoveMember(v, who, now)
    case SpaceShown(space) => FetchHierarchy(v, space, now)
    case ReadersAsked(event) => LoadReaders(v, event, now)
    case ReactorsAsked => LoadReactors(v, now)
    case FileSent(own, file) => SendFile(v, own, file, now)
    case OtherSent => Sent(v, Other, now)
    case FilesDropped => v.(cache := {})
    case SessionOver => v.(room := 0)
    case Answered(id, answer) => Reply(v, id, answer)
    case Swept => Sweep(v, now)
  }

  /** Only a core answers or ends a session; and what opening a room and sending a file rest
      on is not there without one. */
  predicate Possible(v: State, s: Step) {
    s.Answered? || s.SessionOver? || s.FileSent? || (s.Opened? && s.room != 0) ==> v.core
  }

  datatype Timed = Timed(step: Step, now: nat)

  ghost predicate Reaches(v: State, steps: seq<Timed>, w: State)
    decreases |steps|
  {
    if steps == [] then w == v
    else Possible(v, steps[0].step) && Reaches(Apply(v, steps[0].step, steps[0].now), steps[1..], w)
  }

  // ------------------------------------------------ what every run keeps

  predicate Waits(v: State, id: nat, command: Command) { id in v.pending && v.pending[id].command == command }

  /** An id held is 0 or of a command in flight. */
  predicate Held(v: State, id: nat, command: Command) { id == 0 || Waits(v, id, command) }

  ghost predicate IdsHeld(v: State) {
    && Held(v, v.paginate, Paginate) && Held(v, v.directChat, DirectChat) && Held(v, v.opening, Open)
    && Held(v, v.search, Search) && Held(v, v.index, Index)
  }

  /** Only one direct chat and one indexing at a time: theirs is the id held. */
  ghost predicate OneEach(v: State) {
    forall id :: (Waits(v, id, DirectChat) ==> id == v.directChat) && (Waits(v, id, Index) ==> id == v.index)
  }

  /** A register names exactly the commands of its kind in flight. */
  ghost predicate Registered(v: State, keys: set<nat>, command: Command) {
    forall id :: id != 0 ==> (id in keys <==> Waits(v, id, command))
  }

  ghost predicate Registers(v: State) {
    && Registered(v, v.media.Keys, Media) && Registered(v, v.hierarchy.Keys, Hierarchy)
    && Registered(v, v.remove.Keys, Remove) && Registered(v, v.readers.Keys, Readers)
    && Registered(v, v.reactors, Reactors)
    && (forall id :: id != 0 && id in v.throwaway ==> Waits(v, id, SendMedia))
  }

  ghost predicate Table(v: State) {
    && v.nextId > 0 && (forall id :: id in v.pending ==> 0 < id < v.nextId)
    && (v.watching <==> v.pending != map[])
    && (!v.core ==> v.pending == map[])
  }

  /** No picture is in flight twice, and each asked for is settled once or in flight. */
  ghost predicate Pictures(v: State) {
    && 0 !in v.media
    && (forall i, j :: i in v.media && j in v.media && v.media[i] == v.media[j] ==> i == j)
    && (forall k :: v.asked[k] == v.settled[k] + if k in v.media.Values then 1 else 0)
  }

  /** A room that is not ready has its opening in flight. */
  predicate Spinner(v: State) { v.core && v.room != 0 && !v.ready ==> v.opening != 0 }

  /** Nothing is filed under the id 0, which stands for no request. */
  predicate ZeroFree(v: State) {
    && 0 !in v.media && 0 !in v.hierarchy && 0 !in v.remove && 0 !in v.readers && 0 !in v.reactors && 0 !in v.throwaway
  }

  predicate Keyed(v: State) { v.core ==> ZeroFree(v) }

  ghost predicate Inv(v: State) {
    Table(v) && IdsHeld(v) && OneEach(v) && Registers(v) && Pictures(v) && Spinner(v) && Keyed(v)
  }

  /** The parts that only speak of who waits. */
  ghost predicate Books(v: State) { IdsHeld(v) && OneEach(v) && Registers(v) }

  // ------------------------------------------------ sending keeps it

  lemma SentWaits(v: State, command: Command, now: nat)
    requires Table(v)
    ensures Table(Sent(v, command, now))
    ensures var w := Sent(v, command, now);
      forall id, c :: Waits(w, id, c) <==> Waits(v, id, c) || (v.core && id == v.nextId && c == command)
    ensures forall c :: !Waits(v, v.nextId, c) && !Waits(v, 0, c)
  {
    if v.core {
      assert v.nextId in Sent(v, command, now).pending;
    }
  }

  /** The new id goes nowhere but where its command belongs. */
  predicate Placed(v: State, w: State, id: nat, command: Command) {
    && (w.paginate == v.paginate || w.paginate == 0 || (w.paginate == id && command == Paginate))
    && (w.opening == v.opening || (w.opening == id && command == Open))
    && (w.search == v.search || w.search == 0 || (w.search == id && command == Search))
    && (if command == DirectChat then v.directChat == 0 && w.directChat == id else w.directChat == v.directChat)
    && (if command == Index then v.index == 0 && w.index == id else w.index == v.index)
  }

  predicate Grown(a: map<nat, Key>, b: map<nat, Key>, yes: bool, id: nat) {
    if yes then id in b && b == a[id := b[id]] else b == a
  }

  predicate Filed(v: State, w: State, id: nat, command: Command) {
    && Grown(v.media, w.media, command == Media, id) && Grown(v.hierarchy, w.hierarchy, command == Hierarchy, id)
    && Grown(v.remove, w.remove, command == Remove, id) && Grown(v.readers, w.readers, command == Readers, id)
    && w.reactors == (if command == Reactors then v.reactors + {id} else v.reactors)
    && (w.throwaway == v.throwaway || (command == SendMedia && Grown(v.throwaway, w.throwaway, true, id)))
  }

  predicate SameTable(w: State, u: State) {
    w.core == u.core && w.nextId == u.nextId && w.pending == u.pending && w.watching == u.watching
  }

  lemma SentBooks(v: State, w: State, command: Command, now: nat)
    requires Table(v) && Books(v) && SameTable(w, Sent(v, command, now))
    requires Placed(v, w, SentId(v), command) && Filed(v, w, SentId(v), command)
    ensures Table(w) && Books(w)
  {
    SentWaits(v, command, now);
    var u := Sent(v, command, now);
    assert forall id, c :: Waits(w, id, c) == Waits(u, id, c);
    assert Table(w) by { hide Waits, Placed, Filed; }
    if v.core {
      SentIds(v, w, command);
      SentRegisters(v, w, command);
    } else {
      assert forall id, c :: !Waits(v, id, c);
      hide Waits;
    }
  }

  lemma SentIds(v: State, w: State, command: Command)
    requires IdsHeld(v) && OneEach(v) && Placed(v, w, v.nextId, command) && forall c :: !Waits(v, 0, c)
    requires forall id, c :: Waits(w, id, c) <==> Waits(v, id, c) || (id == v.nextId && c == command)
    ensures IdsHeld(w) && OneEach(w)
  {
    hide Waits;
    assert Held(v, v.directChat, DirectChat) && Held(v, v.index, Index);
  }

  lemma SentRegisters(v: State, w: State, command: Command)
    requires Registers(v) && Filed(v, w, v.nextId, command) && v.nextId != 0
    requires forall id, c :: Waits(w, id, c) <==> Waits(v, id, c) || (id == v.nextId && c == command)
    ensures Registers(w)
  {
    hide Waits, Registered;
    RegisteredOn(v, w, v.media.Keys, w.media.Keys, Media, command);
    RegisteredOn(v, w, v.hierarchy.Keys, w.hierarchy.Keys, Hierarchy, command);
    RegisteredOn(v, w, v.remove.Keys, w.remove.Keys, Remove, command);
    RegisteredOn(v, w, v.readers.Keys, w.readers.Keys, Readers, command);
    RegisteredOn(v, w, v.reactors, w.reactors, Reactors, command);
    forall id | id != 0 && id in w.throwaway ensures Waits(w, id, SendMedia) {
      assert id in v.throwaway || (command == SendMedia && id == v.nextId);
    }
  }

  lemma RegisteredOn(v: State, w: State, a: set<nat>, b: set<nat>, kind: Command, command: Command)
    requires Registered(v, a, kind) && v.nextId != 0 && b == if command == kind then a + {v.nextId} else a
    requires forall id, c :: Waits(w, id, c) <==> Waits(v, id, c) || (id == v.nextId && c == command)
    ensures Registered(w, b, kind)
  {
    hide Waits;
  }

  lemma SamePictures(v: State, w: State)
    requires Pictures(v) && w.media == v.media && w.asked == v.asked && w.settled == v.settled
    ensures Pictures(w)
  {
    forall k ensures w.asked[k] == w.settled[k] + if k in w.media.Values then 1 else 0 {
      assert v.asked[k] == v.settled[k] + if k in v.media.Values then 1 else 0;
    }
  }

  lemma SentInv(v: State, w: State, command: Command, now: nat)
    requires Inv(v) && SameTable(w, Sent(v, command, now)) && w.core == v.core
    requires Placed(v, w, SentId(v), command) && Filed(v, w, SentId(v), command)
    requires w.media == v.media && w.asked == v.asked && w.settled == v.settled && Spinner(w)
    ensures Inv(w)
  {
    KeyedSent(v, w, command);
    assert Keyed(w);
    hide Placed, Filed, Table, IdsHeld, OneEach, Registers, Pictures, Sent, Keyed;
    SentBooks(v, w, command, now);
    SamePictures(v, w);
  }

  /** With a core the id is never 0. */
  lemma KeyedSent(v: State, w: State, command: Command)
    requires Keyed(v) && v.nextId > 0 && w.core == v.core && Filed(v, w, SentId(v), command)
    ensures Keyed(w)
  {
  }

  /** What is kept does not speak of the cache, nor of a room that is none. */
  lemma AsideInv(v: State, w: State)
    requires Inv(v) && w == v.(cache := w.cache, room := w.room) && (w.room == v.room || w.room == 0)
    ensures Inv(w)
  {
    hide Inv;
    InvGives(v);
    AlikeInv(v, w);
  }

  lemma AlikeInv(v: State, w: State)
    requires Inv(v) && TableSame(v, w) && FilesAlike(v, w) && Spinner(w)
    requires w.paginate == v.paginate && w.directChat == v.directChat && w.opening == v.opening && w.index == v.index
    requires (w.search == v.search || w.search == 0) && w.asked == v.asked && w.settled == v.settled
    ensures Inv(w)
  {
    assert forall id, c :: Waits(w, id, c) == Waits(v, id, c);
    AlikeRegisters(v, w);
    SamePictures(v, w);
    hide Waits, Pictures, Registers, Keyed;
  }

  lemma AlikeRegisters(v: State, w: State)
    requires Registers(v) && Keyed(v) && FilesAlike(v, w)
    requires forall id, c :: Waits(w, id, c) == Waits(v, id, c)
    ensures Registers(w) && Keyed(w)
  {
    hide Waits;
  }

  lemma MediaKeeps(v: State, key: Key, there: bool, usable: bool, now: nat)
    requires Inv(v)
    ensures Inv(RequestMedia(v, key, there, usable, now))
  {
    var u := v.(cache := v.cache - {key});
    AsideInv(v, u);
    hide Inv, Sent;
    if u.core && key !in u.media.Values {
      PictureKeeps(u, key, now);
    }
  }

  lemma PictureKeeps(v: State, key: Key, now: nat)
    requires Inv(v) && v.core && key !in v.media.Values
    ensures Inv(Sent(v, Media, now).(media := v.media[v.nextId := key], asked := v.asked + multiset{key}))
  {
    hide Inv, Sent;
    var w := Sent(v, Media, now).(media := v.media[v.nextId := key], asked := v.asked + multiset{key});
    InvGives(v);
    SentIs(v, Media, now);
    NewPictureInv(v, w, key, now);
  }

  lemma NewPictureInv(v: State, w: State, key: Key, now: nat)
    requires Inv(v) && v.core && key !in v.media.Values && SameTable(w, Sent(v, Media, now)) && w.core == v.core
    requires Placed(v, w, SentId(v), Media) && Filed(v, w, SentId(v), Media) && Spinner(w)
    requires w.media == v.media[v.nextId := key] && w.asked == v.asked + multiset{key} && w.settled == v.settled
    ensures Inv(w)
  {
    assert v.nextId !in v.media by { SentWaits(v, Media, now); }
    KeyedSent(v, w, Media);
    hide Table, IdsHeld, OneEach, Registers, Pictures, Waits, Keyed, Placed, Filed, Sent;
    InvGives(v);
    SentBooks(v, w, Media, now);
    NewPicture(v, w, key);
  }

  lemma NewPicture(v: State, w: State, key: Key)
    requires Pictures(v) && key !in v.media.Values && v.nextId !in v.media && v.nextId > 0
    requires w.media == v.media[v.nextId := key] && w.asked == v.asked + multiset{key} && w.settled == v.settled
    ensures Pictures(w)
  {
    forall k ensures w.asked[k] == w.settled[k] + if k in w.media.Values then 1 else 0 {
      assert w.media[v.nextId] == key;
      assert forall i :: i in v.media ==> w.media[i] == v.media[i];
      assert v.asked[k] == v.settled[k] + if k in v.media.Values then 1 else 0;
      assert k in w.media.Values <==> k == key || k in v.media.Values;
    }
  }

  lemma InvGives(v: State)
    requires Inv(v)
    ensures v.nextId > 0 && Spinner(v) && Keyed(v)
  {
  }

  lemma SentIs(v: State, command: Command, now: nat)
    ensures var w := Sent(v, command, now);
      w == v.(nextId := w.nextId, pending := w.pending, watching := w.watching)
  {
  }

  /** Sending looks at no more than the table. */
  lemma SentOf(v: State, w: State, command: Command, now: nat)
    requires TableSame(v, w)
    ensures TableSame(Sent(v, command, now), Sent(w, command, now))
    ensures var x := Sent(w, command, now); x == w.(nextId := x.nextId, pending := x.pending, watching := x.watching)
  {
  }

  predicate TableSame(v: State, w: State) {
    w.pending == v.pending && w.watching == v.watching && w.core == v.core && w.nextId == v.nextId
  }

  lemma OpenKeeps(v: State, room: nat, keeps: bool, now: nat)
    requires Inv(v)
    ensures Inv(OpenRoom(v, room, keeps, now))
  {
    if room != 0 {
      OpeningKeeps(v, if room == v.room && keeps then v else Entered(v, room), now);
    }
    hide Inv, Opening, Entered;
  }

  lemma OpeningKeeps(v: State, u: State, now: nat)
    requires Inv(v) && (u == v || u == Entered(v, u.room))
    ensures Inv(Opening(u, now))
  {
    hide Inv, Sent, Placed, Filed, SameTable, Opening, Entered;
    InvGives(v);
    OpeningPlaced(v, u, now);
    SentInv(v, Opening(u, now), Open, now);
  }

  lemma OpeningPlaced(v: State, u: State, now: nat)
    requires (u == v || u == Entered(v, u.room)) && v.nextId > 0
    ensures var w := Opening(u, now);
      && SameTable(w, Sent(v, Open, now)) && w.core == v.core && Spinner(w)
      && Placed(v, w, SentId(v), Open) && Filed(v, w, SentId(v), Open)
      && w.media == v.media && w.asked == v.asked && w.settled == v.settled
  {
    hide Sent;
    SentOf(v, u, Open, now);
  }

  lemma LoadKeeps(v: State, now: nat)
    requires Inv(v)
    ensures Inv(Load(v, now))
  {
    hide Inv, Sent;
    InvGives(v);
    SentIs(v, Paginate, now);
    if v.paginate == 0 && v.core {
      SentInv(v, Load(v, now), Paginate, now);
    }
  }

  lemma CloseKeeps(v: State, now: nat)
    requires Inv(v)
    ensures Inv(CloseRoom(v, now))
  {
    hide Inv, Sent;
    InvGives(v);
    SentIs(v, Other, now);
    if v.room != 0 {
      SentInv(v, CloseRoom(v, now), Other, now);
    }
  }

  lemma DirectChatKeeps(v: State, now: nat)
    requires Inv(v)
    ensures Inv(StartDirectChat(v, now))
  {
    hide Inv, Sent;
    InvGives(v);
    SentIs(v, DirectChat, now);
    if v.directChat == 0 {
      SentInv(v, StartDirectChat(v, now), DirectChat, now);
    }
  }

  lemma IndexKeeps(v: State, now: nat)
    requires Inv(v)
    ensures Inv(IndexRoom(v, now))
  {
    hide Inv, Sent;
    InvGives(v);
    SentIs(v, Index, now);
    if v.index == 0 {
      SentInv(v, IndexRoom(v, now), Index, now);
    }
  }

  lemma RemoveKeeps(v: State, who: Key, now: nat)
    requires Inv(v)
    ensures Inv(RemoveMember(v, who, now))
  {
    hide Inv, Sent;
    InvGives(v);
    SentIs(v, Remove, now);
    SentInv(v, RemoveMember(v, who, now), Remove, now);
  }

  lemma HierarchyKeeps(v: State, space: Key, now: nat)
    requires Inv(v)
    ensures Inv(FetchHierarchy(v, space, now))
  {
    hide Inv, Sent;
    InvGives(v);
    SentIs(v, Hierarchy, now);
    SentInv(v, FetchHierarchy(v, space, now), Hierarchy, now);
  }

  lemma ReadersKeeps(v: State, event: Key, now: nat)
    requires Inv(v)
    ensures Inv(LoadReaders(v, event, now))
  {
    hide Inv, Sent;
    InvGives(v);
    SentIs(v, Readers, now);
    SentInv(v, LoadReaders(v, event, now), Readers, now);
  }

  lemma ReactorsKeeps(v: State, now: nat)
    requires Inv(v)
    ensures Inv(LoadReactors(v, now))
  {
    hide Inv, Sent;
    InvGives(v);
    SentIs(v, Reactors, now);
    SentInv(v, LoadReactors(v, now), Reactors, now);
  }

  lemma SendFileKeeps(v: State, own: bool, file: Key, now: nat)
    requires Inv(v)
    ensures Inv(SendFile(v, own, file, now))
  {
    hide Inv, Sent;
    SentIs(v, SendMedia, now);
    if own {
      ThrownKeeps(v, file, now);
    } else {
      InvGives(v);
      SentInv(v, Sent(v, SendMedia, now), SendMedia, now);
    }
  }

  lemma ThrownKeeps(v: State, file: Key, now: nat)
    requires Inv(v)
    ensures Inv(Sent(v, SendMedia, now).(throwaway := v.throwaway[SentId(v) := file]))
  {
    hide Inv, Sent;
    InvGives(v);
    SentIs(v, SendMedia, now);
    SentInv(v, Sent(v, SendMedia, now).(throwaway := v.throwaway[SentId(v) := file]), SendMedia, now);
  }

  lemma OtherKeeps(v: State, now: nat)
    requires Inv(v)
    ensures Inv(Sent(v, Other, now))
  {
    hide Inv, Sent;
    InvGives(v);
    SentIs(v, Other, now);
    SentInv(v, Sent(v, Other, now), Other, now);
  }

  lemma SearchKeeps(v: State, empty: bool, now: nat)
    requires Inv(v)
    ensures Inv(SearchRoom(v, empty, now))
  {
    hide Inv, Sent;
    if empty {
      NoSearchInv(v);
    } else {
      InvGives(v);
      SentIs(v, Search, now);
      SentInv(v, SearchRoom(v, empty, now), Search, now);
    }
  }

  lemma NoSearchInv(v: State)
    requires Inv(v)
    ensures Inv(v.(search := 0))
  {
    hide Inv;
    InvGives(v);
    AlikeInv(v, v.(search := 0));
  }

  // ------------------------------------------------ answers and the watchdog keep it

  /** Whatever becomes of a command, its id leaves the table and every place that held it. */
  ghost predicate LetGo(v: State, w: State, gone: set<nat>) {
    && w.core == v.core && w.nextId == v.nextId
    && (forall id :: id in w.pending <==> id in v.pending && id !in gone)
    && (forall id :: id in w.pending ==> w.pending[id].command == v.pending[id].command)
    && (w.watching <==> w.pending != map[])
  }

  predicate Cleared(a: nat, b: nat, gone: set<nat>) { b == if a in gone then 0 else a }

  predicate IdsCleared(v: State, w: State, gone: set<nat>) {
    && Cleared(v.paginate, w.paginate, gone) && Cleared(v.directChat, w.directChat, gone)
    && Cleared(v.opening, w.opening, gone) && Cleared(v.search, w.search, gone) && Cleared(v.index, w.index, gone)
  }

  predicate FilesCleared(v: State, w: State, gone: set<nat>) {
    && w.media == v.media - gone && w.hierarchy == v.hierarchy - gone && w.remove == v.remove - gone
    && w.readers == v.readers - gone && w.reactors == v.reactors - gone && w.throwaway == v.throwaway - gone
  }

  lemma LetGoBooks(v: State, w: State, gone: set<nat>)
    requires Table(v) && Books(v) && LetGo(v, w, gone) && IdsCleared(v, w, gone) && FilesCleared(v, w, gone)
    ensures Table(w) && Books(w)
  {
    assert forall id, c :: Waits(w, id, c) <==> Waits(v, id, c) && id !in gone;
    LetGoIds(v, w, gone);
    LetGoRegisters(v, w, gone);
    hide Waits, IdsHeld, OneEach, Registers, IdsCleared, FilesCleared;
  }

  lemma LetGoIds(v: State, w: State, gone: set<nat>)
    requires IdsHeld(v) && OneEach(v) && IdsCleared(v, w, gone)
    requires forall id, c :: Waits(w, id, c) <==> Waits(v, id, c) && id !in gone
    ensures IdsHeld(w) && OneEach(w)
  {
    hide Waits;
    assert Held(v, v.paginate, Paginate) && Held(v, v.directChat, DirectChat) && Held(v, v.opening, Open);
    assert Held(v, v.search, Search) && Held(v, v.index, Index);
  }

  lemma LetGoRegisters(v: State, w: State, gone: set<nat>)
    requires Registers(v) && FilesCleared(v, w, gone)
    requires forall id, c :: Waits(w, id, c) <==> Waits(v, id, c) && id !in gone
    ensures Registers(w)
  {
    hide Waits;
  }

  /** The keys of pictures given up are settled with them. */
  lemma LetGoPictures(v: State, w: State, gone: set<nat>)
    requires Pictures(v) && w.media == v.media - gone && w.asked == v.asked
    requires w.settled == v.settled + multiset(Keys(v.media, gone))
    ensures Pictures(w)
  {
    var keys := Keys(v.media, gone);
    forall k ensures w.asked[k] == w.settled[k] + if k in w.media.Values then 1 else 0 {
      assert v.asked[k] == v.settled[k] + if k in v.media.Values then 1 else 0;
      assert multiset(keys)[k] == if k in keys then 1 else 0;
      if k in v.media.Values {
        var i :| i in v.media && v.media[i] == k;
        if i in gone {
          assert k in keys;
          assert forall j :: j in w.media ==> j in v.media && w.media[j] == v.media[j] && j != i;
        } else {
          assert i in w.media && w.media[i] == k;
        }
      } else {
        assert forall j :: j in w.media ==> j in v.media && w.media[j] == v.media[j];
      }
    }
  }

  lemma LetGoInv(v: State, w: State, gone: set<nat>)
    requires Inv(v) && LetGo(v, w, gone) && IdsCleared(v, w, gone) && FilesCleared(v, w, gone)
    requires w.asked == v.asked && w.settled == v.settled + multiset(Keys(v.media, gone)) && Spinner(w)
    ensures Inv(w)
  {
    assert Keyed(w) by { KeyedLetGo(v, w, gone); }
    hide Table, IdsHeld, OneEach, Registers, Pictures, LetGo, IdsCleared, Keyed;
    LetGoBooks(v, w, gone);
    LetGoPictures(v, w, gone);
  }

  lemma KeyedLetGo(v: State, w: State, gone: set<nat>)
    requires Keyed(v) && w.core == v.core && FilesCleared(v, w, gone)
    ensures Keyed(w)
  {
  }

  lemma SweepKeeps(v: State, now: nat)
    requires Inv(v)
    ensures Inv(Sweep(v, now))
  {
    var gone, w := Overdue(v, now), Sweep(v, now);
    assert LetGo(v, w, gone) by { SweptTable(v, now); }
    InvGives(v);
    SweepIs(v, now);
    hide Inv, LetGo, Overdue, Sweep;
    LetGoInv(v, w, gone);
  }

  lemma WithoutIs(v: State, n: State, gone: set<nat>)
    requires n == v.(pending := n.pending)
    ensures var w := Without(n, gone);
      && IdsCleared(v, w, gone) && FilesCleared(v, w, gone) && w.asked == v.asked
      && w.settled == v.settled + multiset(Keys(v.media, gone))
      && w.ready == (v.ready || v.opening in gone) && w.room == v.room && w.core == v.core
  {
    hide Keys;
  }

  lemma Rewatched(v: State, w: State, gone: set<nat>, watching: bool)
    requires IdsCleared(v, w, gone) && FilesCleared(v, w, gone)
    ensures var x := w.(watching := watching); IdsCleared(v, x, gone) && FilesCleared(v, x, gone)
  {
  }

  lemma SweepIs(v: State, now: nat)
    ensures var w, gone := Sweep(v, now), Overdue(v, now);
      && IdsCleared(v, w, gone) && FilesCleared(v, w, gone) && w.asked == v.asked
      && w.settled == v.settled + multiset(Keys(v.media, gone))
      && w.ready == (v.ready || v.opening in gone) && w.room == v.room && w.core == v.core
  {
    var w, gone := Without(NotedAll(v, now), Overdue(v, now)), Overdue(v, now);
    WithoutIs(v, NotedAll(v, now), gone);
    Rewatched(v, w, gone, w.pending != map[]);
    hide Overdue, NotedAll, Keys, Without, IdsCleared, FilesCleared;
  }

  lemma SweptTable(v: State, now: nat)
    requires Inv(v)
    ensures LetGo(v, Sweep(v, now), Overdue(v, now))
  {
    var gone, w := Overdue(v, now), Sweep(v, now);
    if gone == {} {
      assert forall id :: id in w.pending <==> id in v.pending;
      if v.pending != map[] {
        var id :| id in v.pending;
        assert id in w.pending;
      }
    }
  }

  /** Where the id of an answer can be held. */
  predicate Places(v: State, id: nat) {
    && (id in v.media <==> Waits(v, id, Media)) && (id in v.hierarchy <==> Waits(v, id, Hierarchy))
    && (id in v.remove <==> Waits(v, id, Remove)) && (id in v.readers <==> Waits(v, id, Readers))
    && (id in v.reactors <==> Waits(v, id, Reactors)) && (id in v.throwaway ==> Waits(v, id, SendMedia))
    && (id == v.paginate ==> Waits(v, id, Paginate)) && (id == v.opening ==> Waits(v, id, Open))
    && (id == v.search ==> Waits(v, id, Search))
    && (id == v.directChat <==> Waits(v, id, DirectChat)) && (id == v.index <==> Waits(v, id, Index))
  }

  lemma InvPlaces(v: State, id: nat)
    requires Inv(v) && id != 0
    ensures Places(v, id)
  {
    hide Waits;
    assert Held(v, v.paginate, Paginate) && Held(v, v.directChat, DirectChat) && Held(v, v.opening, Open);
    assert Held(v, v.search, Search) && Held(v, v.index, Index);
  }

  lemma MinusNone(m: map<nat, Key>, id: nat)
    ensures id !in m ==> m - {id} == m
  {
  }

  lemma NothingToClear(v: State, id: nat)
    ensures (id !in v.media ==> v.media - {id} == v.media) && (id !in v.hierarchy ==> v.hierarchy - {id} == v.hierarchy)
    ensures (id !in v.remove ==> v.remove - {id} == v.remove) && (id !in v.readers ==> v.readers - {id} == v.readers)
    ensures id !in v.throwaway ==> v.throwaway - {id} == v.throwaway
    ensures id !in v.reactors ==> v.reactors - {id} == v.reactors
    ensures multiset(Keys(v.media, {id})) == if id in v.media then multiset{v.media[id]} else multiset{}
  {
    MinusNone(v.media, id);
    MinusNone(v.hierarchy, id);
    MinusNone(v.remove, id);
    MinusNone(v.readers, id);
    MinusNone(v.throwaway, id);
    assert Keys(v.media, {id}) == if id in v.media then {v.media[id]} else {};
  }

  /** What an answer does beside its message: exactly its own traces go. */
  ghost predicate Traceless(v: State, w: State, id: nat) {
    && IdsCleared(v, w, {id}) && FilesCleared(v, w, {id}) && w.asked == v.asked
    && w.settled == v.settled + (if id in v.media then multiset{v.media[id]} else multiset{})
    && w.ready == (v.ready || v.opening == id) && w.room == v.room && w.core == v.core
  }

  lemma RefusedIs(v: State, id: nat, superseded: bool)
    requires id != 0 && Places(v, id)
    ensures Traceless(v, Reply(v, id, Failed(superseded)), id)
  {
    var w := Taken(v, id);
    var yes := superseded && id in v.pending && v.pending[id].command.Open?;
    RefusedIds(v, id, yes);
    RefusedSettled(v, id, yes);
    hide IdsCleared, FilesCleared, Taken, Refused;
    RefusedFiles(w, id, yes);
    TakenFiles(v, id);
    SameFiles(v, w, Refused(w, id, yes), {id});
  }

  /** An opening alone can be superseded, and it holds nothing but its own id. */
  lemma RefusedIds(v: State, id: nat, superseded: bool)
    requires id != 0 && Places(v, id) && (superseded ==> Waits(v, id, Open))
    ensures var w := Refused(Taken(v, id), id, superseded);
      && IdsCleared(v, w, {id}) && w.ready == (v.ready || v.opening == id)
      && w.asked == v.asked && w.room == v.room && w.core == v.core
  {
  }

  lemma RefusedFiles(v: State, id: nat, superseded: bool)
    ensures FilesCleared(v, Refused(v, id, superseded), {id})
  {
  }

  lemma RefusedSettled(v: State, id: nat, superseded: bool)
    requires id != 0 && Places(v, id) && (superseded ==> Waits(v, id, Open))
    ensures Refused(Taken(v, id), id, superseded).settled
      == v.settled + (if id in v.media then multiset{v.media[id]} else multiset{})
  {
  }

  lemma TakenFiles(v: State, id: nat)
    ensures FilesAlike(v, Taken(v, id))
  {
  }

  /** Nothing is left under the id once this command's own place is cleared. */
  predicate Only(v: State, id: nat, command: Command) {
    && (id in v.media ==> command == Media) && (id in v.hierarchy ==> command == Hierarchy)
    && (id in v.remove ==> command == Remove) && (id in v.readers ==> command == Readers)
    && (id in v.reactors ==> command == Reactors) && (id in v.throwaway ==> command == SendMedia)
  }

  lemma GrantedFiles(v: State, id: nat, command: Command, path: bool)
    requires Only(v, id, command)
    ensures FilesCleared(v, Granted(v, id, command, path), {id})
  {
    NothingToClear(v, id);
    hide Keys;
  }

  lemma GrantedIds(v: State, id: nat, command: Command, path: bool)
    requires id != 0 && Places(v, id) && Waits(v, id, command)
    ensures var w := Granted(Taken(v, id), id, command, path);
      && IdsCleared(v, w, {id}) && w.ready == (v.ready || v.opening == id)
      && w.asked == v.asked && w.room == v.room && w.core == v.core
  {
  }

  lemma GrantedSettled(v: State, id: nat, command: Command, path: bool)
    requires id != 0 && Places(v, id) && Waits(v, id, command)
    ensures Granted(Taken(v, id), id, command, path).settled
      == v.settled + (if id in v.media then multiset{v.media[id]} else multiset{})
    ensures Only(Taken(v, id), id, command)
  {
  }

  lemma NotWaiting(v: State, id: nat)
    requires id != 0 && Places(v, id) && id !in v.pending
    ensures Traceless(v, Taken(v, id), id)
  {
    NothingToClear(v, id);
    hide Keys;
  }

  lemma GrantedIs(v: State, id: nat, path: bool)
    requires id != 0 && Places(v, id)
    ensures Traceless(v, Reply(v, id, Good(path)), id)
  {
    if id in v.pending {
      var command := v.pending[id].command;
      var w := Taken(v, id);
      GrantedSettled(v, id, command, path);
      GrantedIds(v, id, command, path);
      GrantedFiles(w, id, command, path);
      hide FilesCleared, IdsCleared, Granted;
      SameFiles(v, w, Granted(w, id, command, path), {id});
      hide Taken;
    } else {
      NotWaiting(v, id);
      hide Taken, Traceless;
    }
  }

  lemma SameFiles(v: State, w: State, x: State, gone: set<nat>)
    requires FilesCleared(w, x, gone) && FilesAlike(v, w)
    ensures FilesCleared(v, x, gone)
  {
  }

  lemma RefusedSame(v: State, id: nat, superseded: bool)
    ensures TableSame(v, Refused(v, id, superseded))
  {
  }

  lemma GrantedSame(v: State, id: nat, command: Command, path: bool)
    ensures TableSame(v, Granted(v, id, command, path))
  {
  }

  lemma TakenTable(v: State, id: nat)
    requires Table(v)
    ensures LetGo(v, Taken(v, id), {id})
  {
    var w := Taken(v, id);
    assert forall i :: i in w.pending <==> i in v.pending && i !in {id};
  }

  lemma LetGoSame(v: State, w: State, x: State, gone: set<nat>)
    requires LetGo(v, w, gone) && TableSame(w, x)
    ensures LetGo(v, x, gone)
  {
  }

  lemma ReplyTable(v: State, id: nat, answer: Answer)
    requires Table(v)
    ensures LetGo(v, Reply(v, id, answer), {id})
  {
    var w := Taken(v, id);
    TakenTable(v, id);
    hide Taken, Refused, Granted, Table, LetGo;
    match answer {
      case Failed(superseded) => RefusedSame(w, id, superseded && id in v.pending && v.pending[id].command.Open?);
      case Good(path) =>
        if id in v.pending {
          GrantedSame(w, id, v.pending[id].command, path);
        }
    }
    LetGoSame(v, w, Reply(v, id, answer), {id});
  }

  lemma ReplyKeeps(v: State, id: nat, answer: Answer)
    requires Inv(v) && id != 0
    ensures Inv(Reply(v, id, answer)) && Traceless(v, Reply(v, id, answer), id)
  {
    var w := Reply(v, id, answer);
    InvPlaces(v, id);
    InvGives(v);
    assert LetGo(v, w, {id}) by { ReplyTable(v, id, answer); }
    assert Traceless(v, w, id) by {
      hide Reply, Traceless;
      match answer {
        case Failed(superseded) => RefusedIs(v, id, superseded);
        case Good(path) => GrantedIs(v, id, path);
      }
    }
    hide Reply;
    TracelessInv(v, w, id);
  }

  /** A reply without an id answers nothing, and leaves nothing under the id 0. */
  lemma ReplyToNothing(v: State, answer: Answer)
    requires Inv(v)
    ensures var w := Reply(v, 0, answer);
      && w == v.(hierarchy := w.hierarchy, remove := w.remove, readers := w.readers, reactors := w.reactors,
                 throwaway := w.throwaway)
      && w.hierarchy == (if answer.Failed? then v.hierarchy - {0} else v.hierarchy)
      && w.remove == (if answer.Failed? then v.remove - {0} else v.remove)
      && w.readers == (if answer.Failed? then v.readers - {0} else v.readers)
      && w.reactors == (if answer.Failed? then v.reactors - {0} else v.reactors)
      && w.throwaway == (if answer.Failed? then v.throwaway - {0} else v.throwaway)
  {
    assert 0 !in v.pending && 0 !in v.media;
    TakenNothing(v, 0);
    MinusNone(v.media, 0);
    hide Inv, Taken;
  }

  lemma TakenNothing(v: State, id: nat)
    requires Table(v) && id !in v.pending && (id != 0 ==> id != v.paginate && id != v.directChat)
    ensures Taken(v, id) == v
  {
    assert v.pending - {id} == v.pending;
  }

  lemma ZeroReplyKeeps(v: State, answer: Answer)
    requires Inv(v)
    ensures Inv(Reply(v, 0, answer))
  {
    var w := Reply(v, 0, answer);
    ReplyToNothing(v, answer);
    hide Reply;
    assert forall id, c :: Waits(w, id, c) == Waits(v, id, c);
    SamePictures(v, w);
    assert Registers(w) && Keyed(w) by { WithoutZero(v, w); }
    hide Waits, Pictures, Registers, Keyed;
  }

  lemma WithoutZero(v: State, w: State)
    requires Registers(v) && Keyed(v) && w.media == v.media && w.core == v.core && 0 !in v.media
    requires forall id, c :: Waits(w, id, c) == Waits(v, id, c)
    requires w.hierarchy == v.hierarchy || w.hierarchy == v.hierarchy - {0}
    requires w.remove == v.remove || w.remove == v.remove - {0}
    requires w.readers == v.readers || w.readers == v.readers - {0}
    requires w.reactors == v.reactors || w.reactors == v.reactors - {0}
    requires w.throwaway == v.throwaway || w.throwaway == v.throwaway - {0}
    ensures Registers(w) && Keyed(w)
  {
    hide Waits;
  }

  lemma AnyReplyKeeps(v: State, id: nat, answer: Answer)
    requires Inv(v)
    ensures Inv(Reply(v, id, answer))
  {
    hide Inv, Reply, Traceless;
    if id == 0 {
      ZeroReplyKeeps(v, answer);
    } else {
      ReplyKeeps(v, id, answer);
    }
  }

  lemma TracelessInv(v: State, w: State, id: nat)
    requires Inv(v) && LetGo(v, w, {id}) && Traceless(v, w, id)
    ensures Inv(w)
  {
    InvGives(v);
    NothingToClear(v, id);
    hide Inv, LetGo, IdsCleared, FilesCleared;
    assert Spinner(w) by { ClearedOpening(v, w, id); }
    LetGoInv(v, w, {id});
  }

  lemma ClearedOpening(v: State, w: State, id: nat)
    requires IdsCleared(v, w, {id})
    ensures w.opening == if v.opening == id then 0 else v.opening
  {
  }

  lemma StepKeepsInv(v: State, s: Step, now: nat)
    requires Inv(v) && Possible(v, s)
    ensures Inv(Apply(v, s, now))
  {
    hide Inv, RequestMedia, Load, OpenRoom, CloseRoom, StartDirectChat, IndexRoom, SearchRoom, RemoveMember;
    hide FetchHierarchy, LoadReaders, LoadReactors, SendFile, Sent, Reply, Sweep;
    match s {
      case MediaAsked(key, there, usable) => MediaKeeps(v, key, there, usable, now);
      case Scrolled => LoadKeeps(v, now);
      case Opened(room, keeps) => OpenKeeps(v, room, keeps, now);
      case Closed => CloseKeeps(v, now);
      case DirectChatAsked => DirectChatKeeps(v, now);
      case IndexAsked => IndexKeeps(v, now);
      case Searched(empty) => SearchKeeps(v, empty, now);
      case SearchedOn(more) => SearchKeeps(v, false, now);
      case MemberRemoved(who) => RemoveKeeps(v, who, now);
      case SpaceShown(space) => HierarchyKeeps(v, space, now);
      case ReadersAsked(event) => ReadersKeeps(v, event, now);
      case ReactorsAsked => ReactorsKeeps(v, now);
      case FileSent(own, file) => SendFileKeeps(v, own, file, now);
      case OtherSent => OtherKeeps(v, now);
      case FilesDropped => AsideInv(v, v.(cache := {}));
      case SessionOver => AsideInv(v, v.(room := 0));
      case Answered(id, answer) => AnyReplyKeeps(v, id, answer);
      case Swept => SweepKeeps(v, now);
    }
  }

  lemma StartInv(core: bool)
    ensures Inv(Start(core))
  {
  }

  lemma {:induction false} RunKeepsInv(v: State, steps: seq<Timed>, w: State)
    requires Inv(v) && Reaches(v, steps, w)
    ensures Inv(w)
    decreases |steps|
  {
    hide Inv, Apply, Possible;
    if steps != [] {
      StepKeepsInv(v, steps[0].step, steps[0].now);
      RunKeepsInv(Apply(v, steps[0].step, steps[0].now), steps[1..], w);
    }
  }

  /** After every run every id held belongs to a command in flight; the registers name
      exactly the commands of their kind, and with a core nothing else at all; no picture is
      in flight twice and each asked for was settled once or still is; the watchdog runs
      while anything is in flight, and a room that is not ready waits for its opening. */
  lemma EveryRun(core: bool, steps: seq<Timed>, v: State)
    requires Reaches(Start(core), steps, v)
    ensures IdsHeld(v) && Registers(v)
    ensures core ==> AllInFlight(v)
    ensures forall i, j :: i in v.media && j in v.media && v.media[i] == v.media[j] ==> i == j
    ensures forall k :: v.asked[k] == v.settled[k] + if k in v.media.Values then 1 else 0
    ensures v.watching <==> v.pending != map[]
    ensures v.core && v.room != 0 && !v.ready ==> Waits(v, v.opening, Open)
  {
    StartInv(core);
    RunKeepsInv(Start(core), steps, v);
    CoreStays(Start(core), steps, v);
    if core {
      InFlight(v);
    }
    hide Reaches, Registers, OneEach;
    assert Held(v, v.opening, Open);
  }

  /** Every key of every register belongs to a command in flight. */
  ghost predicate AllInFlight(v: State) {
    && v.media.Keys <= v.pending.Keys && v.hierarchy.Keys <= v.pending.Keys && v.remove.Keys <= v.pending.Keys
    && v.readers.Keys <= v.pending.Keys && v.reactors <= v.pending.Keys && v.throwaway.Keys <= v.pending.Keys
  }

  lemma InFlight(v: State)
    requires Inv(v) && ZeroFree(v)
    ensures AllInFlight(v)
  {
    assert forall id, c :: Waits(v, id, c) ==> id in v.pending;
    hide Waits, Pictures;
  }

  lemma {:induction false} CoreStays(v: State, steps: seq<Timed>, w: State)
    requires Reaches(v, steps, w)
    ensures w.core == v.core
    decreases |steps|
  {
    if steps != [] {
      StepKeepsCore(v, steps[0].step, steps[0].now);
      hide Apply, Possible;
      CoreStays(Apply(v, steps[0].step, steps[0].now), steps[1..], w);
    }
  }

  lemma StepKeepsCore(v: State, s: Step, now: nat)
    requires Possible(v, s)
    ensures Apply(v, s, now).core == v.core
  {
    match s {
      case Answered(id, answer) => ReplyKeepsCore(v, id, answer);
      case Swept => SweepIs(v, now);
      case _ => SendKeepsCore(v, s, now);
    }
    hide Reply, Sweep;
  }

  /** The requests whose register takes whatever id it is given. */
  predicate Unchecked(s: Step) {
    s.MemberRemoved? || s.SpaceShown? || s.ReadersAsked? || s.ReactorsAsked?
  }

  predicate FilesAlike(v: State, w: State) {
    && w.core == v.core && w.media == v.media && w.hierarchy == v.hierarchy && w.remove == v.remove
    && w.readers == v.readers && w.reactors == v.reactors && w.throwaway == v.throwaway
  }

  lemma SentFiles(v: State, command: Command, now: nat)
    ensures FilesAlike(v, Sent(v, command, now))
  {
  }

  lemma LoadFiles(v: State, now: nat)
    ensures FilesAlike(v, Load(v, now))
  {
    hide Sent;
    SentFiles(v, Paginate, now);
  }

  lemma OpenFiles(v: State, room: nat, keeps: bool, now: nat)
    ensures FilesAlike(v, OpenRoom(v, room, keeps, now))
  {
    hide Sent;
    SentFiles(v, Open, now);
    SentFiles(Entered(v, room), Open, now);
  }

  lemma CloseFiles(v: State, now: nat)
    ensures FilesAlike(v, CloseRoom(v, now))
  {
    hide Sent;
    SentFiles(v, Other, now);
  }

  lemma ChatFiles(v: State, now: nat)
    ensures FilesAlike(v, StartDirectChat(v, now))
  {
    hide Sent;
    SentFiles(v, DirectChat, now);
  }

  lemma IndexFiles(v: State, now: nat)
    ensures FilesAlike(v, IndexRoom(v, now))
  {
    hide Sent;
    SentFiles(v, Index, now);
  }

  lemma SearchFiles(v: State, empty: bool, now: nat)
    ensures FilesAlike(v, SearchRoom(v, empty, now))
  {
    hide Sent;
    SentFiles(v, Search, now);
  }

  lemma OtherFiles(v: State, s: Step, now: nat)
    requires !s.MediaAsked? && !s.FileSent? && !s.Answered? && !s.Swept? && !Unchecked(s)
    ensures FilesAlike(v, Apply(v, s, now))
  {
    hide FilesAlike, Load, OpenRoom, CloseRoom, StartDirectChat, IndexRoom, SearchRoom, Sent;
    match s {
      case Scrolled => LoadFiles(v, now);
      case Opened(room, keeps) => OpenFiles(v, room, keeps, now);
      case Closed => CloseFiles(v, now);
      case DirectChatAsked => ChatFiles(v, now);
      case IndexAsked => IndexFiles(v, now);
      case Searched(empty) => SearchFiles(v, empty, now);
      case SearchedOn(more) =>
        SearchFiles(v, false, now);
        FilesAlikeSelf(v, v);
      case OtherSent => SentFiles(v, Other, now);
      case FilesDropped => FilesAlikeSelf(v, v.(cache := {}));
      case SessionOver => FilesAlikeSelf(v, v.(room := 0));
    }
  }

  lemma FilesAlikeSelf(v: State, w: State)
    requires w == v.(cache := w.cache, room := w.room)
    ensures FilesAlike(v, w)
  {
  }

  lemma MediaFiles(v: State, s: Step, now: nat)
    requires s.MediaAsked?
    ensures Apply(v, s, now).core == v.core && (!v.core ==> FilesAlike(v, Apply(v, s, now)))
  {
    SentIs(v.(cache := v.cache - {s.key}), Media, now);
    hide Sent;
  }

  lemma UncheckedFiles(v: State, s: Step, now: nat)
    requires Unchecked(s)
    ensures Apply(v, s, now).core == v.core
    ensures !v.core ==> !ZeroFree(Apply(v, s, now))
  {
    SentIs(v, Remove, now);
    SentIs(v, Hierarchy, now);
    SentIs(v, Readers, now);
    SentIs(v, Reactors, now);
    hide Sent;
  }

  lemma SendKeepsCore(v: State, s: Step, now: nat)
    requires !s.Answered? && !s.Swept? && Possible(v, s)
    ensures Apply(v, s, now).core == v.core
    ensures !v.core ==> (ZeroFree(Apply(v, s, now)) <==> ZeroFree(v) && !Unchecked(s))
  {
    if Unchecked(s) {
      UncheckedFiles(v, s, now);
    } else if s.FileSent? {
      SentIs(v, SendMedia, now);
      hide Sent;
    } else if s.MediaAsked? {
      MediaFiles(v, s, now);
      MediaIsChecked(s);
    } else {
      OtherFiles(v, s, now);
    }
    hide Apply, Unchecked;
  }

  lemma MediaIsChecked(s: Step)
    ensures s.MediaAsked? ==> !Unchecked(s)
  {
  }

  lemma ReplyKeepsCore(v: State, id: nat, answer: Answer)
    ensures Reply(v, id, answer).core == v.core
  {
    var w := Taken(v, id);
    match answer {
      case Failed(superseded) => RefusedSame(w, id, superseded && id in v.pending && v.pending[id].command.Open?);
      case Good(path) =>
        if id in v.pending {
          GrantedSame(w, id, v.pending[id].command, path);
        }
    }
    hide Refused, Granted;
  }

  // ------------------------------------------------ without a core

  /** The inputs: no core, and what is asked for is filed under 0 with nothing in flight. */
  lemma FiledUnderZero(v: State, key: Key, now: nat)
    requires !v.core
    ensures RemoveMember(v, key, now) == v.(remove := v.remove[0 := key])
    ensures FetchHierarchy(v, key, now) == v.(hierarchy := v.hierarchy[0 := key])
    ensures LoadReaders(v, key, now) == v.(readers := v.readers[0 := key])
    ensures LoadReactors(v, now) == v.(reactors := v.reactors + {0})
  {
  }

  lemma CorelessSweep(v: State, now: nat)
    requires !v.core && Inv(v)
    ensures var w := Sweep(v, now);
      && w.pending == map[] && (ZeroFree(w) <==> ZeroFree(v))
      && (0 in w.hierarchy <==> 0 in v.hierarchy) && (0 in w.remove <==> 0 in v.remove)
      && (0 in w.readers <==> 0 in v.readers) && (0 in w.reactors <==> 0 in v.reactors)
      && (0 in w.throwaway <==> 0 in v.throwaway) && (0 in w.media <==> 0 in v.media)
  {
    assert Overdue(v, now) == {} && NotedAll(v, now) == v;
    WithoutNone(v);
    hide Without, Overdue, NotedAll, Inv;
  }

  lemma CorelessStep(v: State, s: Step, now: nat)
    requires !v.core && Inv(v) && Possible(v, s)
    ensures ZeroFree(Apply(v, s, now)) <==> ZeroFree(v) && !Unchecked(s)
  {
    if s.Swept? {
      CorelessSweep(v, now);
    } else {
      SendKeepsCore(v, s, now);
    }
    hide Inv, ZeroFree, Apply;
  }

  lemma {:induction false} CorelessRun(v: State, steps: seq<Timed>, w: State)
    requires !v.core && Inv(v) && Reaches(v, steps, w)
    ensures ZeroFree(w) <==> ZeroFree(v) && forall i :: 0 <= i < |steps| ==> !Unchecked(steps[i].step)
    decreases |steps|
  {
    hide Inv, Apply, Possible, ZeroFree, Unchecked;
    if steps != [] {
      var u := Apply(v, steps[0].step, steps[0].now);
      StepKeepsInv(v, steps[0].step, steps[0].now);
      StepKeepsCore(v, steps[0].step, steps[0].now);
      CorelessStep(v, steps[0].step, steps[0].now);
      CorelessRun(u, steps[1..], w);
      assert forall i :: 1 <= i < |steps| ==> steps[i] == steps[1..][i - 1];
    }
  }

  lemma CorelessKeys(v: State)
    requires !v.core && Inv(v)
    ensures AllInFlight(v) <==> ZeroFree(v)
  {
    assert v.pending == map[];
    if ZeroFree(v) {
      InFlight(v);
    }
  }

  /** In every run all keys of the registers are in flight exactly if there is a core or
      none of the four requests was made that do not look at the id they get. */
  lemma KeysInFlightExactly(core: bool, steps: seq<Timed>, v: State)
    requires Reaches(Start(core), steps, v)
    ensures AllInFlight(v) <==> core || forall i :: 0 <= i < |steps| ==> !Unchecked(steps[i].step)
  {
    StartInv(core);
    RunKeepsInv(Start(core), steps, v);
    CoreStays(Start(core), steps, v);
    hide Inv, Reaches, Unchecked, AllInFlight;
    if core {
      EveryRun(core, steps, v);
    } else {
      CorelessRun(Start(core), steps, v);
      CorelessKeys(v);
    }
  }

  // ------------------------------------------------ what the watchdog ends

  /** Somewhere an answer under this id is waited for. */
  predicate AwaitedAnywhere(v: State, id: nat) {
    || (id != 0 && id in {v.paginate, v.directChat, v.opening, v.search, v.index})
    || id in v.media || id in v.hierarchy || id in v.remove || id in v.readers || id in v.reactors || id in v.throwaway
  }

  /** After the watchdog's round in any run nothing waits that has waited two minutes: the
      table keeps exactly the younger commands, and nothing is awaited but one of those. Only
      what was filed under 0 without a core is awaited for good. */
  lemma SweepEndsWaiting(core: bool, steps: seq<Timed>, v: State, now: nat, id: nat)
    requires Reaches(Start(core), steps, v)
    ensures var w := Sweep(v, now);
      && (id in w.pending <==> id in v.pending && now - v.pending[id].sentAt < GIVE_UP)
      && (core || id != 0 ==> (AwaitedAnywhere(w, id) ==> id in w.pending && now - w.pending[id].sentAt < GIVE_UP))
      && (!core ==> (AwaitedAnywhere(w, 0) <==> AwaitedAnywhere(v, 0)))
  {
    hide Reaches, Sweep, Inv, AwaitedAnywhere;
    StartInv(core);
    RunKeepsInv(Start(core), steps, v);
    CoreStays(Start(core), steps, v);
    SweepKeeps(v, now);
    SweptPending(v, now, id);
    StepKeepsCore(v, Swept, now);
    if core || id != 0 {
      AwaitedIsPending(Sweep(v, now), id);
    }
    if !core {
      CorelessAwaits(v, now);
    }
  }

  lemma AwaitedIsPending(v: State, id: nat)
    requires Inv(v) && (v.core || id != 0)
    ensures AwaitedAnywhere(v, id) ==> id in v.pending
  {
    if id != 0 {
      InvPlaces(v, id);
    }
    InvGives(v);
    hide Inv;
  }

  lemma CorelessAwaits(v: State, now: nat)
    requires !v.core && Inv(v)
    ensures AwaitedAnywhere(Sweep(v, now), 0) <==> AwaitedAnywhere(v, 0)
  {
    CorelessSweep(v, now);
    hide Inv, Sweep;
  }

  lemma SweptPending(v: State, now: nat, id: nat)
    ensures var w := Sweep(v, now);
      && (id in w.pending <==> id in v.pending && now - v.pending[id].sentAt < GIVE_UP)
      && (id in w.pending ==> w.pending[id].sentAt == v.pending[id].sentAt)
  {
    var gone := Overdue(v, now);
    assert Sweep(v, now).pending == NotedAll(v, now).pending - gone;
    hide Sweep;
  }

  // ------------------------------------------------ who is told of a picture

  /** What a step settles. */
  function SettledBy(v: State, s: Step, now: nat): multiset<Key> {
    match s
    case Answered(id, _) => if id in v.media then multiset{v.media[id]} else multiset{}
    case Swept => multiset(Keys(v.media, Overdue(v, now)))
    case _ => multiset{}
  }

  /** A core that calls a download good and names no file: it never means to. */
  predicate Silent(v: State, s: Step) { s.Answered? && s.answer == Good(false) && s.id in v.media }

  /** Every step tells of what it settles, but for a good answer without a path. */
  lemma StepTells(v: State, s: Step, now: nat)
    requires Inv(v) && Possible(v, s)
    ensures var w := Apply(v, s, now);
      && w.settled == v.settled + SettledBy(v, s, now)
      && w.told == v.told + (if Silent(v, s) then multiset{} else SettledBy(v, s, now))
  {
    hide Inv, Reply, Sweep, Traceless, Overdue, Keys, Waits;
    if s.Answered? {
      ReplyTells(v, s.id, s.answer);
    } else if s.Swept? {
      SweepIs(v, now);
      SweepTells(v, now);
    } else {
      SendTells(v, s, now);
    }
  }

  lemma ReplyTells(v: State, id: nat, answer: Answer)
    requires Inv(v)
    ensures var w := Reply(v, id, answer);
      && w.settled == v.settled + (if id in v.media then multiset{v.media[id]} else multiset{})
      && w.told == v.told + (if id in v.media && answer != Good(false) then multiset{v.media[id]} else multiset{})
  {
    if id == 0 {
      ReplyToNothing(v, answer);
      InvPictures(v);
    } else {
      ReplyKeeps(v, id, answer);
      InvPlaces(v, id);
      ReplyTold(v, id, answer);
    }
    hide Inv, Reply;
  }

  lemma InvPictures(v: State)
    requires Inv(v)
    ensures Pictures(v) && 0 !in v.media && forall id :: id in v.pending ==> id != 0
  {
  }

  lemma ReplyTold(v: State, id: nat, answer: Answer)
    requires Places(v, id)
    ensures Reply(v, id, answer).told
      == v.told + (if id in v.media && answer != Good(false) then multiset{v.media[id]} else multiset{})
  {
    var w := Taken(v, id);
    assert w.media == v.media && w.told == v.told;
    match answer {
      case Failed(superseded) => RefusedTold(w, id, superseded && id in v.pending && v.pending[id].command.Open?);
      case Good(path) =>
        if id in v.pending {
          GrantedTold(w, id, v.pending[id].command, path);
        }
    }
    hide Taken, Refused, Granted;
  }

  lemma RefusedTold(v: State, id: nat, superseded: bool)
    ensures Refused(v, id, superseded).told
      == v.told + (if id in v.media && !superseded then multiset{v.media[id]} else multiset{})
  {
  }

  lemma GrantedTold(v: State, id: nat, command: Command, path: bool)
    ensures Granted(v, id, command, path).told
      == v.told + (if command == Media && id in v.media && path then multiset{v.media[id]} else multiset{})
  {
  }

  lemma SweepTells(v: State, now: nat)
    ensures Sweep(v, now).told == v.told + multiset(Keys(v.media, Overdue(v, now)))
  {
    hide Keys, Overdue;
  }

  predicate SameTold(v: State, w: State) { w.settled == v.settled && w.told == v.told }

  lemma SentTells(v: State, command: Command, now: nat)
    ensures SameTold(v, Sent(v, command, now))
  {
  }

  lemma SendTells(v: State, s: Step, now: nat)
    requires !s.Answered? && !s.Swept?
    ensures SameTold(v, Apply(v, s, now))
  {
    hide Sent;
    match s {
      case MediaAsked(key, there, usable) => SentTells(v.(cache := v.cache - {key}), Media, now);
      case Scrolled => SentTells(v, Paginate, now);
      case Opened(room, keeps) =>
        SentTells(v, Open, now);
        SentTells(Entered(v, room), Open, now);
      case Closed => SentTells(v, Other, now);
      case DirectChatAsked => SentTells(v, DirectChat, now);
      case IndexAsked => SentTells(v, Index, now);
      case Searched(empty) => SentTells(v, Search, now);
      case SearchedOn(more) => SentTells(v, Search, now);
      case MemberRemoved(who) => SentTells(v, Remove, now);
      case SpaceShown(space) => SentTells(v, Hierarchy, now);
      case ReadersAsked(event) => SentTells(v, Readers, now);
      case ReactorsAsked => SentTells(v, Reactors, now);
      case FileSent(own, file) => SentTells(v, SendMedia, now);
      case OtherSent => SentTells(v, Other, now);
      case _ =>
    }
  }

  /** Along a run no good answer came without a path. */
  ghost predicate NoneSilent(v: State, steps: seq<Timed>)
    decreases |steps|
  {
    steps == [] || (!Silent(v, steps[0].step) && NoneSilent(Apply(v, steps[0].step, steps[0].now), steps[1..]))
  }

  lemma SilentSettles(v: State, s: Step, now: nat)
    requires Silent(v, s)
    ensures v.media[s.id] in SettledBy(v, s, now)
  {
  }

  lemma ToldOn(v: State, w: State, more: multiset<Key>, silent: bool)
    requires v.told <= v.settled && w.settled == v.settled + more
    requires w.told == v.told + (if silent then multiset{} else more) && (silent ==> more != multiset{})
    ensures w.told <= w.settled && (w.told == w.settled <==> v.told == v.settled && !silent)
  {
    if silent {
      var k :| k in more;
      assert w.told[k] < w.settled[k];
    } else {
      assert v.told == w.told - more && v.settled == w.settled - more;
    }
  }

  lemma {:induction false} RunTells(v: State, steps: seq<Timed>, w: State)
    requires Inv(v) && v.told <= v.settled
    requires Reaches(v, steps, w)
    ensures w.told <= w.settled
    ensures w.told == w.settled <==> v.told == v.settled && NoneSilent(v, steps)
    decreases |steps|
  {
    hide Inv, Apply, Possible, SettledBy;
    if steps != [] {
      var s, now := steps[0].step, steps[0].now;
      StepKeepsInv(v, s, now);
      StepTells(v, s, now);
      if Silent(v, s) {
        SilentSettles(v, s, now);
      }
      ToldOn(v, Apply(v, s, now), SettledBy(v, s, now), Silent(v, s));
      hide Silent;
      RunTells(Apply(v, s, now), steps[1..], w);
    }
  }

  /** In every run each picture that was settled was told of, exactly if the core kept its
      promise; otherwise fewer were. */
  lemma EveryPictureIsTold(core: bool, steps: seq<Timed>, v: State)
    requires Reaches(Start(core), steps, v)
    ensures v.told <= v.settled
    ensures v.told == v.settled <==> NoneSilent(Start(core), steps)
  {
    StartInv(core);
    hide Inv, Reaches, NoneSilent;
    RunTells(Start(core), steps, v);
  }

  /** An answer to a command given up, or to none, changes nothing. */
  lemma LateAnswer(v: State, id: nat, answer: Answer)
    requires Inv(v) && id !in v.pending && (v.core || id != 0)
    ensures Reply(v, id, answer) == v
  {
    if id == 0 {
      ReplyToNothing(v, answer);
      InvGives(v);
      NothingToClear(v, 0);
      hide Reply, Inv, Keys;
    } else {
      InvPlaces(v, id);
      NothingToClear(v, id);
      TakenNothing(v, id);
      hide Keys, Taken, Inv;
    }
  }

  // ------------------------------------------------ the watchdog's loop, one command after another

  /** Giving commands up one by one comes to giving them up together. */
  lemma WithoutOne(v: State, gone: set<nat>, id: nat)
    requires Pictures(v) && id !in gone && id != 0 && 0 !in gone
    ensures Without(Without(v, gone), {id}) == Without(v, gone + {id})
  {
    SettledOne(v, v.settled, gone, id);
    SettledOne(v, v.told, gone, id);
    hide Keys, Pictures;
    MinusTwice(v, gone, id);
    IdsOne(v, gone, id);
    var w, x, y := Without(v, gone), Without(Without(v, gone), {id}), Without(v, gone + {id});
    assert x.settled == y.settled && x.told == y.told;
    assert x.pending == y.pending && x.media == y.media && x.throwaway == y.throwaway;
  }

  lemma IdsOne(v: State, gone: set<nat>, id: nat)
    requires id !in gone && id != 0 && 0 !in gone
    ensures var x, y := Without(Without(v, gone), {id}), Without(v, gone + {id});
      && x.paginate == y.paginate && x.directChat == y.directChat && x.opening == y.opening
      && x.ready == y.ready && x.search == y.search && x.index == y.index
  {
    hide Keys;
  }

  lemma SettledOne(v: State, before: multiset<Key>, gone: set<nat>, id: nat)
    requires Pictures(v) && id !in gone
    ensures before + multiset(Keys(v.media, gone)) + multiset(Keys(v.media - gone, {id}))
      == before + multiset(Keys(v.media, gone + {id}))
  {
    var a, b, c := Keys(v.media, gone), Keys(v.media - gone, {id}), Keys(v.media, gone + {id});
    KeysOne(v, gone, id);
    hide Keys, Pictures;
    assert multiset(c) == multiset(a) + multiset(b);
  }

  lemma KeysOne(v: State, gone: set<nat>, id: nat)
    requires Pictures(v) && id !in gone
    ensures var a, b := Keys(v.media, gone), Keys(v.media - gone, {id});
      Keys(v.media, gone + {id}) == a + b && a !! b
  {
  }

  lemma MinusTwice(v: State, gone: set<nat>, id: nat)
    ensures v.media - gone - {id} == v.media - (gone + {id}) && v.hierarchy - gone - {id} == v.hierarchy - (gone + {id})
    ensures v.remove - gone - {id} == v.remove - (gone + {id}) && v.readers - gone - {id} == v.readers - (gone + {id})
    ensures v.pending - gone - {id} == v.pending - (gone + {id})
    ensures v.throwaway - gone - {id} == v.throwaway - (gone + {id})
    ensures v.reactors - gone - {id} == v.reactors - (gone + {id})
  {
  }

  lemma WithoutNone(v: State)
    ensures Without(v, {}) == v
  {
    assert Keys(v.media, {}) == {};
  }

  lemma WithoutPending(v: State, gone: set<nat>)
    ensures Without(v, gone).pending == v.pending - gone
  {
  }

  lemma NothingSent(v: State, command: Command, now: nat)
    ensures !v.core ==> Sent(v, command, now) == v
  {
  }
}
