/** Which step sends what, and what each leaves in every place of the bridge's books. */
module RequestTurns {
  import opened Requests

  datatype Option<T> = None | Some(value: T)

  /** The command a step sends, if it sends one. A picture is asked for when its file is not
      there, its source is usable and nothing is out for it; pages, chats, indexings and
      further hits one at a time; a room only if there is one. */
  function Wants(v: State, s: Step): Option<Command> {
    match s
    case MediaAsked(key, there, usable) =>
      if !(key in v.cache && there) && usable && key !in v.media.Values then Some(Media) else None
    case Scrolled => if v.paginate == 0 then Some(Paginate) else None
    case Opened(room, _) => if room != 0 then Some(Open) else None
    case Closed => if v.room != 0 then Some(Other) else None
    case DirectChatAsked => if v.directChat == 0 then Some(DirectChat) else None
    case IndexAsked => if v.index == 0 then Some(Index) else None
    case Searched(empty) => if empty then None else Some(Search)
    case SearchedOn(more) => if v.search == 0 && more then Some(Search) else None
    case MemberRemoved(_) => Some(Remove)
    case SpaceShown(_) => Some(Hierarchy)
    case ReadersAsked(_) => Some(Readers)
    case ReactorsAsked => Some(Reactors)
    case FileSent(_, _) => Some(SendMedia)
    case OtherSent => Some(Other)
    case _ => None
  }

  predicate Sends(v: State, s: Step) { Wants(v, s) != None }

  predicate Sending(s: Step) { !s.Answered? && !s.Swept? }

  /** With a core it goes out under the next id, with the watchdog on; nothing else does. */
  predicate SentBy(v: State, s: Step, now: nat, w: State) {
    && w.core == v.core
    && if v.core && Sends(v, s)
       then
         && w.pending == v.pending[v.nextId := Pending(Wants(v, s).value, now, false)] && w.nextId == v.nextId + 1
         && w.watching
       else w.pending == v.pending && w.nextId == v.nextId && w.watching == v.watching
  }

  /** The id that stands for it. */
  function IdOf(v: State): nat { if v.core then v.nextId else 0 }

  /** Each register takes what its own command is about, and nothing else: a file only if it is
      the app's own, a picture only with a core. */
  predicate FiledBy(v: State, s: Step, w: State) {
    var id := IdOf(v);
    && w.media == (if s.MediaAsked? && Sends(v, s) && v.core then v.media[id := s.key] else v.media)
    && w.hierarchy == (if s.SpaceShown? then v.hierarchy[id := s.space] else v.hierarchy)
    && w.remove == (if s.MemberRemoved? then v.remove[id := s.who] else v.remove)
    && w.readers == (if s.ReadersAsked? then v.readers[id := s.event] else v.readers)
    && w.reactors == (if s.ReactorsAsked? then v.reactors + {id} else v.reactors)
    && w.throwaway == (if s.FileSent? && s.own then v.throwaway[id := s.file] else v.throwaway)
  }

  /** An opening that does not keep the view that is there. */
  predicate Enters(v: State, s: Step) { s.Opened? && s.room != 0 && !(s.room == v.room && s.keeps) }

  /** Each id held is of the last command of its kind; another room drops the page in flight,
      and an empty query the search. */
  predicate HeldBy(v: State, s: Step, w: State) {
    var id := IdOf(v);
    && w.paginate == (if s.Scrolled? && Sends(v, s) then id else if Enters(v, s) then 0 else v.paginate)
    && w.directChat == (if s.DirectChatAsked? && Sends(v, s) then id else v.directChat)
    && w.opening == (if s.Opened? && Sends(v, s) then id else v.opening)
    && w.search == (if (s.Searched? || s.SearchedOn?) && Sends(v, s) then id else if s.Searched? then 0 else v.search)
    && w.index == (if s.IndexAsked? && Sends(v, s) then id else v.index)
  }

  /** The room on screen, whether its opening is over, the files at hand and the pictures
      asked for. */
  predicate ShownBy(v: State, s: Step, w: State) {
    && w.room == (if Enters(v, s) then s.room else if s.Closed? || s.SessionOver? then 0 else v.room)
    && w.ready == (v.ready && !Enters(v, s) && !(s.Closed? && v.room != 0))
    && w.cache == (if s.FilesDropped? || (Enters(v, s) && s.room != v.room) then {}
                   else if s.MediaAsked? && !s.there then v.cache - {s.key} else v.cache)
    && w.asked == (if s.MediaAsked? && Sends(v, s) && v.core then v.asked + multiset{s.key} else v.asked)
    && w.settled == v.settled && w.told == v.told
  }

  predicate Turns(v: State, s: Step, now: nat, w: State) {
    SentBy(v, s, now, w) && FiledBy(v, s, w) && HeldBy(v, s, w) && ShownBy(v, s, w)
  }

  /** Every step but answers and the watchdog's rounds: what it sends, and what every field of
      the books is after it. */
  lemma TurnsExactly(v: State, s: Step, now: nat)
    requires Sending(s)
    ensures Turns(v, s, now, Apply(v, s, now))
  {
    hide Turns, RequestMedia, Load, OpenRoom, CloseRoom, StartDirectChat, IndexRoom, SearchRoom, SearchMore;
    hide RemoveMember, FetchHierarchy, LoadReaders, LoadReactors, SendFile, Sent;
    match s {
      case MediaAsked(key, there, usable) => MediaTurn(v, key, there, usable, now);
      case Scrolled => ScrollTurn(v, now);
      case Opened(room, keeps) => OpenTurn(v, room, keeps, now);
      case Closed => CloseTurn(v, now);
      case DirectChatAsked => ChatTurn(v, now);
      case IndexAsked => IndexTurn(v, now);
      case Searched(empty) => SearchTurn(v, empty, now);
      case SearchedOn(more) => SearchOnTurn(v, more, now);
      case MemberRemoved(who) => RemoveTurn(v, who, now);
      case SpaceShown(space) => SpaceTurn(v, space, now);
      case ReadersAsked(event) => ReadersTurn(v, event, now);
      case ReactorsAsked => ReactorsTurn(v, now);
      case FileSent(own, file) => FileTurn(v, own, file, now);
      case OtherSent => OtherTurn(v, now);
      case FilesDropped => AsideTurn(v, now);
      case SessionOver => OverTurn(v, now);
    }
  }

  lemma MediaTurn(v: State, key: Key, there: bool, usable: bool, now: nat)
    ensures Turns(v, MediaAsked(key, there, usable), now, RequestMedia(v, key, there, usable, now))
  {
    hide Sent;
    SentFacts(v.(cache := v.cache - {key}), Media, now);
    if key !in v.cache {
      assert v.cache - {key} == v.cache;
    }
  }

  lemma ScrollTurn(v: State, now: nat)
    ensures Turns(v, Scrolled, now, Load(v, now))
  {
  }

  lemma OpenTurn(v: State, room: nat, keeps: bool, now: nat)
    ensures Turns(v, Opened(room, keeps), now, OpenRoom(v, room, keeps, now))
  {
    if room != 0 {
      if room == v.room && keeps {
        KeptTurn(v, now);
      } else {
        EnterTurn(v, room, keeps, now);
      }
      hide Turns, Opening, Entered;
    }
  }

  lemma KeptTurn(v: State, now: nat)
    requires v.room != 0
    ensures Turns(v, Opened(v.room, true), now, Opening(v, now))
  {
    hide Sent;
    SentFacts(v, Open, now);
  }

  lemma EnterTurn(v: State, room: nat, keeps: bool, now: nat)
    requires room != 0 && !(room == v.room && keeps)
    ensures Turns(v, Opened(room, keeps), now, Opening(Entered(v, room), now))
  {
    hide Sent;
    SentFacts(Entered(v, room), Open, now);
  }

  /** What sending does to the table, and that it does no more. */
  lemma SentFacts(v: State, command: Command, now: nat)
    ensures var w := Sent(v, command, now);
      && w.core == v.core && w.media == v.media && w.hierarchy == v.hierarchy && w.remove == v.remove
      && w.readers == v.readers && w.reactors == v.reactors && w.throwaway == v.throwaway
      && w.paginate == v.paginate && w.directChat == v.directChat && w.opening == v.opening && w.search == v.search
      && w.index == v.index && w.room == v.room && w.ready == v.ready && w.cache == v.cache
      && w.asked == v.asked && w.settled == v.settled && w.told == v.told
      && w.pending == (if v.core then v.pending[v.nextId := Pending(command, now, false)] else v.pending)
      && w.nextId == (if v.core then v.nextId + 1 else v.nextId)
      && w.watching == (v.core || v.watching)
  {
  }

  lemma CloseTurn(v: State, now: nat)
    ensures Turns(v, Closed, now, CloseRoom(v, now))
  {
  }

  lemma ChatTurn(v: State, now: nat)
    ensures Turns(v, DirectChatAsked, now, StartDirectChat(v, now))
  {
  }

  lemma IndexTurn(v: State, now: nat)
    ensures Turns(v, IndexAsked, now, IndexRoom(v, now))
  {
  }

  lemma SearchTurn(v: State, empty: bool, now: nat)
    ensures Turns(v, Searched(empty), now, SearchRoom(v, empty, now))
  {
  }

  lemma SearchOnTurn(v: State, more: bool, now: nat)
    ensures Turns(v, SearchedOn(more), now, SearchMore(v, more, now))
  {
    hide SearchRoom;
    if v.search == 0 && more {
      SearchTurn(v, false, now);
    }
  }

  lemma RemoveTurn(v: State, who: Key, now: nat)
    ensures Turns(v, MemberRemoved(who), now, RemoveMember(v, who, now))
  {
  }

  lemma SpaceTurn(v: State, space: Key, now: nat)
    ensures Turns(v, SpaceShown(space), now, FetchHierarchy(v, space, now))
  {
  }

  lemma ReadersTurn(v: State, event: Key, now: nat)
    ensures Turns(v, ReadersAsked(event), now, LoadReaders(v, event, now))
  {
  }

  lemma ReactorsTurn(v: State, now: nat)
    ensures Turns(v, ReactorsAsked, now, LoadReactors(v, now))
  {
  }

  lemma FileTurn(v: State, own: bool, file: Key, now: nat)
    ensures Turns(v, FileSent(own, file), now, SendFile(v, own, file, now))
  {
  }

  lemma OtherTurn(v: State, now: nat)
    ensures Turns(v, OtherSent, now, Sent(v, Other, now))
  {
  }

  lemma AsideTurn(v: State, now: nat)
    ensures Turns(v, FilesDropped, now, v.(cache := {}))
  {
  }

  lemma OverTurn(v: State, now: nat)
    ensures Turns(v, SessionOver, now, v.(room := 0))
  {
  }

  /** Any answer takes its command off the table, and no other; the watchdog goes off with the
      last one. */
  lemma AnswerIsTaken(v: State, id: nat, answer: Answer)
    ensures var w := Reply(v, id, answer);
      && w.pending == v.pending - {id} && w.nextId == v.nextId && w.core == v.core
      && (w.watching <==> v.pending - {id} != map[])
  {
    var w := Taken(v, id);
    assert w.pending == v.pending - {id} && w.nextId == v.nextId && w.core == v.core;
    hide Taken, Refused, Granted;
    TakenWatch(v, id);
    RefusedSame(w, id, answer.Failed? && answer.superseded && id in v.pending && v.pending[id].command.Open?);
    if answer.Good? && id in v.pending {
      GrantedSame(w, id, v.pending[id].command, answer.path);
    }
  }

  lemma TakenWatch(v: State, id: nat)
    ensures Taken(v, id).watching <==> v.pending - {id} != map[]
  {
  }

  /** What a good answer makes available: the picture it brought a file for. */
  lemma FileArrives(v: State, id: nat, answer: Answer)
    requires Inv(v)
    ensures Reply(v, id, answer).cache ==
      if answer == Good(true) && id in v.media then v.cache + {v.media[id]} else v.cache
  {
    InvPictures(v);
    if id != 0 {
      InvPlaces(v, id);
    }
    hide Inv, Taken, Refused, Granted;
    var w := Taken(v, id);
    TakenFile(v, id);
    if answer.Good? && id in v.pending {
      GrantedFile(w, id, v.pending[id].command, answer.path);
    }
    RefusedFile(w, id, answer.Failed? && answer.superseded && id in v.pending && v.pending[id].command.Open?);
  }

  lemma TakenFile(v: State, id: nat)
    ensures Taken(v, id).cache == v.cache && Taken(v, id).media == v.media
  {
  }

  lemma GrantedFile(v: State, id: nat, command: Command, path: bool)
    ensures Granted(v, id, command, path).cache ==
      if command.Media? && path && id in v.media then v.cache + {v.media[id]} else v.cache
  {
  }

  lemma RefusedFile(v: State, id: nat, superseded: bool)
    ensures Refused(v, id, superseded).cache == v.cache
  {
  }

  /** A round of the watchdog, place by place: what waited two minutes is let go, what waited
      ten seconds is noted, and all the rest stays. */
  lemma SweptExactly(v: State, now: nat)
    ensures var w, gone := Sweep(v, now), Overdue(v, now);
      && (forall id :: id in gone <==> id in v.pending && now - v.pending[id].sentAt >= 120000)
      && (forall id :: id in w.pending <==> id in v.pending && id !in gone)
      && (forall id :: id in w.pending ==> w.pending[id] == Reported(v.pending[id], now))
      && SweptIds(v, w, gone) && SweptRegisters(v, w, gone)
      && w.room == v.room && w.cache == v.cache && w.nextId == v.nextId && w.core == v.core
  {
    var gone, n := Overdue(v, now), NotedAll(v, now);
    OverdueIs(v, now);
    NotedIs(v, now);
    hide Keys, Without, NotedAll, Overdue, SweptIds, SweptRegisters;
    WithoutPlaces(n, gone);
    SamePlaces(v, n, Without(n, gone), Sweep(v, now), gone);
  }

  function Reported(p: Pending, now: nat): Pending { p.(reported := p.reported || now - p.sentAt >= 10000) }

  lemma OverdueIs(v: State, now: nat)
    ensures forall id :: id in Overdue(v, now) <==> id in v.pending && now - v.pending[id].sentAt >= 120000
  {
  }

  predicate SweptIds(v: State, w: State, gone: set<nat>) {
    && w.paginate == (if v.paginate in gone then 0 else v.paginate)
    && w.directChat == (if v.directChat in gone then 0 else v.directChat)
    && w.search == (if v.search in gone then 0 else v.search)
    && w.index == (if v.index in gone then 0 else v.index)
    && w.opening == (if v.opening in gone then 0 else v.opening) && w.ready == (v.ready || v.opening in gone)
  }

  predicate SweptRegisters(v: State, w: State, gone: set<nat>) {
    && w.media == v.media - gone && w.hierarchy == v.hierarchy - gone && w.remove == v.remove - gone
    && w.readers == v.readers - gone && w.reactors == v.reactors - gone && w.throwaway == v.throwaway - gone
  }

  lemma NotedIs(v: State, now: nat)
    ensures var n := NotedAll(v, now);
      && n == v.(pending := n.pending) && n.pending.Keys == v.pending.Keys
      && forall id :: id in n.pending ==> n.pending[id] == Reported(v.pending[id], now)
  {
  }

  lemma WithoutPlaces(v: State, gone: set<nat>)
    ensures var w := Without(v, gone);
      && SweptIds(v, w, gone) && SweptRegisters(v, w, gone) && w.pending == v.pending - gone
      && w.room == v.room && w.cache == v.cache && w.nextId == v.nextId && w.core == v.core
  {
    hide Keys;
  }

  lemma SamePlaces(v: State, n: State, x: State, w: State, gone: set<nat>)
    requires n == v.(pending := n.pending) && SweptIds(n, x, gone) && SweptRegisters(n, x, gone)
    requires w == x.(watching := w.watching)
    ensures SweptIds(v, w, gone) && SweptRegisters(v, w, gone)
  {
  }
}
