/** The open room's timeline: views come and go, each under its own token, while the
    diffs of earlier views are still in the queue. */
module TimelineView {
  import opened DiffModel

  /** The bridge's fields that decide which diffs land. `later` are the rebuilds put off
      to the next turn, `asked` the tokens a resync was requested for. */
  datatype View = View(
    openRoom: string,
    focus: string,
    generation: nat,
    rebuild: bool,
    thread: string,
    rebuildAfterThread: string,
    timeline: Model,
    later: seq<string>,
    asked: set<nat>)

  const Empty := Model([], false)
  const Start := View("", "", 0, false, "", "", Empty, [], {})

  function ThreadClosed(v: View): View {
    if v.thread == "" then v
    else v.(thread := "", rebuildAfterThread := "",
            later := v.later + if v.rebuildAfterThread == "" then [] else [v.rebuildAfterThread])
  }

  predicate Keeps(v: View, room: string, focus: string) {
    room == v.openRoom && focus == "" && v.focus == "" && !v.rebuild
  }

  function Opened(v: View, room: string, focus: string): View {
    if room == "" || Keeps(v, room, focus) then v
    else ThreadClosed(v).(timeline := Empty, openRoom := room, focus := focus,
                          generation := v.generation + 1, rebuild := false)
  }

  function Closed(v: View): View {
    if v.openRoom == "" then v else v.(openRoom := "", focus := "", timeline := Empty, thread := "")
  }

  function Rebuilt(v: View, clear: bool): View {
    var w := if clear then v.(timeline := Empty) else v;
    if v.thread != "" then w.(rebuildAfterThread := v.openRoom)
    else Opened(w.(rebuild := true), v.openRoom, v.focus)
  }

  predicate Mine(v: View, room: string, token: nat) { room == v.openRoom && token == v.generation }

  function Landed(v: View, room: string, token: nat, ops: seq<Op>): View {
    if !Mine(v, room, token) then v
    else v.(timeline := AppliedAll(v.timeline, ops),
            asked := if v.openRoom != "" && Drifts(EmittedAll(v.timeline, ops)) > 0
                     then v.asked + {v.generation} else v.asked)
  }

  // ------------------------------------------------ runs against the core

  /** What the core sends for one token: the changes of one room's vector, from empty. */
  datatype Stream = Stream(room: string, diffs: seq<VectorDiff>)

  /** `seen[t]` diffs of token `t` are behind it. `torn` are the tokens whose rows miss
      something since they last began from a whole vector, `hurt` all that ever did. */
  datatype World = World(view: View, seen: nat -> nat, torn: set<nat>, hurt: set<nat>)

  datatype Step =
    | Open(room: string, focus: string)
    | Close
    | OpenThread(root: string)
    | CloseThread
    | Reload
    | Later(i: nat)
    | ResyncGranted(token: nat)
    | ResyncRefused(token: nat)
    | SessionEnds
    | Patch(row: int, value: Json)
    | Deliver(token: nat, count: nat)
    | Lose(token: nat, count: nat)

  /** Diffs come in order per token, and only for tokens that were handed out, or are lost
      on the way; an answer about a resync answers one that was asked. Everything else may
      happen at any time. */
  predicate Enabled(streams: nat -> Stream, w: World, s: Step) {
    match s
    case Later(i) => i < |w.view.later|
    case ResyncGranted(t) => t in w.view.asked
    case ResyncRefused(t) => t in w.view.asked
    case Deliver(t, n) => 1 <= t <= w.view.generation && w.seen(t) + n <= |streams(t).diffs|
    case Lose(t, n) => 1 <= t <= w.view.generation && w.seen(t) + n <= |streams(t).diffs|
    case _ => true
  }

  /** A diff that says what the whole vector is. */
  predicate Whole(d: VectorDiff) { d.VClear? || d.VReset? }

  function Past(seen: nat -> nat, t: nat, n: nat): nat -> nat { u => if u == t then seen(t) + n else seen(u) }

  function Next(streams: nat -> Stream, w: World, s: Step): World
    requires Enabled(streams, w, s)
  {
    var v := w.view;
    match s
    case Open(room, focus) => w.(view := Opened(v, room, focus))
    case Close => w.(view := Closed(v))
    case OpenThread(root) => w.(view := if v.openRoom == "" || root == "" then v else v.(thread := root))
    case CloseThread => w.(view := ThreadClosed(v))
    case Reload => w.(view := if v.openRoom == "" || v.focus != "" then v else Rebuilt(v, false))
    case Later(i) =>
      var room, u := v.later[i], v.(later := v.later[..i] + v.later[i + 1..]);
      w.(view := if room == v.openRoom && v.thread == "" then Rebuilt(u, false) else u)
    case ResyncGranted(t) => w.(view := v.(asked := v.asked - {t}))
    case ResyncRefused(t) =>
      var u := v.(asked := v.asked - {t});
      if t != v.generation || v.openRoom == "" then w.(view := u)
      else if v.thread == "" then w.(view := Rebuilt(u, true))
      else w.(view := Rebuilt(u, true), torn := w.torn + {t}, hurt := w.hurt + {t})
    case SessionEnds => w.(view := v.(timeline := Empty, openRoom := ""))
    case Patch(row, value) =>
      w.(view := v.(timeline := v.timeline.(rows := PatchedRow(v.timeline.rows, row, "poll", value))))
    case Deliver(t, n) =>
      var batch := streams(t).diffs[w.seen(t)..w.seen(t) + n];
      World(Landed(v, streams(t).room, t, EncodeAll(batch)), Past(w.seen, t, n),
            if exists i :: 0 <= i < |batch| && Whole(batch[i]) then w.torn - {t} else w.torn, w.hurt)
    case Lose(t, n) => w.(seen := Past(w.seen, t, n), torn := w.torn + {t}, hurt := w.hurt + {t})
  }

  ghost predicate Run(streams: nat -> Stream, ws: seq<World>, steps: seq<Step>) {
    && |ws| == |steps| + 1
    && ws[0] == World(Start, _ => 0, {}, {})
    && forall i :: 0 <= i < |steps| ==> Enabled(streams, ws[i], steps[i]) && ws[i + 1] == Next(streams, ws[i], steps[i])
  }

  ghost predicate Genuine(streams: nat -> Stream) {
    forall t {:trigger streams(t)} :: streams(t).room != "" && PossibleAll([], streams(t).diffs)
  }

  /** Equal up to what the core learns about a poll after the diff. */
  ghost predicate SameButPoll(a: seq<Row>, b: seq<Row>) {
    |a| == |b| && forall i :: 0 <= i < |a| ==> a[i] - {"poll"} == b[i] - {"poll"}
  }

  /** The rows on screen are the vector of the current token's stream so far, and of no other. */
  ghost predicate RowsAreTheCores(streams: nat -> Stream, w: World) {
    var v, s := w.view, streams(w.view.generation);
    && w.seen(v.generation) <= |s.diffs|
    && PossibleAll([], s.diffs[..w.seen(v.generation)])
    && SameButPoll(v.timeline.rows,
                   if v.openRoom == s.room then HappenedAll([], s.diffs[..w.seen(v.generation)]) else [])
  }

  /** Where nothing is missing the rows are the core's; where no room is open there are
      none. A resync was asked for only where something was missing once. */
  ghost predicate Inv(streams: nat -> Stream, w: World) {
    && Behind(streams, w)
    && (w.view.generation !in w.torn ==> RowsAreTheCores(streams, w) && !w.view.timeline.outOfStep)
    && (w.view.openRoom != streams(w.view.generation).room ==> w.view.timeline == Empty)
    && w.view.asked <= w.hurt && w.torn <= w.hurt
    && (forall t :: t in w.hurt ==> t <= w.view.generation)
  }

  ghost predicate Behind(streams: nat -> Stream, w: World) {
    && w.seen(w.view.generation) <= |streams(w.view.generation).diffs|
    && (forall t {:trigger w.seen(t)} :: t > w.view.generation || t == 0 ==> w.seen(t) == 0)
  }

  lemma {:induction false} PossiblePrefix(v: seq<Row>, ds: seq<VectorDiff>, n: nat)
    requires PossibleAll(v, ds) && n <= |ds|
    ensures PossibleAll(v, ds[..n])
    decreases |ds|
  {
    if n < |ds| {
      PossiblePrefix(v, ds[..|ds| - 1], n);
      assert ds[..|ds| - 1][..n] == ds[..n];
    } else {
      assert ds[..n] == ds;
    }
  }

  lemma OverlayStep(rows: seq<Row>, v: seq<Row>, d: VectorDiff)
    requires Possible(d, v) && SameButPoll(rows, v)
    ensures Fits(Encode(d), |rows|) && SameButPoll(After(rows, Encode(d)), Happened(v, d))
  {
    hide After, Happened, Encode, Possible, Fits, SameButPoll;
    match d
    case VInsert(_, _) => OverlayMoves(rows, v, d);
    case VRemove(_) => OverlayMoves(rows, v, d);
    case _ => OverlayEnds(rows, v, d);
  }

  lemma OverlayEnds(rows: seq<Row>, v: seq<Row>, d: VectorDiff)
    requires Possible(d, v) && SameButPoll(rows, v) && !d.VInsert? && !d.VRemove?
    ensures Fits(Encode(d), |rows|) && SameButPoll(After(rows, Encode(d)), Happened(v, d))
  {
  }

  lemma OverlayMoves(rows: seq<Row>, v: seq<Row>, d: VectorDiff)
    requires Possible(d, v) && SameButPoll(rows, v) && (d.VInsert? || d.VRemove?)
    ensures Fits(Encode(d), |rows|) && SameButPoll(After(rows, Encode(d)), Happened(v, d))
  {
    OverlayCut(rows, v, d.index);
    if d.VRemove? {
      OverlayCut(rows, v, d.index + 1);
    }
  }

  lemma OverlayCut(a: seq<Row>, b: seq<Row>, i: nat)
    requires SameButPoll(a, b) && i <= |a|
    ensures SameButPoll(a[..i], b[..i]) && SameButPoll(a[i..], b[i..])
  {
  }

  lemma EncodeSnoc(ds: seq<VectorDiff>, n: nat)
    requires n < |ds|
    ensures EncodeAll(ds)[..n] == EncodeAll(ds[..n]) && EncodeAll(ds)[n] == Encode(ds[n])
  {
  }

  /** One batch, in order, onto rows that are the core's up to polls. */
  lemma {:induction false} OverlayBatch(m: Model, ds: seq<VectorDiff>, at: nat, n: nat)
    requires at + n <= |ds| && PossibleAll([], ds)
    requires PossibleAll([], ds[..at]) && SameButPoll(m.rows, HappenedAll([], ds[..at])) && !m.outOfStep
    ensures var ops := EncodeAll(ds[at..at + n]);
      && PossibleAll([], ds[..at + n])
      && SameButPoll(AppliedAll(m, ops).rows, HappenedAll([], ds[..at + n]))
      && !AppliedAll(m, ops).outOfStep && Drifts(EmittedAll(m, ops)) == 0
    decreases n
  {
    hide SameButPoll, Emitted, After, Happened, Encode, PossibleAll, HappenedAll, AppliedAll, EmittedAll, EncodeAll;
    PossiblePrefix([], ds, at + n);
    if n == 0 {
      assert ds[..at + n] == ds[..at];
      NoBatch(m, ds[at..at + n]);
    } else {
      OverlayBatch(m, ds, at, n - 1);
      PossiblePrefix([], ds, at + n - 1);
      BatchSnoc(m, ds, at, n);
      var front, d := EncodeAll(ds[at..at + n - 1]), ds[at + n - 1];
      var k := AppliedAll(m, front);
      OverlayStep(k.rows, HappenedAll([], ds[..at + n - 1]), d);
      DriftsConcat(EmittedAll(m, front), Emitted(k, Encode(d)));
      DriftsOne(k, Encode(d));
    }
  }

  lemma NoBatch(m: Model, ds: seq<VectorDiff>)
    requires ds == []
    ensures AppliedAll(m, EncodeAll(ds)) == m && EmittedAll(m, EncodeAll(ds)) == [] && Drifts([]) == 0
  {
  }

  /** A batch is its beginning and one change more. */
  lemma BatchSnoc(m: Model, ds: seq<VectorDiff>, at: nat, n: nat)
    requires 0 < n && at + n <= |ds| && PossibleAll([], ds[..at + n]) && PossibleAll([], ds[..at + n - 1])
    ensures var ops, front, d := EncodeAll(ds[at..at + n]), EncodeAll(ds[at..at + n - 1]), ds[at + n - 1];
      var k, v := AppliedAll(m, front), HappenedAll([], ds[..at + n - 1]);
      && AppliedAll(m, ops) == Applied(k, Encode(d))
      && EmittedAll(m, ops) == EmittedAll(m, front) + Emitted(k, Encode(d))
      && Possible(d, v) && HappenedAll([], ds[..at + n]) == Happened(v, d)
  {
    hide Emitted, Applied, Happened, Encode, Possible;
    EncodeSnoc(ds[at..at + n], n - 1);
    assert ds[at..at + n][..n - 1] == ds[at..at + n - 1];
    assert ds[..at + n][..at + n - 1] == ds[..at + n - 1];
  }

  /** After a diff that says what the vector is, the rows are the core's again, whatever
      they were. */
  lemma {:induction false} WholeBatch(m: Model, ds: seq<VectorDiff>, at: nat, n: nat, k: nat)
    requires at + n <= |ds| && PossibleAll([], ds)
    requires at <= k < at + n && Whole(ds[k])
    ensures var ops := EncodeAll(ds[at..at + n]);
      && PossibleAll([], ds[..at + n])
      && SameButPoll(AppliedAll(m, ops).rows, HappenedAll([], ds[..at + n]))
      && !AppliedAll(m, ops).outOfStep
    decreases n
  {
    hide SameButPoll, After, Happened, Encode, Whole, PossibleAll, HappenedAll, AppliedAll, EmittedAll, EncodeAll;
    PossiblePrefix([], ds, at + n);
    PossiblePrefix([], ds, at + n - 1);
    BatchSnoc(m, ds, at, n);
    var d := ds[at + n - 1];
    var before := AppliedAll(m, EncodeAll(ds[at..at + n - 1]));
    if k == at + n - 1 {
      AfterWhole(before, HappenedAll([], ds[..at + n - 1]), d);
    } else {
      WholeBatch(m, ds, at, n - 1, k);
      OverlayStep(before.rows, HappenedAll([], ds[..at + n - 1]), d);
    }
  }

  lemma AfterWhole(m: Model, v: seq<Row>, d: VectorDiff)
    requires Whole(d)
    ensures SameButPoll(Applied(m, Encode(d)).rows, Happened(v, d)) && !Applied(m, Encode(d)).outOfStep
  {
  }

  lemma InvKept(streams: nat -> Stream, w: World, s: Step)
    requires Genuine(streams) && Inv(streams, w) && Enabled(streams, w, s)
    ensures Inv(streams, Next(streams, w, s))
  {
    hide Inv, Next;
    match s
    case Deliver(t, n) => DeliverKept(streams, w, t, n);
    case Patch(row, value) => PatchKept(streams, w, row, value);
    case _ => ViewKept(streams, w, s);
  }

  lemma PatchKept(streams: nat -> Stream, w: World, row: int, value: Json)
    requires Inv(streams, w)
    ensures Inv(streams, Next(streams, w, Patch(row, value)))
  {
    hide HappenedAll, PossibleAll;
  }

  lemma ViewKept(streams: nat -> Stream, w: World, s: Step)
    requires Genuine(streams) && Inv(streams, w) && Enabled(streams, w, s) && !s.Deliver? && !s.Patch?
    ensures Inv(streams, Next(streams, w, s))
  {
    hide HappenedAll, PossibleAll, SameButPoll;
    FreshToken(streams, Next(streams, w, s).view.generation);
  }

  lemma DeliverKept(streams: nat -> Stream, w: World, t: nat, n: nat)
    requires Genuine(streams) && Inv(streams, w) && Enabled(streams, w, Deliver(t, n))
    ensures Inv(streams, Next(streams, w, Deliver(t, n)))
  {
    hide HappenedAll, AppliedAll, EmittedAll, Drifts, SameButPoll, PossibleAll, EncodeAll;
    var v, ds, at := w.view, streams(t).diffs, w.seen(t);
    var batch := ds[at..at + n];
    assert PossibleAll([], ds[..at + n]) by { PossiblePrefix([], ds, at + n); }
    if !Mine(v, streams(t).room, t) {
      NothingShown();
    } else if t !in w.torn {
      OverlayBatch(v.timeline, ds, at, n);
    } else if exists i :: 0 <= i < |batch| && Whole(batch[i]) {
      var i :| 0 <= i < |batch| && Whole(batch[i]);
      WholeBatch(v.timeline, ds, at, n, at + i);
    }
  }

  lemma NothingShown()
    ensures SameButPoll([], [])
  {
  }

  /** A token just handed out has an empty view of whatever room it is for. */
  lemma FreshToken(streams: nat -> Stream, t: nat)
    ensures streams(t).diffs[..0] == []
    ensures PossibleAll([], []) && HappenedAll([], []) == [] && SameButPoll([], [])
  {
  }

  lemma {:induction false} InvHolds(streams: nat -> Stream, ws: seq<World>, steps: seq<Step>, i: nat)
    requires Genuine(streams) && Run(streams, ws, steps) && i < |ws|
    ensures Inv(streams, ws[i])
    decreases i
  {
    if i == 0 {
      FreshToken(streams, 0);
    } else {
      InvHolds(streams, ws, steps, i - 1);
      InvKept(streams, ws[i - 1], steps[i - 1]);
    }
  }

  /** In every run, lossy or not, the rows are those of the current token's stream wherever
      nothing of it is missing, whatever views came before; and a resync is asked for only
      of a stream that something was once missing of. */
  lemma RowsFollowTheCurrentView(streams: nat -> Stream, ws: seq<World>, steps: seq<Step>, i: nat)
    requires Genuine(streams) && Run(streams, ws, steps) && i < |ws|
    ensures ws[i].view.generation !in ws[i].torn ==> RowsAreTheCores(streams, ws[i])
    ensures ws[i].view.asked <= ws[i].hurt
  {
    hide RowsAreTheCores;
    InvHolds(streams, ws, steps, i);
  }

  /** So where nothing is lost the rows always are the core's, and no resync is asked for. */
  lemma {:induction false} NothingLost(streams: nat -> Stream, ws: seq<World>, steps: seq<Step>, i: nat)
    requires Genuine(streams) && Run(streams, ws, steps) && i < |ws|
    requires forall k :: 0 <= k < i ==> !steps[k].Lose?
    ensures ws[i].hurt == {} == ws[i].view.asked && RowsAreTheCores(streams, ws[i])
    decreases i
  {
    hide RowsAreTheCores;
    InvHolds(streams, ws, steps, i);
    if i > 0 {
      NothingLost(streams, ws, steps, i - 1);
      InvHolds(streams, ws, steps, i - 1);
    }
  }

  // ------------------------------------------------ how a view that drifted comes back

  /** A world as it may be after anything: only the next token is not in use yet. */
  predicate NextIsFresh(w: World) { w.seen(w.view.generation + 1) == 0 }

  /** Any opening that does not keep the view mends it, whatever was lost before. */
  lemma OpeningMends(streams: nat -> Stream, w: World, room: string, focus: string)
    requires Genuine(streams) && NextIsFresh(w) && room != "" && !Keeps(w.view, room, focus)
    ensures var x := Next(streams, w, Open(room, focus));
      x.view.generation == w.view.generation + 1 && RowsAreTheCores(streams, x)
  {
    FreshToken(streams, w.view.generation + 1);
  }

  /** A refused resync of the current token mends the view too - unless a thread is open:
      then the token stays and the rows are gone. */
  lemma RefusalMends(streams: nat -> Stream, w: World)
    requires Genuine(streams) && NextIsFresh(w) && w.view.openRoom != "" && w.view.generation in w.view.asked
    ensures var x := Next(streams, w, ResyncRefused(w.view.generation));
      if w.view.thread == "" then x.view.generation == w.view.generation + 1 && RowsAreTheCores(streams, x)
      else x.view.generation == w.view.generation && x.seen == w.seen && x.view.timeline == Empty
  {
    FreshToken(streams, w.view.generation + 1);
  }

  /** Rows that are gone are the core's exactly if the core has none, or they are of a room
      that is no longer open. */
  lemma GoneIsRightExactly(streams: nat -> Stream, w: World)
    requires Genuine(streams) && w.view.timeline == Empty
    requires w.seen(w.view.generation) <= |streams(w.view.generation).diffs|
    ensures var s := streams(w.view.generation);
      && PossibleAll([], s.diffs[..w.seen(w.view.generation)])
      && (RowsAreTheCores(streams, w) <==>
          w.view.openRoom != s.room || HappenedAll([], s.diffs[..w.seen(w.view.generation)]) == [])
  {
    var g := w.view.generation;
    PossiblePrefix([], streams(g).diffs, w.seen(g));
    hide HappenedAll, PossibleAll;
  }

  /** The rows emptied under a thread: the next change of the same stream lands on nothing.
      Another resync is asked for exactly if that change needs a row to work on; one that
      does not lands without a word. */
  lemma ClearedUnderAThread(v: View, d: VectorDiff)
    requires v.openRoom != "" && v.thread != "" && v.asked == {v.generation}
    ensures var w := Rebuilt(v.(asked := {}), true);
      var x := Landed(w, v.openRoom, v.generation, EncodeAll([d]));
      && w.timeline == Empty && w.generation == v.generation && w.openRoom == v.openRoom
      && (v.generation in x.asked <==> !Fits(Encode(d), 0))
      && x.timeline.rows == After([], Encode(d))
  {
    OnNothing(d);
    hide EmittedAll, AppliedAll, EncodeAll, Drifts, Fits, Encode, After;
  }

  /** One change on no rows: refused exactly if it needs one. */
  lemma OnNothing(d: VectorDiff)
    ensures var ops := EncodeAll([d]);
      && (Drifts(EmittedAll(Empty, ops)) > 0 <==> !Fits(Encode(d), 0))
      && AppliedAll(Empty, ops).rows == After([], Encode(d))
  {
    var ops := EncodeAll([d]);
    assert ops == [Encode(d)] && ops[..0] == [];
    hide Emitted, After, Encode, Fits;
    assert EmittedAll(Empty, ops) == EmittedAll(Empty, []) + Emitted(Empty, Encode(d));
    DriftsOne(Empty, Encode(d));
    DriftsConcat([], Emitted(Empty, Encode(d)));
  }

  /** Closing the thread brings the rebuild that was put off, and that mends the view. */
  lemma ClosingTheThreadMends(streams: nat -> Stream, w: World)
    requires Genuine(streams) && NextIsFresh(w) && w.view.openRoom != "" && w.view.thread != ""
    requires w.view.rebuildAfterThread == w.view.openRoom
    ensures var x := Next(streams, w, CloseThread);
      && Enabled(streams, x, Later(|x.view.later| - 1))
      && var y := Next(streams, x, Later(|x.view.later| - 1));
         y.view.generation == w.view.generation + 1 && RowsAreTheCores(streams, y)
  {
    FreshToken(streams, w.view.generation + 1);
  }

  /** Such worlds are reached: in a view just opened one change is lost, and the next one
      asks for a resync. */
  lemma LossDrifts(streams: nat -> Stream, w: World, x: Row)
    requires w.view.generation >= 1 && w.seen(w.view.generation) == 0
    requires w.view.openRoom != "" && w.view.timeline == Empty && w.view.asked == {}
    requires streams(w.view.generation) == Stream(w.view.openRoom, [VPushBack(x), VRemove(0)])
    ensures var g := w.view.generation;
      && Enabled(streams, w, Lose(g, 1)) && Enabled(streams, Next(streams, w, Lose(g, 1)), Deliver(g, 1))
      && Next(streams, Next(streams, w, Lose(g, 1)), Deliver(g, 1)).view.asked == {g}
  {
    hide Next, EmittedAll, AppliedAll, EncodeAll, Drifts, Fits, Encode;
    var g, d := w.view.generation, VRemove(0);
    assert streams(g).diffs[1..2] == [d];
    NeedsARow(d);
    OnNothing(d);
    var y := Next(streams, w, Lose(g, 1));
    Lost(streams, w, g, 1);
    Delivered(streams, y, g, 1);
  }

  lemma Lost(streams: nat -> Stream, w: World, t: nat, n: nat)
    requires Enabled(streams, w, Lose(t, n))
    ensures var y := Next(streams, w, Lose(t, n)); y.view == w.view && y.seen(t) == w.seen(t) + n
  {
  }

  lemma NeedsARow(d: VectorDiff)
    ensures d == VRemove(0) ==> !Fits(Encode(d), 0)
  {
  }

  lemma Delivered(streams: nat -> Stream, w: World, t: nat, n: nat)
    requires Enabled(streams, w, Deliver(t, n))
    ensures Next(streams, w, Deliver(t, n)).view
      == Landed(w.view, streams(t).room, t, EncodeAll(streams(t).diffs[w.seen(t)..w.seen(t) + n]))
  {
    hide Landed, EncodeAll;
  }

  // ------------------------------------------------ the bridge itself

  /** From one view to the other the invariant of every world is kept. */
  ghost predicate Kept(v: View, v': View) {
    forall streams, w: World {:trigger Inv(streams, w)} ::
      Genuine(streams) && Inv(streams, w) && w.view == v ==> Inv(streams, w.(view := v'))
  }

  lemma OpenedKeeps(v: View, room: string, focus: string)
    ensures Kept(v, Opened(v, room, focus))
  {
    forall streams, w: World {:trigger Inv(streams, w)} | Genuine(streams) && Inv(streams, w) && w.view == v
      ensures Inv(streams, w.(view := Opened(v, room, focus)))
    {
      InvKept(streams, w, Open(room, focus));
    }
  }

  lemma ClosedKeeps(v: View)
    ensures Kept(v, Closed(v))
  {
    forall streams, w: World {:trigger Inv(streams, w)} | Genuine(streams) && Inv(streams, w) && w.view == v
      ensures Inv(streams, w.(view := Closed(v)))
    {
      InvKept(streams, w, Close);
    }
  }

  lemma ClosedThreadKeeps(v: View)
    ensures Kept(v, ThreadClosed(v))
  {
    forall streams, w: World {:trigger Inv(streams, w)} | Genuine(streams) && Inv(streams, w) && w.view == v
      ensures Inv(streams, w.(view := ThreadClosed(v)))
    {
      InvKept(streams, w, CloseThread);
    }
  }

  class TimelineBridge {
    const timeline: DiffListModel
    var openRoom: string
    var focus: string
    var generation: nat
    var rebuild: bool
    var thread: string
    var rebuildAfterThread: string
    var later: seq<string>
    var asked: set<nat>

    ghost function State(): View
      reads this, timeline
    {
      View(openRoom, focus, generation, rebuild, thread, rebuildAfterThread, timeline.State(), later, asked)
    }

    constructor ()
      ensures State() == Start && fresh(timeline)
    {
      timeline := new DiffListModel();
      openRoom, focus, generation, rebuild := "", "", 0, false;
      thread, rebuildAfterThread, later, asked := "", "", [], {};
    }

    method CloseThread()
      modifies this
      ensures State() == ThreadClosed(old(State())) && Kept(old(State()), State())
    {
      ClosedThreadKeeps(State());
      hide Kept;
      if thread == "" {
        return;
      }
      thread := "";
      if rebuildAfterThread != "" {
        later := later + [rebuildAfterThread];
        rebuildAfterThread := "";
      }
    }

    method OpenRoom(room: string, view: string)
      modifies this, timeline
      ensures State() == Opened(old(State()), room, view) && Kept(old(State()), State())
    {
      OpenedKeeps(State(), room, view);
      hide Kept;
      if room == "" {
        return;
      }
      if room == openRoom && view == "" && focus == "" && !rebuild {
        return;
      }
      CloseThread();
      timeline.ClearRows();
      openRoom := room;
      if focus != view {
        focus := view;
      }
      generation := generation + 1;
      if rebuild {
        rebuild := false;
      }
    }

    method CloseRoom()
      modifies this, timeline
      ensures State() == Closed(old(State())) && Kept(old(State()), State())
    {
      ClosedKeeps(State());
      hide Kept;
      if openRoom == "" {
        return;
      }
      openRoom := "";
      if focus != "" {
        focus := "";
      }
      timeline.ClearRows();
      thread := "";
    }

    method RebuildOpenTimeline(clear: bool)
      modifies this, timeline
      ensures State() == Rebuilt(old(State()), clear)
    {
      if clear {
        timeline.ClearRows();
      }
      if thread != "" {
        rebuildAfterThread := openRoom;
        return;
      }
      rebuild := true;
      OpenRoom(openRoom, focus);
    }

    /** The `timeline.diff` branch, the resync it may set off included. */
    method TimelineDiff(room: string, token: nat, ops: seq<Op>)
      modifies this, timeline
      ensures State() == Landed(old(State()), room, token, ops)
    {
      hide AppliedAll, EmittedAll;
      if room != openRoom || token != generation {
        return;
      }
      ghost var m, said := timeline.State(), timeline.log;
      var before := |timeline.log|;
      timeline.ApplyOperations(ops);
      var es := timeline.log[before..];
      ghost var tail := if |timeline.rows| != |m.rows| then [Emission(CountChanged, timeline.rows)] else [];
      assert es == EmittedAll(m, ops) + tail;
      DriftsConcat(EmittedAll(m, ops), tail);
      assert Drifts(tail) == 0 by { assert tail != [] ==> tail[..0] == []; }
      var drifted := ReportsDrift(es);
      if drifted && openRoom != "" {
        asked := asked + {generation};
      }
    }
  }

  /** Whether a slot connected to `outOfStep` was called. */
  method ReportsDrift(es: seq<Emission>) returns (yes: bool)
    ensures yes <==> Drifts(es) > 0
  {
    yes := false;
    for i := 0 to |es|
      invariant yes <==> Drifts(es[..i]) > 0
    {
      assert es[..i + 1][..i] == es[..i];
      yes := yes || es[i].signal.OutOfStep?;
    }
    assert es[..|es|] == es;
  }

  // ------------------------------------------------ which step begins a view, and what else it moves

  /** Another room or focus, or a rebuild asked for; or a rebuild that no thread holds up. */
  predicate BeginsView(v: View, s: Step) {
    match s
    case Open(room, focus) => room != "" && (room != v.openRoom || focus != "" || v.focus != "" || v.rebuild)
    case Reload => v.openRoom != "" && v.focus == "" && v.thread == ""
    case Later(i) => i < |v.later| && v.later[i] == v.openRoom != "" && v.thread == ""
    case ResyncRefused(t) => t == v.generation && v.openRoom != "" && v.thread == ""
    case _ => false
  }

  /** A rebuild that waits for the thread to close. */
  predicate PutsOff(v: View, s: Step) {
    && v.openRoom != "" && v.thread != ""
    && ((s.Reload? && v.focus == "") || (s.ResyncRefused? && s.token == v.generation))
  }

  predicate ClosesThread(v: View, s: Step) { v.thread != "" && (s.CloseThread? || BeginsView(v, s)) }

  /** For every view and every step: the next token is handed out exactly where a view begins,
      which empties the rows; and what becomes of room, focus, thread and rebuild. */
  lemma ViewMoves(streams: nat -> Stream, w: World, s: Step)
    requires Enabled(streams, w, s) && (w.view.openRoom == "" ==> "" !in w.view.later)
    ensures var v, u := w.view, Next(streams, w, s).view;
      && u.generation == (if BeginsView(v, s) then v.generation + 1 else v.generation)
      && (BeginsView(v, s) ==> u.timeline == Empty && !u.rebuild)
      && u.openRoom == (if s.Open? && BeginsView(v, s) then s.room
                        else if s.Close? || s.SessionEnds? then "" else v.openRoom)
      && u.focus == (if s.Open? && BeginsView(v, s) then s.focus
                     else if s.Close? && v.openRoom != "" then "" else v.focus)
      && u.thread == (if s.OpenThread? && v.openRoom != "" && s.root != "" then s.root
                      else if ClosesThread(v, s) || (s.Close? && v.openRoom != "") then "" else v.thread)
      && u.rebuildAfterThread == (if PutsOff(v, s) then v.openRoom
                                  else if ClosesThread(v, s) then "" else v.rebuildAfterThread)
  {
    hide Whole, Past, EncodeAll;
  }

  /** A rebuild that waited is set going when its thread closes, and taken off when its turn
      comes; nothing else sets one going. */
  lemma RebuildsInTurn(streams: nat -> Stream, w: World, s: Step)
    requires Enabled(streams, w, s)
    ensures var v, u := w.view, Next(streams, w, s).view;
      u.later ==
        if s.Later? then v.later[..s.i] + v.later[s.i + 1..]
        else if ClosesThread(v, s) && v.rebuildAfterThread != "" then v.later + [v.rebuildAfterThread]
        else v.later
  {
    hide Whole, Past, EncodeAll;
    assert w.view.later + [] == w.view.later;
  }

  /** The batch of a delivery, where it is the current view's. */
  predicate Lands(streams: nat -> Stream, v: View, s: Step) {
    s.Deliver? && s.token == v.generation && streams(s.token).room == v.openRoom
  }

  /** The rows after every step: emptied where a view begins or ends and where the core said
      they are wrong, patched, moved on by a batch of the current view, and else the same. */
  lemma RowsMove(streams: nat -> Stream, w: World, s: Step)
    requires Enabled(streams, w, s) && (w.view.openRoom == "" ==> "" !in w.view.later)
    ensures var v, u := w.view, Next(streams, w, s).view;
      u.timeline ==
        if BeginsView(v, s) || (s.Close? && v.openRoom != "") || s.SessionEnds?
           || (s.ResyncRefused? && s.token == v.generation && v.openRoom != "")
        then Empty
        else if s.Patch? then v.timeline.(rows := PatchedRow(v.timeline.rows, s.row, "poll", s.value))
        else if Lands(streams, v, s)
        then AppliedAll(v.timeline, EncodeAll(streams(s.token).diffs[w.seen(s.token)..w.seen(s.token) + s.count]))
        else v.timeline
  {
    hide Whole, Past, EncodeAll, AppliedAll, EmittedAll, Drifts;
  }

  /** A resync is asked for exactly where a batch of the current view of an open room reports
      drift, and is off the list exactly once answered. */
  lemma AskedExactly(streams: nat -> Stream, w: World, s: Step)
    requires Enabled(streams, w, s)
    ensures var v, u := w.view, Next(streams, w, s).view;
      u.asked ==
        if s.ResyncGranted? || s.ResyncRefused? then v.asked - {s.token}
        else if Lands(streams, v, s) && v.openRoom != ""
                && Drifts(EmittedAll(v.timeline, EncodeAll(
                     streams(s.token).diffs[w.seen(s.token)..w.seen(s.token) + s.count]))) > 0
        then v.asked + {v.generation}
        else v.asked
  {
    hide Whole, Past, EncodeAll, AppliedAll, EmittedAll, Drifts;
  }
}
