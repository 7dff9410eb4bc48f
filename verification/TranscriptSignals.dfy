/** The speech service's signals may overtake the reply that names their task: where the
    reply falls among them does not show in the transcript. */
module TranscriptSignals {
  import opened VoiceTranscripts

  datatype Signal = Words(task: int, text: Text) | Ended(task: int)

  function Heard(plain: Plain, v: State, s: Signal): State {
    match s
    case Words(task, text) => TextDecoded(v, task, text)
    case Ended(task) => TranscribeFinished(plain, v, task)
  }

  function HeardAll(plain: Plain, v: State, signals: seq<Signal>): State
    decreases |signals|
  {
    if signals == [] then v
    else Heard(plain, HeardAll(plain, v, signals[..|signals| - 1]), signals[|signals| - 1])
  }

  /** The reply names the task after the first `k` of the signals. */
  function Outcome(plain: Plain, v: State, signals: seq<Signal>, k: nat, task: int, seconds: nat): State
    requires k <= |signals|
  {
    HeardAll(plain, TaskNamed(plain, HeardAll(plain, v, signals[..k]), task, seconds), signals[k..])
  }

  /** A job that has just asked for its task. */
  predicate Asking(v: State) {
    v.busy && v.job.task < 0 && v.job.pieces == [] && v.early == [] && v.earlyDone == {}
  }

  /** The texts of this task, in order. */
  function Mine(signals: seq<Signal>, task: int): seq<Text>
    decreases |signals|
  {
    if signals == [] then []
    else
      var n := |signals| - 1;
      Mine(signals[..n], task) +
      if signals[n].Words? && signals[n].task == task then [signals[n].text] else []
  }

  /** Where the task first says that it is finished; the number of signals if it never does. */
  function Cut(signals: seq<Signal>, task: int): (n: nat)
    ensures n <= |signals|
    decreases |signals|
  {
    if signals == [] then 0
    else
      var n := |signals| - 1;
      var c := Cut(signals[..n], task);
      if c == n && signals[n] != Ended(task) then n + 1 else c
  }

  predicate HasEnd(signals: seq<Signal>, task: int) { Cut(signals, task) < |signals| }

  lemma {:induction false} CutIsFirst(signals: seq<Signal>, task: int)
    ensures HasEnd(signals, task) ==> signals[Cut(signals, task)] == Ended(task)
    ensures forall i :: 0 <= i < Cut(signals, task) ==> signals[i] != Ended(task)
    decreases |signals|
  {
    if signals != [] {
      CutIsFirst(signals[..|signals| - 1], task);
    }
  }

  /** What the transcript is made of. */
  function Kept(signals: seq<Signal>, k: nat, task: int): seq<Text>
    requires k <= |signals|
  {
    Mine(signals[..if k > Cut(signals, task) then k else Cut(signals, task)], task)
  }

  function Pairs(signals: seq<Signal>): seq<(int, Text)>
    decreases |signals|
  {
    if signals == [] then []
    else
      var n := |signals| - 1;
      Pairs(signals[..n]) + if signals[n].Words? then [(signals[n].task, signals[n].text)] else []
  }

  function Ends(signals: seq<Signal>): (ends: set<int>)
    ensures forall t :: t in ends <==> HasEnd(signals, t)
    decreases |signals|
  {
    if signals == [] then {}
    else
      var n := |signals| - 1;
      Ends(signals[..n]) + if signals[n].Ended? then {signals[n].task} else {}
  }

  lemma {:induction false} BeforeTheReply(plain: Plain, v: State, signals: seq<Signal>)
    requires Asking(v)
    ensures HeardAll(plain, v, signals) == v.(early := Pairs(signals), earlyDone := Ends(signals))
    decreases |signals|
  {
    hide Finish;
    if signals != [] {
      BeforeTheReply(plain, v, signals[..|signals| - 1]);
    }
  }

  lemma {:induction false} EarlyAreMine(signals: seq<Signal>, task: int)
    ensures EarlyTexts(Pairs(signals), task) == Mine(signals, task)
    decreases |signals|
  {
    if signals != [] {
      var n := |signals| - 1;
      EarlyAreMine(signals[..n], task);
      if signals[n].Words? {
        assert Pairs(signals) == Pairs(signals[..n]) + [(signals[n].task, signals[n].text)];
        assert Pairs(signals)[..|Pairs(signals)| - 1] == Pairs(signals[..n]);
      } else {
        assert Pairs(signals) == Pairs(signals[..n]);
      }
    }
  }

  /** A named task with these pieces in hand. */
  function With(v: State, pieces: seq<Text>): State { v.(job := v.job.(pieces := pieces)) }

  lemma {:induction false} AfterTheReply(plain: Plain, v: State, signals: seq<Signal>)
    requires v.busy && v.job.task >= 0
    ensures var task := v.job.task;
      HeardAll(plain, v, signals) ==
      if HasEnd(signals, task) then Finish(plain, With(v, v.job.pieces + Mine(signals[..Cut(signals, task)], task)))
      else With(v, v.job.pieces + Mine(signals, task))
    decreases |signals|
  {
    var task := v.job.task;
    if signals == [] {
      assert v.job.pieces + [] == v.job.pieces;
    } else {
      var n := |signals| - 1;
      AfterTheReply(plain, v, signals[..n]);
      MineStep(signals, task);
      hide Mine;
      if HasEnd(signals[..n], task) {
        assert signals[..n][..Cut(signals[..n], task)] == signals[..Cut(signals, task)];
      }
    }
  }

  lemma MineStep(signals: seq<Signal>, task: int)
    requires signals != []
    ensures var n := |signals| - 1;
      Mine(signals, task) ==
      Mine(signals[..n], task) + if signals[n].Words? && signals[n].task == task then [signals[n].text] else []
  {
  }

  /** The job is over and left behind what these pieces make. */
  predicate Over(plain: Plain, v: State, pieces: seq<Text>, w: State) {
    var done := Finish(plain, With(v, pieces));
    !w.busy && w.job == NoJob && w.texts == done.texts && w.states == done.states && w.check == done.check
  }

  predicate StillGoing(v: State, task: int, pieces: seq<Text>, w: State) {
    && w.busy && w.job == v.job.(task := task, pieces := pieces)
    && w.texts == v.texts && w.states == v.states && w.check == v.check
  }

  /** The reply comes after these signals. */
  lemma Named(plain: Plain, v: State, first: seq<Signal>, task: int, seconds: nat)
    requires Asking(v) && task >= 0
    ensures var x := TaskNamed(plain, HeardAll(plain, v, first), task, seconds);
      if HasEnd(first, task) then Over(plain, v, Mine(first, task), x) else StillGoing(v, task, Mine(first, task), x)
  {
    BeforeTheReply(plain, v, first);
    EarlyAreMine(first, task);
    hide HeardAll, Mine, HasEnd, Pairs, EarlyTexts, RecogniseLimit, Finish;
    var mine := Mine(first, task);
    assert [] + mine == mine;
    var w := v.(early := Pairs(first), earlyDone := Ends(first));
    var armed := Arm(w.(ticking := true), RecogniseLimit(seconds));
    var x := armed.(job := v.job.(task := task, pieces := mine), early := []);
    FinishAgrees(plain, With(v, mine), x);
    assert TaskNamed(plain, w, task, seconds) == if task in w.earlyDone then Finish(plain, x) else x;
  }

  lemma NamedRest(plain: Plain, v: State, x: State, before: seq<Text>, rest: seq<Signal>, task: int)
    requires StillGoing(v, task, before, x) && task >= 0
    ensures var w := HeardAll(plain, x, rest);
      if HasEnd(rest, task) then Over(plain, v, before + Mine(rest[..Cut(rest, task)], task), w)
      else StillGoing(v, task, before + Mine(rest, task), w)
  {
    hide HeardAll, Mine, Cut, HasEnd, Finish;
    AfterTheReply(plain, x, rest);
    var pieces := before + Mine(rest[..Cut(rest, task)], task);
    FinishAgrees(plain, With(v, pieces), With(x, pieces));
  }

  /** The end of a job depends on no more than this. */
  lemma FinishAgrees(plain: Plain, a: State, b: State)
    requires a.job.event == b.job.event && a.job.check == b.job.check && a.job.pieces == b.job.pieces
    requires a.texts == b.texts && a.states == b.states && a.check == b.check
    ensures var x, y := Finish(plain, a), Finish(plain, b);
      !y.busy && y.job == NoJob && y.texts == x.texts && y.states == x.states && y.check == x.check
  {
    hide Finish;
    FinishIs(plain, a);
    FinishIs(plain, b);
  }

  lemma FinishIs(plain: Plain, v: State)
    ensures var w, text := Finish(plain, v), plain(v.job.pieces);
      && !w.busy && w.job == NoJob && w.check == (if v.job.check then CheckOk else v.check)
      && w.texts == (if v.job.check || text == [] then v.texts else v.texts[v.job.event := text])
      && w.states == if v.job.check then v.states else v.states[v.job.event := if text == [] then Failed else Done]
  {
  }

  /** Up to the later of the two, the reply and the task's end, its texts all count. */
  lemma OutcomeIs(plain: Plain, v: State, signals: seq<Signal>, k: nat, task: int, seconds: nat)
    requires Asking(v) && task >= 0 && k <= |signals|
    ensures var w := Outcome(plain, v, signals, k, task, seconds);
      if HasEnd(signals, task) then Over(plain, v, Kept(signals, k, task), w)
      else StillGoing(v, task, Mine(signals, task), w)
  {
    var first, rest := signals[..k], signals[k..];
    CutSplit(signals, k, task);
    Named(plain, v, first, task, seconds);
    var x := TaskNamed(plain, HeardAll(plain, v, first), task, seconds);
    hide HeardAll, TaskNamed, Asking, Mine, Cut, StillGoing;
    if HasEnd(first, task) {
      hide Finish;
      NothingHeard(plain, x, rest);
    } else {
      hide Over;
      NamedRest(plain, v, x, Mine(first, task), rest, task);
    }
  }

  lemma {:induction false} NothingHeard(plain: Plain, v: State, signals: seq<Signal>)
    requires !v.busy
    ensures HeardAll(plain, v, signals) == v
    decreases |signals|
  {
    if signals != [] {
      NothingHeard(plain, v, signals[..|signals| - 1]);
    }
  }

  lemma {:induction false} MineSplit(a: seq<Signal>, b: seq<Signal>, task: int)
    ensures Mine(a + b, task) == Mine(a, task) + Mine(b, task)
    ensures Cut(a + b, task) == if HasEnd(a, task) then Cut(a, task) else |a| + Cut(b, task)
    decreases |b|
  {
    if b == [] {
      assert a + b == a;
    } else {
      var n := |b| - 1;
      MineSplit(a, b[..n], task);
      assert (a + b)[..|a + b| - 1] == a + b[..n];
    }
  }

  lemma CutSplit(signals: seq<Signal>, k: nat, task: int)
    requires k <= |signals|
    ensures var first, rest := signals[..k], signals[k..];
      && Mine(signals, task) == Mine(first, task) + Mine(rest, task)
      && Cut(signals, task) == (if HasEnd(first, task) then Cut(first, task) else k + Cut(rest, task))
      && (HasEnd(first, task) ==> Cut(first, task) < k)
      && (!HasEnd(first, task) ==>
        Mine(signals[..Cut(signals, task)], task) == Mine(first, task) + Mine(rest[..Cut(rest, task)], task))
  {
    var first, rest := signals[..k], signals[k..];
    assert signals == first + rest;
    MineSplit(first, rest, task);
    if !HasEnd(first, task) {
      var c := Cut(rest, task);
      assert signals[..k + c] == first + rest[..c];
      MineSplit(first, rest[..c], task);
    }
  }

  /** No text of the task comes after it said that it was finished. */
  ghost predicate Orderly(signals: seq<Signal>, task: int) {
    forall i :: Cut(signals, task) <= i < |signals| ==> !(signals[i].Words? && signals[i].task == task)
  }

  lemma {:induction false} MineIsEmpty(signals: seq<Signal>, task: int)
    ensures Mine(signals, task) == [] <==>
      forall i :: 0 <= i < |signals| ==> !(signals[i].Words? && signals[i].task == task)
    decreases |signals|
  {
    if signals != [] {
      MineIsEmpty(signals[..|signals| - 1], task);
    }
  }

  lemma OrderlyKept(signals: seq<Signal>, k: nat, task: int)
    requires Orderly(signals, task) && k <= |signals|
    ensures Kept(signals, k, task) == Kept(signals, 0, task)
  {
    var c := Cut(signals, task);
    CutSplit(signals, c, task);
    hide Cut, Mine;
    if k > c {
      MineSplit(signals[..c], signals[c..k], task);
      assert signals[..k] == signals[..c] + signals[c..k];
      MineIsEmpty(signals[c..k], task);
      assert forall i :: 0 <= i < k - c ==> signals[c..k][i] == signals[c + i];
      assert Mine(signals[..c], task) + [] == Mine(signals[..c], task);
    }
  }

  /** The transcript is the same wherever the reply falls exactly if no text of the task
      comes after its end. */
  lemma Confluence(signals: seq<Signal>, task: int)
    ensures Orderly(signals, task) <==>
      forall k: nat :: k <= |signals| ==> Kept(signals, k, task) == Kept(signals, 0, task)
  {
    if Orderly(signals, task) {
      hide Kept, Orderly;
      forall k: nat | k <= |signals| ensures Kept(signals, k, task) == Kept(signals, 0, task) {
        OrderlyKept(signals, k, task);
      }
    } else {
      LateTextsShow(signals, task);
      hide Kept, Orderly;
    }
  }

  lemma LateTextsShow(signals: seq<Signal>, task: int)
    requires !Orderly(signals, task)
    ensures Kept(signals, |signals|, task) != Kept(signals, 0, task)
  {
    var c := Cut(signals, task);
    var after := signals[c..];
    CutSplit(signals, c, task);
    MineIsEmpty(after, task);
    assert forall i :: c <= i < |signals| ==> signals[i] == after[i - c];
    hide Cut, Mine;
    assert Mine(after, task) != [];
    assert signals[..|signals|] == signals;
  }

  /** So from a service that sends its texts first, the same transcript at any time. */
  lemma SameTranscript(plain: Plain, v: State, signals: seq<Signal>, j: nat, k: nat, task: int, seconds: nat)
    requires Asking(v) && task >= 0 && j <= |signals| && k <= |signals| && Orderly(signals, task)
    ensures var a, b := Outcome(plain, v, signals, j, task, seconds), Outcome(plain, v, signals, k, task, seconds);
      && a.texts == b.texts && a.states == b.states && a.check == b.check && a.busy == b.busy
      && a.job.pieces == b.job.pieces == if HasEnd(signals, task) then [] else Mine(signals, task)
  {
    hide Outcome, Kept, Orderly, Mine, Finish;
    Confluence(signals, task);
    OutcomeIs(plain, v, signals, j, task, seconds);
    OutcomeIs(plain, v, signals, k, task, seconds);
    assert Kept(signals, j, task) == Kept(signals, 0, task) == Kept(signals, k, task);
  }

  function Own(signals: seq<Signal>, task: int): seq<Signal>
    decreases |signals|
  {
    if signals == [] then []
    else
      var n := |signals| - 1;
      Own(signals[..n], task) + if signals[n].task == task then [signals[n]] else []
  }

  lemma {:induction false} OwnConcat(x: seq<Signal>, y: seq<Signal>, task: int)
    ensures Own(x + y, task) == Own(x, task) + Own(y, task)
    decreases |y|
  {
    if y == [] {
      assert x + y == x;
    } else {
      var n := |y| - 1;
      OwnConcat(x, y[..n], task);
      assert (x + y)[..|x + y| - 1] == x + y[..n];
    }
  }

  /** A task's own signals hold its texts, and its end after as many of them. */
  lemma {:induction false} OwnSame(signals: seq<Signal>, task: int)
    ensures SameOwn(signals, task)
    decreases |signals|
  {
    if signals != [] {
      var n := |signals| - 1;
      OwnSame(signals[..n], task);
      assert signals == signals[..n] + [signals[n]];
      OwnSnoc(signals[..n], signals[n], task);
    }
  }

  ghost predicate SameOwn(signals: seq<Signal>, task: int) {
    && Mine(Own(signals, task), task) == Mine(signals, task)
    && (HasEnd(Own(signals, task), task) <==> HasEnd(signals, task))
    && Cut(Own(signals, task), task) == |Own(signals[..Cut(signals, task)], task)|
  }

  lemma OwnSnoc(before: seq<Signal>, s: Signal, task: int)
    requires SameOwn(before, task)
    ensures SameOwn(before + [s], task)
  {
    hide Own, Mine, Cut, HasEnd;
    OwnMine(before, s, task);
    OwnEnd(before, s, task);
    OwnCut(before, s, task);
  }

  lemma OwnMine(before: seq<Signal>, s: Signal, task: int)
    requires Mine(Own(before, task), task) == Mine(before, task)
    ensures Mine(Own(before + [s], task), task) == Mine(before + [s], task)
  {
    hide Own, Mine, Cut, HasEnd;
    OwnStep(before, s, task);
    CutSnoc(before, s, task);
    CutSnoc(Own(before, task), s, task);
    assert Mine(before, task) + [] == Mine(before, task);
  }

  lemma OwnEnd(before: seq<Signal>, s: Signal, task: int)
    requires HasEnd(Own(before, task), task) <==> HasEnd(before, task)
    ensures HasEnd(Own(before + [s], task), task) <==> HasEnd(before + [s], task)
  {
    hide Own, HasEnd;
    OwnStep(before, s, task);
    EndSnoc(before, s, task);
    EndSnoc(Own(before, task), s, task);
  }

  lemma EndSnoc(before: seq<Signal>, s: Signal, task: int)
    ensures HasEnd(before + [s], task) <==> HasEnd(before, task) || s == Ended(task)
  {
  }

  lemma OwnCut(before: seq<Signal>, s: Signal, task: int)
    requires HasEnd(Own(before, task), task) <==> HasEnd(before, task)
    requires Cut(Own(before, task), task) == |Own(before[..Cut(before, task)], task)|
    ensures Cut(Own(before + [s], task), task) == |Own((before + [s])[..Cut(before + [s], task)], task)|
  {
    hide Own, Mine, Cut, HasEnd;
    var signals := before + [s];
    OwnStep(before, s, task);
    CutSnoc(before, s, task);
    CutSnoc(Own(before, task), s, task);
    assert signals[..Cut(before, task)] == before[..Cut(before, task)];
    assert before[..|before|] == before && signals[..|signals|] == signals;
  }

  lemma OwnStep(before: seq<Signal>, s: Signal, task: int)
    ensures Own(before + [s], task) == if s.task == task then Own(before, task) + [s] else Own(before, task)
  {
    assert (before + [s])[..|before|] == before;
  }

  lemma CutSnoc(before: seq<Signal>, s: Signal, task: int)
    ensures var signals := before + [s];
      && Cut(signals, task) == (if HasEnd(before, task) || s == Ended(task) then Cut(before, task) else |before| + 1)
      && (!HasEnd(before, task) ==> Cut(before, task) == |before|)
      && Mine(signals, task) == Mine(before, task) + if s.Words? && s.task == task then [s.text] else []
  {
    assert (before + [s])[..|before|] == before;
  }

  /** Signals of other tasks contribute nothing: without them, and with the reply at the same
      place among the task's own, the texts kept are the same. */
  lemma ForeignTasksAreNothing(signals: seq<Signal>, k: nat, task: int)
    requires k <= |signals|
    ensures |Own(signals[..k], task)| <= |Own(signals, task)|
    ensures Kept(Own(signals, task), |Own(signals[..k], task)|, task) == Kept(signals, k, task)
    ensures HasEnd(Own(signals, task), task) <==> HasEnd(signals, task)
  {
    var own, c := Own(signals, task), Cut(signals, task);
    var m := if k > c then k else c;
    OwnSame(signals, task);
    OwnPrefix(signals, k, task);
    OwnPrefix(signals, c, task);
    OwnPrefix(signals, m, task);
    OwnSame(signals[..m], task);
    OwnGrows(signals, if k > c then c else k, m, task);
    hide Own, Mine, Cut, HasEnd;
    assert own[..|Own(signals[..m], task)|] == Own(signals[..m], task);
  }

  lemma OwnPrefix(signals: seq<Signal>, k: nat, task: int)
    requires k <= |signals|
    ensures Own(signals[..k], task) <= Own(signals, task)
  {
    OwnConcat(signals[..k], signals[k..], task);
    assert signals == signals[..k] + signals[k..];
  }

  lemma OwnGrows(signals: seq<Signal>, j: nat, k: nat, task: int)
    requires j <= k <= |signals|
    ensures |Own(signals[..j], task)| <= |Own(signals[..k], task)|
  {
    OwnPrefix(signals[..k], j, task);
    assert signals[..k][..j] == signals[..j];
  }
}
