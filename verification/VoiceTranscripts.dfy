/** Voice messages to text, one job at a time, through callbacks that may come late: what
    each handler makes of the state, and what every run of them keeps. */
module VoiceTranscripts {
  type Text = seq<char>

  /** The pieces of a transcript joined and cleaned. */
  type Plain = seq<Text> -> Text

  datatype Option<T> = None | Some(value: T)

  datatype Word = Working | Done | Failed

  datatype CheckState = Unchecked | CheckRunning | CheckOk | CheckFailed

  datatype Job = Job(event: nat, key: nat, check: bool, media: bool, owner: bool, pieces: seq<Text>, task: int)

  const NoJob := Job(0, 0, false, false, false, [], -1)

  /** What a job waits for: its helper, one of the service's answers, a second's pause. */
  datatype Call = Helper | Activation | Models | Idle(left: nat) | Pause(left: nat) | TaskName | KeepAlive

  /** Stamped with the generation it was asked in. */
  datatype Callback = Callback(generation: nat, call: Call)

  datatype Answer = Refused | Good | Busy | Named(task: int, seconds: nat)

  const DOWNLOAD := 120000
  const DECODE := 150000
  const ACTIVATE := 30000
  const IDLE_ATTEMPTS := 20

  function RecogniseLimit(seconds: nat): (ms: nat)
    ensures 63000 <= ms <= 600000
  {
    var s := if seconds < 1 then 1 else seconds;
    if 60000 + s * 3000 < 600000 then 60000 + s * 3000 else 600000
  }

  /** The fields, the callbacks still to come, and four things to speak about: the jobs
      taken up and asked for so far, and since the job began, the time and the arms. */
  datatype State = State(
    queue: seq<Job>, job: Job, busy: bool, generation: nat, left: Option<nat>, ticking: bool,
    early: seq<(int, Text)>, earlyDone: set<int>,
    states: map<nat, Word>, texts: map<nat, Text>, check: CheckState,
    flying: map<nat, Callback>, nextId: nat, wakes: nat,
    taken: seq<Job>, asked: seq<Job>, spent: nat, arms: nat)

  const Start := State([], NoJob, false, 0, None, false, [], {}, map[], map[], Unchecked, map[], 0, 0, [], [], 0, 0)

  // ------------------------------------------------ the handlers, as functions

  function Arm(v: State, ms: nat): State { v.(left := Some(ms), arms := v.arms + 1) }

  function Ask(v: State, call: Call): State {
    v.(flying := v.flying[v.nextId := Callback(v.generation, call)], nextId := v.nextId + 1)
  }

  function EndJob(v: State): State {
    v.(generation := v.generation + 1, ticking := false, left := None, job := NoJob,
       early := [], earlyDone := {}, busy := false, wakes := v.wakes + 1)
  }

  function Marked(v: State, event: nat, word: Word): State { v.(states := v.states[event := word]) }

  function Fail(v: State): State {
    if !v.busy then v
    else EndJob(if v.job.check then v.(check := CheckFailed) else Marked(v, v.job.event, Failed))
  }

  function Finish(plain: Plain, v: State): State {
    var text := plain(v.job.pieces);
    EndJob(
      if v.job.check then v.(check := CheckOk)
      else if text == [] then Marked(v, v.job.event, Failed)
      else Marked(v, v.job.event, Done).(texts := v.texts[v.job.event := text]))
  }

  function Decode(v: State, usable: bool): State { if usable then Ask(Arm(v, DECODE), Helper) else Fail(v) }

  function Taken(v: State): State
    requires v.queue != []
  {
    var job := v.queue[0];
    v.(queue := v.queue[1..], job := job.(media := job.check), busy := true, generation := v.generation + 1,
       taken := v.taken + [job], spent := 0, arms := 0)
  }

  function Next(v: State, usable: bool): State {
    if v.busy || v.queue == [] then v
    else if v.queue[0].check then Decode(Taken(v), usable)
    else Arm(Taken(v), DOWNLOAD)
  }

  function Queued(v: State, job: Job): State { v.(queue := v.queue + [job], asked := v.asked + [job]) }

  /** A request for `event`: whether its file is named and its claims are small enough. */
  function Transcribe(v: State, event: nat, key: nat, fit: bool, usable: bool): State {
    if event in v.states && v.states[event] != Failed then v
    else
      var w := v.(texts := v.texts - {event});
      if !fit then Marked(w, event, Failed)
      else Next(Queued(Marked(w, event, Working), Job(event, key, false, false, false, [], -1)), usable)
  }

  function Check(v: State, usable: bool): State {
    if v.check == CheckRunning then v
    else Next(Queued(v.(check := CheckRunning), NoJob.(check := true)), usable)
  }

  function Clear(v: State): State {
    var w := v.(queue := [], asked := v.taken);
    (if v.busy then EndJob(w) else w).(texts := map[], states := map[])
  }

  function MediaArrived(v: State, key: nat, usable: bool): State {
    if !v.busy || v.job.check || key != v.job.key || v.job.media then v
    else Decode(v.(job := v.job.(media := true)), usable)
  }

  function KeptAlive(v: State): State { if !v.busy || !v.job.owner then v else Ask(v, KeepAlive) }

  /** The texts that came early for this task. */
  function EarlyTexts(early: seq<(int, Text)>, task: int): seq<Text>
    decreases |early|
  {
    if early == [] then []
    else
      var n := |early| - 1;
      EarlyTexts(early[..n], task) + if early[n].0 == task then [early[n].1] else []
  }

  function TaskNamed(plain: Plain, v: State, task: int, seconds: nat): State {
    if task < 0 then Fail(v)
    else
      var w := Arm(v.(ticking := true), RecogniseLimit(seconds));
      var x := w.(job := w.job.(task := task, pieces := w.job.pieces + EarlyTexts(w.early, task)), early := []);
      if task in x.earlyDone then Finish(plain, x) else x
  }

  /** An answer to a call of the job that is running. */
  function Answered(plain: Plain, v: State, call: Call, answer: Answer): State {
    match call
    case Helper => if answer.Good? then Ask(Arm(v, ACTIVATE), Activation) else Fail(v)
    case Activation => if answer.Good? then Ask(v.(job := v.job.(owner := true)), Models) else Fail(v)
    case Models => if answer.Good? then Ask(v, Idle(IDLE_ATTEMPTS)) else Fail(v)
    case Idle(left) =>
      if answer.Good? then Ask(v, TaskName)
      else if answer.Busy? && left > 0 then Ask(KeptAlive(v), Pause(left))
      else Fail(v)
    case Pause(left) => Ask(v, Idle(if left > 0 then left - 1 else 0))
    case TaskName => if answer.Named? then TaskNamed(plain, v, answer.task, answer.seconds) else Fail(v)
    case KeepAlive => if answer.Refused? then Fail(v) else v
  }

  /** A callback arrives; one of an earlier generation changes nothing. */
  function Deliver(plain: Plain, v: State, id: nat, answer: Answer): State
    requires id in v.flying
  {
    var w := v.(flying := v.flying - {id});
    if v.flying[id].generation == v.generation && v.busy then Answered(plain, w, v.flying[id].call, answer) else w
  }

  function TextDecoded(v: State, task: int, text: Text): State {
    if !v.busy then v
    else if v.job.task < 0 then v.(early := v.early + [(task, text)])
    else if task == v.job.task then v.(job := v.job.(pieces := v.job.pieces + [text]))
    else v
  }

  function TranscribeFinished(plain: Plain, v: State, task: int): State {
    if !v.busy then v
    else if v.job.task < 0 then v.(earlyDone := v.earlyDone + {task})
    else if task == v.job.task then Finish(plain, v)
    else v
  }

  function ServiceError(v: State): State { if v.busy && v.job.owner then Fail(v) else v }

  // ------------------------------------------------ runs

  datatype Step =
    | Requested(event: nat, key: nat, fit: bool, usable: bool)
    | CheckAsked(usable: bool)
    | Cleared
    | Media(key: nat, usable: bool)
    | Woken(usable: bool)
    | Delivered(id: nat, answer: Answer)
    | Expired
    | Ticked
    | Texted(task: int, text: Text)
    | Finished(task: int)
    | ServiceFailed
    | Elapsed(ms: nat)

  /** A posted call of `next` runs once; the deadline fires when it is due and time does not
      pass it by; the keep-alive ticks while it is on. */
  predicate Possible(v: State, s: Step) {
    match s
    case Woken(_) => v.wakes > 0
    case Delivered(id, _) => id in v.flying
    case Expired => v.left == Some(0)
    case Ticked => v.ticking
    case Elapsed(ms) => v.left.Some? ==> ms <= v.left.value
    case _ => true
  }

  function Apply(plain: Plain, v: State, s: Step): State
    requires Possible(v, s)
  {
    match s
    case Requested(event, key, fit, usable) => Transcribe(v, event, key, fit, usable)
    case CheckAsked(usable) => Check(v, usable)
    case Cleared => Clear(v)
    case Media(key, usable) => MediaArrived(v, key, usable)
    case Woken(usable) => Next(v.(wakes := v.wakes - 1), usable)
    case Delivered(id, answer) => Deliver(plain, v, id, answer)
    case Expired => Fail(v.(left := None))
    case Ticked => KeptAlive(v)
    case Texted(task, text) => TextDecoded(v, task, text)
    case Finished(task) => TranscribeFinished(plain, v, task)
    case ServiceFailed => ServiceError(v)
    case Elapsed(ms) => Later(v, ms)
  }

  function Later(v: State, ms: nat): State {
    v.(spent := v.spent + ms, left := if v.left.Some? && ms <= v.left.value then Some(v.left.value - ms) else None)
  }

  ghost predicate Reaches(plain: Plain, v: State, steps: seq<Step>, w: State)
    decreases |steps|
  {
    if steps == [] then w == v
    else Possible(v, steps[0]) && Reaches(plain, Apply(plain, v, steps[0]), steps[1..], w)
  }

  // ------------------------------------------------ one job an event, first come first served

  function For(job: Job, event: nat): nat { if !job.check && job.event == event then 1 else 0 }

  function Jobs(queue: seq<Job>, event: nat): nat
    decreases |queue|
  {
    if queue == [] then 0 else For(queue[0], event) + Jobs(queue[1..], event)
  }

  function Running(v: State, event: nat): nat { if v.busy then For(v.job, event) else 0 }

  predicate IsWorking(v: State, event: nat) { event in v.states && v.states[event] == Working }

  /** An event is working exactly if one job for it is queued or running; never more. */
  ghost predicate Booked(v: State) {
    forall e :: Jobs(v.queue, e) + Running(v, e) == if IsWorking(v, e) then 1 else 0
  }

  function Checks(queue: seq<Job>): nat
    decreases |queue|
  {
    if queue == [] then 0 else (if queue[0].check then 1 else 0) + Checks(queue[1..])
  }

  function RunningChecks(v: State): nat { if v.busy && v.job.check then 1 else 0 }

  /** At most one check is queued or running, and then it says so. */
  ghost predicate CheckBooked(v: State) {
    Checks(v.queue) + RunningChecks(v) <= if v.check == CheckRunning then 1 else 0
  }

  /** Jobs are taken up in the order they were asked for. */
  ghost predicate InOrder(v: State) {
    && v.asked == v.taken + v.queue
    && (v.busy ==> v.taken != [])
    && (v.busy ==> v.job.event == v.taken[|v.taken| - 1].event && v.job.check == v.taken[|v.taken| - 1].check)
  }

  /** While jobs wait, one is running or a call of `next` is on its way. */
  predicate Awake(v: State) { !v.busy && v.queue != [] ==> v.wakes > 0 }

  lemma {:induction false} JobsAppend(queue: seq<Job>, job: Job, event: nat)
    ensures Jobs(queue + [job], event) == Jobs(queue, event) + For(job, event)
    ensures Checks(queue + [job]) == Checks(queue) + if job.check then 1 else 0
    decreases |queue|
  {
    if queue == [] {
      assert queue + [job] == [job];
    } else {
      assert (queue + [job])[1..] == queue[1..] + [job];
      JobsAppend(queue[1..], job, event);
    }
  }

  // ------------------------------------------------ one stage at a time, and in time

  /** A callback that moves the running job on. */
  predicate Current(v: State, id: nat) {
    id in v.flying && v.flying[id].generation == v.generation && v.flying[id].call != KeepAlive
  }

  /** Stamps come from the past; while nothing runs, only from before now. */
  ghost predicate Stamped(v: State) {
    && (forall i :: i in v.flying ==> i < v.nextId && v.flying[i].generation <= v.generation)
    && (!v.busy ==> forall i :: i in v.flying ==> v.flying[i].generation < v.generation)
  }

  ghost predicate NoneCurrent(v: State) { forall i :: !Current(v, i) }

  /** Never two of them; none while the file is awaited or the task has its name. */
  ghost predicate Staged(v: State) {
    && (forall i, j :: Current(v, i) && Current(v, j) ==> i == j)
    && (v.busy && (!v.job.media || v.job.task >= 0) ==> NoneCurrent(v))
  }

  predicate Within(v: State, arms: nat, ms: nat) {
    v.arms <= arms && v.left.Some? && v.spent + v.left.value <= ms
  }

  ghost predicate HelperOut(v: State) { exists i :: Current(v, i) && v.flying[i].call == Helper }

  /** Armed once a stage, and the time spent and left within the limits so far. */
  ghost predicate Timed(v: State) {
    if !v.busy then v.left == None && !v.ticking
    else if v.job.task >= 0 then v.job.media && Within(v, 4, DOWNLOAD + DECODE + ACTIVATE + 600000)
    else if !v.job.media then Within(v, 1, DOWNLOAD)
    else Within(v, 3, DOWNLOAD + DECODE + ACTIVATE) && (HelperOut(v) ==> Within(v, 2, DOWNLOAD + DECODE))
  }

  ghost predicate Books(v: State) { Booked(v) && CheckBooked(v) && InOrder(v) }

  ghost predicate Stages(v: State) { Stamped(v) && Staged(v) && Timed(v) }

  /** A job that waits carries nothing of a run yet. */
  predicate Untouched(queue: seq<Job>) { forall i :: 0 <= i < |queue| ==> queue[i].task < 0 }

  ghost predicate Inv(v: State) { Books(v) && Awake(v) && Stages(v) && Untouched(v.queue) }

  // ------------------------------------------------ the books

  predicate SameBooks(v: State, w: State) {
    && v.queue == w.queue && v.busy == w.busy && v.job.event == w.job.event && v.job.check == w.job.check
    && v.states == w.states && v.check == w.check && v.taken == w.taken && v.asked == w.asked && v.wakes == w.wakes
  }

  lemma SameBooksKept(v: State, w: State)
    requires Books(v) && Awake(v) && SameBooks(v, w)
    ensures Books(w) && Awake(w)
  {
    forall e ensures Jobs(w.queue, e) + Running(w, e) == if IsWorking(w, e) then 1 else 0 {
      assert Jobs(v.queue, e) + Running(v, e) == if IsWorking(v, e) then 1 else 0;
    }
  }

  /** The running job ends, its event marked with anything but "working". */
  lemma EndBooks(v: State, w: State)
    requires Books(v) && v.busy
    requires if v.job.check then w.check != CheckRunning && w == v.(check := w.check)
             else exists word, texts :: word != Working && w == Marked(v, v.job.event, word).(texts := texts)
    ensures Books(EndJob(w)) && Awake(EndJob(w))
  {
    var u := EndJob(w);
    forall e ensures Jobs(u.queue, e) + Running(u, e) == if IsWorking(u, e) then 1 else 0 {
      assert Jobs(v.queue, e) + Running(v, e) == if IsWorking(v, e) then 1 else 0;
    }
  }

  lemma FailBooks(v: State)
    requires Books(v) && Awake(v)
    ensures Books(Fail(v)) && Awake(Fail(v))
    ensures Fail(v).queue == v.queue && !Fail(v).busy
    ensures Fail(v).states == if v.busy && !v.job.check then v.states[v.job.event := Failed] else v.states
    ensures Fail(v).check == if v.busy && v.job.check then CheckFailed else v.check
  {
    assert Fail(v) == if !v.busy then v
      else EndJob(if v.job.check then v.(check := CheckFailed) else Marked(v, v.job.event, Failed));
    hide Books, Awake;
    if v.busy {
      if v.job.check {
        EndBooks(v, v.(check := CheckFailed));
      } else {
        var w := Marked(v, v.job.event, Failed);
        assert w == Marked(v, v.job.event, Failed).(texts := v.texts);
        EndBooks(v, w);
      }
    }
  }

  lemma FinishBooks(plain: Plain, v: State)
    requires Books(v) && v.busy
    ensures Books(Finish(plain, v)) && Awake(Finish(plain, v))
  {
    hide Books, EndJob;
    var text := plain(v.job.pieces);
    if v.job.check {
      EndBooks(v, v.(check := CheckOk));
    } else if text == [] {
      var w := Marked(v, v.job.event, Failed);
      assert w == Marked(v, v.job.event, Failed).(texts := v.texts);
      EndBooks(v, w);
    } else {
      EndBooks(v, Marked(v, v.job.event, Done).(texts := v.texts[v.job.event := text]));
    }
  }

  lemma TakenBooks(v: State)
    requires Books(v) && !v.busy && v.queue != []
    ensures Books(Taken(v)) && Awake(Taken(v))
  {
    var w := Taken(v);
    forall e ensures Jobs(w.queue, e) + Running(w, e) == if IsWorking(w, e) then 1 else 0 {
      assert Jobs(v.queue, e) + Running(v, e) == if IsWorking(v, e) then 1 else 0;
    }
    assert v.taken + v.queue == v.taken + [v.queue[0]] + v.queue[1..];
  }

  lemma DecodeBooks(v: State, usable: bool)
    requires Books(v) && Awake(v)
    ensures Books(Decode(v, usable)) && Awake(Decode(v, usable))
  {
    hide Books, Fail, Awake;
    if usable {
      SameBooksKept(v, Decode(v, usable));
    } else {
      FailBooks(v);
    }
  }

  lemma NextBooks(v: State, usable: bool)
    requires Books(v)
    ensures Books(Next(v, usable)) && Awake(Next(v, usable))
  {
    hide Books, Decode, Taken;
    if !v.busy && v.queue != [] {
      TakenBooks(v);
      DecodeBooks(Taken(v), usable);
      SameBooksKept(Taken(v), Arm(Taken(v), DOWNLOAD));
    }
  }

  /** A new job for an event that is neither queued nor running, or a check while none is. */
  lemma QueuedBooks(v: State, w: State, job: Job)
    requires Books(v)
    requires if job.check then v.check != CheckRunning && w == v.(check := CheckRunning)
             else !IsWorking(v, job.event) && exists texts :: w == Marked(v, job.event, Working).(texts := texts)
    ensures Books(Queued(w, job))
  {
    var u := Queued(w, job);
    forall e ensures Jobs(u.queue, e) + Running(u, e) == if IsWorking(u, e) then 1 else 0 {
      assert Jobs(v.queue, e) + Running(v, e) == if IsWorking(v, e) then 1 else 0;
      JobsAppend(v.queue, job, e);
    }
    JobsAppend(v.queue, job, 0);
    assert v.taken + v.queue + [job] == v.taken + (v.queue + [job]);
  }

  lemma ClearBooks(v: State)
    requires Books(v)
    ensures Books(Clear(v)) && Awake(Clear(v))
  {
    var w := Clear(v);
    forall e ensures Jobs(w.queue, e) + Running(w, e) == if IsWorking(w, e) then 1 else 0 {
    }
    assert v.taken + [] == v.taken;
  }

  // ------------------------------------------------ the stages

  lemma EndStages(v: State)
    requires Stamped(v)
    ensures Stages(EndJob(v)) && NoneCurrent(EndJob(v))
  {
  }

  lemma AskStage(v: State, call: Call)
    requires v.busy && Stamped(v) && NoneCurrent(v) && call != KeepAlive && v.job.media && v.job.task < 0
    ensures var w := Ask(v, call);
      Stamped(w) && Staged(w) && (HelperOut(w) <==> call == Helper)
  {
    var w := Ask(v, call);
    forall i ensures Current(w, i) <==> i == v.nextId {
      assert i != v.nextId ==> Current(w, i) == Current(v, i);
    }
    assert Current(w, v.nextId);
  }

  /** What the stages speak of is the same in both states. */
  predicate SameStages(v: State, w: State) {
    && v.busy == w.busy && v.generation == w.generation && v.job.media == w.job.media && v.job.task == w.job.task
    && v.left == w.left && v.ticking == w.ticking && v.spent == w.spent && v.arms == w.arms
  }

  lemma SameStagesKept(v: State, w: State)
    requires Stages(v) && SameStages(v, w) && Stamped(w)
    requires forall i :: Current(v, i) <==> Current(w, i)
    requires forall i :: Current(v, i) ==> i in w.flying && v.flying[i] == w.flying[i]
    ensures Stages(w) && (NoneCurrent(v) ==> NoneCurrent(w))
  {
    assert HelperOut(w) <==> HelperOut(v) by { hide Stages; }
  }

  lemma SameFlying(v: State, w: State)
    requires Stages(v) && SameStages(v, w) && v.flying == w.flying && v.nextId == w.nextId
    ensures Stages(w) && (NoneCurrent(v) ==> NoneCurrent(w))
  {
    hide Stages;
    assert Stamped(v) by { StagesHold(v); }
    assert forall i :: Current(v, i) <==> Current(w, i);
    SameStagesKept(v, w);
  }

  lemma StagesHold(v: State)
    requires Stages(v)
    ensures Stamped(v) && Staged(v) && Timed(v)
  {
  }

  lemma AskKeepAlive(v: State)
    requires Stages(v)
    ensures Stages(KeptAlive(v)) && SameBooks(v, KeptAlive(v))
    ensures NoneCurrent(v) ==> NoneCurrent(KeptAlive(v))
  {
    var w := KeptAlive(v);
    if w != v {
      StagesHold(v);
      hide Stages;
      assert forall i :: i in v.flying ==> i != v.nextId;
      assert forall i :: i in w.flying && i != v.nextId ==> i in v.flying && w.flying[i] == v.flying[i];
      assert forall i :: Current(w, i) <==> Current(v, i);
      SameStagesKept(v, w);
    }
  }

  lemma FailStages(v: State)
    requires Stamped(v) && (!v.busy ==> Stages(v))
    ensures Stages(Fail(v))
  {
    if v.busy {
      EndStages(if v.job.check then v.(check := CheckFailed) else Marked(v, v.job.event, Failed));
    }
  }

  lemma FinishStages(plain: Plain, v: State)
    requires Stamped(v)
    ensures Stages(Finish(plain, v))
  {
    var text := plain(v.job.pieces);
    EndStages(
      if v.job.check then v.(check := CheckOk)
      else if text == [] then Marked(v, v.job.event, Failed)
      else Marked(v, v.job.event, Done).(texts := v.texts[v.job.event := text]));
  }

  lemma DecodeStages(v: State, usable: bool)
    requires v.busy && Stamped(v) && NoneCurrent(v) && v.job.media && v.job.task < 0
    requires v.arms <= 1 && v.spent <= DOWNLOAD
    ensures Stages(Decode(v, usable))
  {
    if usable {
      assert forall i :: Current(Arm(v, DECODE), i) <==> Current(v, i);
      AskStage(Arm(v, DECODE), Helper);
    } else {
      FailStages(v);
    }
  }

  lemma NextStages(v: State, usable: bool)
    requires Stages(v) && Untouched(v.queue)
    ensures Stages(Next(v, usable)) && Untouched(Next(v, usable).queue)
  {
    if !v.busy && v.queue != [] {
      var w := Taken(v);
      assert NoneCurrent(w);
      if v.queue[0].check {
        DecodeStages(w, usable);
      } else {
        assert NoneCurrent(Arm(w, DOWNLOAD));
      }
    }
  }

  // ------------------------------------------------ every step keeps them

  lemma DecodeInv(v: State, usable: bool)
    requires Books(v) && Awake(v) && Untouched(v.queue)
    requires v.busy && Stamped(v) && NoneCurrent(v) && v.job.media && v.job.task < 0
    requires v.arms <= 1 && v.spent <= DOWNLOAD
    ensures Inv(Decode(v, usable))
  {
    hide Books, Stages, Untouched, Awake, Stamped, NoneCurrent;
    DecodeBooks(v, usable);
    DecodeStages(v, usable);
  }

  lemma FailInv(v: State)
    requires Inv(v)
    ensures Inv(Fail(v))
  {
    StagesHold(v);
    hide Books, Stages, Awake, Stamped, Untouched;
    FailBooks(v);
    FailStages(v);
  }

  lemma NextInv(v: State, usable: bool)
    requires Books(v) && Stages(v) && Untouched(v.queue)
    ensures Inv(Next(v, usable))
  {
    hide Books, Stages, Untouched, Next;
    NextBooks(v, usable);
    NextStages(v, usable);
  }

  lemma TranscribeInv(v: State, event: nat, key: nat, fit: bool, usable: bool)
    requires Inv(v)
    ensures Inv(Transcribe(v, event, key, fit, usable))
  {
    if event in v.states && v.states[event] != Failed {
    } else if !fit {
      RefusedBooks(v, event);
      hide Books, Stages;
      SameFlying(v, Marked(v.(texts := v.texts - {event}), event, Failed));
    } else {
      var job := Job(event, key, false, false, false, [], -1);
      var w := Marked(v.(texts := v.texts - {event}), event, Working);
      assert w == Marked(v, event, Working).(texts := v.texts - {event});
      QueuedInv(v, w, job, usable);
    }
  }

  lemma QueuedInv(v: State, w: State, job: Job, usable: bool)
    requires Inv(v) && job.task < 0
    requires if job.check then v.check != CheckRunning && w == v.(check := CheckRunning)
             else !IsWorking(v, job.event) && exists texts :: w == Marked(v, job.event, Working).(texts := texts)
    ensures Inv(Next(Queued(w, job), usable))
  {
    hide Books, Stages, Next, Awake;
    QueuedBooks(v, w, job);
    SameFlying(v, Queued(w, job));
    NextInv(Queued(w, job), usable);
  }

  lemma RefusedBooks(v: State, event: nat)
    requires Books(v) && !IsWorking(v, event)
    ensures Books(Marked(v.(texts := v.texts - {event}), event, Failed))
  {
    var w := Marked(v.(texts := v.texts - {event}), event, Failed);
    forall e ensures Jobs(w.queue, e) + Running(w, e) == if IsWorking(w, e) then 1 else 0 {
      assert Jobs(v.queue, e) + Running(v, e) == if IsWorking(v, e) then 1 else 0;
    }
  }

  lemma ClearInv(v: State)
    requires Inv(v)
    ensures Inv(Clear(v))
  {
    StagesHold(v);
    ClearBooks(v);
    hide Books, Stages, Awake, Stamped;
    var w := v.(queue := [], asked := v.taken);
    if v.busy {
      assert Stamped(w) by { SameFlying(v, w); StagesHold(w); }
      EndStages(w);
      SameFlying(EndJob(w), Clear(v));
    } else {
      SameFlying(v, Clear(v));
    }
  }

  lemma MediaInv(v: State, key: nat, usable: bool)
    requires Inv(v)
    ensures Inv(MediaArrived(v, key, usable))
  {
    if MediaArrived(v, key, usable) != v {
      var w := v.(job := v.job.(media := true));
      StagesHold(v);
      assert NoneCurrent(w) by { assert forall i :: Current(w, i) <==> Current(v, i); }
      SameBooksKept(v, w);
      hide Books, Awake;
      DecodeInv(w, usable);
    }
  }

  /** The state in which an answer to the running job is taken up. */
  ghost predicate Moving(v: State) {
    && Books(v) && Awake(v) && Untouched(v.queue) && v.busy && Stamped(v) && NoneCurrent(v)
    && v.job.media && v.job.task < 0 && Within(v, 3, DOWNLOAD + DECODE + ACTIVATE)
  }

  lemma MovingAsk(v: State, w: State, call: Call)
    requires Moving(v) && call != KeepAlive && SameBooks(v, w) && w.flying == v.flying && w.nextId == v.nextId
    requires w.generation == v.generation && w.job.media && w.job.task < 0 && !(call == Helper)
    requires Within(w, 3, DOWNLOAD + DECODE + ACTIVATE)
    ensures Inv(Ask(w, call))
  {
    hide Books, Awake, Untouched;
    assert forall i :: Current(w, i) <==> Current(v, i);
    AskStage(w, call);
    SameBooksKept(v, w);
    SameBooksKept(w, Ask(w, call));
  }

  lemma MovingFails(v: State)
    requires Moving(v)
    ensures Inv(Fail(v))
  {
    hide Books, Stages, Awake, Stamped, Untouched, NoneCurrent, Within;
    FailBooks(v);
    FailStages(v);
  }

  lemma TaskNamedInv(plain: Plain, v: State, task: int, seconds: nat)
    requires Moving(v)
    ensures Inv(TaskNamed(plain, v, task, seconds))
  {
    if task < 0 {
      MovingFails(v);
    } else {
      var w := Arm(v.(ticking := true), RecogniseLimit(seconds));
      var x := w.(job := w.job.(task := task, pieces := w.job.pieces + EarlyTexts(w.early, task)), early := []);
      hide Books, Awake, Untouched, EarlyTexts, Finish;
      assert forall i :: Current(x, i) <==> Current(v, i);
      SameBooksKept(v, x);
      if task in x.earlyDone {
        FinishBooks(plain, x);
        FinishStages(plain, x);
        assert Finish(plain, x).queue == x.queue by { FinishQueue(plain, x); }
      }
    }
  }

  lemma FinishQueue(plain: Plain, v: State)
    ensures Finish(plain, v).queue == v.queue
  {
  }

  /** The running job's own answer, taken out of the air. */
  lemma AnsweredInv(plain: Plain, v: State, call: Call, answer: Answer)
    requires Moving(v) && call != KeepAlive && (call == Helper ==> Within(v, 2, DOWNLOAD + DECODE))
    ensures Inv(Answered(plain, v, call, answer))
  {
    hide Moving, Inv, Fail, TaskNamed, KeptAlive, Ask;
    MovingIs(v);
    MovingFails(v);
    match call {
      case Helper => if answer.Good? { MovingAsk(v, Arm(v, ACTIVATE), Activation); }
      case Activation => if answer.Good? { MovingAsk(v, v.(job := v.job.(owner := true)), Models); }
      case Models => if answer.Good? { MovingAsk(v, v, Idle(IDLE_ATTEMPTS)); }
      case Idle(left) =>
        if answer.Good? {
          MovingAsk(v, v, TaskName);
        } else if answer.Busy? && left > 0 {
          MovingKept(v);
          MovingIs(KeptAlive(v));
          MovingAsk(KeptAlive(v), KeptAlive(v), Pause(left));
        }
      case Pause(left) => MovingAsk(v, v, Idle(if left > 0 then left - 1 else 0));
      case TaskName => if answer.Named? { TaskNamedInv(plain, v, answer.task, answer.seconds); }
    }
  }

  /** The stage an answer leads to; none where the job ends or has its task. */
  function Onward(call: Call, answer: Answer): Option<Call> {
    match call
    case Helper => if answer.Good? then Some(Activation) else None
    case Activation => if answer.Good? then Some(Models) else None
    case Models => if answer.Good? then Some(Idle(IDLE_ATTEMPTS)) else None
    case Idle(left) =>
      if answer.Good? then Some(TaskName) else if answer.Busy? && left > 0 then Some(Pause(left)) else None
    case Pause(left) => Some(Idle(if left > 0 then left - 1 else 0))
    case TaskName => None
    case KeepAlive => None
  }

  /** Exactly one callback that moves the job on is out, and it is for this stage; or none is. */
  ghost predicate AtStage(v: State, stage: Option<Call>) {
    match stage
    case None => NoneCurrent(v)
    case Some(call) => exists i :: Current(v, i) && v.flying[i].call == call && forall j :: Current(v, j) ==> j == i
  }

  lemma AskReaches(v: State, w: State, call: Call)
    requires NoneCurrent(v) && w.flying == v.flying && w.generation == v.generation && call != KeepAlive
    ensures AtStage(Ask(w, call), Some(call))
  {
    var x := Ask(w, call);
    forall i ensures Current(x, i) <==> i == w.nextId {
      assert i != w.nextId ==> Current(x, i) == Current(v, i);
    }
    assert Current(x, w.nextId);
  }

  lemma FailReaches(v: State)
    requires Stamped(v) && v.busy
    ensures AtStage(Fail(v), None)
  {
    EndStages(if v.job.check then v.(check := CheckFailed) else Marked(v, v.job.event, Failed));
  }

  lemma TaskReaches(plain: Plain, v: State, task: int, seconds: nat)
    requires Stamped(v) && NoneCurrent(v) && v.busy
    ensures AtStage(TaskNamed(plain, v, task, seconds), None)
  {
    if task < 0 {
      FailReaches(v);
    } else {
      var w := Arm(v.(ticking := true), RecogniseLimit(seconds));
      var x := w.(job := w.job.(task := task, pieces := w.job.pieces + EarlyTexts(w.early, task)), early := []);
      assert forall i :: Current(x, i) <==> Current(v, i);
      FinishReaches(plain, x);
      hide Finish, EarlyTexts;
    }
  }

  lemma FinishReaches(plain: Plain, v: State)
    requires Stamped(v)
    ensures NoneCurrent(Finish(plain, v))
  {
    var text := plain(v.job.pieces);
    EndStages(
      if v.job.check then v.(check := CheckOk)
      else if text == [] then Marked(v, v.job.event, Failed)
      else Marked(v, v.job.event, Done).(texts := v.texts[v.job.event := text]));
  }

  /** Each answer moves the running job exactly one stage on, or ends its waiting. */
  lemma OneStageOn(plain: Plain, v: State, call: Call, answer: Answer)
    requires Moving(v) && call != KeepAlive
    ensures AtStage(Answered(plain, v, call, answer), Onward(call, answer))
  {
    var kept := KeptAlive(v);
    MovingKept(v);
    assert Stamped(v) && NoneCurrent(v) && NoneCurrent(kept) && v.busy;
    hide Moving, AtStage, Fail, TaskNamed, KeptAlive, Ask, NoneCurrent, Stamped;
    FailReaches(v);
    match call {
      case Helper => AskReaches(v, Arm(v, ACTIVATE), Activation);
      case Activation => AskReaches(v, v.(job := v.job.(owner := true)), Models);
      case Models => AskReaches(v, v, Idle(IDLE_ATTEMPTS));
      case Idle(left) =>
        AskReaches(v, v, TaskName);
        AskReaches(kept, kept, Pause(left));
      case Pause(left) => AskReaches(v, v, Idle(if left > 0 then left - 1 else 0));
      case TaskName => if answer.Named? { TaskReaches(plain, v, answer.task, answer.seconds); }
    }
  }

  lemma MovingIs(v: State)
    requires Moving(v)
    ensures v.busy && v.job.media && v.job.task < 0 && Within(v, 3, DOWNLOAD + DECODE + ACTIVATE)
  {
  }

  lemma MovingKept(v: State)
    requires Moving(v)
    ensures Moving(KeptAlive(v))
  {
    var w := KeptAlive(v);
    SameBooksKept(v, w);
    hide Books, Awake;
    if w != v {
      assert forall i :: i in w.flying && i != v.nextId ==> i in v.flying && w.flying[i] == v.flying[i];
      forall i ensures !Current(w, i) {
        assert !Current(v, i);
      }
    }
  }

  lemma DeliverInv(plain: Plain, v: State, id: nat, answer: Answer)
    requires Inv(v) && id in v.flying
    ensures Inv(Deliver(plain, v, id, answer))
    ensures v.flying[id].generation != v.generation ==> Deliver(plain, v, id, answer) == v.(flying := v.flying - {id})
    ensures Current(v, id) ==> AtStage(Deliver(plain, v, id, answer), Onward(v.flying[id].call, answer))
  {
    var w := v.(flying := v.flying - {id});
    StagesHold(v);
    SameBooksKept(v, w);
    assert forall i :: i != id ==> (Current(w, i) <==> Current(v, i));
    if Current(v, id) {
      TakenOut(v, id);
      hide Books, Stages, Awake, Within, Timed, Staged, AtStage, Onward, Answered;
      AnsweredInv(plain, w, v.flying[id].call, answer);
      OneStageOn(plain, w, v.flying[id].call, answer);
    } else {
      hide Books, Awake, Untouched, Staged, Timed;
      SameStagesKept(v, w);
      if v.flying[id].generation == v.generation && v.busy {
        FailInv(w);
      }
    }
  }

  lemma TakenOut(v: State, id: nat)
    requires Inv(v) && Current(v, id)
    ensures v.busy
    ensures var w := v.(flying := v.flying - {id});
      Moving(w) && (v.flying[id].call == Helper ==> Within(w, 2, DOWNLOAD + DECODE))
  {
    var w := v.(flying := v.flying - {id});
    SameBooksKept(v, w);
    hide Books, Awake, Untouched;
    assert forall i :: Current(w, i) <==> i != id && Current(v, i);
  }

  lemma SignalInv(plain: Plain, v: State, task: int, text: Text)
    requires Inv(v)
    ensures Inv(TextDecoded(v, task, text))
    ensures Inv(TranscribeFinished(plain, v, task))
  {
    var w, x := TextDecoded(v, task, text), v.(earlyDone := v.earlyDone + {task});
    SameBooksKept(v, w);
    SameBooksKept(v, x);
    StagesHold(v);
    hide Books, Awake, Stages, Finish, Stamped, Staged, Timed;
    SameFlying(v, w);
    SameFlying(v, x);
    if v.busy {
      FinishBooks(plain, v);
      FinishStages(plain, v);
      FinishQueue(plain, v);
    }
  }

  lemma ElapsedInv(v: State, ms: nat)
    requires Inv(v) && (v.left.Some? ==> ms <= v.left.value)
    ensures Inv(Later(v, ms))
  {
    var w := Later(v, ms);
    SameBooksKept(v, w);
    StagesHold(v);
    hide Books, Awake, Untouched;
    assert forall i :: Current(w, i) <==> Current(v, i);
    assert HelperOut(w) ==> HelperOut(v);
  }

  lemma StepKeepsInv(plain: Plain, v: State, s: Step)
    requires Inv(v) && Possible(v, s)
    ensures Inv(Apply(plain, v, s))
  {
    hide Inv;
    match s {
      case Requested(event, key, fit, usable) => TranscribeInv(v, event, key, fit, usable);
      case CheckAsked(usable) => CheckInv(v, usable);
      case Cleared => ClearInv(v);
      case Media(key, usable) => MediaInv(v, key, usable);
      case Woken(usable) => WokenInv(v, usable);
      case Delivered(id, answer) => DeliverInv(plain, v, id, answer);
      case Expired => ExpiredInv(v);
      case Ticked => TickedInv(v);
      case Texted(task, text) => SignalInv(plain, v, task, text);
      case Finished(task) => SignalInv(plain, v, task, []);
      case ServiceFailed => FailInv(v);
      case Elapsed(ms) => ElapsedInv(v, ms);
    }
  }

  lemma CheckInv(v: State, usable: bool)
    requires Inv(v)
    ensures Inv(Check(v, usable))
  {
    hide Inv;
    if v.check != CheckRunning {
      QueuedInv(v, v.(check := CheckRunning), NoJob.(check := true), usable);
    }
  }

  lemma WokenInv(v: State, usable: bool)
    requires Inv(v) && v.wakes > 0
    ensures Inv(Next(v.(wakes := v.wakes - 1), usable))
  {
    var w := v.(wakes := v.wakes - 1);
    assert forall e :: Running(w, e) == Running(v, e) && IsWorking(w, e) == IsWorking(v, e);
    hide Stages, Next;
    SameFlying(v, w);
    NextInv(w, usable);
  }

  lemma ExpiredInv(v: State)
    requires Inv(v) && v.left == Some(0)
    ensures Inv(Fail(v.(left := None)))
  {
    assert v.busy;
    assert Fail(v.(left := None)) == Fail(v);
    FailInv(v);
  }

  lemma TickedInv(v: State)
    requires Inv(v)
    ensures Inv(KeptAlive(v))
  {
    AskKeepAlive(v);
    hide Stages;
    SameBooksKept(v, KeptAlive(v));
  }

  lemma {:induction false} RunKeepsInv(plain: Plain, v: State, steps: seq<Step>, w: State)
    requires Inv(v) && Reaches(plain, v, steps, w)
    ensures Inv(w)
    decreases |steps|
  {
    hide Inv, Apply, Possible;
    if steps != [] {
      StepKeepsInv(plain, v, steps[0]);
      RunKeepsInv(plain, Apply(plain, v, steps[0]), steps[1..], w);
    }
  }

  /** After every run: an event is working exactly if one job for it waits or runs, jobs
      have been taken up in the order asked for, waiting jobs are never forgotten, and the
      running one has a deadline armed, at most four times, that ends it within 900 s. */
  lemma EveryRun(plain: Plain, steps: seq<Step>, v: State)
    requires Reaches(plain, Start, steps, v)
    ensures forall e :: IsWorking(v, e) <==> Jobs(v.queue, e) + Running(v, e) == 1
    ensures forall e :: Jobs(v.queue, e) + Running(v, e) <= 1
    ensures v.asked == v.taken + v.queue && (!v.busy && v.queue != [] ==> v.wakes > 0)
    ensures v.busy ==> v.left.Some? && v.arms <= 4 && v.spent + v.left.value <= 900000
  {
    assert Inv(Start);
    RunKeepsInv(plain, Start, steps, v);
    hide Reaches;
    forall e
      ensures (IsWorking(v, e) <==> Jobs(v.queue, e) + Running(v, e) == 1) && Jobs(v.queue, e) + Running(v, e) <= 1
    {
      assert Jobs(v.queue, e) + Running(v, e) == if IsWorking(v, e) then 1 else 0;
    }
  }

  // ------------------------------------------------ the check that is never over

  function CheckJobs(v: State): nat { Checks(v.queue) + RunningChecks(v) }

  /** "Running" means that the check is still to be done. */
  predicate Healthy(v: State) { v.check == CheckRunning ==> CheckJobs(v) > 0 }

  ghost predicate CheckGoesOn(v: State, w: State) {
    (w.check == v.check && CheckJobs(w) == CheckJobs(v)) || (Healthy(v) && Healthy(w))
  }

  lemma EndGoesOn(plain: Plain, v: State)
    ensures CheckGoesOn(v, Fail(v)) && (v.busy ==> CheckGoesOn(v, Finish(plain, v)))
  {
    hide Checks;
  }

  lemma DecodeGoesOn(v: State, usable: bool)
    ensures CheckGoesOn(v, Decode(v, usable))
  {
    hide Checks;
    EndGoesOn(_ => [], v);
  }

  lemma NextGoesOn(v: State, usable: bool)
    ensures CheckGoesOn(v, Next(v, usable))
  {
    hide Decode;
    if !v.busy && v.queue != [] {
      assert CheckJobs(Taken(v)) == CheckJobs(v);
      DecodeGoesOn(Taken(v), usable);
    }
  }

  lemma TranscribeGoesOn(v: State, event: nat, key: nat, fit: bool, usable: bool)
    ensures CheckGoesOn(v, Transcribe(v, event, key, fit, usable))
  {
    var job := Job(event, key, false, false, false, [], -1);
    var w := Queued(Marked(v.(texts := v.texts - {event}), event, Working), job);
    JobsAppend(v.queue, job, event);
    hide Checks, Next;
    NextGoesOn(w, usable);
  }

  lemma CheckAskedGoesOn(v: State, usable: bool)
    ensures CheckGoesOn(v, Check(v, usable))
  {
    var job := NoJob.(check := true);
    var w := Queued(v.(check := CheckRunning), job);
    JobsAppend(v.queue, job, 0);
    hide Checks, Next;
    NextGoesOn(w, usable);
  }

  lemma AnsweredGoesOn(plain: Plain, v: State, call: Call, answer: Answer)
    requires v.busy
    ensures CheckGoesOn(v, Answered(plain, v, call, answer))
  {
    hide Checks, Fail, Finish;
    EndGoesOn(plain, v);
    if answer.Named? && answer.task >= 0 {
      var w := Arm(v.(ticking := true), RecogniseLimit(answer.seconds));
      var pieces := w.job.pieces + EarlyTexts(w.early, answer.task);
      EndGoesOn(plain, w.(job := w.job.(task := answer.task, pieces := pieces), early := []));
    }
  }

  lemma MediaGoesOn(v: State, key: nat, usable: bool)
    ensures CheckGoesOn(v, MediaArrived(v, key, usable))
  {
    hide Checks, Decode;
    DecodeGoesOn(v.(job := v.job.(media := true)), usable);
  }

  /** A check that says it is running has its job, in every run - until a sign-out finds it
      running: that drops the job and leaves the word, and then no step mends it. */
  lemma CheckIsStranded(plain: Plain, v: State, s: Step)
    requires Inv(v) && Possible(v, s)
    ensures Healthy(Apply(plain, v, s)) <==> Healthy(v) && !(s.Cleared? && v.check == CheckRunning)
  {
    var w := Apply(plain, v, s);
    if s.Cleared? {
      assert CheckJobs(w) == 0 && w.check == v.check;
    } else {
      assert CheckGoesOn(v, w) by {
        hide Inv, Checks, Transcribe, Check, MediaArrived, Next, Answered, Fail, Finish;
        match s {
          case Requested(event, key, fit, usable) => TranscribeGoesOn(v, event, key, fit, usable);
          case CheckAsked(usable) => CheckAskedGoesOn(v, usable);
          case Media(key, usable) => MediaGoesOn(v, key, usable);
          case Woken(usable) => NextGoesOn(v.(wakes := v.wakes - 1), usable);
          case Delivered(id, answer) =>
            if v.busy {
              AnsweredGoesOn(plain, v.(flying := v.flying - {id}), v.flying[id].call, answer);
            }
          case Expired => EndGoesOn(plain, v.(left := None));
          case Finished(_) | ServiceFailed => EndGoesOn(plain, v);
          case Cleared | Ticked | Texted(_, _) | Elapsed(_) =>
        }
      }
    }
  }

  /** The input: a check is asked for, and a sign-out comes while it runs. */
  lemma CheckIsCut(plain: Plain, v: State)
    requires Reaches(plain, Start, [CheckAsked(true), Cleared], v)
    ensures v.check == CheckRunning && !v.busy && v.queue == [] && !Healthy(v)
  {
    var steps := [CheckAsked(true), Cleared];
    assert steps[1..] == [Cleared] && steps[1..][1..] == [];
  }

  /** Along a run no sign-out finds a check running. */
  ghost predicate NeverCut(plain: Plain, v: State, steps: seq<Step>)
    decreases |steps|
  {
    steps == [] ||
    (Possible(v, steps[0]) && !(steps[0].Cleared? && v.check == CheckRunning)
     && NeverCut(plain, Apply(plain, v, steps[0]), steps[1..]))
  }

  /** Over every run: the word is true exactly if that never happened. */
  lemma {:induction false} StrandedForEver(plain: Plain, v: State, steps: seq<Step>, w: State)
    requires Inv(v) && Reaches(plain, v, steps, w)
    ensures Healthy(w) <==> Healthy(v) && NeverCut(plain, v, steps)
    decreases |steps|
  {
    hide Inv, Apply, Possible, Healthy;
    if steps != [] {
      StepKeepsInv(plain, v, steps[0]);
      CheckIsStranded(plain, v, steps[0]);
      StrandedForEver(plain, Apply(plain, v, steps[0]), steps[1..], w);
    }
  }

  // ------------------------------------------------ the handlers, as they change the object

  lemma EarlyNone(task: int)
    ensures EarlyTexts([], task) == []
  {
  }

  lemma EarlyStep(early: seq<(int, Text)>, i: nat, task: int)
    requires i < |early|
    ensures EarlyTexts(early[..i + 1], task) ==
      EarlyTexts(early[..i], task) + if early[i].0 == task then [early[i].1] else []
  {
    assert early[..i + 1][..i] == early[..i];
  }

  lemma TakenCheck(v: State)
    requires v.queue != []
    ensures Taken(v).job.check == v.queue[0].check
  {
  }

  class VoiceTranscripts {
    const plain: Plain
    var queue: seq<Job>
    var job: Job
    var busy: bool
    var generation: nat
    var left: Option<nat>
    var ticking: bool
    var early: seq<(int, Text)>
    var earlyDone: set<int>
    var states: map<nat, Word>
    var texts: map<nat, Text>
    var check: CheckState
    var flying: map<nat, Callback>
    var nextId: nat
    var wakes: nat
    ghost var taken: seq<Job>
    ghost var asked: seq<Job>
    ghost var spent: nat
    ghost var arms: nat

    ghost function Value(): State
      reads this
    {
      State(queue, job, busy, generation, left, ticking, early, earlyDone, states, texts, check,
            flying, nextId, wakes, taken, asked, spent, arms)
    }

    constructor (plain: Plain)
      ensures Value() == Start && Inv(Value()) && this.plain == plain
    {
      this.plain := plain;
      queue, job, busy, generation, left, ticking := [], NoJob, false, 0, None, false;
      early, earlyDone, states, texts, check := [], {}, map[], map[], Unchecked;
      flying, nextId, wakes, taken, asked, spent, arms := map[], 0, 0, [], [], 0, 0;
    }

    method ArmDeadline(ms: nat)
      modifies this
      ensures Value() == Arm(old(Value()), ms)
    {
      left := Some(ms);
      arms := arms + 1;
    }

    method AskFor(call: Call)
      modifies this
      ensures Value() == Ask(old(Value()), call)
    {
      flying := flying[nextId := Callback(generation, call)];
      nextId := nextId + 1;
    }

    method End()
      modifies this
      ensures Value() == EndJob(old(Value()))
    {
      generation, ticking, left, wakes := generation + 1, false, None, wakes + 1;
      ForgetJob();
    }

    method ForgetJob()
      modifies this
      ensures Value() == old(Value()).(job := NoJob, early := [], earlyDone := {}, busy := false)
    {
      job, early, earlyDone, busy := NoJob, [], {}, false;
    }

    method FailJob()
      modifies this
      ensures Value() == Fail(old(Value()))
    {
      if !busy {
        return;
      }
      if job.check {
        check := CheckFailed;
      } else {
        states := states[job.event := Failed];
      }
      End();
    }

    method FinishJob()
      modifies this
      ensures Value() == Finish(plain, old(Value()))
    {
      var text := plain(job.pieces);
      if job.check {
        check := CheckOk;
      } else if text == [] {
        states := states[job.event := Failed];
      } else {
        texts := texts[job.event := text];
        states := states[job.event := Done];
      }
      End();
    }

    method DecodeMedia(usable: bool)
      modifies this
      ensures Value() == Decode(old(Value()), usable)
    {
      if !usable {
        FailJob();
        return;
      }
      ArmDeadline(DECODE);
      AskFor(Helper);
    }

    method TakeFirst()
      requires queue != []
      modifies this
      ensures Value() == Taken(old(Value()))
    {
      taken := taken + [queue[0]];
      job, queue := queue[0].(media := queue[0].check), queue[1..];
      StartJob();
    }

    method StartJob()
      modifies this
      ensures Value() == old(Value()).(busy := true, generation := old(generation) + 1, spent := 0, arms := 0)
    {
      busy, generation := true, generation + 1;
      spent, arms := 0, 0;
    }

    method TakeNext(usable: bool)
      modifies this
      ensures Value() == Next(old(Value()), usable)
    {
      hide Arm, Decode, Taken;
      if busy || queue == [] {
        return;
      }
      TakeFirst();
      assert job == Value().job && job.check == old(queue[0].check) by { TakenCheck(old(Value())); }
      if job.check {
        DecodeMedia(usable);
        return;
      }
      ArmDeadline(DOWNLOAD);
    }

    method Enqueue(wanted: Job)
      modifies this
      ensures Value() == Queued(old(Value()), wanted)
    {
      queue := queue + [wanted];
      asked := asked + [wanted];
    }

    method Request(event: nat, key: nat, fit: bool, usable: bool)
      requires Inv(Value())
      modifies this
      ensures Value() == Transcribe(old(Value()), event, key, fit, usable) && Inv(Value())
    {
      hide Next, Inv, Queued;
      TranscribeInv(Value(), event, key, fit, usable);
      if event in states && (states[event] == Working || states[event] == Done) {
        return;
      }
      texts := texts - {event};
      if !fit {
        states := states[event := Failed];
        return;
      }
      states := states[event := Working];
      Enqueue(Job(event, key, false, false, false, [], -1));
      TakeNext(usable);
    }

    method CheckAll(usable: bool)
      requires Inv(Value())
      modifies this
      ensures Value() == Check(old(Value()), usable) && Inv(Value())
    {
      hide Next, Inv, Queued;
      CheckInv(Value(), usable);
      if check == CheckRunning {
        return;
      }
      check := CheckRunning;
      Enqueue(NoJob.(check := true));
      TakeNext(usable);
    }

    method ForgetAll()
      requires Inv(Value())
      modifies this
      ensures Value() == Clear(old(Value())) && Inv(Value())
    {
      hide Inv;
      ClearInv(Value());
      queue := [];
      asked := taken;
      if busy {
        End();
      }
      texts := map[];
      states := map[];
    }

    method OnMedia(key: nat, usable: bool)
      requires Inv(Value())
      modifies this
      ensures Value() == MediaArrived(old(Value()), key, usable) && Inv(Value())
    {
      hide Decode, Inv;
      MediaInv(Value(), key, usable);
      if !busy || job.check || key != job.key || job.media {
        return;
      }
      job := job.(media := true);
      DecodeMedia(usable);
    }

    method KeepServiceAlive()
      requires Inv(Value())
      modifies this
      ensures Value() == KeptAlive(old(Value())) && Inv(Value())
    {
      hide Inv;
      TickedInv(Value());
      if busy && job.owner {
        AskFor(KeepAlive);
      }
    }

    /** The reply that names the task: early texts join the transcript now. */
    method OnTaskNamed(task: int, seconds: nat)
      modifies this
      ensures Value() == TaskNamed(plain, old(Value()), task, seconds)
    {
      hide Fail, Finish, RecogniseLimit;
      if task < 0 {
        FailJob();
        return;
      }
      ticking := true;
      ArmDeadline(RecogniseLimit(seconds));
      TakeEarly(task);
      if task in earlyDone {
        FinishJob();
      }
    }

    method TakeEarly(task: int)
      modifies this
      ensures Value() == old(Value()).(
        job := old(job).(task := task, pieces := old(job).pieces + EarlyTexts(old(early), task)), early := [])
    {
      hide EarlyTexts;
      var mine := TextsSoFar(task);
      job := job.(task := task, pieces := job.pieces + mine);
      early := [];
    }

    method TextsSoFar(task: int) returns (mine: seq<Text>)
      ensures mine == EarlyTexts(early, task)
    {
      hide EarlyTexts;
      mine := [];
      EarlyNone(task);
      for i := 0 to |early|
        invariant mine == EarlyTexts(early[..i], task)
      {
        EarlyStep(early, i, task);
        if early[i].0 == task {
          mine := mine + [early[i].1];
        }
      }
      assert early[..|early|] == early;
    }

    method OnAnswer(call: Call, answer: Answer)
      modifies this
      ensures Value() == Answered(plain, old(Value()), call, answer)
    {
      hide Fail, TaskNamed;
      match call {
        case Helper =>
          if answer.Good? {
            ArmDeadline(ACTIVATE);
            AskFor(Activation);
          } else {
            FailJob();
          }
        case Activation =>
          if answer.Good? {
            job := job.(owner := true);
            AskFor(Models);
          } else {
            FailJob();
          }
        case Models =>
          if answer.Good? {
            AskFor(Idle(IDLE_ATTEMPTS));
          } else {
            FailJob();
          }
        case Idle(attempts) =>
          if answer.Good? {
            AskFor(TaskName);
          } else if answer.Busy? && attempts > 0 {
            if busy && job.owner {
              AskFor(KeepAlive);
            }
            AskFor(Pause(attempts));
          } else {
            FailJob();
          }
        case Pause(attempts) =>
          AskFor(Idle(if attempts > 0 then attempts - 1 else 0));
        case TaskName =>
          if answer.Named? {
            OnTaskNamed(answer.task, answer.seconds);
          } else {
            FailJob();
          }
        case KeepAlive =>
          if answer.Refused? {
            FailJob();
          }
      }
    }

    method OnCallback(id: nat, answer: Answer)
      requires Inv(Value()) && id in flying
      modifies this
      ensures Value() == Deliver(plain, old(Value()), id, answer) && Inv(Value())
    {
      hide Answered, Inv;
      DeliverInv(plain, Value(), id, answer);
      var callback := flying[id];
      flying := flying - {id};
      if callback.generation == generation && busy {
        OnAnswer(callback.call, answer);
      }
    }

    method OnDeadline()
      requires Inv(Value()) && left == Some(0)
      modifies this
      ensures Value() == Fail(old(Value()).(left := None)) && Inv(Value())
    {
      hide Fail, Inv;
      ExpiredInv(Value());
      left := None;
      FailJob();
    }

    method OnTextDecoded(text: Text, task: int)
      requires Inv(Value())
      modifies this
      ensures Value() == TextDecoded(old(Value()), task, text) && Inv(Value())
    {
      hide Inv;
      SignalInv(plain, Value(), task, text);
      if !busy {
        return;
      }
      if job.task < 0 {
        early := early + [(task, text)];
        return;
      }
      if task == job.task {
        job := job.(pieces := job.pieces + [text]);
      }
    }

    method OnTranscribeFinished(task: int)
      requires Inv(Value())
      modifies this
      ensures Value() == TranscribeFinished(plain, old(Value()), task) && Inv(Value())
    {
      hide Inv, Finish;
      SignalInv(plain, Value(), task, []);
      if !busy {
        return;
      }
      if job.task < 0 {
        earlyDone := earlyDone + {task};
        return;
      }
      if task == job.task {
        FinishJob();
      }
    }

    method OnServiceError()
      requires Inv(Value())
      modifies this
      ensures Value() == ServiceError(old(Value())) && Inv(Value())
    {
      hide Inv, Fail;
      FailInv(Value());
      if busy && job.owner {
        FailJob();
      }
    }
  }
}
