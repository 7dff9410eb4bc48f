/** Every way a transcript job begins, moves on and ends, and what it leaves behind. */
module TranscriptTurns {
  import opened VoiceTranscripts

  // ------------------------------------------------ how a job begins

  predicate Accepts(v: State, event: nat) { event !in v.states || v.states[event] == Failed }

  /** The jobs that wait once a step has asked for one or posted a call has come. */
  function Awaiting(v: State, s: Step): seq<Job> {
    match s
    case Requested(event, key, fit, _) =>
      if Accepts(v, event) && fit then v.queue + [Job(event, key, false, false, false, [], -1)] else []
    case CheckAsked(_) => if v.check == CheckRunning then [] else v.queue + [Job(0, 0, true, false, false, [], -1)]
    case Woken(_) => v.queue
    case _ => []
  }

  /** Whether the clip of a check can be used, which the step finds out. */
  predicate Usable(s: Step) { (s.Requested? || s.CheckAsked? || s.Woken?) && s.usable }

  /** Nothing begins beside a running job. Otherwise the first that waits does, under a new
      generation: a message's waits two minutes for its file, a check has its helper started,
      for two and a half, or fails where the clip cannot be used. */
  lemma BeginsExactly(plain: Plain, v: State, s: Step)
    requires Inv(v) && Possible(v, s) && !v.busy
    ensures var w, jobs := Apply(plain, v, s), Awaiting(v, s);
      if jobs == [] then !w.busy && w.taken == v.taken
      else
        var usable := Usable(s);
        && w.taken == v.taken + [jobs[0]] && w.queue == jobs[1..] && w.generation > v.generation
        && (w.busy <==> !jobs[0].check || usable)
        && (w.busy && !jobs[0].check ==>
              w.job == jobs[0].(media := false) && w.left == Some(120000) && AtStage(w, None))
        && (w.busy && jobs[0].check ==>
              w.job == jobs[0].(media := true) && w.left == Some(150000) && AtStage(w, Some(Helper)))
        && (if w.busy then w.arms == 1 && w.spent == 0 else w.check == CheckFailed)
  {
    hide Books, Stages, Awake, Untouched, AtStage, Next, Stamped;
    StagesHold(v);
    NoneBegins(Before(v, s), s.Woken? && s.usable);
    if Awaiting(v, s) != [] {
      var q := Before(v, s);
      SameStamps(v, q);
      NextBegins(q, Usable(s));
    }
  }

  lemma NoneBegins(v: State, usable: bool)
    ensures v.queue == [] ==> Next(v, usable) == v
  {
  }

  lemma SameStamps(v: State, q: State)
    requires Stamped(v) && !v.busy && q.flying == v.flying && q.generation == v.generation && q.nextId == v.nextId
    requires !q.busy
    ensures Stamped(q)
  {
  }

  lemma NextBegins(q: State, usable: bool)
    requires !q.busy && q.queue != [] && Stamped(q)
    ensures var w, job := Next(q, usable), q.queue[0];
      && w.taken == q.taken + [job] && w.queue == q.queue[1..] && w.generation > q.generation
      && (w.busy <==> !job.check || usable)
      && (w.busy && !job.check ==> w.job == job.(media := false) && w.left == Some(120000) && AtStage(w, None))
      && (w.busy && job.check ==> w.job == job.(media := true) && w.left == Some(150000) && AtStage(w, Some(Helper)))
      && (if w.busy then w.arms == 1 && w.spent == 0 else w.check == CheckFailed)
  {
    hide AtStage, Fail, Stamped;
    TakenStage(q);
    if q.queue[0].check {
      AskReaches(Taken(q), Arm(Taken(q), DECODE), Helper);
      FailedCheck(Taken(q));
    }
  }

  /** The state in which the next job is called. */
  function Before(v: State, s: Step): State {
    match s
    case Requested(event, key, _, _) =>
      Queued(Marked(v.(texts := v.texts - {event}), event, Working), Job(event, key, false, false, false, [], -1))
    case CheckAsked(_) => Queued(v.(check := CheckRunning), NoJob.(check := true))
    case Woken(_) => if v.wakes > 0 then v.(wakes := v.wakes - 1) else v
    case _ => v
  }

  lemma TakenStage(v: State)
    requires v.queue != [] && Stamped(v)
    ensures Stamped(Taken(v)) && NoneCurrent(Taken(v))
    ensures AtStage(Taken(v), None) && AtStage(Arm(Taken(v), DOWNLOAD), None)
  {
    var w, x := Taken(v), Arm(Taken(v), DOWNLOAD);
    assert forall i :: i in w.flying ==> w.flying[i].generation < w.generation;
    assert forall i :: !Current(w, i) && !Current(x, i);
  }

  lemma FailedCheck(v: State)
    requires v.busy && v.job.check
    ensures !Fail(v).busy && Fail(v).check == CheckFailed && Fail(v).queue == v.queue && Fail(v).taken == v.taken
    ensures Fail(v).generation > v.generation
  {
  }

  // ------------------------------------------------ requests

  /** A message that is working or done is left alone. One that fits joins the queue as
      working, one that does not is marked failed; either way its old text is gone, and no
      other message is touched. */
  lemma RequestExactly(v: State, event: nat, key: nat, fit: bool, usable: bool)
    ensures var w := Transcribe(v, event, key, fit, usable);
      if !Accepts(v, event) then w == v
      else
        && w.states == v.states[event := if fit then Working else Failed]
        && w.texts == v.texts - {event}
        && w.asked == (if fit then v.asked + [Job(event, key, false, false, false, [], -1)] else v.asked)
        && (!fit || v.busy ==> w.check == v.check && w.job == v.job && w.flying == v.flying)
  {
    NextLeaves(Before(v, Requested(event, key, fit, usable)), usable);
    hide Next;
  }

  /** Calling the next job changes no message, nor what was asked for. */
  lemma NextLeaves(v: State, usable: bool)
    ensures var w := Next(v, usable);
      && w.states == v.states && w.texts == v.texts && w.asked == v.asked
      && (v.busy ==> w == v)
  {
  }

  /** One check at a time. */
  lemma CheckExactly(v: State, usable: bool)
    ensures var w := Check(v, usable);
      if v.check == CheckRunning then w == v
      else
        && w.states == v.states && w.texts == v.texts
        && w.asked == v.asked + [Job(0, 0, true, false, false, [], -1)]
        && (v.busy || v.queue != [] ==> w.check == CheckRunning || (!v.busy && v.queue[0].check))
  {
    NextLeaves(Before(v, CheckAsked(usable)), usable);
  }

  // ------------------------------------------------ how it moves on

  /** The file of the running job, and no other, starts the decoder, for two and a half
      minutes; a file that cannot be used fails the job. */
  lemma MediaExactly(v: State, key: nat, usable: bool)
    requires Inv(v)
    ensures var w := MediaArrived(v, key, usable);
      if v.busy && !v.job.check && !v.job.media && key == v.job.key
      then if usable
           then
             && w.busy && w.job == v.job.(media := true) && w.left == Some(150000) && AtStage(w, Some(Helper))
             && w.arms == v.arms + 1 && w.spent == v.spent
           else !w.busy && w.states == v.states[v.job.event := Failed] && AtStage(w, None)
      else w == v
  {
    hide Books, Stages, Awake, Untouched, AtStage, Fail;
    if v.busy && !v.job.check && !v.job.media && key == v.job.key {
      var w := v.(job := v.job.(media := true));
      AwaitingFile(v);
      AskReaches(v, Arm(w, DECODE), Helper);
      FailReaches(w);
      FailedEvent(w);
    }
  }

  lemma AwaitingFile(v: State)
    requires Inv(v) && v.busy && !v.job.media
    ensures NoneCurrent(v) && Stamped(v.(job := v.job.(media := true)))
  {
    StagesHold(v);
    hide Books, Awake, Untouched;
  }

  lemma FailedEvent(v: State)
    requires v.busy && !v.job.check
    ensures !Fail(v).busy && Fail(v).states == v.states[v.job.event := Failed]
  {
  }

  predicate Heeded(v: State, id: nat) { id in v.flying && v.flying[id].generation == v.generation && v.busy }

  /** The answers under which the job cannot go on. */
  predicate Refuses(call: Call, answer: Answer) {
    match call
    case Helper => !answer.Good?
    case Activation => !answer.Good?
    case Models => !answer.Good?
    case Idle(left) => !answer.Good? && (!answer.Busy? || left == 0)
    case Pause(_) => false
    case TaskName => !answer.Named? || answer.task < 0
    case KeepAlive => answer.Refused?
  }

  /** The seconds named, at least one, at three seconds each and a minute on top, up to ten
      minutes. */
  function Limit(seconds: nat): nat {
    if seconds <= 1 then 63000 else if seconds >= 180 then 600000 else 60000 + 3000 * seconds
  }

  /** What an answer that lets the job go on changes: the helper's gives thirty seconds, the
      service's makes the job its owner, the last gives it its task, the texts that came
      early, and the time those seconds take; a busy service is kept alive and asked again, up
      to twenty times. */
  lemma GoesOn(plain: Plain, v: State, id: nat, answer: Answer)
    requires Heeded(v, id) && !Refuses(v.flying[id].call, answer)
    requires v.flying[id].call.TaskName? ==> answer.task !in v.earlyDone
    ensures Went(v, Deliver(plain, v, id, answer), v.flying[id].call, answer)
  {
    hide Went, EarlyTexts, Finish, Fail;
    var u := v.(flying := v.flying - {id});
    if v.flying[id].call.TaskName? {
      NamedWent(plain, v, u, answer);
    } else {
      hide TaskNamed;
      OthersWent(plain, v, u, v.flying[id].call, answer);
    }
  }

  predicate Went(v: State, w: State, call: Call, answer: Answer) {
    && w.busy && w.generation == v.generation && w.states == v.states && w.texts == v.texts && w.check == v.check
    && w.ticking == (v.ticking || call.TaskName?)
    && w.arms == v.arms + (if call.Helper? || call.TaskName? then 1 else 0) && w.spent == v.spent
    && w.left == (if call.Helper? then Some(30000)
                  else if call.TaskName? && answer.Named? then Some(Limit(answer.seconds)) else v.left)
    && w.job == v.job.(
         owner := v.job.owner || call.Activation?,
         task := if call.TaskName? && answer.Named? then answer.task else v.job.task,
         pieces := v.job.pieces + if call.TaskName? && answer.Named? then EarlyTexts(v.early, answer.task) else [])
  }

  lemma NamedWent(plain: Plain, v: State, u: State, answer: Answer)
    requires u == v.(flying := u.flying) && v.busy && answer.Named? && answer.task >= 0 && answer.task !in v.earlyDone
    ensures Went(v, Answered(plain, u, TaskName, answer), TaskName, answer)
  {
    hide EarlyTexts, Finish, Fail;
  }

  lemma OthersWent(plain: Plain, v: State, u: State, call: Call, answer: Answer)
    requires u == v.(flying := u.flying) && v.busy && !call.TaskName? && !Refuses(call, answer)
    ensures Went(v, Answered(plain, u, call, answer), call, answer)
  {
    hide EarlyTexts, Finish, Fail, TaskNamed;
    assert v.job.pieces + [] == v.job.pieces;
  }

  /** A busy service is kept alive and asked again, up to twenty times. */
  lemma AsksAgain(plain: Plain, v: State, id: nat, answer: Answer)
    requires Heeded(v, id) && !Refuses(v.flying[id].call, answer)
    ensures var w, call := Deliver(plain, v, id, answer), v.flying[id].call;
      && (call.Models? ==> Flies(w, v.generation, Idle(20)))
      && (call.Idle? && answer.Busy? ==>
            Flies(w, v.generation, Pause(call.left)) && (v.job.owner ==> Flies(w, v.generation, KeepAlive)))
      && (call.Pause? ==> Flies(w, v.generation, Idle(if call.left > 0 then call.left - 1 else 0)))
  {
    var u, call := v.(flying := v.flying - {id}), v.flying[id].call;
    match call {
      case Models => AskFlies(u, Idle(20));
      case Idle(left) =>
        if answer.Busy? {
          var kept := KeptAlive(u);
          AskFlies(kept, Pause(left));
          if v.job.owner {
            StillFlies(kept, u.nextId, Pause(left));
          }
        }
      case Pause(left) => AskFlies(u, Idle(if left > 0 then left - 1 else 0));
      case _ =>
    }
    hide Flies, Ask, Finish, Fail, TaskNamed;
  }

  ghost predicate Flies(v: State, generation: nat, call: Call) {
    exists i :: i in v.flying && v.flying[i] == Callback(generation, call)
  }

  lemma AskFlies(v: State, call: Call)
    ensures Flies(Ask(v, call), v.generation, call)
  {
    assert Ask(v, call).flying[v.nextId] == Callback(v.generation, call);
  }

  lemma StillFlies(v: State, i: nat, call: Call)
    requires i in v.flying && i != v.nextId
    ensures Flies(Ask(v, call), v.flying[i].generation, v.flying[i].call)
  {
    assert Ask(v, call).flying[i] == v.flying[i];
  }

  /** Time passes for the job and its deadline alike, and does nothing else. */
  lemma TimePasses(plain: Plain, v: State, ms: nat)
    requires Possible(v, Elapsed(ms))
    ensures var w := Apply(plain, v, Elapsed(ms));
      && w == v.(spent := v.spent + ms, left := w.left)
      && (if v.left.Some? then w.left.Some? && w.left.value + ms == v.left.value else w.left == None)
  {
  }

  /** The service is kept alive exactly by a job that has it. */
  lemma KeptAliveExactly(v: State)
    ensures KeptAlive(v) ==
      if v.busy && v.job.owner
      then v.(flying := v.flying[v.nextId := Callback(v.generation, KeepAlive)], nextId := v.nextId + 1)
      else v
  {
  }

  // ------------------------------------------------ how it ends, and with what

  predicate EndsWell(v: State, s: Step) {
    match s
    case Finished(task) => v.job.task >= 0 && task == v.job.task
    case Delivered(id, answer) =>
      Heeded(v, id) && v.flying[id].call.TaskName? && answer.Named? && answer.task >= 0 && answer.task in v.earlyDone
    case _ => false
  }

  predicate EndsBadly(v: State, s: Step) {
    match s
    case Expired => true
    case ServiceFailed => v.job.owner
    case Media(key, usable) => !v.job.check && !v.job.media && key == v.job.key && !usable
    case Delivered(id, answer) => Heeded(v, id) && Refuses(v.flying[id].call, answer)
    case _ => false
  }

  lemma EndsExactly(plain: Plain, v: State, s: Step)
    requires Inv(v) && Possible(v, s) && v.busy
    ensures !Apply(plain, v, s).busy <==> EndsWell(v, s) || EndsBadly(v, s) || s.Cleared?
  {
    hide Inv, EarlyTexts;
    if s.Delivered? {
      AnswerEnds(plain, v, s.id, s.answer);
      hide Deliver;
    } else {
      hide Deliver, TaskNamed;
    }
  }

  lemma AnswerEnds(plain: Plain, v: State, id: nat, answer: Answer)
    requires id in v.flying && v.busy
    ensures !Deliver(plain, v, id, answer).busy <==>
      Heeded(v, id) &&
      (Refuses(v.flying[id].call, answer) || (v.flying[id].call.TaskName? && answer.task in v.earlyDone))
  {
    hide EarlyTexts, Went;
    if Heeded(v, id) {
      if Refuses(v.flying[id].call, answer) || (v.flying[id].call.TaskName? && answer.task in v.earlyDone) {
        EndsOnAnswer(plain, v, id, answer);
      } else {
        GoesOn(plain, v, id, answer);
        WentLeaves(v, Deliver(plain, v, id, answer), v.flying[id].call, answer);
      }
    }
    hide Answered;
  }

  /** The pieces of a job that ends well. */
  function PiecesOf(v: State, s: Step): seq<Text> {
    match s
    case Delivered(_, answer) => v.job.pieces + if answer.Named? then EarlyTexts(v.early, answer.task) else []
    case _ => v.job.pieces
  }

  /** What a job leaves behind: for a check its result, for a message its text, done, or
      failed without one; a sign-out leaves no word and no text of any message. */
  lemma LeavesBehind(plain: Plain, v: State, s: Step)
    requires Inv(v) && Possible(v, s) && v.busy && !Apply(plain, v, s).busy
    ensures var w, text, e := Apply(plain, v, s), plain(PiecesOf(v, s)), v.job.event;
      if s.Cleared? then w.states == map[] && w.texts == map[] && w.check == v.check && w.queue == []
      else if v.job.check
      then
        w.check == (if EndsWell(v, s) then CheckOk else CheckFailed) && w.states == v.states && w.texts == v.texts
      else if EndsWell(v, s) && text != []
      then w.states == v.states[e := Done] && w.texts == v.texts[e := text] && w.check == v.check
      else w.states == v.states[e := Failed] && w.texts == v.texts && w.check == v.check
  {
    hide Inv, EarlyTexts, Apply, EndsWell, EndsBadly, Ending, Fail, Finish;
    EndsExactly(plain, v, s);
    if !s.Cleared? {
      EndsAs(plain, v, s);
      FailLeaves(Ending(v, s));
      FinishLeaves(plain, Ending(v, s));
    } else {
      ClearLeaves(plain, v, s);
    }
  }

  /** The job as its end finds it. */
  function Ending(v: State, s: Step): State {
    match s
    case Expired => v.(left := None)
    case Media(_, _) => v.(job := v.job.(media := true))
    case Delivered(id, answer) =>
      var w := v.(flying := v.flying - {id});
      if id in v.flying && v.flying[id].call.TaskName? && answer.Named? && answer.task >= 0
      then
        var x := Arm(w.(ticking := true), RecogniseLimit(answer.seconds));
        x.(job := x.job.(task := answer.task, pieces := x.job.pieces + EarlyTexts(x.early, answer.task)), early := [])
      else w
    case _ => v
  }

  lemma EndsAs(plain: Plain, v: State, s: Step)
    requires Possible(v, s) && v.busy && (EndsWell(v, s) || EndsBadly(v, s))
    ensures Apply(plain, v, s) == if EndsWell(v, s) then Finish(plain, Ending(v, s)) else Fail(Ending(v, s))
    ensures var u := Ending(v, s);
      && u.busy && u.job.event == v.job.event && u.job.check == v.job.check && u.states == v.states
      && u.texts == v.texts && u.check == v.check && u.generation == v.generation && u.wakes == v.wakes
      && u.queue == v.queue && (forall i :: i in u.flying ==> i in v.flying && u.flying[i] == v.flying[i])
      && (EndsWell(v, s) ==> u.job.pieces == PiecesOf(v, s))
  {
    hide EarlyTexts, Fail, Finish;
  }

  predicate Bare(v: State, w: State) {
    && !w.busy && w.job == NoJob && w.left == None && !w.ticking && w.early == [] && w.earlyDone == {}
    && w.generation == v.generation + 1 && w.wakes == v.wakes + 1 && w.flying == v.flying
  }

  lemma FailLeaves(v: State)
    requires v.busy
    ensures var w := Fail(v);
      && Bare(v, w) && w.texts == v.texts
      && w.check == (if v.job.check then CheckFailed else v.check)
      && w.states == if v.job.check then v.states else v.states[v.job.event := Failed]
  {
  }

  lemma FinishLeaves(plain: Plain, v: State)
    ensures var w, text := Finish(plain, v), plain(v.job.pieces);
      && Bare(v, w) && w.check == (if v.job.check then CheckOk else v.check)
      && w.texts == (if !v.job.check && text != [] then v.texts[v.job.event := text] else v.texts)
      && w.states == if v.job.check then v.states
                     else v.states[v.job.event := if text == [] then Failed else Done]
  {
  }

  lemma ClearLeaves(plain: Plain, v: State, s: Step)
    requires Possible(v, s) && s.Cleared?
    ensures var w := Apply(plain, v, s);
      && w.states == map[] && w.texts == map[] && w.check == v.check && w.queue == []
      && (v.busy ==> Bare(v, w))
  {
  }

  /** And nothing of itself: no deadline, no texts of its task, no callback that still counts;
      the next job is called. */
  lemma LeavesNothing(plain: Plain, v: State, s: Step)
    requires Inv(v) && Possible(v, s) && v.busy && !Apply(plain, v, s).busy
    ensures var w := Apply(plain, v, s);
      && w.job == NoJob && w.left == None && !w.ticking && w.early == [] && w.earlyDone == {}
      && w.wakes == v.wakes + 1 && forall i :: i in w.flying ==> w.flying[i].generation < w.generation
  {
    hide Inv, EarlyTexts, Apply, EndsWell, EndsBadly, Ending, Fail, Finish, PiecesOf;
    StampsPast(v);
    EndsExactly(plain, v, s);
    if !s.Cleared? {
      EndsAs(plain, v, s);
      FailLeaves(Ending(v, s));
      FinishLeaves(plain, Ending(v, s));
    } else {
      ClearLeaves(plain, v, s);
    }
  }

  lemma StampsPast(v: State)
    requires Inv(v)
    ensures forall i :: i in v.flying ==> v.flying[i].generation <= v.generation
  {
    StagesHold(v);
  }

  // ------------------------------------------------ texts and words agree

  /** A message has a text exactly if it is done. */
  ghost predicate Agreed(v: State) {
    && (forall e :: e in v.texts <==> e in v.states && v.states[e] == Done)
    && (forall e :: e in v.texts ==> v.texts[e] != [])
  }

  lemma WorkingHasNoText(v: State)
    requires Inv(v) && Agreed(v) && v.busy && !v.job.check
    ensures v.job.event !in v.texts
  {
    assert Jobs(v.queue, v.job.event) + Running(v, v.job.event) == if IsWorking(v, v.job.event) then 1 else 0;
    hide Stages, Awake, Untouched;
  }

  lemma StepKeepsAgreed(plain: Plain, v: State, s: Step)
    requires Inv(v) && Possible(v, s) && Agreed(v)
    ensures Agreed(Apply(plain, v, s))
  {
    hide Inv, Apply, PiecesOf;
    if s.Requested? {
      RequestExactly(v, s.event, s.key, s.fit, s.usable);
      Requests(plain, v, s);
    } else if v.busy && !Apply(plain, v, s).busy {
      if !v.job.check {
        WorkingHasNoText(v);
      }
      LeavesBehind(plain, v, s);
    } else {
      OthersLeave(plain, v, s);
    }
  }

  lemma Requests(plain: Plain, v: State, s: Step)
    requires Possible(v, s) && s.Requested?
    ensures Apply(plain, v, s) == Transcribe(v, s.event, s.key, s.fit, s.usable)
  {
  }

  lemma OthersLeave(plain: Plain, v: State, s: Step)
    requires Inv(v) && Possible(v, s) && !s.Requested? && (v.busy ==> Apply(plain, v, s).busy)
    ensures var w := Apply(plain, v, s);
      (w.states == v.states && w.texts == v.texts) || (s.Cleared? && w.states == map[] && w.texts == map[])
  {
    if s.Delivered? {
      DeliveredLeaves(plain, v, s.id, s.answer);
      hide Deliver;
    } else {
      NextLeaves(Before(v, s), if s.CheckAsked? || s.Woken? then s.usable else false);
      hide Next;
    }
  }

  lemma DeliveredLeaves(plain: Plain, v: State, id: nat, answer: Answer)
    requires id in v.flying && (v.busy ==> Deliver(plain, v, id, answer).busy)
    ensures var w := Deliver(plain, v, id, answer); w.states == v.states && w.texts == v.texts
  {
    var u := v.(flying := v.flying - {id});
    hide EarlyTexts, Went;
    if Heeded(v, id) {
      if Refuses(v.flying[id].call, answer) || (v.flying[id].call.TaskName? && answer.task in v.earlyDone) {
        EndsOnAnswer(plain, v, id, answer);
      } else {
        GoesOn(plain, v, id, answer);
        WentLeaves(v, Deliver(plain, v, id, answer), v.flying[id].call, answer);
      }
    }
    hide Answered;
  }

  lemma EndsOnAnswer(plain: Plain, v: State, id: nat, answer: Answer)
    requires Heeded(v, id)
    requires Refuses(v.flying[id].call, answer) || (v.flying[id].call.TaskName? && answer.task in v.earlyDone)
    ensures !Deliver(plain, v, id, answer).busy
  {
    hide EarlyTexts;
  }

  lemma WentLeaves(v: State, w: State, call: Call, answer: Answer)
    requires Went(v, w, call, answer)
    ensures w.states == v.states && w.texts == v.texts && w.check == v.check && w.busy
  {
  }

  lemma {:induction false} RunAgrees(plain: Plain, v: State, steps: seq<Step>, w: State)
    requires Inv(v) && Agreed(v)
    requires Reaches(plain, v, steps, w)
    ensures Agreed(w)
    decreases |steps|
  {
    hide Inv, Apply, Possible, Agreed;
    if steps != [] {
      StepKeepsInv(plain, v, steps[0]);
      StepKeepsAgreed(plain, v, steps[0]);
      RunAgrees(plain, Apply(plain, v, steps[0]), steps[1..], w);
    }
  }

  /** After every run a message has a text, and one with something in it, exactly if it is
      done. */
  lemma DoneHasText(plain: Plain, steps: seq<Step>, v: State)
    requires Reaches(plain, Start, steps, v)
    ensures forall e :: e in v.texts <==> e in v.states && v.states[e] == Done
    ensures forall e :: e in v.texts ==> v.texts[e] != []
  {
    assert Inv(Start) && Agreed(Start);
    hide Inv, Reaches;
    RunAgrees(plain, Start, steps, v);
  }
}
