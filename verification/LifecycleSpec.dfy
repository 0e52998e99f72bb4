/** internal/evalevent/lifecycle.go on values: what each exported method does to
    the lifecycle's fields and to the publisher, and what every run of them keeps.

    The mutex makes each method one atomic step. Clock readings are arguments. */
module LifecycleSpec {
  import opened Wrappers
  import opened EvalEvent
  import opened RunGrammar
  import P = Publishing

  datatype LifecycleTask = LifecycleTask(task: Task, started: bool, completed: bool, startedAt: int)

  datatype LifecycleIteration = LifecycleIteration(
    iteration: Iteration, started: bool, completed: bool, startedAt: int, result: ResultCounts, completedN: nat)

  datatype LifecycleError =
    | AlreadyStarted | InvalidName | NotYetStarted | AlreadyFinished
    | InvalidPhase | PhaseOwnedByFinish | PhaseNotForward | NotExecuting
    | UnknownIteration | IterationAlreadyStarted | IterationNotActive | UnfinishedTasks
    | UnknownTask | TaskAlreadyStarted | TaskNotRunning | InvalidStatus | InvalidPassRate
    | InvalidRunStatus | UnfinishedRun | UnfinishedIteration
    | Publication(error: P.PublishError)

  /** The fields that say how far the run is. */
  datatype Run = Run(
    tasks: map<string, LifecycleTask>, iterations: map<nat, LifecycleIteration>, taskTotal: nat,
    started: bool, finished: bool, phase: RunPhase, runStartedAt: int,
    completed: nat, resultCounts: ResultCounts, activeTaskIDs: set<string>)

  /** The whole lifecycle: the run, the publisher it owns and the two facts about
      its heartbeat goroutine, that it was started and that it was asked to stop. */
  datatype State = State(
    publisher: P.PublisherState, run: Run, heartbeatStarted: bool, heartbeatStopped: bool)

  /** One call of an exported method, with the clock readings it takes. */
  datatype Call =
    | Start(engine: string, skillName: string, at: int, now: int)
    | SetPhase(phase: RunPhase, now: int)
    | Heartbeat(now: int)
    | StartIteration(number: nat, now: int)
    | StartCase(taskId: string, at: int, now: int)
    | CompleteCase(taskId: string, status: CaseStatus, passRate: PassRate, at: int, now: int)
    | CompleteIteration(number: nat, now: int)
    | Finish(finalStatus: RunStatus, now: int, at: int)
    | ClosePublisher

  function NewTasks(plan: Snapshot): map<string, LifecycleTask> {
    map id | id in plan.tasks :: LifecycleTask(plan.tasks[id], false, false, 0)
  }

  function NewIterations(plan: Snapshot): map<nat, LifecycleIteration> {
    map k | k in plan.iterations :: LifecycleIteration(plan.iterations[k], false, false, 0, NO_RESULTS, 0)
  }

  function NewRun(plan: Snapshot): Run {
    Run(NewTasks(plan), NewIterations(plan), plan.total, false, false, OtherPhase, 0, 0, NO_RESULTS, {})
  }

  function NewState(plan: Snapshot, publisher: P.PublisherState): State {
    State(publisher, NewRun(plan), false, false)
  }

  function EnsureActive(r: Run): Option<LifecycleError> {
    if !r.started then Some(NotYetStarted)
    else if r.finished then Some(AlreadyFinished)
    else None
  }

  function EnsureExecuting(r: Run): Option<LifecycleError> {
    if EnsureActive(r).Some? then EnsureActive(r)
    else if r.phase != Executing then Some(NotExecuting)
    else None
  }

  /** taskFields, with the lifecycle's own total. */
  function Fields(r: Run, task: Task): TaskFields {
    TaskFields(task.id, task.iteration, task.caseId, task.configuration, task.index, r.taskTotal, task.title)
  }

  /** The check each method makes before it changes anything. */
  function Refusal(r: Run, c: Call): Option<LifecycleError>
    requires TasksHaveIterations(r)
  {
    match c
    case Start(engine, skillName, _, _) =>
      if r.started then Some(AlreadyStarted)
      else if !NonEmptyString(engine) || !NonEmptyString(skillName) then Some(InvalidName)
      else None
    case SetPhase(phase, _) =>
      if EnsureActive(r).Some? then EnsureActive(r)
      else if !ValidPhase(phase) then Some(InvalidPhase)
      else if phase == Finalizing then Some(PhaseOwnedByFinish)
      else if PhaseRank(phase) <= PhaseRank(r.phase) then Some(PhaseNotForward)
      else None
    case Heartbeat(_) => EnsureActive(r)
    case StartIteration(k, _) =>
      if EnsureExecuting(r).Some? then EnsureExecuting(r)
      else if k !in r.iterations then Some(UnknownIteration)
      else if r.iterations[k].started then Some(IterationAlreadyStarted)
      else None
    case StartCase(id, _, _) =>
      if EnsureExecuting(r).Some? then EnsureExecuting(r)
      else if id !in r.tasks then Some(UnknownTask)
      else if !r.iterations[r.tasks[id].task.iteration].started || r.iterations[r.tasks[id].task.iteration].completed
      then Some(IterationNotActive)
      else if r.tasks[id].started then Some(TaskAlreadyStarted)
      else None
    case CompleteCase(id, status, passRate, _, _) =>
      if EnsureExecuting(r).Some? then EnsureExecuting(r)
      else if !ValidCaseStatus(status) then Some(InvalidStatus)
      else if !ValidPassRate(passRate) then Some(InvalidPassRate)
      else if id !in r.tasks then Some(UnknownTask)
      else if !r.tasks[id].started || r.tasks[id].completed then Some(TaskNotRunning)
      else None
    case CompleteIteration(k, _) =>
      if EnsureExecuting(r).Some? then EnsureExecuting(r)
      else if k !in r.iterations then Some(UnknownIteration)
      else if !r.iterations[k].started || r.iterations[k].completed then Some(IterationNotActive)
      else if r.iterations[k].completedN != |r.iterations[k].iteration.tasks| then Some(UnfinishedTasks)
      else None
    case Finish(status, _, _) =>
      if EnsureActive(r).Some? then EnsureActive(r)
      else if !ValidRunStatus(status) then Some(InvalidRunStatus)
      else if status == Completed && r.completed != r.taskTotal then Some(UnfinishedRun)
      else if status == Completed && (exists k :: k in r.iterations && !r.iterations[k].completed)
      then Some(UnfinishedIteration)
      else None
    case ClosePublisher => None
  }

  /** Every task's iteration is one of the plan's, so looking it up cannot fail. */
  ghost predicate TasksHaveIterations(r: Run) {
    forall id :: id in r.tasks ==> r.tasks[id].task.iteration in r.iterations
  }

  /** The fields after a call that is not refused. They change before anything is
      published, and stay changed when publication fails. */
  function Mutated(r: Run, c: Call): (t: Run)
    requires TasksHaveIterations(r) && Refusal(r, c).None?
    ensures TasksHaveIterations(t)
  {
    match c
    case Start(_, _, at, _) => r.(started := true, phase := Preparing, runStartedAt := at)
    case SetPhase(phase, _) => r.(phase := phase)
    case Heartbeat(_) => r
    case StartIteration(k, now) =>
      r.(iterations := r.iterations[k := r.iterations[k].(started := true, startedAt := now)])
    case StartCase(id, at, _) =>
      r.(tasks := r.tasks[id := r.tasks[id].(started := true, startedAt := at)],
         activeTaskIDs := r.activeTaskIDs + {id})
    case CompleteCase(id, status, _, _, _) =>
      var k := r.tasks[id].task.iteration;
      var iteration := r.iterations[k].(completedN := r.iterations[k].completedN + 1,
                                        result := r.iterations[k].result.Add(status));
      r.(tasks := r.tasks[id := r.tasks[id].(completed := true)],
         activeTaskIDs := r.activeTaskIDs - {id},
         completed := r.completed + 1, resultCounts := r.resultCounts.Add(status),
         iterations := r.iterations[k := iteration])
    case CompleteIteration(k, _) =>
      r.(iterations := r.iterations[k := r.iterations[k].(completed := true)])
    case Finish(_, _, _) =>
      r.(phase := Finalizing, activeTaskIDs := {}, finished := true)
    case ClosePublisher => r
  }

  /** The event a call announces, besides the snapshots. */
  function Announcement(r: Run, c: Call): Payload
    requires TasksHaveIterations(r) && Refusal(r, c).None?
    requires !c.SetPhase? && !c.Heartbeat? && !c.ClosePublisher?
  {
    match c
    case Start(engine, skillName, _, _) => RunStarted(engine, skillName, r.taskTotal, |r.iterations|)
    case StartIteration(k, _) => IterationStarted(k)
    case StartCase(id, _, _) => CaseStarted(Fields(r, r.tasks[id].task))
    case CompleteCase(id, status, passRate, at, _) =>
      CaseCompleted(Fields(r, r.tasks[id].task), r.completed + 1, status, passRate,
                    ElapsedMS(r.tasks[id].startedAt, at))
    case CompleteIteration(k, now) =>
      IterationCompleted(r.iterations[k].result, k, r.completed, ElapsedMS(r.iterations[k].startedAt, now))
    case Finish(status, _, at) =>
      RunFinished(r.resultCounts, status, r.completed, ElapsedMS(r.runStartedAt, at))
  }

  function ProgressPayload(r: Run, now: int): Payload {
    RunProgress(r.resultCounts, r.phase, r.taskTotal, r.completed, |r.activeTaskIDs|, ElapsedMS(r.runStartedAt, now))
  }

  type Outcome = (P.PublisherState, Option<P.PublishError>)

  function PublishProgress(p: P.PublisherState, r: Run, now: int): Outcome {
    P.PublishEvent(p, ProgressPayload(r, now), false)
  }

  /** Publish an event and, only if that succeeds, a progress snapshot. */
  function PublishWithProgress(p: P.PublisherState, r: Run, payload: Payload, now: int): Outcome {
    var (q, err) := P.PublishEvent(p, payload, false);
    if err.Some? then (q, err) else PublishProgress(q, r, now)
  }

  /** Publish the final snapshot and the last event; the first error counts. */
  function PublishFinish(p: P.PublisherState, r: Run, payload: Payload, now: int): Outcome {
    var (q, progressErr) := PublishProgress(p, r, now);
    var (w, finishedErr) := P.PublishEvent(q, payload, true);
    (w, if progressErr.Some? then progressErr else finishedErr)
  }

  /** What a call that is not refused publishes, given the fields r it leaves. */
  function Publications(s: State, r: Run, c: Call): Outcome
    requires TasksHaveIterations(s.run) && Refusal(s.run, c).None?
  {
    match c
    case Start(_, _, _, now) => PublishWithProgress(s.publisher, r, Announcement(s.run, c), now)
    case SetPhase(_, now) => PublishProgress(s.publisher, r, now)
    case Heartbeat(now) => PublishProgress(s.publisher, r, now)
    case StartIteration(_, _) => P.PublishEvent(s.publisher, Announcement(s.run, c), false)
    case StartCase(_, _, now) => PublishWithProgress(s.publisher, r, Announcement(s.run, c), now)
    case CompleteCase(_, _, _, _, now) => PublishWithProgress(s.publisher, r, Announcement(s.run, c), now)
    case CompleteIteration(_, _) => P.PublishEvent(s.publisher, Announcement(s.run, c), false)
    case Finish(_, now, _) => PublishFinish(s.publisher, r, Announcement(s.run, c), now)
    case ClosePublisher => P.ClosePublisher(s.publisher)
  }

  /** A call: refused, or performed. Finish asks the heartbeat to stop even when it
      is refused; every publication error does so too. Only a Start that succeeds
      starts the heartbeat. */
  function Step(s: State, c: Call): (r: (State, Option<LifecycleError>))
    requires TasksHaveIterations(s.run)
    ensures TasksHaveIterations(r.0.run)
  {
    var refusal := Refusal(s.run, c);
    if refusal.Some? then (s.(heartbeatStopped := s.heartbeatStopped || c.Finish?), refusal)
    else
      var r := Mutated(s.run, c);
      var (p, err) := Publications(s, r, c);
      (State(p, r,
             s.heartbeatStarted || (c.Start? && err.None?),
             s.heartbeatStopped || c.Finish? || (err.Some? && !c.ClosePublisher?)),
       if err.Some? then Some(Publication(err.value)) else None)
  }

  /** The state after a list of calls. */
  function Execute(s: State, calls: seq<Call>): (t: State)
    requires TasksHaveIterations(s.run)
    ensures TasksHaveIterations(t.run)
  {
    if calls == [] then s else Step(Execute(s, calls[..|calls| - 1]), calls[|calls| - 1]).0
  }
}
