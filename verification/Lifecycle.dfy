/** internal/evalevent/lifecycle.go: the lifecycle object. Each method is proved to
    be the step of LifecycleSpec that carries its name, so that everything proved
    there about runs is proved about objects of this class. */
module Lifecycles {
  import opened Wrappers
  import opened EvalEvent
  import opened RunGrammar
  import opened LifecycleSpec
  import opened PlanSnapshots
  import P = Publishing

  const DEFAULT_HEARTBEAT_INTERVAL: int := 30_000_000_000

  datatype NewError = NilPublisher | BadPlan(error: PlanError) | NegativeInterval

  /** One atomic call each: every method holds the mutex from its start to its end. */
  class Lifecycle {
    const publisher: P.Publisher
    const interval: int
    const taskTotal: nat
    var tasks: map<string, LifecycleTask>
    var iterations: map<nat, LifecycleIteration>
    var started: bool
    var finished: bool
    var phase: RunPhase
    var runStartedAt: int
    var completed: nat
    var resultCounts: ResultCounts
    var activeTaskIDs: set<string>
    var heartbeatStarted: bool
    var heartbeatStopped: bool

    ghost function RunState(): Run
      reads this
    {
      Run(tasks, iterations, taskTotal, started, finished, phase, runStartedAt, completed, resultCounts, activeTaskIDs)
    }

    ghost function Value(): State
      reads this, publisher, publisher.sink
    {
      State(publisher.Value(), RunState(), heartbeatStarted, heartbeatStopped)
    }

    /** The map lookup of a task's iteration never fails. */
    ghost predicate Valid()
      reads this
    {
      TasksHaveIterations(RunState())
    }

    constructor (publisher: P.Publisher, plan: Planned, interval: int)
      ensures this.publisher == publisher && this.interval == interval
      ensures Value() == State(publisher.Value(),
                               Run(plan.tasks, plan.iterations, plan.total, false, false, OtherPhase, 0, 0, NO_RESULTS,
                                   {}),
                               false, false)
    {
      this.publisher, this.interval, taskTotal := publisher, interval, plan.total;
      tasks, iterations := plan.tasks, plan.iterations;
      started, finished, phase, runStartedAt := false, false, OtherPhase, 0;
      completed, resultCounts, activeTaskIDs := 0, NO_RESULTS, {};
      heartbeatStarted, heartbeatStopped := false, false;
    }

    method EnsureActiveLocked() returns (err: Option<LifecycleError>)
      ensures err == EnsureActive(RunState())
    {
      if !started { return Some(NotYetStarted); }
      if finished { return Some(AlreadyFinished); }
      return None;
    }

    method EnsureExecutingLocked() returns (err: Option<LifecycleError>)
      ensures err == EnsureExecuting(RunState())
    {
      err := EnsureActiveLocked();
      if err.Some? { return; }
      if phase != Executing { return Some(NotExecuting); }
    }

    /** publishLocked and publishLastLocked: any error asks the heartbeat to stop. */
    method PublishLocked(payload: Payload, last: bool) returns (err: Option<P.PublishError>)
      modifies this`heartbeatStopped, publisher, publisher.sink
      ensures (publisher.Value(), err) == P.PublishEvent(old(publisher.Value()), payload, last)
      ensures heartbeatStopped == (old(heartbeatStopped) || err.Some?)
    {
      err := publisher.Publish(payload, last);
      if err.Some? { heartbeatStopped := true; }
    }

    method PublishProgressLocked(now: int) returns (err: Option<P.PublishError>)
      modifies this`heartbeatStopped, publisher, publisher.sink
      ensures (publisher.Value(), err) == PublishProgress(old(publisher.Value()), old(RunState()), now)
      ensures heartbeatStopped == (old(heartbeatStopped) || err.Some?)
    {
      var payload := RunProgress(resultCounts, phase, taskTotal, completed, |activeTaskIDs|,
                                 ElapsedMS(runStartedAt, now));
      err := PublishLocked(payload, false);
    }

    /** publishLocked and then, unless that failed, publishProgressLocked. */
    method PublishAndRefresh(payload: Payload, now: int) returns (err: Option<P.PublishError>)
      modifies this`heartbeatStopped, publisher, publisher.sink
      ensures (publisher.Value(), err) == PublishWithProgress(old(publisher.Value()), old(RunState()), payload, now)
      ensures heartbeatStopped == (old(heartbeatStopped) || err.Some?)
    {
      err := PublishLocked(payload, false);
      if err.Some? { return; }
      err := PublishProgressLocked(now);
    }

    /** taskFields. */
    function FieldsFor(task: Task): TaskFields {
      TaskFields(task.id, task.iteration, task.caseId, task.configuration, task.index, taskTotal, task.title)
    }

    static function Reported(err: Option<P.PublishError>): Option<LifecycleError> {
      if err.Some? then Some(Publication(err.value)) else None
    }

    method Start(engine: string, skillName: string, at: int, now: int) returns (err: Option<LifecycleError>)
      requires Valid()
      modifies this, publisher, publisher.sink
      ensures (Value(), err) == Step(old(Value()), LifecycleSpec.Start(engine, skillName, at, now))
      ensures Valid()
    {
      if started { return Some(AlreadyStarted); }
      if !NonEmptyString(engine) { return Some(InvalidName); }
      if !NonEmptyString(skillName) { return Some(InvalidName); }
      ghost var c := LifecycleSpec.Start(engine, skillName, at, now);
      BeginRun(at, c);
      err := AnnounceRun(RunStarted(engine, skillName, taskTotal, |iterations|), now, old(Value()), c);
    }

    /** The publications of Start, which has changed the fields of s, and the heartbeat. */
    method AnnounceRun(payload: Payload, now: int, ghost s: State, ghost c: Call) returns (err: Option<LifecycleError>)
      requires TasksHaveIterations(s.run) && Refusal(s.run, c).None?
      requires c.Start? && c.now == now && payload == Announcement(s.run, c)
      requires Value() == s.(run := Mutated(s.run, c))
      modifies this`heartbeatStarted, this`heartbeatStopped, publisher, publisher.sink
      ensures (Value(), err) == Step(s, c)
    {
      StartStep(s, c);
      var failure := PublishAndRefresh(payload, now);
      if failure.None? { heartbeatStarted := true; }
      return Reported(failure);
    }

    /** The bookkeeping of Start, before it publishes. */
    method BeginRun(at: int, ghost c: Call)
      requires Valid() && c.Start? && c.at == at && Refusal(RunState(), c).None?
      modifies this`started, this`phase, this`runStartedAt
      ensures RunState() == Mutated(old(RunState()), c)
    {
      started, phase, runStartedAt := true, Preparing, at;
    }

    method SetPhase(next: RunPhase, now: int) returns (err: Option<LifecycleError>)
      requires Valid()
      modifies this, publisher, publisher.sink
      ensures (Value(), err) == Step(old(Value()), LifecycleSpec.SetPhase(next, now))
      ensures Valid()
    {
      err := EnsureActiveLocked();
      if err.Some? { return; }
      if !ValidPhase(next) { return Some(InvalidPhase); }
      if next == Finalizing { return Some(PhaseOwnedByFinish); }
      if PhaseRank(next) <= PhaseRank(phase) { return Some(PhaseNotForward); }
      phase := next;
      var failure := PublishProgressLocked(now);
      return Reported(failure);
    }

    method Heartbeat(now: int) returns (err: Option<LifecycleError>)
      requires Valid()
      modifies this, publisher, publisher.sink
      ensures (Value(), err) == Step(old(Value()), LifecycleSpec.Heartbeat(now))
      ensures Valid()
    {
      err := EnsureActiveLocked();
      if err.Some? { return; }
      var failure := PublishProgressLocked(now);
      return Reported(failure);
    }

    method IterationStarted(number: nat, now: int) returns (err: Option<LifecycleError>)
      requires Valid()
      modifies this, publisher, publisher.sink
      ensures (Value(), err) == Step(old(Value()), StartIteration(number, now))
      ensures Valid()
    {
      err := EnsureExecutingLocked();
      if err.Some? { return; }
      if number !in iterations { return Some(UnknownIteration); }
      if iterations[number].started { return Some(IterationAlreadyStarted); }
      iterations := iterations[number := iterations[number].(started := true, startedAt := now)];
      var failure := PublishLocked(EvalEvent.IterationStarted(number), false);
      return Reported(failure);
    }

    method CaseStarted(taskId: string, at: int, now: int) returns (err: Option<LifecycleError>)
      requires Valid()
      modifies this, publisher, publisher.sink
      ensures (Value(), err) == Step(old(Value()), StartCase(taskId, at, now))
      ensures Valid()
    {
      err := EnsureExecutingLocked();
      if err.Some? { return; }
      if taskId !in tasks { return Some(UnknownTask); }
      var task := tasks[taskId];
      var iteration := iterations[task.task.iteration];
      if !iteration.started || iteration.completed { return Some(IterationNotActive); }
      if task.started { return Some(TaskAlreadyStarted); }
      err := StartTask(taskId, at, now);
    }

    /** CaseStarted after its checks. */
    method StartTask(taskId: string, at: int, now: int) returns (err: Option<LifecycleError>)
      requires Valid() && Refusal(RunState(), StartCase(taskId, at, now)).None?
      modifies this, publisher, publisher.sink
      ensures (Value(), err) == Step(old(Value()), StartCase(taskId, at, now))
      ensures Valid()
    {
      ghost var c, before := StartCase(taskId, at, now), Value();
      var task := tasks[taskId];
      BeginTask(taskId, at, c);
      err := AnnounceCase(EvalEvent.CaseStarted(FieldsFor(task.task)), now, before, c);
    }

    /** The bookkeeping of CaseStarted, before it publishes. */
    method BeginTask(taskId: string, at: int, ghost c: Call)
      requires Valid() && c.StartCase? && c.taskId == taskId && c.at == at && Refusal(RunState(), c).None?
      modifies this`tasks, this`activeTaskIDs
      ensures RunState() == Mutated(old(RunState()), c)
    {
      tasks := tasks[taskId := tasks[taskId].(started := true, startedAt := at)];
      activeTaskIDs := activeTaskIDs + {taskId};
    }

    /** The publications of a call about a case, which has changed the fields of s. */
    method AnnounceCase(payload: Payload, now: int, ghost s: State, ghost c: Call) returns (err: Option<LifecycleError>)
      requires TasksHaveIterations(s.run) && Refusal(s.run, c).None?
      requires (c.StartCase? || c.CompleteCase?) && c.now == now && payload == Announcement(s.run, c)
      requires Value() == s.(run := Mutated(s.run, c))
      modifies this`heartbeatStopped, publisher, publisher.sink
      ensures (Value(), err) == Step(s, c)
    {
      CaseStep(s, c);
      var failure := PublishAndRefresh(payload, now);
      return Reported(failure);
    }

    method CaseCompleted(taskId: string, status: CaseStatus, passRate: PassRate, at: int, now: int)
      returns (err: Option<LifecycleError>)
      requires Valid()
      modifies this, publisher, publisher.sink
      ensures (Value(), err) == Step(old(Value()), CompleteCase(taskId, status, passRate, at, now))
      ensures Valid()
    {
      err := EnsureExecutingLocked();
      if err.Some? { return; }
      if !ValidCaseStatus(status) { return Some(InvalidStatus); }
      if !ValidPassRate(passRate) { return Some(InvalidPassRate); }
      if taskId !in tasks { return Some(UnknownTask); }
      var task := tasks[taskId];
      if !task.started || task.completed { return Some(TaskNotRunning); }
      err := CompleteTask(taskId, status, passRate, at, now);
    }

    /** CaseCompleted after its checks. */
    method CompleteTask(taskId: string, status: CaseStatus, passRate: PassRate, at: int, now: int)
      returns (err: Option<LifecycleError>)
      requires Valid() && Refusal(RunState(), CompleteCase(taskId, status, passRate, at, now)).None?
      modifies this, publisher, publisher.sink
      ensures (Value(), err) == Step(old(Value()), CompleteCase(taskId, status, passRate, at, now))
      ensures Valid()
    {
      ghost var c, before := CompleteCase(taskId, status, passRate, at, now), Value();
      var task := tasks[taskId];
      RecordResult(taskId, status, c);
      err := AnnounceCase(EvalEvent.CaseCompleted(FieldsFor(task.task), completed, status, passRate,
                                                  ElapsedMS(task.startedAt, at)), now, before, c);
    }

    /** The bookkeeping of CaseCompleted, before it publishes. */
    method RecordResult(taskId: string, status: CaseStatus, ghost c: Call)
      requires Valid() && c.CompleteCase? && c.taskId == taskId && c.status == status
      requires Refusal(RunState(), c).None?
      modifies this`tasks, this`activeTaskIDs, this`completed, this`resultCounts, this`iterations
      ensures RunState() == Mutated(old(RunState()), c) && completed == old(completed) + 1
    {
      tasks := tasks[taskId := tasks[taskId].(completed := true)];
      activeTaskIDs := activeTaskIDs - {taskId};
      completed := completed + 1;
      resultCounts := resultCounts.Add(status);
      var k := tasks[taskId].task.iteration;
      var iteration := iterations[k];
      iteration := iteration.(completedN := iteration.completedN + 1, result := iteration.result.Add(status));
      iterations := iterations[k := iteration];
    }

    method IterationCompleted(number: nat, now: int) returns (err: Option<LifecycleError>)
      requires Valid()
      modifies this, publisher, publisher.sink
      ensures (Value(), err) == Step(old(Value()), CompleteIteration(number, now))
      ensures Valid()
    {
      err := EnsureExecutingLocked();
      if err.Some? { return; }
      if number !in iterations { return Some(UnknownIteration); }
      var iteration := iterations[number];
      if !iteration.started || iteration.completed { return Some(IterationNotActive); }
      if iteration.completedN != |iteration.iteration.tasks| { return Some(UnfinishedTasks); }
      iterations := iterations[number := iteration.(completed := true)];
      var payload := EvalEvent.IterationCompleted(iteration.result, number, completed,
                                                  ElapsedMS(iteration.startedAt, now));
      var failure := PublishLocked(payload, false);
      return Reported(failure);
    }

    /** The search of the iterations for an unfinished one, in any order. */
    method SomeUnfinished() returns (found: bool)
      ensures found <==> exists k :: k in iterations && !iterations[k].completed
    {
      var rest := iterations.Keys;
      while rest != {}
        invariant rest <= iterations.Keys
        invariant forall k :: k in iterations && k !in rest ==> iterations[k].completed
        decreases rest
      {
        var k :| k in rest;
        if !iterations[k].completed { return true; }
        rest := rest - {k};
      }
      return false;
    }

    /** Finish. The wait for the heartbeat goroutine that precedes it is in Heartbeats. */
    method Finish(status: RunStatus, now: int, at: int) returns (err: Option<LifecycleError>)
      requires Valid()
      modifies this, publisher, publisher.sink
      ensures (Value(), err) == Step(old(Value()), LifecycleSpec.Finish(status, now, at))
      ensures Valid()
    {
      heartbeatStopped := true;
      err := EnsureActiveLocked();
      if err.Some? { return; }
      if !ValidRunStatus(status) { return Some(InvalidRunStatus); }
      if status == Completed && completed != taskTotal { return Some(UnfinishedRun); }
      if status == Completed {
        var unfinished := SomeUnfinished();
        if unfinished { return Some(UnfinishedIteration); }
      }
      err := EndRun(status, now, at, old(Value()));
    }

    /** Finish after its checks: s is the value before the request to stop the heartbeat. */
    method EndRun(status: RunStatus, now: int, at: int, ghost s: State) returns (err: Option<LifecycleError>)
      requires TasksHaveIterations(s.run) && Refusal(s.run, LifecycleSpec.Finish(status, now, at)).None?
      requires Value() == s.(heartbeatStopped := true)
      modifies this, publisher, publisher.sink
      ensures (Value(), err) == Step(s, LifecycleSpec.Finish(status, now, at))
    {
      ghost var c := LifecycleSpec.Finish(status, now, at);
      CloseRun(c);
      err := AnnounceEnd(RunFinished(resultCounts, status, completed, ElapsedMS(runStartedAt, at)), now, s, c);
    }

    /** The bookkeeping of Finish, before it publishes. */
    method CloseRun(ghost c: Call)
      requires Valid() && c.Finish? && Refusal(RunState(), c).None?
      modifies this`phase, this`activeTaskIDs, this`finished
      ensures RunState() == Mutated(old(RunState()), c)
    {
      phase, activeTaskIDs, finished := Finalizing, {}, true;
    }

    /** The publications of Finish, which has changed the fields of s. */
    method AnnounceEnd(payload: Payload, now: int, ghost s: State, ghost c: Call) returns (err: Option<LifecycleError>)
      requires TasksHaveIterations(s.run) && Refusal(s.run, c).None?
      requires c.Finish? && c.now == now && payload == Announcement(s.run, c)
      requires Value() == s.(run := Mutated(s.run, c), heartbeatStopped := true)
      modifies this`heartbeatStopped, publisher, publisher.sink
      ensures (Value(), err) == Step(s, c)
    {
      FinishStep(s, c);
      var failure := PublishLast(payload, now);
      return Reported(failure);
    }

    /** The final snapshot and the last event, whether or not the snapshot is published. */
    method PublishLast(payload: Payload, now: int) returns (err: Option<P.PublishError>)
      modifies this`heartbeatStopped, publisher, publisher.sink
      ensures (publisher.Value(), err) == PublishFinish(old(publisher.Value()), old(RunState()), payload, now)
      ensures heartbeatStopped == (old(heartbeatStopped) || err.Some?)
    {
      var progressErr := PublishProgressLocked(now);
      var finishedErr := PublishLocked(payload, true);
      return if progressErr.Some? then progressErr else finishedErr;
    }
  }

  lemma StartStep(s: State, c: Call)
    requires c.Start? && TasksHaveIterations(s.run) && Refusal(s.run, c).None?
    ensures var (p, err) := PublishWithProgress(s.publisher, Mutated(s.run, c), Announcement(s.run, c), c.now);
      Step(s, c) == (State(p, Mutated(s.run, c), s.heartbeatStarted || err.None?, s.heartbeatStopped || err.Some?),
                     Lifecycle.Reported(err))
  {
  }

  lemma FinishStep(s: State, c: Call)
    requires c.Finish? && TasksHaveIterations(s.run) && Refusal(s.run, c).None?
    ensures var (p, err) := PublishFinish(s.publisher, Mutated(s.run, c), Announcement(s.run, c), c.now);
      Step(s, c) == (State(p, Mutated(s.run, c), s.heartbeatStarted, true), Lifecycle.Reported(err))
  {
  }

  lemma CaseStep(s: State, c: Call)
    requires (c.StartCase? || c.CompleteCase?) && TasksHaveIterations(s.run) && Refusal(s.run, c).None?
    ensures var (p, err) := PublishWithProgress(s.publisher, Mutated(s.run, c), Announcement(s.run, c), c.now);
      Step(s, c) == (State(p, Mutated(s.run, c), s.heartbeatStarted, s.heartbeatStopped || err.Some?),
                     Lifecycle.Reported(err))
  {
  }

  /** NewLifecycle. A lifecycle exists only for an acceptable plan; it starts in the
      state that the theorems on runs start from. */
  method NewLifecycle(publisher: P.Publisher?, plan: seq<Iteration>, heartbeatInterval: int)
    returns (r: Result<Lifecycle, NewError>)
    ensures r.Ok? <==> publisher != null && Acceptable(plan) && heartbeatInterval >= 0
    ensures r.Ok? ==> fresh(r.value) && r.value.publisher == publisher && r.value.interval > 0
    ensures r.Ok? ==> r.value.Value() == NewState(SnapshotOf(plan), publisher.Value()) && r.value.Valid()
  {
    if publisher == null { return Err(NilPublisher); }
    var planned := SnapshotPlan(plan);
    if planned.Err? { return Err(BadPlan(planned.error)); }
    var interval := if heartbeatInterval == 0 then DEFAULT_HEARTBEAT_INTERVAL else heartbeatInterval;
    if interval < 0 { return Err(NegativeInterval); }
    var lifecycle := new Lifecycle(publisher, planned.value, interval);
    AcceptableIsValid(plan);
    return Ok(lifecycle);
  }
}
