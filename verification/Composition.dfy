/** The scheduler, the adapter and the lifecycle together: in every interleaving of
    EvaluatePlan, between the callbacks of the iteration, the lifecycle accepts every
    call of the adapter, and a run that completes every iteration may finish as
    completed (internal/runner/runner.go, internal/evaluator/evaluator.go and
    internal/cli/run_events.go). */
module Composition {
  import opened Wrappers
  import opened EvalEvent
  import opened RunGrammar
  import opened LifecycleSpec
  import opened PlanSnapshots
  import opened Adapter
  import S = Scheduler

  type Schedule = S.State<EvalResult>

  /** Every status and pass rate that executeCase returns is one of the known ones. */
  predicate GoodResult(r: EvalResult) {
    r.status != OtherJudgeStatus && ValidPassRate(r.passRate)
  }

  /** The lifecycle call that a step of the scheduler makes, with its clock readings. */
  function CallFor(s: Schedule, a: S.Action<EvalResult>, ts: seq<Task>, at: int, now: int): Option<Call> {
    match a
    case Announce(j) => if j < |ts| then Some(StartCase(ts[j].id, at, now)) else None
    case Report(j) =>
      if j < |ts| && j < |s.results| && s.results[j].Some? && EventCaseStatus(s.results[j].value.status).Some? then
        Some(CompleteCase(ts[j].id, EventCaseStatus(s.results[j].value.status).value, s.results[j].value.passRate, at,
                          now))
      else None
    case _ => None
  }

  /** The run after a call that is made, if one is. */
  function Follow(r: Run, c: Option<Call>): (t: Run)
    requires TasksHaveIterations(r)
    ensures TasksHaveIterations(t)
  {
    if c.None? || Refusal(r, c.value).Some? then r else Mutated(r, c.value)
  }

  /** The tasks that have been reported. */
  function Reports(stages: seq<S.Stage>): nat {
    if stages == [] then 0
    else Reports(stages[..|stages| - 1]) + if S.Rank(stages[|stages| - 1]) >= S.Rank(S.Reported) then 1 else 0
  }

  lemma {:induction false} ReportsUpdate(stages: seq<S.Stage>, j: nat, stage: S.Stage)
    requires j < |stages|
    ensures Reports(stages[j := stage])
            == Reports(stages) - (if S.Rank(stages[j]) >= S.Rank(S.Reported) then 1 else 0)
               + (if S.Rank(stage) >= S.Rank(S.Reported) then 1 else 0)
  {
    var n := |stages| - 1;
    if j < n {
      ReportsUpdate(stages[..n], j, stage);
      assert stages[j := stage][..n] == stages[..n][j := stage];
    } else {
      assert stages[j := stage][..n] == stages[..n];
    }
  }

  lemma ReportsMore(stages: seq<S.Stage>)
    ensures Reports(stages + [S.Launched]) == Reports(stages)
  {
    assert (stages + [S.Launched])[..|stages|] == stages;
  }

  lemma {:induction false} AllReported(stages: seq<S.Stage>)
    requires forall j :: 0 <= j < |stages| ==> stages[j] == S.Done
    ensures Reports(stages) == |stages|
  {
    if stages != [] {
      AllReported(stages[..|stages| - 1]);
    }
  }

  /** One iteration is open, and its work may begin or go on. */
  ghost predicate Working(r: Run, k: nat) {
    && TasksHaveIterations(r) && r.started && !r.finished && r.phase == Executing
    && k in r.iterations && r.iterations[k].started && !r.iterations[k].completed
  }

  predicate StageIs(stages: seq<S.Stage>, j: nat, least: S.Stage) {
    j < |stages| && S.Rank(stages[j]) >= S.Rank(least)
  }

  /** The lifecycle's task j is where the scheduler's is. */
  ghost predicate TaskCoupled(r: Run, s: Schedule, ts: seq<Task>, j: nat)
    requires j < |ts|
  {
    && ts[j].id in r.tasks && r.tasks[ts[j].id].task == ts[j]
    && (r.tasks[ts[j].id].started <==> StageIs(s.stages, j, S.Announced))
    && (r.tasks[ts[j].id].completed <==> StageIs(s.stages, j, S.Reported))
    && (j < |s.results| && s.results[j].Some? ==> GoodResult(s.results[j].value))
  }

  /** Outside the iteration nothing has changed since r0. */
  ghost predicate OthersKept(r: Run, r0: Run, k: nat, ts: seq<Task>) {
    && r.tasks.Keys == r0.tasks.Keys && r.iterations.Keys == r0.iterations.Keys && r.taskTotal == r0.taskTotal
    && (forall id :: id in r.tasks && id !in Ids(ts) ==> r.tasks[id] == r0.tasks[id])
    && (forall i :: i in r.iterations && i != k ==> r.iterations[i] == r0.iterations[i])
    && k in r.iterations && r.iterations[k].iteration == r0.iterations[k].iteration
  }

  /** The tasks of iteration k, each with its own ID. */
  ghost predicate TasksOf(k: nat, ts: seq<Task>) {
    && (forall j :: 0 <= j < |ts| ==> ts[j].iteration == k)
    && (forall i: nat, j: nat {:trigger ts[i], ts[j]} :: i < |ts| && j < |ts| && ts[i].id == ts[j].id ==> i == j)
  }

  ghost predicate TasksCoupled(r: Run, s: Schedule, ts: seq<Task>) {
    forall j: nat {:trigger TaskCoupled(r, s, ts, j)} :: j < |ts| ==> TaskCoupled(r, s, ts, j)
  }

  ghost predicate Coupled(r: Run, s: Schedule, r0: Run, k: nat, ts: seq<Task>) {
    && Working(r, k) && OthersKept(r, r0, k, ts)
    && r.iterations[k].completedN == Reports(s.stages) && r.completed == r0.completed + Reports(s.stages)
    && TasksCoupled(r, s, ts)
  }

  /** What a goroutine's step does to the stages and the results. */
  lemma WorkerNext(s: Schedule, a: S.Action<EvalResult>, n: nat, limit: nat)
    requires S.Typed(s, n) && S.Enabled(s, a, n, limit)
    requires a.Announce? || a.Write? || a.Report? || a.Release? || a.Finish?
    ensures var t, stage := S.Next(s, a, n, limit), StageAfter(a);
      && a.task < |s.stages| && S.Rank(stage) == S.Rank(s.stages[a.task]) + 1
      && t.stages == s.stages[a.task := stage]
      && t.results == if a.Write? then s.results[a.task := Some(a.result)] else s.results
  {
  }

  function StageAfter(a: S.Action<EvalResult>): S.Stage
    requires a.Announce? || a.Write? || a.Report? || a.Release? || a.Finish?
  {
    match a
    case Announce(_) => S.Announced
    case Write(_, _) => S.Written
    case Report(_) => S.Reported
    case Release(_) => S.Released
    case Finish(_) => S.Done
  }

  /** A task whose stage passes neither callback stays where it is. */
  lemma TaskStays(r: Run, s: Schedule, t: Schedule, ts: seq<Task>, j: nat)
    requires j < |ts| && TaskCoupled(r, s, ts, j)
    requires StageIs(t.stages, j, S.Announced) <==> StageIs(s.stages, j, S.Announced)
    requires StageIs(t.stages, j, S.Reported) <==> StageIs(s.stages, j, S.Reported)
    requires j < |t.results| && t.results[j].Some? ==>
      GoodResult(t.results[j].value) || (j < |s.results| && t.results[j] == s.results[j])
    ensures TaskCoupled(r, t, ts, j)
  {
  }

  lemma QuietStage(stages: seq<S.Stage>, j: nat, stage: S.Stage, i: nat)
    requires j < |stages| && S.Rank(stage) == S.Rank(stages[j]) + 1 && stage != S.Announced && stage != S.Reported
    ensures StageIs(stages[j := stage], i, S.Announced) <==> StageIs(stages, i, S.Announced)
    ensures StageIs(stages[j := stage], i, S.Reported) <==> StageIs(stages, i, S.Reported)
  {
  }

  /** A step of a goroutine that calls nothing. */
  lemma QuietWorkerStep(r: Run, s: Schedule, a: S.Action<EvalResult>, r0: Run, k: nat, ts: seq<Task>, limit: nat)
    requires Coupled(r, s, r0, k, ts) && S.Typed(s, |ts|) && S.Enabled(s, a, |ts|, limit)
    requires (a.Write? && GoodResult(a.result)) || a.Release? || a.Finish?
    ensures Coupled(r, S.Next(s, a, |ts|, limit), r0, k, ts)
  {
    var t := S.Next(s, a, |ts|, limit);
    WorkerNext(s, a, |ts|, limit);
    ReportsUpdate(s.stages, a.task, StageAfter(a));
    forall j: nat | j < |ts|
      ensures TaskCoupled(r, t, ts, j)
    {
      assert TaskCoupled(r, s, ts, j);
      QuietStage(s.stages, a.task, StageAfter(a), j);
      TaskStays(r, s, t, ts, j);
    }
  }

  lemma MainNext(s: Schedule, a: S.Action<EvalResult>, n: nat, limit: nat)
    requires S.Typed(s, n) && S.Enabled(s, a, n, limit)
    requires !a.Announce? && !a.Report? && !a.Write? && !a.Release? && !a.Finish?
    ensures var t := S.Next(s, a, n, limit);
      (t.stages == s.stages || t.stages == s.stages + [S.Launched]) && t.results == s.results
  {
  }

  /** A step of the scheduling loop. */
  lemma MainStep(r: Run, s: Schedule, a: S.Action<EvalResult>, r0: Run, k: nat, ts: seq<Task>, limit: nat)
    requires Coupled(r, s, r0, k, ts) && S.Typed(s, |ts|) && S.Enabled(s, a, |ts|, limit)
    requires !a.Announce? && !a.Report? && !a.Write? && !a.Release? && !a.Finish?
    ensures Coupled(r, S.Next(s, a, |ts|, limit), r0, k, ts)
  {
    var t := S.Next(s, a, |ts|, limit);
    MainNext(s, a, |ts|, limit);
    ReportsMore(s.stages);
    forall j: nat | j < |ts|
      ensures TaskCoupled(r, t, ts, j)
    {
      assert TaskCoupled(r, s, ts, j);
      TaskStays(r, s, t, ts, j);
    }
  }

  /** The callback before a task. */
  lemma AnnounceAccepted(r: Run, s: Schedule, r0: Run, k: nat, ts: seq<Task>, j: nat, at: int, now: int)
    requires Coupled(r, s, r0, k, ts) && TasksOf(k, ts) && j < |ts| && S.AtStage(s, j, S.Launched)
    ensures Refusal(r, StartCase(ts[j].id, at, now)).None?
  {
    assert TaskCoupled(r, s, ts, j);
  }

  /** The call about a task that is made between these two stages. */
  predicate CallMoves(c: Call, id: string, before: S.Stage, after: S.Stage) {
    (c.StartCase? && c.taskId == id && before == S.Launched && after == S.Announced)
    || (c.CompleteCase? && c.taskId == id && before == S.Written && after == S.Reported)
  }

  /** A call about task j moves it to the stage that the call belongs to, and no other. */
  lemma CallCouples(r: Run, s: Schedule, ts: seq<Task>, j: nat, c: Call, stage: S.Stage, i: nat)
    requires TasksHaveIterations(r) && j < |ts| && j < |s.stages| && i < |ts| && Refusal(r, c).None?
    requires TaskCoupled(r, s, ts, i) && (i != j ==> ts[i].id != ts[j].id)
    requires CallMoves(c, ts[j].id, s.stages[j], stage)
    ensures TaskCoupled(Mutated(r, c), s.(stages := s.stages[j := stage]), ts, i)
  {
  }

  /** The callback after a task. */
  lemma ReportAccepted(r: Run, s: Schedule, r0: Run, k: nat, ts: seq<Task>, limit: nat, j: nat, at: int, now: int)
    requires Coupled(r, s, r0, k, ts) && TasksOf(k, ts) && S.Inv(s, |ts|, limit)
    requires j < |ts| && S.AtStage(s, j, S.Written)
    ensures CallFor(s, S.Report(j), ts, at, now).Some?
    ensures Refusal(r, CallFor(s, S.Report(j), ts, at, now).value).None?
  {
    assert TaskCoupled(r, s, ts, j) && S.TaskOk(s, j);
  }

  /** Outside the task, a call about it changes only the counters. */
  lemma CallKeepsOthers(r: Run, r0: Run, k: nat, ts: seq<Task>, c: Call)
    requires Working(r, k) && OthersKept(r, r0, k, ts) && (c.StartCase? || c.CompleteCase?) && Refusal(r, c).None?
    requires c.taskId in Ids(ts) && r.tasks[c.taskId].task.iteration == k
    ensures var u, more := Mutated(r, c), if c.CompleteCase? then 1 else 0;
      && Working(u, k) && OthersKept(u, r0, k, ts)
      && u.iterations[k].completedN == r.iterations[k].completedN + more && u.completed == r.completed + more
  {
  }

  lemma TasksCalled(r: Run, s: Schedule, ts: seq<Task>, k: nat, j: nat, c: Call, stage: S.Stage, t: Schedule)
    requires TasksHaveIterations(r) && TasksOf(k, ts) && TasksCoupled(r, s, ts)
    requires j < |ts| && j < |s.stages| && CallMoves(c, ts[j].id, s.stages[j], stage) && Refusal(r, c).None?
    requires t.stages == s.stages[j := stage] && t.results == s.results
    ensures TasksCoupled(Mutated(r, c), t, ts)
  {
    forall i: nat | i < |ts|
      ensures TaskCoupled(Mutated(r, c), t, ts, i)
    {
      assert TaskCoupled(r, s, ts, i);
      assert i != j ==> ts[i].id != ts[j].id;
      CallCouples(r, s, ts, j, c, stage, i);
      TaskStays(Mutated(r, c), s.(stages := s.stages[j := stage]), t, ts, i);
    }
  }

  lemma CallNext(s: Schedule, a: S.Action<EvalResult>, n: nat, limit: nat, j: nat, c: Call, id: string)
    requires S.Typed(s, n) && S.Enabled(s, a, n, limit) && (a == S.Announce(j) || a == S.Report(j))
    requires j < |s.stages| && CallMoves(c, id, s.stages[j], StageAfter(a))
    ensures var t := S.Next(s, a, n, limit);
      && t.stages == s.stages[j := StageAfter(a)] && t.results == s.results
      && Reports(t.stages) == Reports(s.stages) + if c.CompleteCase? then 1 else 0
  {
    WorkerNext(s, a, n, limit);
    ReportsUpdate(s.stages, j, StageAfter(a));
  }

  /** A callback and the step of the goroutine that makes it. */
  lemma CallStep(r: Run, s: Schedule, a: S.Action<EvalResult>, r0: Run, k: nat, ts: seq<Task>, limit: nat, j: nat,
                 c: Call)
    requires Coupled(r, s, r0, k, ts) && TasksOf(k, ts) && S.Typed(s, |ts|) && S.Enabled(s, a, |ts|, limit)
    requires j < |ts| && (a == S.Announce(j) || a == S.Report(j))
    requires CallMoves(c, ts[j].id, s.stages[j], StageAfter(a)) && Refusal(r, c).None?
    ensures Coupled(Mutated(r, c), S.Next(s, a, |ts|, limit), r0, k, ts)
  {
    CallNext(s, a, |ts|, limit, j, c, ts[j].id);
    assert TaskCoupled(r, s, ts, j) && ts[j] in ts && ts[j].id in Ids(ts);
    CallKeepsOthers(r, r0, k, ts, c);
    TasksCalled(r, s, ts, k, j, c, StageAfter(a), S.Next(s, a, |ts|, limit));
  }

  /** Whatever step the scheduler takes, the lifecycle accepts the call, if there is
      one, and the two stay coupled. */
  lemma StepAccepted(r: Run, s: Schedule, a: S.Action<EvalResult>, r0: Run, k: nat, ts: seq<Task>, limit: nat, at: int,
                     now: int)
    requires Coupled(r, s, r0, k, ts) && TasksOf(k, ts) && S.Inv(s, |ts|, limit) && S.Enabled(s, a, |ts|, limit)
    requires a.Write? ==> GoodResult(a.result)
    ensures var c := CallFor(s, a, ts, at, now);
      && ((a.Announce? || a.Report?) ==> c.Some? && Refusal(r, c.value).None?)
      && Coupled(Follow(r, c), S.Next(s, a, |ts|, limit), r0, k, ts)
  {
    if a.Announce? || a.Report? {
      CallbackStep(r, s, a, r0, k, ts, limit, at, now);
    } else if a.Write? || a.Release? || a.Finish? {
      QuietWorkerStep(r, s, a, r0, k, ts, limit);
    } else {
      MainStep(r, s, a, r0, k, ts, limit);
    }
  }

  lemma CallbackStep(r: Run, s: Schedule, a: S.Action<EvalResult>, r0: Run, k: nat, ts: seq<Task>, limit: nat, at: int,
                     now: int)
    requires Coupled(r, s, r0, k, ts) && TasksOf(k, ts) && S.Inv(s, |ts|, limit) && S.Enabled(s, a, |ts|, limit)
    requires a.Announce? || a.Report?
    ensures var c := CallFor(s, a, ts, at, now);
      c.Some? && Refusal(r, c.value).None? && Coupled(Mutated(r, c.value), S.Next(s, a, |ts|, limit), r0, k, ts)
  {
    var j := a.task;
    assert j < |ts|;
    if a.Announce? {
      AnnounceAccepted(r, s, r0, k, ts, j, at, now);
    } else {
      ReportAccepted(r, s, r0, k, ts, limit, j, at, now);
    }
    CallStep(r, s, a, r0, k, ts, limit, j, CallFor(s, a, ts, at, now).value);
  }

  // A whole call of EvaluatePlan.

  /** The run when the iteration has just been announced. */
  ghost predicate Opened(r: Run, k: nat, ts: seq<Task>) {
    && Working(r, k) && TasksOf(k, ts) && r.iterations[k].completedN == 0 && r.iterations[k].iteration.tasks == ts
    && forall j: nat {:trigger Fresh(r, ts, j)} :: j < |ts| ==> Fresh(r, ts, j)
  }

  ghost predicate Fresh(r: Run, ts: seq<Task>, j: nat)
    requires j < |ts|
  {
    ts[j].id in r.tasks && r.tasks[ts[j].id].task == ts[j] && !r.tasks[ts[j].id].started && !r.tasks[ts[j].id].completed
  }

  /** A run of the scheduler, and the lifecycle's fields beside it. */
  datatype Trace = Trace(
    states: seq<Schedule>, actions: seq<S.Action<EvalResult>>, clocks: seq<(int, int)>, runs: seq<Run>)

  ghost predicate IsTrace(tr: Trace, r0: Run, ts: seq<Task>, limit: nat) {
    && S.IsRun(tr.states, tr.actions, |ts|, limit)
    && |tr.runs| == |tr.states| && |tr.clocks| == |tr.actions| && tr.runs[0] == r0
    && forall i: nat {:trigger Follows(tr, i, ts)} :: i < |tr.actions| ==> Follows(tr, i, ts)
  }

  ghost predicate Follows(tr: Trace, i: nat, ts: seq<Task>)
    requires |tr.runs| == |tr.states| == |tr.actions| + 1 && |tr.clocks| == |tr.actions| && i < |tr.actions|
  {
    && TasksHaveIterations(tr.runs[i])
    && (tr.actions[i].Write? ==> GoodResult(tr.actions[i].result))
    && tr.runs[i + 1] == Follow(tr.runs[i], CallAt(tr, i, ts))
  }

  function CallAt(tr: Trace, i: nat, ts: seq<Task>): Option<Call>
    requires |tr.states| > i && |tr.actions| > i && |tr.clocks| > i
  {
    CallFor(tr.states[i], tr.actions[i], ts, tr.clocks[i].0, tr.clocks[i].1)
  }

  lemma OpenedIsCoupled(r: Run, k: nat, ts: seq<Task>, cancelled: bool)
    requires Opened(r, k, ts)
    ensures Coupled(r, S.Init(|ts|, cancelled), r, k, ts)
  {
    var s: Schedule := S.Init(|ts|, cancelled);
    forall j: nat | j < |ts|
      ensures TaskCoupled(r, s, ts, j)
    {
      assert Fresh(r, ts, j);
    }
  }

  lemma {:induction false} TraceCoupled(tr: Trace, r0: Run, k: nat, ts: seq<Task>, limit: nat, i: nat)
    requires Opened(r0, k, ts) && IsTrace(tr, r0, ts, limit) && i <= |tr.actions|
    ensures Coupled(tr.runs[i], tr.states[i], r0, k, ts)
  {
    if i == 0 {
      var cancelled :| tr.states[0] == S.Init(|ts|, cancelled);
      OpenedIsCoupled(r0, k, ts, cancelled);
    } else {
      TraceCoupled(tr, r0, k, ts, limit, i - 1);
      TraceStep(tr, r0, k, ts, limit, i - 1);
    }
  }

  lemma TraceStep(tr: Trace, r0: Run, k: nat, ts: seq<Task>, limit: nat, i: nat)
    requires Opened(r0, k, ts) && IsTrace(tr, r0, ts, limit) && i < |tr.actions|
    requires Coupled(tr.runs[i], tr.states[i], r0, k, ts)
    ensures Coupled(tr.runs[i + 1], tr.states[i + 1], r0, k, ts)
    ensures tr.actions[i].Announce? || tr.actions[i].Report? ==> CallAt(tr, i, ts).Some?
    ensures TasksHaveIterations(tr.runs[i])
            && (CallAt(tr, i, ts).Some? ==> Refusal(tr.runs[i], CallAt(tr, i, ts).value).None?)
  {
    S.RunHolds(tr.states, tr.actions, |ts|, limit, i);
    assert S.Steps(tr.states, tr.actions, i, |ts|, limit) && Follows(tr, i, ts);
    StepAccepted(tr.runs[i], tr.states[i], tr.actions[i], r0, k, ts, limit, tr.clocks[i].0, tr.clocks[i].1);
  }

  /** In every interleaving, with cancellation anywhere: between the callbacks of the
      iteration the lifecycle accepts every call of the adapter. */
  lemma EveryCallAccepted(tr: Trace, r0: Run, k: nat, ts: seq<Task>, limit: nat, i: nat)
    requires Opened(r0, k, ts) && IsTrace(tr, r0, ts, limit) && i < |tr.actions|
    ensures tr.actions[i].Announce? || tr.actions[i].Report? ==> CallAt(tr, i, ts).Some?
    ensures TasksHaveIterations(tr.runs[i])
            && (CallAt(tr, i, ts).Some? ==> Refusal(tr.runs[i], CallAt(tr, i, ts).value).None?)
  {
    TraceCoupled(tr, r0, k, ts, limit, i);
    TraceStep(tr, r0, k, ts, limit, i);
  }

  /** And when EvaluatePlan returns without an error, the iteration may complete. */
  lemma IterationMayComplete(tr: Trace, r0: Run, k: nat, ts: seq<Task>, limit: nat, now: int)
    requires Opened(r0, k, ts) && IsTrace(tr, r0, ts, limit)
    requires var s := tr.states[|tr.actions|]; s.main.Returned? && !s.main.failed
    ensures var r := tr.runs[|tr.actions|];
      && TasksHaveIterations(r) && Refusal(r, CompleteIteration(k, now)).None?
      && r.completed == r0.completed + |ts| && OthersKept(r, r0, k, ts) && Working(r, k)
  {
    var n := |tr.actions|;
    TraceCoupled(tr, r0, k, ts, limit, n);
    S.RunHolds(tr.states, tr.actions, |ts|, limit, n);
    AllReported(tr.states[n].stages);
  }
}
