/** The iteration loop of internal/runner/runner.go around EvaluatePlan, with the
    lifecycle beside it: a run of an accepted plan, ended anywhere, is accepted from
    Start to Finish, and one that is not cut short to a completed Finish. */
module RunnerLoop {
  import opened Wrappers
  import opened EvalEvent
  import opened RunGrammar
  import opened LifecycleSpec
  import opened PlanSnapshots
  import opened Composition
  import S = Scheduler

  /** Iteration i of the plan is where it should be when m iterations are done. */
  ghost predicate IterationAt(r: Run, its: seq<Iteration>, m: nat, i: nat)
    requires i < |its|
  {
    && its[i].number in r.iterations
    && r.iterations[its[i].number].iteration == its[i]
    && (r.iterations[its[i].number].started <==> i < m)
    && (r.iterations[its[i].number].completed <==> i < m)
    && (i >= m ==> r.iterations[its[i].number].completedN == 0)
  }

  /** Task j of iteration i has not been touched. */
  ghost predicate Untouched(r: Run, its: seq<Iteration>, i: nat, j: nat)
    requires i < |its| && j < |its[i].tasks|
  {
    Composition.Fresh(r, its[i].tasks, j)
  }

  /** Between two iterations, the first m of them done. */
  ghost predicate Between(r: Run, its: seq<Iteration>, m: nat)
    requires m <= |its|
  {
    && TasksHaveIterations(r) && r.started && !r.finished && r.phase == Executing
    && r.taskTotal == |AllTasks(its)| && r.completed == |AllTasks(its[..m])|
    && (forall k :: k in r.iterations ==> k in Numbers(its))
    && (forall i: nat {:trigger IterationAt(r, its, m, i)} :: i < |its| ==> IterationAt(r, its, m, i))
    && (forall i: nat, j: nat {:trigger Untouched(r, its, i, j)} ::
          m <= i < |its| && j < |its[i].tasks| ==> Untouched(r, its, i, j))
  }

  // Before the first iteration.

  /** The fields after Start and SetPhase(executing). */
  function Begun(its: seq<Iteration>, at: int): Run {
    NewRun(SnapshotOf(its)).(started := true, phase := Executing, runStartedAt := at)
  }

  lemma NewRunHasIterations(its: seq<Iteration>)
    requires Acceptable(its)
    ensures TasksHaveIterations(NewRun(SnapshotOf(its)))
  {
    AcceptableTasks(its);
  }

  /** Start and SetPhase(executing) are accepted, in this order. A run that fails before
      the second may finish. */
  lemma BeginAccepted(its: seq<Iteration>, engine: string, skillName: string, at: int, now: int, later: int)
    requires Acceptable(its) && NonEmptyString(engine) && NonEmptyString(skillName)
    ensures TasksHaveIterations(NewRun(SnapshotOf(its)))
    ensures var r := NewRun(SnapshotOf(its));
      && Refusal(r, Start(engine, skillName, at, now)).None?
      && var t := Mutated(r, Start(engine, skillName, at, now));
         && Refusal(t, SetPhase(Executing, later)).None? && Mutated(t, SetPhase(Executing, later)) == Begun(its, at)
         && Refusal(t, Finish(Errored, now, later)).None? && Refusal(t, Finish(Cancelled, now, later)).None?
  {
    NewRunHasIterations(its);
  }

  lemma BegunIterations(its: seq<Iteration>, at: int, i: nat)
    requires Acceptable(its) && i < |its|
    ensures IterationAt(Begun(its, at), its, 0, i)
  {
    IterationMapHolds(its);
  }

  lemma BegunTasks(its: seq<Iteration>, at: int, i: nat, j: nat)
    requires Acceptable(its) && i < |its| && j < |its[i].tasks|
    ensures Untouched(Begun(its, at), its, i, j)
  {
    TaskMapHolds(AllTasks(its));
    TaskPosition(its, i, j);
  }

  lemma BegunIsBetween(its: seq<Iteration>, at: int)
    requires Acceptable(its)
    ensures Between(Begun(its, at), its, 0)
  {
    var r := Begun(its, at);
    NewRunHasIterations(its);
    IterationMapHolds(its);
    forall i: nat | i < |its|
      ensures IterationAt(r, its, 0, i)
    {
      BegunIterations(its, at, i);
    }
    forall i: nat, j: nat | i < |its| && j < |its[i].tasks|
      ensures Untouched(r, its, i, j)
    {
      BegunTasks(its, at, i, j);
    }
  }

  // One iteration.

  lemma OwnTasks(its: seq<Iteration>, m: nat)
    requires Acceptable(its) && m < |its|
    ensures TasksOf(its[m].number, its[m].tasks)
  {
    OwnIds(its, m);
    var ts := its[m].tasks;
    assert ValidIteration(its[m], |AllTasks(its)|);
    forall j | 0 <= j < |ts|
      ensures ts[j].iteration == its[m].number
    {
      assert ValidTask(ts[j], its[m].number, |AllTasks(its)|);
    }
    forall i: nat, j: nat | i < |ts| && j < |ts| && ts[i].id == ts[j].id
      ensures i == j
    {
      assert i < j ==> !Clash(ts, i, j);
      assert j < i ==> !Clash(ts, j, i);
    }
  }

  /** The iteration may start, and is then open for its tasks. */
  lemma OpenAccepted(r: Run, its: seq<Iteration>, m: nat, now: int)
    requires Acceptable(its) && m < |its| && Between(r, its, m)
    ensures Refusal(r, StartIteration(its[m].number, now)).None?
    ensures Opened(Mutated(r, StartIteration(its[m].number, now)), its[m].number, its[m].tasks)
  {
    var ts := its[m].tasks;
    assert IterationAt(r, its, m, m);
    OwnTasks(its, m);
    var t := Mutated(r, StartIteration(its[m].number, now));
    forall j: nat | j < |ts|
      ensures Composition.Fresh(t, ts, j)
    {
      assert Untouched(r, its, m, j);
    }
  }

  /** Different iterations have different numbers and share no task ID. */
  lemma Apart(its: seq<Iteration>, m: nat, i: nat, j: nat)
    requires Acceptable(its) && m < i < |its| && j < |its[i].tasks|
    ensures its[i].tasks[j].id !in Ids(its[m].tasks)
  {
    TaskPosition(its, i, j);
    AllTasksMore(its, m);
    PrefixesGrow(its, m + 1, i);
    forall a: nat | a < |its[m].tasks|
      ensures its[m].tasks[a].id != its[i].tasks[j].id
    {
      TaskPosition(its, m, a);
      assert !Clash(AllTasks(its), |AllTasks(its[..m])| + a, |AllTasks(its[..i])| + j);
    }
  }

  lemma {:induction false} PrefixesGrow(its: seq<Iteration>, m: nat, i: nat)
    requires m <= i <= |its|
    ensures |AllTasks(its[..m])| <= |AllTasks(its[..i])|
  {
    if m < i {
      AllTasksMore(its, i - 1);
      PrefixesGrow(its, m, i - 1);
    }
  }

  /** The fields after the iteration has been completed. */
  ghost predicate Closed(r: Run, r0: Run, its: seq<Iteration>, m: nat, t: Run, now: int)
    requires m < |its|
  {
    && TasksHaveIterations(r) && Refusal(r, CompleteIteration(its[m].number, now)).None?
    && r.completed == r0.completed + |its[m].tasks| && OthersKept(r, r0, its[m].number, its[m].tasks)
    && Working(r, its[m].number)
    && t == Mutated(r, CompleteIteration(its[m].number, now))
  }

  lemma ClosedIterations(s: Run, r0: Run, r: Run, its: seq<Iteration>, m: nat, t: Run, start: int, now: int, i: nat)
    requires Acceptable(its) && m < |its| && i < |its| && Between(s, its, m)
    requires Refusal(s, StartIteration(its[m].number, start)).None?
             && r0 == Mutated(s, StartIteration(its[m].number, start))
    requires Closed(r, r0, its, m, t, now)
    ensures IterationAt(t, its, m + 1, i)
  {
    assert IterationAt(s, its, m, i) && IterationAt(s, its, m, m);
    if i < m {
      assert !SameNumber(its, i, m);
    } else if m < i {
      assert !SameNumber(its, m, i);
    }
  }

  lemma ClosedTasks(s: Run, r0: Run, r: Run, its: seq<Iteration>, m: nat, t: Run, start: int, now: int, i: nat, j: nat)
    requires Acceptable(its) && m < |its| && m < i < |its| && j < |its[i].tasks| && Between(s, its, m)
    requires Refusal(s, StartIteration(its[m].number, start)).None?
             && r0 == Mutated(s, StartIteration(its[m].number, start))
    requires Closed(r, r0, its, m, t, now)
    ensures Untouched(t, its, i, j)
  {
    assert Untouched(s, its, i, j);
    Apart(its, m, i, j);
  }

  lemma CloseAccepted(s: Run, r0: Run, r: Run, its: seq<Iteration>, m: nat, t: Run, start: int, now: int)
    requires Acceptable(its) && m < |its| && Between(s, its, m)
    requires Refusal(s, StartIteration(its[m].number, start)).None?
             && r0 == Mutated(s, StartIteration(its[m].number, start))
    requires Closed(r, r0, its, m, t, now)
    ensures Between(t, its, m + 1)
  {
    var done := m + 1;
    AllTasksMore(its, m);
    forall i: nat | i < |its|
      ensures IterationAt(t, its, done, i)
    {
      ClosedIterations(s, r0, r, its, m, t, start, now, i);
    }
    forall i: nat, j: nat | m + 1 <= i < |its| && j < |its[i].tasks|
      ensures Untouched(t, its, i, j)
    {
      ClosedTasks(s, r0, r, its, m, t, start, now, i, j);
    }
  }

  // All iterations.

  /** The fields between iterations, a run of the scheduler for each iteration that is
      completed, and the clock readings of the two callbacks around it. Then, if the
      invocation is cut short inside an iteration, what was run of it. */
  datatype Invocation = Invocation(
    between: seq<Run>, traces: seq<Trace>, clocks: seq<(int, int)>, last: Option<(Trace, int)>)

  /** An invocation, ended anywhere: an error or a cancellation, before an iteration
      starts or inside one, ends it early. */
  ghost predicate Runs(v: Invocation, its: seq<Iteration>, at: int, limit: nat) {
    && |v.between| == |v.traces| + 1 && |v.clocks| == |v.traces| <= |its|
    && v.between[0] == Begun(its, at)
    && (forall m: nat {:trigger Loops(v, its, limit, m)} :: m < |v.traces| ==> Loops(v, its, limit, m))
    && (v.last.Some? ==>
          && |v.traces| < |its|
          && TasksHaveIterations(v.between[|v.traces|])
          && Works(v.last.value.0, v.between[|v.traces|], its[|v.traces|], v.last.value.1, limit))
  }

  /** The scheduler works on an iteration that has been announced. */
  ghost predicate Works(tr: Trace, r: Run, it: Iteration, start: int, limit: nat)
    requires TasksHaveIterations(r)
  {
    IsTrace(tr, Follow(r, Some(StartIteration(it.number, start))), it.tasks, limit) && |tr.states| == |tr.actions| + 1
  }

  /** The m-th turn of the loop. Each callback changes the fields if it is accepted. */
  ghost predicate Loops(v: Invocation, its: seq<Iteration>, limit: nat, m: nat)
    requires |v.between| == |v.traces| + 1 && |v.clocks| == |v.traces| <= |its| && m < |v.traces|
  {
    var tr := v.traces[m];
    && TasksHaveIterations(v.between[m])
    && Works(tr, v.between[m], its[m], v.clocks[m].0, limit)
    && tr.states[|tr.actions|].main == S.Returned(false)
    && TasksHaveIterations(tr.runs[|tr.actions|])
    && v.between[m + 1] == Follow(tr.runs[|tr.actions|], Some(CompleteIteration(its[m].number, v.clocks[m].1)))
  }

  /** Every iteration is completed. */
  ghost predicate Uncancelled(v: Invocation, its: seq<Iteration>, at: int, limit: nat) {
    Runs(v, its, at, limit) && |v.traces| == |its| && v.last.None?
  }

  /** The fields when the loop has returned. */
  function EndFields(v: Invocation): Run
    requires |v.between| == |v.traces| + 1
    requires v.last.Some? ==> |v.last.value.0.runs| == |v.last.value.0.actions| + 1
  {
    if v.last.None? then v.between[|v.traces|] else v.last.value.0.runs[|v.last.value.0.actions|]
  }

  lemma OneIteration(v: Invocation, its: seq<Iteration>, at: int, limit: nat, m: nat)
    requires Acceptable(its) && Runs(v, its, at, limit) && m < |v.traces| && Between(v.between[m], its, m)
    ensures Between(v.between[m + 1], its, m + 1)
    ensures Refusal(v.between[m], StartIteration(its[m].number, v.clocks[m].0)).None?
  {
    assert Loops(v, its, limit, m);
    var s, tr := v.between[m], v.traces[m];
    OpenAccepted(s, its, m, v.clocks[m].0);
    var r0 := Mutated(s, StartIteration(its[m].number, v.clocks[m].0));
    IterationMayComplete(tr, r0, its[m].number, its[m].tasks, limit, v.clocks[m].1);
    CloseAccepted(s, r0, tr.runs[|tr.actions|], its, m, v.between[m + 1], v.clocks[m].0, v.clocks[m].1);
  }

  lemma {:induction false} EveryIteration(v: Invocation, its: seq<Iteration>, at: int, limit: nat, m: nat)
    requires Acceptable(its) && Runs(v, its, at, limit) && m <= |v.traces|
    ensures Between(v.between[m], its, m)
  {
    if m == 0 {
      BegunIsBetween(its, at);
    } else {
      EveryIteration(v, its, at, limit, m - 1);
      OneIteration(v, its, at, limit, m - 1);
    }
  }

  /** The iteration is announced and the adapter's calls are made, and none is refused. */
  ghost predicate IterationAccepted(tr: Trace, r: Run, it: Iteration, start: int) {
    && TasksHaveIterations(r) && Refusal(r, StartIteration(it.number, start)).None?
    && |tr.runs| == |tr.states| == |tr.actions| + 1 && |tr.clocks| == |tr.actions|
    && forall i: nat {:trigger CallAt(tr, i, it.tasks)} :: i < |tr.actions| ==>
         TasksHaveIterations(tr.runs[i])
         && (CallAt(tr, i, it.tasks).Some? ==> Refusal(tr.runs[i], CallAt(tr, i, it.tasks).value).None?)
  }

  /** And the lifecycle is still active when it ends, wherever that is. */
  lemma WorkAccepted(tr: Trace, r: Run, its: seq<Iteration>, m: nat, start: int, limit: nat)
    requires Acceptable(its) && m < |its| && Between(r, its, m) && Works(tr, r, its[m], start, limit)
    ensures IterationAccepted(tr, r, its[m], start)
    ensures Working(tr.runs[|tr.actions|], its[m].number)
  {
    OpenAccepted(r, its, m, start);
    var r0, k, ts := Mutated(r, StartIteration(its[m].number, start)), its[m].number, its[m].tasks;
    TraceCoupled(tr, r0, k, ts, limit, |tr.actions|);
    forall i: nat | i < |tr.actions|
      ensures TasksHaveIterations(tr.runs[i])
              && (CallAt(tr, i, ts).Some? ==> Refusal(tr.runs[i], CallAt(tr, i, ts).value).None?)
    {
      EveryCallAccepted(tr, r0, k, ts, limit, i);
    }
  }

  lemma ActiveMayFinish(r: Run, status: RunStatus, now: int, end: int)
    requires TasksHaveIterations(r) && r.started && !r.finished && ValidRunStatus(status) && status != Completed
    ensures Refusal(r, Finish(status, now, end)).None?
  {
  }

  /** However an invocation ends, the lifecycle has accepted every call made so far, and
      accepts a Finish with any status but completed. */
  lemma EveryRunAccepted(v: Invocation, its: seq<Iteration>, at: int, limit: nat, status: RunStatus, now: int, end: int)
    requires Acceptable(its) && Runs(v, its, at, limit)
    ensures forall m :: 0 <= m < |v.traces| ==> IterationAccepted(v.traces[m], v.between[m], its[m], v.clocks[m].0)
    ensures forall m :: 0 <= m < |v.traces| ==> CompletionAccepted(v, its, m)
    ensures v.last.Some? ==>
      IterationAccepted(v.last.value.0, v.between[|v.traces|], its[|v.traces|], v.last.value.1)
    ensures TasksHaveIterations(EndFields(v))
    ensures ValidRunStatus(status) && status != Completed ==> Refusal(EndFields(v), Finish(status, now, end)).None?
  {
    forall m | 0 <= m < |v.traces|
      ensures IterationAccepted(v.traces[m], v.between[m], its[m], v.clocks[m].0) && CompletionAccepted(v, its, m)
    {
      EveryIteration(v, its, at, limit, m);
      assert Loops(v, its, limit, m);
      WorkAccepted(v.traces[m], v.between[m], its, m, v.clocks[m].0, limit);
      LoopCompletes(v, its, at, limit, m);
    }
    EveryIteration(v, its, at, limit, |v.traces|);
    if v.last.Some? {
      WorkAccepted(v.last.value.0, v.between[|v.traces|], its, |v.traces|, v.last.value.1, limit);
    }
    if ValidRunStatus(status) && status != Completed {
      ActiveMayFinish(EndFields(v), status, now, end);
    }
  }

  /** The iteration's completion is not refused. */
  ghost predicate CompletionAccepted(v: Invocation, its: seq<Iteration>, m: nat)
    requires |v.traces| == |v.clocks| <= |its| && m < |v.traces|
  {
    var tr := v.traces[m];
    && |tr.runs| == |tr.actions| + 1 && TasksHaveIterations(tr.runs[|tr.actions|])
    && Refusal(tr.runs[|tr.actions|], CompleteIteration(its[m].number, v.clocks[m].1)).None?
  }

  lemma LoopCompletes(v: Invocation, its: seq<Iteration>, at: int, limit: nat, m: nat)
    requires Acceptable(its) && Runs(v, its, at, limit) && m < |v.traces| && Between(v.between[m], its, m)
    ensures CompletionAccepted(v, its, m)
  {
    assert Loops(v, its, limit, m);
    OpenAccepted(v.between[m], its, m, v.clocks[m].0);
    IterationMayComplete(v.traces[m], Mutated(v.between[m], StartIteration(its[m].number, v.clocks[m].0)),
                         its[m].number, its[m].tasks, limit, v.clocks[m].1);
  }

  /** When no iteration fails, Finish may report completed. */
  lemma UncancelledRunAccepted(v: Invocation, its: seq<Iteration>, at: int, limit: nat, now: int, end: int)
    requires Acceptable(its) && Uncancelled(v, its, at, limit)
    ensures forall m :: 0 <= m < |its| ==>
      IterationAccepted(v.traces[m], v.between[m], its[m], v.clocks[m].0) && CompletionAccepted(v, its, m)
    ensures TasksHaveIterations(v.between[|its|])
    ensures Refusal(v.between[|its|], Finish(Completed, now, end)).None?
  {
    EveryRunAccepted(v, its, at, limit, Errored, now, end);
    EveryIteration(v, its, at, limit, |its|);
    FinishAccepted(v.between[|its|], its, now, end);
  }

  lemma FinishAccepted(r: Run, its: seq<Iteration>, now: int, end: int)
    requires Between(r, its, |its|)
    ensures Refusal(r, Finish(Completed, now, end)).None?
  {
    assert its[..|its|] == its;
    forall k | k in r.iterations
      ensures r.iterations[k].completed
    {
      var i: nat :| i < |its| && its[i].number == k;
      assert IterationAt(r, its, |its|, i);
    }
  }
}
