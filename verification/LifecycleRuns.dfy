/** One call of the lifecycle: the announced events are legal, the fields move
    with them, and the fields keep agreeing with a view of the run.

    A `View` is what a reader of the log knows (RunGrammar). Here v is the view of
    the run as it would be if no publication had failed; LifecycleTheorems ties it
    to the log that is really delivered. */
module LifecycleRuns {
  import opened EvalEvent
  import opened RunGrammar
  import opened LifecycleSpec

  /** The plan inside the fields never changes. */
  ghost predicate HoldsPlan(plan: Snapshot, r: Run) {
    && r.taskTotal == plan.total
    && r.tasks.Keys == plan.tasks.Keys
    && r.iterations.Keys == plan.iterations.Keys
    && (forall id :: id in plan.tasks ==> r.tasks[id].task == plan.tasks[id])
    && (forall k :: k in plan.iterations ==> r.iterations[k].iteration == plan.iterations[k])
  }

  ghost predicate RunAgrees(r: Run, v: View) {
    && (r.started <==> v.stage == Running) && v.stage != Finished
    && !r.finished && !v.due && r.phase == v.phase && v.phase != Finalizing
    && (r.started <==> ValidPhase(r.phase))
  }

  ghost predicate CountersAgree(r: Run, v: View) {
    && r.completed == |v.completed|
    && r.resultCounts == v.counts
    && ActiveAre(r.activeTaskIDs, v)
  }

  /** The active tasks are those started and not completed. */
  ghost predicate ActiveAre(active: set<string>, v: View) {
    forall id {:trigger id in active} :: id in active <==> id in v.started && id !in v.completed
  }

  predicate TaskAgrees(r: Run, v: View, id: string)
    requires id in r.tasks
  {
    && (r.tasks[id].started <==> id in v.started)
    && (r.tasks[id].completed <==> id in v.completed)
  }

  predicate IterationAgrees(r: Run, v: View, k: nat)
    requires k in r.iterations
  {
    && (r.iterations[k].started <==> k in v.iterationsStarted)
    && (r.iterations[k].completed <==> k in v.iterationsCompleted)
    && r.iterations[k].result == CountsOf(v, k)
  }

  /** The fields are what a reader of the run would compute. */
  ghost predicate Agrees(r: Run, v: View) {
    && RunAgrees(r, v)
    && CountersAgree(r, v)
    && (forall id {:trigger TaskAgrees(r, v, id)} :: id in r.tasks ==> TaskAgrees(r, v, id))
    && (forall k {:trigger IterationAgrees(r, v, k)} :: k in r.iterations ==> IterationAgrees(r, v, k))
  }

  /** completedN counts the completed tasks of its iteration. */
  predicate TallyAgrees(plan: Snapshot, r: Run, v: View, k: nat)
    requires k in r.iterations
  {
    r.iterations[k].completedN == |v.completed * IdsOf(plan, k)|
  }

  ghost predicate TalliesAgree(plan: Snapshot, r: Run, v: View) {
    forall k {:trigger TallyAgrees(plan, r, v, k)} :: k in r.iterations ==> TallyAgrees(plan, r, v, k)
  }

  /** The counters a snapshot reports. */
  ghost predicate SnapshotAgrees(r: Run, v: View) {
    && r.completed == |v.completed| && r.resultCounts == v.counts
    && (if r.phase == Finalizing then r.activeTaskIDs == {} else ActiveAre(r.activeTaskIDs, v))
  }

  /** The view after a snapshot of a phase. */
  function Refreshed(v: View, phase: RunPhase): View {
    v.(phase := phase, due := false)
  }

  /** The view of the run after a call that is not refused. */
  function NextView(r: Run, c: Call, v: View): View
    requires TasksHaveIterations(r) && Refusal(r, c).None?
  {
    match c
    case Start(_, _, _, _) => Refreshed(Apply(v, Announcement(r, c)), Preparing)
    case SetPhase(phase, _) => Refreshed(v, phase)
    case Heartbeat(_) => v
    case StartIteration(_, _) => Apply(v, Announcement(r, c))
    case StartCase(_, _, _) => Refreshed(Apply(v, Announcement(r, c)), Executing)
    case CompleteCase(_, _, _, _, _) => Refreshed(Apply(v, Announcement(r, c)), Executing)
    case CompleteIteration(_, _) => Apply(v, Announcement(r, c))
    case Finish(_, _, _) => Apply(Refreshed(v, Finalizing), Announcement(r, c))
    case ClosePublisher => v
  }

  /** The fields and the view just before a call that is not refused. */
  ghost predicate Ready(plan: Snapshot, r: Run, c: Call, v: View) {
    && Keyed(plan) && HoldsPlan(plan, r) && Sound(plan, v) && Agrees(r, v)
    && TasksHaveIterations(r) && Refusal(r, c).None?
  }

  lemma MutatedHoldsPlan(plan: Snapshot, r: Run, c: Call)
    requires HoldsPlan(plan, r) && TasksHaveIterations(r) && Refusal(r, c).None?
    ensures HoldsPlan(plan, Mutated(r, c))
  {
  }

  lemma ActiveCount(r: Run, v: View)
    requires SnapshotAgrees(r, v) && v.completed <= v.started
    ensures |r.activeTaskIDs| == RunningTasks(v, r.phase)
  {
    SubsetSize(v.completed, v.started);
    if r.phase != Finalizing {
      assert r.activeTaskIDs == v.started - v.completed;
    }
  }

  lemma ProgressLegal(plan: Snapshot, r: Run, v: View, now: int)
    requires HoldsPlan(plan, r) && Sound(plan, v)
    requires SnapshotAgrees(r, v) && v.stage == Running && NextPhase(v, r.phase)
    ensures LegalPayload(plan, v, ProgressPayload(r, now))
  {
    ActiveCount(r, v);
    ElapsedMSRange(r.runStartedAt, now, 0);
  }

  // What stays untouched still agrees.

  lemma TasksAgreeStill(r: Run, v: View, t: Run, w: View)
    requires Agrees(r, v) && t.tasks == r.tasks
    requires w.started == v.started && w.completed == v.completed
    ensures forall id {:trigger TaskAgrees(t, w, id)} :: id in t.tasks ==> TaskAgrees(t, w, id)
  {
    forall id | id in t.tasks
      ensures TaskAgrees(t, w, id)
    {
      assert TaskAgrees(r, v, id);
    }
  }

  lemma IterationsAgreeStill(r: Run, v: View, t: Run, w: View)
    requires Agrees(r, v) && t.iterations == r.iterations
    requires w.completed == v.completed && w.iterationCounts == v.iterationCounts
    requires w.iterationsStarted == v.iterationsStarted && w.iterationsCompleted == v.iterationsCompleted
    ensures forall k {:trigger IterationAgrees(t, w, k)} :: k in t.iterations ==> IterationAgrees(t, w, k)
  {
    forall k | k in t.iterations
      ensures IterationAgrees(t, w, k)
    {
      assert IterationAgrees(r, v, k);
    }
  }

  lemma TalliesStill(plan: Snapshot, r: Run, v: View, t: Run, w: View)
    requires TalliesAgree(plan, r, v) && t.iterations.Keys == r.iterations.Keys && w.completed == v.completed
    requires forall k :: k in r.iterations ==> t.iterations[k].completedN == r.iterations[k].completedN
    ensures TalliesAgree(plan, t, w)
  {
    forall k | k in t.iterations
      ensures TallyAgrees(plan, t, w, k)
    {
      assert TallyAgrees(plan, r, v, k);
    }
  }

  // Start, SetPhase, Heartbeat.

  lemma StartMoves(plan: Snapshot, r: Run, c: Call, v: View)
    requires c.Start? && Ready(plan, r, c, v)
    ensures LegalPayload(plan, v, Announcement(r, c))
    ensures Agrees(Mutated(r, c), NextView(r, c, v))
    ensures var w := Apply(v, Announcement(r, c));
      SnapshotAgrees(Mutated(r, c), w) && w.stage == Running && NextPhase(w, Preparing)
  {
    var t, w := Mutated(r, c), NextView(r, c, v);
    TasksAgreeStill(r, v, t, w);
    IterationsAgreeStill(r, v, t, w);
  }

  lemma PhaseMoves(plan: Snapshot, r: Run, c: Call, v: View)
    requires (c.SetPhase? || c.Heartbeat?) && Ready(plan, r, c, v)
    ensures Agrees(Mutated(r, c), NextView(r, c, v))
    ensures NextView(r, c, v) == Refreshed(v, Mutated(r, c).phase)
    ensures SnapshotAgrees(Mutated(r, c), v) && v.stage == Running && NextPhase(v, Mutated(r, c).phase)
  {
    var t, w := Mutated(r, c), NextView(r, c, v);
    TasksAgreeStill(r, v, t, w);
    IterationsAgreeStill(r, v, t, w);
  }

  // Iterations.

  lemma StartIterationLegal(plan: Snapshot, r: Run, c: Call, v: View)
    requires c.StartIteration? && Ready(plan, r, c, v)
    ensures LegalPayload(plan, v, Announcement(r, c))
  {
    assert IterationAgrees(r, v, c.number);
  }

  lemma StartIterationMoves(plan: Snapshot, r: Run, c: Call, v: View)
    requires c.StartIteration? && Ready(plan, r, c, v)
    ensures Agrees(Mutated(r, c), NextView(r, c, v))
  {
    var t, w := Mutated(r, c), NextView(r, c, v);
    TasksAgreeStill(r, v, t, w);
    forall k | k in t.iterations
      ensures IterationAgrees(t, w, k)
    {
      assert IterationAgrees(r, v, k);
    }
  }

  /** completedN counts exactly, so an iteration that may complete has no task left. */
  lemma AllTasksCompleted(plan: Snapshot, r: Run, v: View, k: nat)
    requires ListsEveryTaskOnce(plan) && TalliesAgree(plan, r, v)
    requires k in r.iterations && k in plan.iterations && r.iterations[k].iteration == plan.iterations[k]
    requires r.iterations[k].completedN == |r.iterations[k].iteration.tasks|
    ensures IdsOf(plan, k) <= v.completed
  {
    assert TallyAgrees(plan, r, v, k);
    SubsetSize(v.completed * IdsOf(plan, k), IdsOf(plan, k));
  }

  lemma CompleteIterationLegal(plan: Snapshot, r: Run, c: Call, v: View)
    requires c.CompleteIteration? && Ready(plan, r, c, v) && IdsOf(plan, c.number) <= v.completed
    ensures LegalPayload(plan, v, Announcement(r, c))
  {
    assert IterationAgrees(r, v, c.number);
    ElapsedMSRange(r.iterations[c.number].startedAt, c.now, 0);
  }

  lemma CompleteIterationMoves(plan: Snapshot, r: Run, c: Call, v: View)
    requires c.CompleteIteration? && Ready(plan, r, c, v)
    ensures Agrees(Mutated(r, c), NextView(r, c, v))
  {
    var t, w := Mutated(r, c), NextView(r, c, v);
    TasksAgreeStill(r, v, t, w);
    forall k | k in t.iterations
      ensures IterationAgrees(t, w, k)
    {
      assert IterationAgrees(r, v, k);
    }
  }

  // Cases.

  lemma StartCaseLegal(plan: Snapshot, r: Run, c: Call, v: View)
    requires c.StartCase? && Ready(plan, r, c, v)
    ensures LegalPayload(plan, v, Announcement(r, c))
  {
    assert TaskAgrees(r, v, c.taskId);
    assert IterationAgrees(r, v, r.tasks[c.taskId].task.iteration);
  }

  lemma StartCaseMoves(plan: Snapshot, r: Run, c: Call, v: View)
    requires c.StartCase? && Ready(plan, r, c, v)
    ensures Agrees(Mutated(r, c), NextView(r, c, v))
    ensures var w := Apply(v, Announcement(r, c));
      SnapshotAgrees(Mutated(r, c), w) && w.stage == Running && NextPhase(w, Executing)
  {
    var t, w := Mutated(r, c), NextView(r, c, v);
    forall id | id in t.tasks
      ensures TaskAgrees(t, w, id)
    {
      assert TaskAgrees(r, v, id);
    }
    IterationsAgreeStill(r, v, t, w);
    assert TaskAgrees(r, v, c.taskId);
  }

  lemma CompleteCaseLegal(plan: Snapshot, r: Run, c: Call, v: View)
    requires c.CompleteCase? && Ready(plan, r, c, v)
    ensures LegalPayload(plan, v, Announcement(r, c))
  {
    assert TaskAgrees(r, v, c.taskId);
    ElapsedMSRange(r.tasks[c.taskId].startedAt, c.at, 0);
  }

  lemma CompleteCaseMoves(plan: Snapshot, r: Run, c: Call, v: View)
    requires c.CompleteCase? && Ready(plan, r, c, v)
    ensures Agrees(Mutated(r, c), NextView(r, c, v))
    ensures var w := Apply(v, Announcement(r, c));
      SnapshotAgrees(Mutated(r, c), w) && w.stage == Running && NextPhase(w, Executing)
  {
    var t, w := Mutated(r, c), NextView(r, c, v);
    forall id | id in t.tasks
      ensures TaskAgrees(t, w, id)
    {
      CompleteCaseTask(plan, r, c, v, id);
    }
    forall k | k in t.iterations
      ensures IterationAgrees(t, w, k)
    {
      CompleteCaseCounts(plan, r, c, v, k);
    }
    assert TaskAgrees(r, v, c.taskId);
  }

  lemma CompleteCaseTask(plan: Snapshot, r: Run, c: Call, v: View, id: string)
    requires c.CompleteCase? && TasksHaveIterations(r) && Refusal(r, c).None?
    requires Keyed(plan) && HoldsPlan(plan, r) && id in r.tasks && TaskAgrees(r, v, id)
    ensures TaskAgrees(Mutated(r, c), NextView(r, c, v), id)
  {
  }

  lemma CompleteCaseCounts(plan: Snapshot, r: Run, c: Call, v: View, k: nat)
    requires c.CompleteCase? && TasksHaveIterations(r) && Refusal(r, c).None?
    requires HoldsPlan(plan, r) && k in r.iterations && IterationAgrees(r, v, k)
    ensures IterationAgrees(Mutated(r, c), NextView(r, c, v), k)
  {
  }

  /** A completed task moves exactly its own iteration's tally. */
  lemma CompleteCaseTallies(plan: Snapshot, r: Run, t: Run, v: View, w: View, id: string)
    requires TalliesAgree(plan, r, v)
    requires id in plan.tasks && id !in v.completed && w.completed == v.completed + {id}
    requires t.iterations.Keys == r.iterations.Keys
    requires forall k :: k in r.iterations ==>
      t.iterations[k].completedN == r.iterations[k].completedN + (if k == plan.tasks[id].iteration then 1 else 0)
    ensures TalliesAgree(plan, t, w)
  {
    forall k | k in t.iterations
      ensures TallyAgrees(plan, t, w, k)
    {
      assert TallyAgrees(plan, r, v, k);
      if k == plan.tasks[id].iteration {
        assert w.completed * IdsOf(plan, k) == v.completed * IdsOf(plan, k) + {id};
      } else {
        assert w.completed * IdsOf(plan, k) == v.completed * IdsOf(plan, k);
      }
    }
  }

  lemma CompletedTallies(plan: Snapshot, r: Run, c: Call, v: View)
    requires c.CompleteCase? && Ready(plan, r, c, v) && TalliesAgree(plan, r, v)
    ensures TalliesAgree(plan, Mutated(r, c), NextView(r, c, v))
  {
    assert TaskAgrees(r, v, c.taskId);
    CompleteCaseTallies(plan, r, Mutated(r, c), v, NextView(r, c, v), c.taskId);
  }

  lemma OtherTallies(plan: Snapshot, r: Run, c: Call, v: View)
    requires !c.CompleteCase? && TasksHaveIterations(r) && Refusal(r, c).None? && TalliesAgree(plan, r, v)
    ensures TalliesAgree(plan, Mutated(r, c), NextView(r, c, v))
  {
    TalliesStill(plan, r, v, Mutated(r, c), NextView(r, c, v));
  }

  // Finish.

  lemma FinishLegal(plan: Snapshot, r: Run, c: Call, v: View)
    requires c.Finish? && Ready(plan, r, c, v) && |plan.tasks| == plan.total
    ensures LegalPayload(plan, Refreshed(v, Finalizing), Announcement(r, c))
  {
    ElapsedMSRange(r.runStartedAt, c.at, 0);
    if c.finalStatus == Completed {
      EverythingCompleted(plan, r, v);
    }
  }

  lemma FinishMoves(r: Run, c: Call, v: View)
    requires c.Finish? && TasksHaveIterations(r) && Refusal(r, c).None? && Agrees(r, v)
    ensures SnapshotAgrees(Mutated(r, c), v) && v.stage == Running && NextPhase(v, Finalizing)
  {
  }

  lemma EverythingCompleted(plan: Snapshot, r: Run, v: View)
    requires HoldsPlan(plan, r) && v.completed <= plan.tasks.Keys && v.iterationsCompleted <= plan.iterations.Keys
    requires Agrees(r, v) && |v.completed| == |plan.tasks|
    requires forall k :: k in r.iterations ==> r.iterations[k].completed
    ensures v.completed == plan.tasks.Keys && v.iterationsCompleted == plan.iterations.Keys
  {
    SubsetSize(v.completed, plan.tasks.Keys);
    forall k | k in plan.iterations
      ensures k in v.iterationsCompleted
    {
      assert IterationAgrees(r, v, k);
    }
  }
}
