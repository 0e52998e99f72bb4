/** The announced plan, and which event sequences are runs of it.

    `WellFormed` says of a log, event by event, that each event is legal after the
    ones before it. It mentions no field of the lifecycle object; `Observe` reads
    everything it needs from the log alone. */
module RunGrammar {
  import opened EvalEvent

  datatype Task = Task(id: string, iteration: nat, caseId: string, configuration: Configuration,
                       index: nat, title: string)

  datatype Iteration = Iteration(number: nat, tasks: seq<Task>)

  /** A validated plan: its tasks by ID and its iterations by number. */
  datatype Snapshot = Snapshot(tasks: map<string, Task>, iterations: map<nat, Iteration>, total: nat)

  /** The IDs of one iteration's tasks. */
  function IdsOf(plan: Snapshot, k: nat): set<string> {
    set id | id in plan.tasks && plan.tasks[id].iteration == k
  }

  /** The maps are keyed by the IDs and numbers they hold. */
  ghost predicate Keyed(plan: Snapshot) {
    && (forall id :: id in plan.tasks ==> plan.tasks[id].id == id && plan.tasks[id].iteration in plan.iterations)
    && (forall k :: k in plan.iterations ==> plan.iterations[k].number == k)
  }

  /** Each iteration's task list has one entry for each of its IDs. */
  ghost predicate ListsEveryTaskOnce(plan: Snapshot) {
    forall k {:trigger IdsOf(plan, k)} :: k in plan.iterations ==> |IdsOf(plan, k)| == |plan.iterations[k].tasks|
  }

  /** What plan validation establishes about sizes and values. */
  ghost predicate ValidSnapshot(plan: Snapshot) {
    match plan
    case Snapshot(tasks, iterations, total) =>
      && PositiveInteger(total)
      && |tasks| == total
      && 1 <= |iterations| <= total
      && (forall id {:trigger FieldsOf(plan, tasks[id])} :: id in tasks ==> FieldsOf(plan, tasks[id]).Valid())
      && (forall k :: k in iterations ==> PositiveInteger(k))
  }

  /** taskFields. */
  function FieldsOf(plan: Snapshot, task: Task): TaskFields {
    TaskFields(task.id, task.iteration, task.caseId, task.configuration, task.index, plan.total, task.title)
  }

  datatype Stage = NotStarted | Running | Finished

  /** What a reader of the log knows. `due` says that the last event must be
      followed by a progress snapshot. */
  datatype View = View(
    stage: Stage, phase: RunPhase, due: bool,
    started: set<string>, completed: set<string>, counts: ResultCounts,
    iterationsStarted: set<nat>, iterationsCompleted: set<nat>, iterationCounts: map<nat, ResultCounts>)

  const NOTHING := View(NotStarted, OtherPhase, false, {}, {}, NO_RESULTS, {}, {}, map[])

  function CountsOf(v: View, k: nat): ResultCounts {
    if k in v.iterationCounts then v.iterationCounts[k] else NO_RESULTS
  }

  /** The view after one more event. */
  function Apply(v: View, payload: Payload): View {
    match payload
    case RunStarted(_, _, _, _) => v.(stage := Running, due := true)
    case RunProgress(_, phase, _, _, _, _) => v.(phase := phase, due := false)
    case IterationStarted(k) => v.(iterationsStarted := v.iterationsStarted + {k})
    case CaseStarted(f) => v.(started := v.started + {f.taskId}, due := true)
    case CaseCompleted(f, _, status, _, _) =>
      v.(completed := v.completed + {f.taskId}, counts := v.counts.Add(status),
         iterationCounts := v.iterationCounts[f.iteration := CountsOf(v, f.iteration).Add(status)], due := true)
    case IterationCompleted(_, k, _, _) => v.(iterationsCompleted := v.iterationsCompleted + {k})
    case RunFinished(_, _, _, _) => v.(stage := Finished)
  }

  function Observe(log: seq<Event>): View {
    if log == [] then NOTHING else Apply(Observe(log[..|log| - 1]), log[|log| - 1].payload)
  }

  /** Work events belong to the executing phase. */
  predicate Open(v: View) {
    v.stage == Running && !v.due && v.phase == Executing
  }

  predicate Announced(plan: Snapshot, f: TaskFields) {
    f.taskId in plan.tasks && f == FieldsOf(plan, plan.tasks[f.taskId])
  }

  /** running_tasks, which the final snapshot reports as zero. */
  function RunningTasks(v: View, phase: RunPhase): int {
    if phase == Finalizing then 0 else |v.started| - |v.completed|
  }

  /** The phase of a snapshot: a snapshot that is due keeps the phase (the first
      one enters preparing); any other may also move it forward. */
  predicate NextPhase(v: View, phase: RunPhase) {
    if v.due then phase == (if v.phase == OtherPhase then Preparing else v.phase) && phase != Finalizing
    else v.phase != Finalizing && ValidPhase(phase) && PhaseRank(v.phase) <= PhaseRank(phase)
  }

  /** The payload may follow a log whose view is v. */
  predicate LegalPayload(plan: Snapshot, v: View, payload: Payload) {
    match payload
    case RunStarted(engine, skillName, taskTotal, iterationsTotal) =>
      && v.stage == NotStarted
      && NonEmptyString(engine) && NonEmptyString(skillName)
      && taskTotal == plan.total && iterationsTotal == |plan.iterations|
    case RunProgress(counts, phase, taskTotal, completedTasks, runningTasks, elapsedMS) =>
      && v.stage == Running
      && NextPhase(v, phase)
      && counts == v.counts && taskTotal == plan.total && completedTasks == |v.completed|
      && runningTasks == RunningTasks(v, phase)
      && elapsedMS <= MAX_ELAPSED_MS
    case IterationStarted(k) =>
      Open(v) && k in plan.iterations && k !in v.iterationsStarted
    case CaseStarted(f) =>
      && Open(v) && Announced(plan, f) && f.taskId !in v.started
      && f.iteration in v.iterationsStarted && f.iteration !in v.iterationsCompleted
    case CaseCompleted(f, completedTasks, status, passRate, durationMS) =>
      && Open(v) && Announced(plan, f) && f.taskId in v.started && f.taskId !in v.completed
      && completedTasks == |v.completed| + 1
      && ValidCaseStatus(status) && ValidPassRate(passRate) && durationMS <= MAX_ELAPSED_MS
    case IterationCompleted(counts, k, invocationCompletedTasks, durationMS) =>
      && Open(v) && k in v.iterationsStarted && k !in v.iterationsCompleted
      && IdsOf(plan, k) <= v.completed
      && counts == CountsOf(v, k) && invocationCompletedTasks == |v.completed|
      && durationMS <= MAX_ELAPSED_MS
    case RunFinished(counts, status, completedTasks, durationMS) =>
      && v.stage == Running && v.phase == Finalizing
      && counts == v.counts && completedTasks == |v.completed|
      && ValidRunStatus(status) && durationMS <= MAX_ELAPSED_MS
      && (status == Completed ==>
            v.completed == plan.tasks.Keys && v.iterationsCompleted == plan.iterations.Keys)
  }

  predicate Legal(plan: Snapshot, before: seq<Event>, event: Event) {
    && event.sequence == |before| + 1 <= MAX_SAFE_INTEGER
    && (event.last <==> event.payload.RunFinished?)
    && LegalPayload(plan, Observe(before), event.payload)
  }

  /** The n-th event is legal after the events before it. */
  predicate LegalAt(plan: Snapshot, log: seq<Event>, n: nat)
    requires n < |log|
  {
    Legal(plan, log[..n], log[n])
  }

  ghost predicate WellFormed(plan: Snapshot, log: seq<Event>) {
    forall n: nat {:trigger LegalAt(plan, log, n)} :: n < |log| ==> LegalAt(plan, log, n)
  }

  /** One step of Observe and of WellFormed. */
  lemma Extend(plan: Snapshot, log: seq<Event>, event: Event)
    ensures Observe(log + [event]) == Apply(Observe(log), event.payload)
    ensures WellFormed(plan, log + [event]) <==> WellFormed(plan, log) && Legal(plan, log, event)
  {
    var longer := log + [event];
    assert longer[..|log|] == log;
    if WellFormed(plan, longer) {
      assert LegalAt(plan, longer, |log|);
      PrefixLegal(plan, longer, |log|);
    }
    if WellFormed(plan, log) && Legal(plan, log, event) {
      forall n: nat | n < |longer|
        ensures LegalAt(plan, longer, n)
      {
        if n < |log| {
          assert LegalAt(plan, log, n) && longer[..n] == log[..n];
        }
      }
    }
  }

  /** Every prefix of a well-formed log is well formed, and its next event is legal. */
  lemma PrefixLegal(plan: Snapshot, log: seq<Event>, n: nat)
    requires WellFormed(plan, log) && n <= |log|
    ensures WellFormed(plan, log[..n])
    ensures n < |log| ==> Legal(plan, log[..n], log[n])
  {
    assert n < |log| ==> LegalAt(plan, log, n);
    forall m: nat | m < n
      ensures LegalAt(plan, log[..n], m)
    {
      assert LegalAt(plan, log, m) && log[..n][..m] == log[..m];
    }
  }

  /** The bounds that every view of a well-formed log obeys. */
  ghost predicate Sound(plan: Snapshot, v: View) {
    match v
    case View(_, _, _, started, completed, counts, iterationsStarted, iterationsCompleted, _) =>
      && completed <= started <= plan.tasks.Keys
      && iterationsCompleted <= iterationsStarted <= plan.iterations.Keys
      && OneResultEach(counts, completed)
      && (forall k: nat {:trigger CountsBelow(v, k)} :: CountsBelow(v, k))
  }

  /** There is one result for each completed task. */
  predicate OneResultEach(counts: ResultCounts, completed: set<string>) {
    |completed| == counts.passed + counts.failed + counts.errored + counts.skipped
  }

  /** No iteration has more results than the run. */
  predicate CountsBelow(v: View, k: nat) {
    CountsOf(v, k).Total() <= v.counts.Total()
  }

  lemma {:induction false} ObservedSound(plan: Snapshot, log: seq<Event>)
    requires WellFormed(plan, log)
    ensures Sound(plan, Observe(log))
  {
    if log != [] {
      var n := |log| - 1;
      PrefixLegal(plan, log, n);
      ObservedSound(plan, log[..n]);
      ApplySound(plan, Observe(log[..n]), log[n].payload);
    }
  }

  lemma ApplySound(plan: Snapshot, v: View, payload: Payload)
    requires Sound(plan, v) && LegalPayload(plan, v, payload)
    ensures Sound(plan, Apply(v, payload))
  {
    var w := Apply(v, payload);
    assert OneResultEach(w.counts, w.completed);
    forall k: nat
      ensures CountsBelow(w, k)
    {
      assert CountsBelow(v, k);
      ApplyCounts(v, payload, k);
    }
  }

  lemma ApplyCounts(v: View, payload: Payload, k: nat)
    requires CountsBelow(v, k)
    ensures CountsBelow(Apply(v, payload), k)
  {
    var w := Apply(v, payload);
    if payload.CaseCompleted? {
      AddGrows(CountsOf(v, k), v.counts, payload.status);
      assert w.counts == v.counts.Add(payload.status);
      assert CountsOf(w, k) == if k == payload.task.iteration then CountsOf(v, k).Add(payload.status)
             else CountsOf(v, k);
    } else {
      assert w.counts == v.counts && w.iterationCounts == v.iterationCounts;
    }
  }

  lemma AddGrows(a: ResultCounts, b: ResultCounts, status: CaseStatus)
    requires a.Total() <= b.Total()
    ensures a.Total() <= b.Add(status).Total() && a.Add(status).Total() <= b.Add(status).Total()
  {
  }

  /** A subset is no larger. */
  lemma SubsetSize<T>(a: set<T>, b: set<T>)
    requires a <= b
    ensures |a| <= |b|
    ensures |a| == |b| ==> a == b
    ensures |b - a| == |b| - |a|
  {
    assert b == a + (b - a);
  }

  /** A legal payload always passes its own validation. */
  lemma LegalIsValid(plan: Snapshot, v: View, payload: Payload)
    requires ValidSnapshot(plan) && Sound(plan, v) && LegalPayload(plan, v, payload)
    ensures payload.Valid()
  {
    SubsetSize(v.completed, v.started);
    SubsetSize(v.started, plan.tasks.Keys);
    match payload
    case RunStarted(_, _, _, _) =>
    case IterationStarted(_) =>
    case RunProgress(_, _, _, _, _, _) => LegalProgressIsValid(plan, v, payload);
    case CaseStarted(_) => LegalCaseIsValid(plan, v, payload);
    case CaseCompleted(_, _, _, _, _) => LegalCaseIsValid(plan, v, payload);
    case IterationCompleted(counts, k, _, _) =>
      assert CountsBelow(v, k);
      SmallCountsAreValid(counts);
    case RunFinished(counts, _, _, _) =>
      SmallCountsAreValid(counts);
  }

  lemma SmallCountsAreValid(counts: ResultCounts)
    requires counts.Total() <= MAX_SAFE_INTEGER
    ensures counts.Valid()
  {
  }

  lemma LegalProgressIsValid(plan: Snapshot, v: View, payload: Payload)
    requires payload.RunProgress?
    requires PositiveInteger(plan.total)
    requires |v.completed| <= |v.started| <= plan.total && OneResultEach(v.counts, v.completed)
    requires LegalPayload(plan, v, payload)
    ensures payload.Valid()
  {
  }

  lemma LegalCaseIsValid(plan: Snapshot, v: View, payload: Payload)
    requires payload.CaseStarted? || payload.CaseCompleted?
    requires ValidSnapshot(plan) && v.completed <= plan.tasks.Keys
    requires LegalPayload(plan, v, payload)
    ensures payload.Valid()
  {
    assert FieldsOf(plan, plan.tasks[payload.task.taskId]).Valid();
    SubsetSize(v.completed + {payload.task.taskId}, plan.tasks.Keys);
  }
}
