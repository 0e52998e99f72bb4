/** evaluationEventPlan and positiveSafeEventInteger of internal/cli/run_events.go,
    and why the plans that BuildPlan makes pass every check. */
module EventPlans {
  import opened Wrappers
  import opened GoText
  import opened Decimal
  import opened GoInt
  import opened EvalEvent
  import opened RunGrammar
  import opened PlanSnapshots
  import opened TaskPlans

  datatype EventPlanError =
    | UnsafeIteration | NoCase | IterationMismatch | TotalMismatch | UnsafeIndex
    | UnsupportedConfiguration | CountMismatch

  /** The source compares with 2^53 - 1 after a conversion to uint64, which keeps
      every number that is at least 1. */
  function PositiveSafeEventInteger(value: int): Option<nat> {
    if value < 1 || value > MAX_SAFE_INTEGER then None else Some(value)
  }

  function EventConfiguration(configuration: string): Option<Configuration> {
    if configuration == CONFIGURATION_WITH_SKILL then Some(WithSkill)
    else if configuration == CONFIGURATION_WITHOUT_SKILL then Some(WithoutSkill)
    else None
  }

  predicate Convertible(task: PlannedTask, number: int, total: int) {
    && task.config.Some?
    && task.iteration == number
    && task.globalTotal == total
    && PositiveSafeEventInteger(task.globalIndex).Some?
    && EventConfiguration(task.configuration).Some?
  }

  function EventTask(task: PlannedTask, number: int, total: int): Task
    requires Convertible(task, number, total) && PositiveSafeEventInteger(number).Some?
  {
    Task(task.id, PositiveSafeEventInteger(number).value, task.config.value.id,
         EventConfiguration(task.configuration).value, PositiveSafeEventInteger(task.globalIndex).value,
         task.config.value.title)
  }

  ghost predicate ConvertibleIteration(iteration: IterationPlan, total: int) {
    && PositiveSafeEventInteger(iteration.number).Some?
    && forall j :: 0 <= j < |iteration.tasks| ==> Convertible(iteration.tasks[j], iteration.number, total)
  }

  ghost function EventIteration(iteration: IterationPlan, total: int): Iteration
    requires ConvertibleIteration(iteration, total)
  {
    Iteration(PositiveSafeEventInteger(iteration.number).value,
              seq(|iteration.tasks|, j requires 0 <= j < |iteration.tasks| =>
                                       EventTask(iteration.tasks[j], iteration.number, total)))
  }

  function CountTasksOf(iterations: seq<IterationPlan>): nat {
    if iterations == [] then 0
    else CountTasksOf(iterations[..|iterations| - 1]) + |iterations[|iterations| - 1].tasks|
  }

  /** The plans that evaluationEventPlan converts. The count is compared as an int. */
  ghost predicate ConvertiblePlan(plan: TaskPlan) {
    && (forall i :: 0 <= i < |plan.iterations| ==> ConvertibleIteration(plan.iterations[i], plan.taskTotal))
    && Advance(0, CountTasksOf(plan.iterations)) == plan.taskTotal
  }

  ghost function EventPlan(plan: TaskPlan): seq<Iteration>
    requires ConvertiblePlan(plan)
  {
    seq(|plan.iterations|, i requires 0 <= i < |plan.iterations| => EventIteration(plan.iterations[i], plan.taskTotal))
  }

  /** The checks of one task, in the source's order. */
  method ConvertTask(task: PlannedTask, number: int, total: int) returns (r: Result<Task, EventPlanError>)
    requires PositiveSafeEventInteger(number).Some?
    ensures r.Ok? <==> Convertible(task, number, total)
    ensures r.Ok? ==> r.value == EventTask(task, number, total)
  {
    if task.config.None? { return Err(NoCase); }
    if task.iteration != number { return Err(IterationMismatch); }
    if task.globalTotal != total { return Err(TotalMismatch); }
    var index := PositiveSafeEventInteger(task.globalIndex);
    if index.None? { return Err(UnsafeIndex); }
    var configuration := EventConfiguration(task.configuration);
    if configuration.None? { return Err(UnsupportedConfiguration); }
    return Ok(Task(task.id, PositiveSafeEventInteger(number).value, task.config.value.id, configuration.value,
                   index.value, task.config.value.title));
  }

  /** The inner loop. */
  method ConvertIteration(iteration: IterationPlan, total: int) returns (r: Result<Iteration, EventPlanError>)
    ensures r.Ok? <==> ConvertibleIteration(iteration, total)
    ensures r.Ok? ==> r.value == EventIteration(iteration, total)
  {
    var number := PositiveSafeEventInteger(iteration.number);
    if number.None? { return Err(UnsafeIteration); }
    var tasks: seq<Task> := [];
    for j := 0 to |iteration.tasks|
      invariant |tasks| == j
      invariant forall k :: 0 <= k < j ==>
        && Convertible(iteration.tasks[k], iteration.number, total)
        && tasks[k] == EventTask(iteration.tasks[k], iteration.number, total)
    {
      var task := ConvertTask(iteration.tasks[j], iteration.number, total);
      if task.Err? { return Err(task.error); }
      tasks := tasks + [task.value];
    }
    return Ok(Iteration(number.value, tasks));
  }

  method EvaluationEventPlan(plan: TaskPlan) returns (r: Result<seq<Iteration>, EventPlanError>)
    ensures r.Ok? <==> ConvertiblePlan(plan)
    ensures r.Ok? ==> r.value == EventPlan(plan)
  {
    var iterations: seq<Iteration> := [];
    var taskCount := 0;
    for i := 0 to |plan.iterations|
      invariant |iterations| == i
      invariant forall k :: 0 <= k < i ==>
        && ConvertibleIteration(plan.iterations[k], plan.taskTotal)
        && iterations[k] == EventIteration(plan.iterations[k], plan.taskTotal)
      invariant taskCount == Advance(0, CountTasksOf(plan.iterations[..i]))
    {
      var iteration := ConvertIteration(plan.iterations[i], plan.taskTotal);
      if iteration.Err? { return Err(iteration.error); }
      iterations := iterations + [iteration.value];
      assert plan.iterations[..i + 1][..i] == plan.iterations[..i];
      AdvanceMore(0, CountTasksOf(plan.iterations[..i]), |plan.iterations[i].tasks|);
      taskCount := Advance(taskCount, |plan.iterations[i].tasks|);
    }
    assert plan.iterations[..|plan.iterations|] == plan.iterations;
    if taskCount != plan.taskTotal { return Err(CountMismatch); }
    return Ok(iterations);
  }

  // What BuildPlan makes.

  /** Division with remainder, for Times. */
  lemma {:induction false} Split(k: nat, m: nat, n: nat) returns (q: nat, r: nat)
    requires k < Times(m, n)
    ensures q < m && r < n && k == Times(q, n) + r
  {
    if k < Times(m - 1, n) {
      q, r := Split(k, m - 1, n);
    } else {
      q, r := m - 1, k - Times(m - 1, n);
    }
  }

  lemma {:induction false} EqualIterations(its: seq<Iteration>, w: nat)
    requires forall i :: 0 <= i < |its| ==> |its[i].tasks| == w
    ensures |AllTasks(its)| == Times(|its|, w)
  {
    if its != [] {
      EqualIterations(its[..|its| - 1], w);
    }
  }

  lemma {:induction false} EqualPlans(iterations: seq<IterationPlan>, w: nat)
    requires forall i :: 0 <= i < |iterations| ==> |iterations[i].tasks| == w
    ensures CountTasksOf(iterations) == Times(|iterations|, w)
  {
    if iterations != [] {
      EqualPlans(iterations[..|iterations| - 1], w);
    }
  }

  ghost predicate ValidCase(config: Option<CaseConfig>) {
    config.Some? && NonEmptyString(config.value.id) && ValidUtf8(config.value.title)
  }

  /** The inputs of BuildPlan whose plans can be announced. */
  ghost predicate Announceable(cases: seq<Option<CaseConfig>>, start: int, count: nat, configurations: seq<string>) {
    && cases != [] && configurations != []
    && (forall c :: 0 <= c < |cases| ==> ValidCase(cases[c]))
    && (forall f :: 0 <= f < |configurations| ==> EventConfiguration(configurations[f]).Some?)
    && start + count - 1 <= MAX_SAFE_INTEGER
    && Times(count, Width(cases, configurations)) <= MAX_SAFE_INTEGER
  }

  ghost predicate Accepted(plan: TaskPlan) {
    ConvertiblePlan(plan) && Acceptable(EventPlan(plan))
  }

  /** An expansion whose lists fit in memory. */
  ghost predicate Expanded(naming: int -> string, plan: TaskPlan, cases: seq<Option<CaseConfig>>, start: int,
                           count: nat, configurations: seq<string>)
  {
    && IsExpandedInto(naming, plan.iterations, plan.taskTotal, cases, start, count, configurations)
    && plan.taskTotal == Times(count, Width(cases, configurations))
    && 1 <= start <= MAX_INT && 1 <= count <= MAX_INT
    && Times(count, Width(cases, configurations)) <= MAX_INT
  }

  lemma {:induction false} SomeWidth(m: nat, n: nat)
    ensures Times(m, n) > 0 <==> m > 0 && n > 0
  {
    if m > 0 {
      SomeWidth(m - 1, n);
    }
  }

  lemma {:induction false} TimesGrows(i: nat, count: nat, w: nat)
    requires i < count
    ensures Times(i, w) + w <= Times(count, w)
    decreases count - i
  {
    if i + 1 < count {
      TimesGrows(i + 1, count, w);
    }
  }

  /** The positions of the tasks of an iteration stay within it, and their indices
      within the total. */
  lemma IndexBelow(cases: seq<Option<CaseConfig>>, count: nat, configurations: seq<string>, i: nat, c: nat, f: nat)
    requires i < count && c < |cases| && f < |configurations|
    ensures Times(i, Width(cases, configurations)) + Times(c, |configurations|) + f + 1
            <= Times(count, Width(cases, configurations))
  {
    TimesGrows(i, count, Width(cases, configurations));
    TimesGrows(c, |cases|, |configurations|);
  }

  /** One iteration's task, whose index has not wrapped around. */
  lemma TaskIn(naming: int -> string, it: IterationPlan, total: int, number: int, cases: seq<Option<CaseConfig>>,
               configurations: seq<string>, done: nat, c: nat, f: nat)
    requires IsIteration(naming, it, total, number, cases, configurations, done)
    requires c < |cases| && f < |configurations| && done + Times(c, |configurations|) + f + 1 <= MAX_INT
    ensures var j := Times(c, |configurations|) + f;
      j < |it.tasks|
      && it.tasks[j] == NamedTask(naming, done + j + 1, total, number, cases[c], configurations[f])
  {
    assert IsTask(naming, it, total, cases, configurations, done, c, f);
    AdvanceInRange(0, done + Times(c, |configurations|) + f + 1);
  }

  lemma IterationAt(naming: int -> string, plan: TaskPlan, cases: seq<Option<CaseConfig>>, start: int, count: nat,
                    configurations: seq<string>, i: nat)
    requires Expanded(naming, plan, cases, start, count, configurations) && i < count
    ensures i < |plan.iterations|
    ensures IsIteration(naming, plan.iterations[i], plan.taskTotal, AddInt(start, i), cases, configurations,
                        Times(i, Width(cases, configurations)))
  {
  }

  /** Task (i, c, f), whose numbers have not wrapped around. */
  lemma TaskOf(naming: int -> string, plan: TaskPlan, cases: seq<Option<CaseConfig>>, start: int, count: nat,
               configurations: seq<string>, i: nat, c: nat, f: nat)
    requires Expanded(naming, plan, cases, start, count, configurations)
    requires i < count && c < |cases| && f < |configurations|
    ensures var j := Times(c, |configurations|) + f;
      var index := Times(i, Width(cases, configurations)) + j + 1;
      && j < |plan.iterations[i].tasks|
      && plan.iterations[i].tasks[j]
         == NamedTask(naming, index, plan.taskTotal, AddInt(start, i), cases[c], configurations[f])
      && 1 <= index <= plan.taskTotal
  {
    var done := Times(i, Width(cases, configurations));
    IterationAt(naming, plan, cases, start, count, configurations, i);
    IndexBelow(cases, count, configurations, i, c, f);
    TaskIn(naming, plan.iterations[i], plan.taskTotal, AddInt(start, i), cases, configurations, done, c, f);
  }

  /** The j-th task of an iteration. */
  lemma TaskAt(naming: int -> string, plan: TaskPlan, cases: seq<Option<CaseConfig>>, start: int, count: nat,
               configurations: seq<string>, i: nat, j: nat)
    returns (c: nat, f: nat)
    requires Expanded(naming, plan, cases, start, count, configurations)
    requires i < count && j < |plan.iterations[i].tasks|
    ensures c < |cases| && f < |configurations|
    ensures var index := Times(i, Width(cases, configurations)) + j + 1;
      && plan.iterations[i].tasks[j]
         == NamedTask(naming, index, plan.taskTotal, AddInt(start, i), cases[c], configurations[f])
      && 1 <= index <= plan.taskTotal
  {
    assert |plan.iterations[i].tasks| == Width(cases, configurations);
    c, f := Split(j, |cases|, |configurations|);
    TaskOf(naming, plan, cases, start, count, configurations, i, c, f);
  }

  lemma WidthOf(naming: int -> string, plan: TaskPlan, cases: seq<Option<CaseConfig>>, start: int, count: nat,
                configurations: seq<string>)
    requires Expanded(naming, plan, cases, start, count, configurations)
    ensures forall i :: 0 <= i < count ==> |plan.iterations[i].tasks| == Width(cases, configurations)
    ensures CountTasksOf(plan.iterations) == plan.taskTotal == Times(count, Width(cases, configurations))
  {
    var w := Width(cases, configurations);
    EqualPlans(plan.iterations, w);
  }

  // From inputs to acceptance.

  lemma ExpandedConvertible(naming: int -> string, plan: TaskPlan, cases: seq<Option<CaseConfig>>, start: int,
                            count: nat, configurations: seq<string>)
    requires Expanded(naming, plan, cases, start, count, configurations)
             && Announceable(cases, start, count, configurations)
    ensures ConvertiblePlan(plan)
  {
    WidthOf(naming, plan, cases, start, count, configurations);
    AdvanceInRange(0, plan.taskTotal);
    forall i | 0 <= i < |plan.iterations|
      ensures ConvertibleIteration(plan.iterations[i], plan.taskTotal)
    {
      forall j | 0 <= j < |plan.iterations[i].tasks|
        ensures Convertible(plan.iterations[i].tasks[j], plan.iterations[i].number, plan.taskTotal)
      {
        var c, f := TaskAt(naming, plan, cases, start, count, configurations, i, j);
        assert ValidCase(cases[c]);
      }
    }
  }

  /** Where the n-th task of iterations of equal width is. */
  lemma RowOf(its: seq<Iteration>, count: nat, w: nat, n: nat) returns (i: nat, j: nat)
    requires |its| == count && forall k :: 0 <= k < count ==> |its[k].tasks| == w
    requires n < |AllTasks(its)|
    ensures i < count && j < w && n == Times(i, w) + j && AllTasks(its)[n] == its[i].tasks[j]
  {
    EqualIterations(its, w);
    i, j := Split(n, count, w);
    EqualIterations(its[..i], w);
    TaskPosition(its, i, j);
  }

  /** The n-th announced task has index n + 1 and the ID that its index makes. */
  lemma AnnouncedAt(naming: int -> string, plan: TaskPlan, cases: seq<Option<CaseConfig>>, start: int, count: nat,
                    configurations: seq<string>, n: nat)
    requires Expanded(naming, plan, cases, start, count, configurations) && ConvertiblePlan(plan)
    requires n < |AllTasks(EventPlan(plan))|
    ensures AllTasks(EventPlan(plan))[n].index == n + 1
    ensures AllTasks(EventPlan(plan))[n].id == naming(n + 1)
  {
    WidthOf(naming, plan, cases, start, count, configurations);
    var i, j := RowOf(EventPlan(plan), count, Width(cases, configurations), n);
    var c, f := TaskAt(naming, plan, cases, start, count, configurations, i, j);
  }

  /** What the IDs need to be told apart and announced. */
  ghost predicate Distinguishes(naming: int -> string) {
    && (forall n: nat {:trigger naming(n)} :: NonEmptyString(naming(n)))
    && (forall m: nat, n: nat {:trigger naming(m), naming(n)} :: naming(m) == naming(n) ==> m == n)
  }

  lemma TaskIdsDistinguish()
    ensures Distinguishes(TaskId)
  {
    forall n: nat
      ensures NonEmptyString(TaskId(n))
    {
      AsciiIsUtf8(TaskId(n));
    }
    forall m: nat, n: nat | TaskId(m) == TaskId(n)
      ensures m == n
    {
      assert TaskId(m)[5..] == Itoa(m) && TaskId(n)[5..] == Itoa(n);
      ItoaInjective(m, n);
    }
  }

  lemma ExpandedDistinct(naming: int -> string, plan: TaskPlan, cases: seq<Option<CaseConfig>>, start: int, count: nat,
                         configurations: seq<string>)
    requires Distinguishes(naming)
    requires Expanded(naming, plan, cases, start, count, configurations) && ConvertiblePlan(plan)
    ensures DistinctTasks(AllTasks(EventPlan(plan)))
  {
    var ts := AllTasks(EventPlan(plan));
    forall a: nat, b: nat | a < b < |ts|
      ensures !Clash(ts, a, b)
    {
      AnnouncedAt(naming, plan, cases, start, count, configurations, a);
      AnnouncedAt(naming, plan, cases, start, count, configurations, b);
    }
  }

  lemma ExpandedIterationValid(naming: int -> string, plan: TaskPlan, cases: seq<Option<CaseConfig>>, start: int,
                               count: nat, configurations: seq<string>, i: nat)
    requires Distinguishes(naming)
    requires Expanded(naming, plan, cases, start, count, configurations)
             && Announceable(cases, start, count, configurations)
    requires ConvertiblePlan(plan) && i < count && plan.taskTotal >= 0
    ensures ValidIteration(EventPlan(plan)[i], plan.taskTotal)
    ensures EventPlan(plan)[i].number == start + i
  {
    WidthOf(naming, plan, cases, start, count, configurations);
    SomeWidth(|cases|, |configurations|);
    var it := EventPlan(plan)[i];
    assert ConvertibleIteration(plan.iterations[i], plan.taskTotal);
    forall j | 0 <= j < |it.tasks|
      ensures ValidTask(it.tasks[j], it.number, plan.taskTotal)
    {
      var c, f := TaskAt(naming, plan, cases, start, count, configurations, i, j);
      assert ValidCase(cases[c]);
    }
  }

  lemma ExpandedAccepted(naming: int -> string, plan: TaskPlan, cases: seq<Option<CaseConfig>>, start: int, count: nat,
                         configurations: seq<string>)
    requires Distinguishes(naming)
    requires Expanded(naming, plan, cases, start, count, configurations)
             && Announceable(cases, start, count, configurations)
    ensures Accepted(plan)
  {
    ExpandedConvertible(naming, plan, cases, start, count, configurations);
    ExpandedDistinct(naming, plan, cases, start, count, configurations);
    var its := EventPlan(plan);
    WidthOf(naming, plan, cases, start, count, configurations);
    EqualIterations(its, Width(cases, configurations));
    forall i | 0 <= i < |its|
      ensures ValidIteration(its[i], plan.taskTotal) && its[i].number == start + i
    {
      ExpandedIterationValid(naming, plan, cases, start, count, configurations, i);
    }
    assert its[0].tasks != [];
    AtLeastOneEach(its);
  }

  // And back.

  lemma AcceptedAnnounceable(naming: int -> string, plan: TaskPlan, cases: seq<Option<CaseConfig>>, start: int,
                             count: nat, configurations: seq<string>)
    requires Expanded(naming, plan, cases, start, count, configurations) && Accepted(plan)
    ensures Announceable(cases, start, count, configurations)
  {
    var its, w := EventPlan(plan), Width(cases, configurations);
    WidthOf(naming, plan, cases, start, count, configurations);
    EqualIterations(its, w);
    SomeWidth(|cases|, |configurations|);
    assert ValidIteration(its[0], |AllTasks(its)|);
    assert w > 0;
    assert ConvertibleIteration(plan.iterations[count - 1], plan.taskTotal);
    forall c | 0 <= c < |cases|
      ensures ValidCase(cases[c])
    {
      AcceptedPair(naming, plan, cases, start, count, configurations, c, 0);
    }
    forall f | 0 <= f < |configurations|
      ensures EventConfiguration(configurations[f]).Some?
    {
      AcceptedPair(naming, plan, cases, start, count, configurations, 0, f);
    }
  }

  lemma AcceptedPair(naming: int -> string, plan: TaskPlan, cases: seq<Option<CaseConfig>>, start: int, count: nat,
                     configurations: seq<string>, c: nat, f: nat)
    requires Expanded(naming, plan, cases, start, count, configurations) && Accepted(plan)
    requires c < |cases| && f < |configurations|
    ensures ValidCase(cases[c]) && EventConfiguration(configurations[f]).Some?
  {
    var its := EventPlan(plan);
    TaskOf(naming, plan, cases, start, count, configurations, 0, c, f);
    var j := Times(c, |configurations|) + f;
    assert ConvertibleIteration(plan.iterations[0], plan.taskTotal);
    assert Convertible(plan.iterations[0].tasks[j], plan.iterations[0].number, plan.taskTotal);
    assert ValidIteration(its[0], |AllTasks(its)|);
    assert ValidTask(its[0].tasks[j], its[0].number, |AllTasks(its)|);
  }

  lemma ExpansionAccepted(naming: int -> string, plan: TaskPlan, cases: seq<Option<CaseConfig>>, start: int, count: nat,
                          configurations: seq<string>)
    requires Distinguishes(naming)
    requires Expanded(naming, plan, cases, start, count, configurations)
    ensures Accepted(plan) <==> Announceable(cases, start, count, configurations)
  {
    if Accepted(plan) {
      AcceptedAnnounceable(naming, plan, cases, start, count, configurations);
    }
    if Announceable(cases, start, count, configurations) {
      ExpandedAccepted(naming, plan, cases, start, count, configurations);
    }
  }

  /** A plan that BuildPlan makes, from lists that fit in memory, passes every check
      exactly when its inputs are good. */
  lemma BuiltPlanAccepted(plan: TaskPlan, cases: seq<Option<CaseConfig>>, start: int, count: nat,
                          configurations: seq<string>)
    requires IsExpansion(TaskId, plan, cases, start, count, configurations)
    requires 1 <= start <= MAX_INT && 1 <= count <= MAX_INT
    requires |cases| * count * |configurations| <= MAX_INT
    ensures Accepted(plan) <==> Announceable(cases, start, count, configurations)
  {
    TotalIs(cases, count, configurations);
    TotalFits(cases, count, configurations);
    TaskIdsDistinguish();
    ExpansionAccepted(TaskId, plan, cases, start, count, configurations);
  }

  /** Task (i, c, f) has index i*|C|*|F| + c*|F| + f + 1. */
  lemma BuiltTask(naming: int -> string, plan: TaskPlan, cases: seq<Option<CaseConfig>>, start: int, count: nat,
                  configurations: seq<string>, i: nat, c: nat, f: nat, j: nat, index: nat)
    requires Expanded(naming, plan, cases, start, count, configurations)
    requires i < count && c < |cases| && f < |configurations|
    requires j == c * |configurations| + f && index == i * (|cases| * |configurations|) + j + 1
    ensures j < |plan.iterations[i].tasks|
    ensures plan.iterations[i].tasks[j]
            == NamedTask(naming, index, plan.taskTotal, AddInt(start, i), cases[c], configurations[f])
  {
    TimesIs(c, |configurations|);
    TimesIs(|cases|, |configurations|);
    TimesIs(i, Width(cases, configurations));
    TaskOf(naming, plan, cases, start, count, configurations, i, c, f);
  }
}
