/** internal/evaluator/plan.go: the expansion of cases, iterations and
    configurations into numbered tasks. */
module TaskPlans {
  import opened Wrappers
  import opened Decimal
  import opened GoInt

  const CONFIGURATION_WITH_SKILL := "with_skill"
  const CONFIGURATION_WITHOUT_SKILL := "without_skill"

  /** n times w, by addition. */
  function Times(n: nat, w: nat): nat {
    if n == 0 then 0 else Times(n - 1, w) + w
  }

  lemma {:induction false} TimesIs(n: nat, w: nat)
    ensures Times(n, w) == n * w
  {
    if n > 0 {
      TimesIs(n - 1, w);
    }
  }

  datatype CaseConfig = CaseConfig(id: string, title: string)

  /** One planned task. The case is a pointer, which may be nil. */
  datatype PlannedTask = PlannedTask(
    id: string, globalIndex: int, globalTotal: int, iteration: int, config: Option<CaseConfig>, configuration: string)

  datatype IterationPlan = IterationPlan(number: int, tasks: seq<PlannedTask>)

  datatype TaskPlan = TaskPlan(startIteration: int, iterations: seq<IterationPlan>, taskTotal: int)

  /** The ID of the task with an index. */
  function TaskId(index: int): string {
    "task-" + Itoa(index)
  }

  /** newPlannedTask. The tasks are described for any way to make an ID from an index;
      BuildPlan uses TaskId. */
  function NamedTask(naming: int -> string, index: int, total: int, iteration: int,
                        config: Option<CaseConfig>, configuration: string): PlannedTask
  {
    PlannedTask(naming(index), index, total, iteration, config, configuration)
  }

  /** The tasks of one case after the task numbered `last`. */
  function Row(naming: int -> string, config: Option<CaseConfig>, configurations: seq<string>, total: int, number: int,
               last: int): seq<PlannedTask> {
    if configurations == [] then []
    else
      var n := |configurations| - 1;
      Row(naming, config, configurations[..n], total, number, last)
      + [NamedTask(naming, Advance(last, n + 1), total, number, config, configurations[n])]
  }

  /** The tasks of one iteration after the task numbered `last`. */
  function Rows(naming: int -> string, cases: seq<Option<CaseConfig>>, configurations: seq<string>, total: int,
                number: int, last: int): seq<PlannedTask> {
    if cases == [] then []
    else
      var n := |cases| - 1;
      Rows(naming, cases[..n], configurations, total, number, last)
      + Row(naming, cases[n], configurations, total, number, Advance(last, Times(n, |configurations|)))
  }

  lemma {:induction false} RowCount(naming: int -> string, config: Option<CaseConfig>, configurations: seq<string>,
                                    total: int, number: int, last: int)
    ensures |Row(naming, config, configurations, total, number, last)| == |configurations|
  {
    if configurations != [] {
      RowCount(naming, config, configurations[..|configurations| - 1], total, number, last);
    }
  }

  lemma {:induction false} RowsCount(naming: int -> string, cases: seq<Option<CaseConfig>>, configurations: seq<string>,
                                     total: int, number: int, last: int)
    ensures |Rows(naming, cases, configurations, total, number, last)| == Width(cases, configurations)
  {
    if cases != [] {
      var n := |cases| - 1;
      RowsCount(naming, cases[..n], configurations, total, number, last);
      RowCount(naming, cases[n], configurations, total, number, Advance(last, Times(n, |configurations|)));
    }
  }

  lemma RowMore(naming: int -> string, config: Option<CaseConfig>, configurations: seq<string>, f: nat, total: int,
                number: int, last: int)
    requires f < |configurations|
    ensures Row(naming, config, configurations[..f + 1], total, number, last)
            == Row(naming, config, configurations[..f], total, number, last)
               + [NamedTask(naming, Advance(last, f + 1), total, number, config, configurations[f])]
  {
    assert configurations[..f + 1][..f] == configurations[..f];
  }

  lemma RowsMore(naming: int -> string, cases: seq<Option<CaseConfig>>, c: nat, configurations: seq<string>, total: int,
                 number: int, last: int)
    requires c < |cases|
    ensures Rows(naming, cases[..c + 1], configurations, total, number, last)
            == Rows(naming, cases[..c], configurations, total, number, last)
               + Row(naming, cases[c], configurations, total, number, Advance(last, Times(c, |configurations|)))
  {
    assert cases[..c + 1][..c] == cases[..c];
  }

  lemma {:induction false} RowAt(naming: int -> string, config: Option<CaseConfig>, configurations: seq<string>,
                                 total: int, number: int, last: int, f: nat)
    requires f < |configurations|
    ensures f < |Row(naming, config, configurations, total, number, last)|
    ensures Row(naming, config, configurations, total, number, last)[f]
            == NamedTask(naming, Advance(last, f + 1), total, number, config, configurations[f])
  {
    var n := |configurations| - 1;
    RowCount(naming, config, configurations[..n], total, number, last);
    if f < n {
      RowAt(naming, config, configurations[..n], total, number, last, f);
    }
  }

  /** Cases and configurations run through every pair, in order. */
  lemma {:induction false} RowsAt(naming: int -> string, cases: seq<Option<CaseConfig>>, configurations: seq<string>,
                                  total: int, number: int, last: int, c: nat, f: nat)
    requires c < |cases| && f < |configurations|
    ensures Times(c, |configurations|) + f < |Rows(naming, cases, configurations, total, number, last)|
    ensures Rows(naming, cases, configurations, total, number, last)[Times(c, |configurations|) + f]
            == NamedTask(naming, Advance(last, Times(c, |configurations|) + f + 1), total, number, cases[c],
                         configurations[f])
  {
    var n := |cases| - 1;
    RowsCount(naming, cases[..n], configurations, total, number, last);
    if c < n {
      RowsAt(naming, cases[..n], configurations, total, number, last, c, f);
    } else {
      RowAt(naming, cases[n], configurations, total, number, Advance(last, Times(n, |configurations|)), f);
      AdvanceMore(last, Times(n, |configurations|), f + 1);
    }
  }

  /** The number of tasks of one iteration. */
  function Width(cases: seq<Option<CaseConfig>>, configurations: seq<string>): nat {
    Times(|cases|, |configurations|)
  }

  lemma TotalIs(cases: seq<Option<CaseConfig>>, count: nat, configurations: seq<string>)
    ensures Times(count, Width(cases, configurations)) == |cases| * count * |configurations|
  {
    TimesIs(|cases|, |configurations|);
    TimesIs(count, Width(cases, configurations));
    assert count * (|cases| * |configurations|) == |cases| * count * |configurations|;
  }

  function AtLeastOne(n: int): int {
    if n < 1 then 1 else n
  }

  /** The whole expansion. */
  ghost predicate IsExpansion(naming: int -> string, plan: TaskPlan, cases: seq<Option<CaseConfig>>, start: int,
                              count: nat, configurations: seq<string>)
  {
    && plan.startIteration == start
    && plan.taskTotal == PlanTotal(cases, count, configurations)
    && IsExpandedInto(naming, plan.iterations, plan.taskTotal, cases, start, count, configurations)
  }

  ghost predicate IsExpandedInto(naming: int -> string, iterations: seq<IterationPlan>, total: int,
                                 cases: seq<Option<CaseConfig>>, start: int, count: nat, configurations: seq<string>)
  {
    && |iterations| == count
    && forall i :: 0 <= i < count ==>
         IsIteration(naming, iterations[i], total, AddInt(start, i), cases, configurations,
                     Times(i, Width(cases, configurations)))
  }

  /** An iteration with a number, after `done` earlier tasks. */
  ghost predicate IsIteration(naming: int -> string, it: IterationPlan, total: int, number: int,
                              cases: seq<Option<CaseConfig>>, configurations: seq<string>, done: nat)
  {
    && it.number == number
    && |it.tasks| == Width(cases, configurations)
    && forall c: nat, f: nat {:trigger IsTask(naming, it, total, cases, configurations, done, c, f)} ::
         c < |cases| && f < |configurations| ==> IsTask(naming, it, total, cases, configurations, done, c, f)
  }

  /** Its task for case c and configuration f. */
  ghost predicate IsTask(naming: int -> string, it: IterationPlan, total: int, cases: seq<Option<CaseConfig>>,
                         configurations: seq<string>, done: nat, c: nat, f: nat)
    requires c < |cases| && f < |configurations|
  {
    var j := Times(c, |configurations|) + f;
    && j < |it.tasks|
    && it.tasks[j] == NamedTask(naming, Advance(0, done + j + 1), total, it.number, cases[c], configurations[f])
  }

  lemma RowsAreIteration(naming: int -> string, cases: seq<Option<CaseConfig>>, configurations: seq<string>, total: int,
                         number: int, done: nat)
    ensures IsIteration(naming,
                        IterationPlan(number, Rows(naming, cases, configurations, total, number, Advance(0, done))),
                        total, number, cases, configurations, done)
  {
    var last := Advance(0, done);
    var it := IterationPlan(number, Rows(naming, cases, configurations, total, number, last));
    RowsCount(naming, cases, configurations, total, number, last);
    forall c: nat, f: nat | c < |cases| && f < |configurations|
      ensures IsTask(naming, it, total, cases, configurations, done, c, f)
    {
      RowsAt(naming, cases, configurations, total, number, last, c, f);
      AdvanceMore(0, done, Times(c, |configurations|) + f + 1);
    }
  }

  /** The product of the three numbers, as the source multiplies them. */
  function PlanTotal(cases: seq<Option<CaseConfig>>, count: nat, configurations: seq<string>): int {
    WrapInt(WrapInt(|cases| * count) * |configurations|)
  }

  /** The innermost loop, over configurations. */
  method AddRow(naming: int -> string, tasks: seq<PlannedTask>, globalIndex: int, config: Option<CaseConfig>,
                configurations: seq<string>, total: int, number: int)
    returns (more: seq<PlannedTask>, lastIndex: int)
    ensures more == tasks + Row(naming, config, configurations, total, number, globalIndex)
    ensures lastIndex == Advance(globalIndex, |configurations|)
  {
    more, lastIndex := tasks, globalIndex;
    for f := 0 to |configurations|
      invariant more == tasks + Row(naming, config, configurations[..f], total, number, globalIndex)
      invariant lastIndex == Advance(globalIndex, f)
    {
      lastIndex := Increment(lastIndex);
      more := more + [NamedTask(naming, lastIndex, total, number, config, configurations[f])];
      RowMore(naming, config, configurations, f, total, number, globalIndex);
    }
    assert configurations[..|configurations|] == configurations;
  }

  /** The loop over cases. */
  method BuildIteration(naming: int -> string, cases: seq<Option<CaseConfig>>, configurations: seq<string>, total: int,
                        number: int, globalIndex: int)
    returns (tasks: seq<PlannedTask>, lastIndex: int)
    ensures tasks == Rows(naming, cases, configurations, total, number, globalIndex)
    ensures lastIndex == Advance(globalIndex, Width(cases, configurations))
  {
    tasks, lastIndex := [], globalIndex;
    for c := 0 to |cases|
      invariant tasks == Rows(naming, cases[..c], configurations, total, number, globalIndex)
      invariant lastIndex == Advance(globalIndex, Times(c, |configurations|))
    {
      tasks, lastIndex := AddRow(naming, tasks, lastIndex, cases[c], configurations, total, number);
      RowsMore(naming, cases, c, configurations, total, number, globalIndex);
      AdvanceMore(globalIndex, Times(c, |configurations|), |configurations|);
    }
    assert cases[..|cases|] == cases;
  }

  /** The loop over iterations. */
  method BuildIterations(naming: int -> string, cases: seq<Option<CaseConfig>>, start: int, count: nat,
                         configurations: seq<string>, total: int)
    returns (iterations: seq<IterationPlan>)
    ensures IsExpandedInto(naming, iterations, total, cases, start, count, configurations)
  {
    iterations := [];
    var globalIndex := 0;
    for offset := 0 to count
      invariant IsExpandedInto(naming, iterations, total, cases, start, offset, configurations)
      invariant globalIndex == Advance(0, Times(offset, Width(cases, configurations)))
    {
      var number := AddInt(start, offset);
      var tasks;
      ghost var done := Times(offset, Width(cases, configurations));
      AdvanceMore(0, done, Width(cases, configurations));
      RowsAreIteration(naming, cases, configurations, total, number, done);
      tasks, globalIndex := BuildIteration(naming, cases, configurations, total, number, globalIndex);
      iterations := iterations + [IterationPlan(number, tasks)];
    }
  }

  method BuildPlan(cases: seq<Option<CaseConfig>>, startIteration: int, iterationCount: int,
                   configurations: seq<string>)
    returns (plan: TaskPlan)
    ensures IsExpansion(TaskId, plan, cases, AtLeastOne(startIteration), AtLeastOne(iterationCount), configurations)
  {
    var start, count := startIteration, iterationCount;
    if start < 1 { start := 1; }
    if count < 1 { count := 1; }
    var total := WrapInt(WrapInt(|cases| * count) * |configurations|);
    var iterations := BuildIterations(TaskId, cases, start, count, configurations, total);
    plan := TaskPlan(start, iterations, total);
  }

  /** When the lists fit in memory the total is the product. */
  lemma TotalFits(cases: seq<Option<CaseConfig>>, count: nat, configurations: seq<string>)
    requires Times(count, Width(cases, configurations)) <= MAX_INT
    ensures PlanTotal(cases, count, configurations) == Times(count, Width(cases, configurations))
  {
    TotalIs(cases, count, configurations);
    if |configurations| > 0 {
      ProductBelow(|cases| * count, |configurations|);
    } else {
      assert WrapInt(|cases| * count) * 0 == 0;
    }
  }

  lemma ProductBelow(m: nat, n: nat)
    requires n > 0
    ensures m <= m * n
  {
  }
}
