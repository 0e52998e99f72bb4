/** snapshotPlan, validatePlanTask and ValidatePlan of
    internal/evalevent/lifecycle.go: which announced plans a lifecycle accepts. */
module PlanSnapshots {
  import opened Wrappers
  import opened GoText
  import opened EvalEvent
  import opened RunGrammar
  import opened LifecycleSpec

  datatype PlanError =
    | NoIterations | BadTotal | BadNumber | EmptyIteration | DuplicateIteration
    | BadTask | DuplicateId | DuplicateIndex | MissingIndex

  /** The tasks of all iterations, in order. */
  function AllTasks(its: seq<Iteration>): seq<Task> {
    if its == [] then [] else AllTasks(its[..|its| - 1]) + its[|its| - 1].tasks
  }

  /** validatePlanTask, with the checks in the source's order. */
  predicate ValidTask(task: Task, iteration: nat, total: nat) {
    && NonEmptyString(task.id)
    && task.iteration == iteration
    && NonEmptyString(task.caseId)
    && ValidConfiguration(task.configuration)
    && 1 <= task.index <= total
    && ValidUtf8(task.title)
  }

  ghost predicate ValidIteration(it: Iteration, total: nat) {
    && PositiveInteger(it.number)
    && it.tasks != []
    && ValidUpTo(it, total, |it.tasks|)
  }

  ghost predicate ValidUpTo(it: Iteration, total: nat, n: nat)
    requires n <= |it.tasks|
  {
    forall j {:trigger ValidTask(it.tasks[j], it.number, total)} ::
      0 <= j < n ==> ValidTask(it.tasks[j], it.number, total)
  }

  predicate SameNumber(its: seq<Iteration>, i: nat, j: nat)
    requires i < j < |its|
  {
    its[i].number == its[j].number
  }

  ghost predicate DistinctNumbers(its: seq<Iteration>) {
    forall i: nat, j: nat {:trigger SameNumber(its, i, j)} :: i < j < |its| ==> !SameNumber(its, i, j)
  }

  predicate Clash(ts: seq<Task>, i: nat, j: nat)
    requires i < j < |ts|
  {
    ts[i].id == ts[j].id || ts[i].index == ts[j].index
  }

  ghost predicate DistinctTasks(ts: seq<Task>) {
    forall i: nat, j: nat {:trigger Clash(ts, i, j)} :: i < j < |ts| ==> !Clash(ts, i, j)
  }

  lemma DistinctPrefix(ts: seq<Task>, more: seq<Task>)
    requires DistinctTasks(more) && ts <= more
    ensures DistinctTasks(ts)
  {
    forall i: nat, j: nat | i < j < |ts|
      ensures !Clash(ts, i, j)
    {
      assert !Clash(more, i, j);
    }
  }

  ghost predicate AllValid(its: seq<Iteration>, total: nat) {
    forall i {:trigger ValidIteration(its[i], total)} :: 0 <= i < |its| ==> ValidIteration(its[i], total)
  }

  /** The plans a lifecycle accepts. */
  ghost predicate Acceptable(its: seq<Iteration>) {
    && its != []
    && PositiveInteger(|AllTasks(its)|)
    && AllValid(its, |AllTasks(its)|)
    && DistinctNumbers(its)
    && DistinctTasks(AllTasks(its))
  }

  /** The tasks by ID, and the iterations by number. */
  function TaskMap(ts: seq<Task>): map<string, Task> {
    if ts == [] then map[] else TaskMap(ts[..|ts| - 1])[ts[|ts| - 1].id := ts[|ts| - 1]]
  }

  function IterationMap(its: seq<Iteration>): map<nat, Iteration> {
    if its == [] then map[] else IterationMap(its[..|its| - 1])[its[|its| - 1].number := its[|its| - 1]]
  }

  function SnapshotOf(its: seq<Iteration>): Snapshot {
    Snapshot(TaskMap(AllTasks(its)), IterationMap(its), |AllTasks(its)|)
  }

  // Sequences and the maps made from them.

  lemma AllTasksMore(its: seq<Iteration>, i: nat)
    requires i < |its|
    ensures AllTasks(its[..i + 1]) == AllTasks(its[..i]) + its[i].tasks
  {
    assert its[..i + 1][..i] == its[..i];
  }

  lemma {:induction false} AllTasksPrefix(its: seq<Iteration>, i: nat)
    requires i <= |its|
    ensures AllTasks(its[..i]) <= AllTasks(its)
    decreases |its| - i
  {
    if i == |its| {
      assert its[..i] == its;
    } else {
      AllTasksMore(its, i);
      AllTasksPrefix(its, i + 1);
    }
  }

  /** Where the j-th task of the i-th iteration stands among all tasks. */
  lemma TaskPosition(its: seq<Iteration>, i: nat, j: nat)
    requires i < |its| && j < |its[i].tasks|
    ensures |AllTasks(its[..i])| + j < |AllTasks(its)|
    ensures AllTasks(its)[|AllTasks(its[..i])| + j] == its[i].tasks[j]
  {
    AllTasksMore(its, i);
    AllTasksPrefix(its, i + 1);
  }

  /** Every task belongs to one of the iterations. */
  lemma {:induction false} TaskOwner(its: seq<Iteration>, n: nat) returns (i: nat, j: nat)
    requires n < |AllTasks(its)|
    ensures i < |its| && j < |its[i].tasks| && AllTasks(its)[n] == its[i].tasks[j]
  {
    var before := its[..|its| - 1];
    if n < |AllTasks(before)| {
      i, j := TaskOwner(before, n);
    } else {
      i, j := |its| - 1, n - |AllTasks(before)|;
    }
  }

  /** The IDs in a list of distinct tasks. */
  function Ids(ts: seq<Task>): set<string> {
    set t | t in ts :: t.id
  }

  function Indices(ts: seq<Task>): set<nat> {
    set t | t in ts :: t.index
  }

  lemma IdsMore(ts: seq<Task>, task: Task)
    ensures Ids(ts + [task]) == Ids(ts) + {task.id}
    ensures Indices(ts + [task]) == Indices(ts) + {task.index}
  {
    var more := ts + [task];
    assert forall t :: t in more <==> t in ts || t == task;
    forall id | id in Ids(ts) + {task.id}
      ensures id in Ids(more)
    {
      var t :| t in more && t.id == id;
    }
    forall k | k in Indices(ts) + {task.index}
      ensures k in Indices(more)
    {
      var t :| t in more && t.index == k;
    }
  }

  lemma DistinctMore(ts: seq<Task>, task: Task)
    requires DistinctTasks(ts)
    ensures DistinctTasks(ts + [task]) <==> task.id !in Ids(ts) && task.index !in Indices(ts)
  {
    var more := ts + [task];
    if task.id in Ids(ts) || task.index in Indices(ts) {
      var i :| 0 <= i < |ts| && (ts[i].id == task.id || ts[i].index == task.index);
      assert Clash(more, i, |ts|);
    } else {
      forall i: nat, j: nat | i < j < |more|
        ensures !Clash(more, i, j)
      {
        assert more[i] == ts[i] && ts[i].id in Ids(ts) && ts[i].index in Indices(ts);
        if j < |ts| {
          assert !Clash(ts, i, j);
        }
      }
    }
  }

  lemma {:induction false} IdsCount(ts: seq<Task>)
    requires DistinctTasks(ts)
    ensures |Ids(ts)| == |ts| && |Indices(ts)| == |ts|
  {
    if ts != [] {
      var before, last := ts[..|ts| - 1], ts[|ts| - 1];
      assert ts == before + [last];
      DistinctPrefix(before, ts);
      IdsCount(before);
      IdsMore(before, last);
      DistinctMore(before, last);
    }
  }

  lemma {:induction false} TaskMapAt(ts: seq<Task>, i: nat)
    requires DistinctTasks(ts) && i < |ts|
    ensures ts[i].id in TaskMap(ts) && TaskMap(ts)[ts[i].id] == ts[i]
    decreases |ts|
  {
    var n := |ts| - 1;
    if i < n {
      assert !Clash(ts, i, n) && ts[..n][i] == ts[i];
      DistinctPrefix(ts[..n], ts);
      TaskMapAt(ts[..n], i);
    }
  }

  lemma MapGrows<K, V>(m: map<K, V>, k: K, v: V)
    requires k !in m
    ensures m[k := v].Keys == m.Keys + {k} && |m[k := v]| == |m| + 1
  {
    assert |m[k := v]| == |m[k := v].Keys| && m[k := v].Keys == m.Keys + {k};
  }

  lemma {:induction false} TaskMapSize(ts: seq<Task>)
    requires DistinctTasks(ts)
    ensures TaskMap(ts).Keys == Ids(ts) && |TaskMap(ts)| == |ts|
  {
    if ts != [] {
      var before, last := ts[..|ts| - 1], ts[|ts| - 1];
      assert ts == before + [last];
      DistinctPrefix(before, ts);
      DistinctMore(before, last);
      IdsMore(before, last);
      TaskMapSize(before);
      TaskMapMore(before, last);
      MapGrows(TaskMap(before), last.id, last);
    }
  }

  lemma TaskMapHolds(ts: seq<Task>)
    requires DistinctTasks(ts)
    ensures TaskMap(ts).Keys == Ids(ts) && |TaskMap(ts)| == |ts|
    ensures forall i :: 0 <= i < |ts| ==> ts[i].id in TaskMap(ts) && TaskMap(ts)[ts[i].id] == ts[i]
  {
    TaskMapSize(ts);
    forall i | 0 <= i < |ts|
      ensures ts[i].id in TaskMap(ts) && TaskMap(ts)[ts[i].id] == ts[i]
    {
      TaskMapAt(ts, i);
    }
  }

  lemma TaskMapMore(ts: seq<Task>, task: Task)
    ensures TaskMap(ts + [task]) == TaskMap(ts)[task.id := task]
  {
    assert (ts + [task])[..|ts|] == ts;
  }

  function Numbers(its: seq<Iteration>): set<nat> {
    set it | it in its :: it.number
  }

  lemma NumbersMore(its: seq<Iteration>, it: Iteration)
    ensures Numbers(its + [it]) == Numbers(its) + {it.number}
    ensures IterationMap(its + [it]) == IterationMap(its)[it.number := it]
    ensures DistinctNumbers(its + [it]) <==> DistinctNumbers(its) && it.number !in Numbers(its)
  {
    var more := its + [it];
    assert more[..|its|] == its;
    assert forall x :: x in more <==> x in its || x == it;
    forall k | k in Numbers(its) + {it.number}
      ensures k in Numbers(more)
    {
      var x :| x in more && x.number == k;
    }
    if it.number in Numbers(its) {
      var i :| 0 <= i < |its| && its[i].number == it.number;
      assert SameNumber(more, i, |its|);
    }
    if DistinctNumbers(more) {
      forall i: nat, j: nat | i < j < |its|
        ensures !SameNumber(its, i, j)
      {
        assert !SameNumber(more, i, j);
      }
    }
    if DistinctNumbers(its) && it.number !in Numbers(its) {
      forall i: nat, j: nat | i < j < |more|
        ensures !SameNumber(more, i, j)
      {
        assert more[i] in its;
        if j < |its| {
          assert !SameNumber(its, i, j);
        }
      }
    }
  }

  lemma {:induction false} IterationMapAt(its: seq<Iteration>, i: nat)
    requires DistinctNumbers(its) && i < |its|
    ensures its[i].number in IterationMap(its) && IterationMap(its)[its[i].number] == its[i]
    decreases |its|
  {
    var n := |its| - 1;
    if i < n {
      assert its == its[..n] + [its[n]];
      NumbersMore(its[..n], its[n]);
      assert !SameNumber(its, i, n) && its[..n][i] == its[i];
      IterationMapAt(its[..n], i);
    }
  }

  lemma {:induction false} IterationMapSize(its: seq<Iteration>)
    requires DistinctNumbers(its)
    ensures IterationMap(its).Keys == Numbers(its) && |IterationMap(its)| == |its|
  {
    if its != [] {
      var before, last := its[..|its| - 1], its[|its| - 1];
      assert its == before + [last];
      NumbersMore(before, last);
      IterationMapSize(before);
    }
  }

  lemma IterationMapHolds(its: seq<Iteration>)
    requires DistinctNumbers(its)
    ensures IterationMap(its).Keys == Numbers(its) && |IterationMap(its)| == |its|
    ensures forall i ::
      0 <= i < |its| ==> its[i].number in IterationMap(its) && IterationMap(its)[its[i].number] == its[i]
  {
    IterationMapSize(its);
    forall i | 0 <= i < |its|
      ensures its[i].number in IterationMap(its) && IterationMap(its)[its[i].number] == its[i]
    {
      IterationMapAt(its, i);
    }
  }

  lemma {:induction false} AtLeastOneEach(its: seq<Iteration>)
    requires forall i :: 0 <= i < |its| ==> its[i].tasks != []
    ensures |its| <= |AllTasks(its)|
  {
    if its != [] {
      AtLeastOneEach(its[..|its| - 1]);
    }
  }

  // What acceptance gives.

  lemma OwnIds(its: seq<Iteration>, i: nat)
    requires Acceptable(its) && i < |its|
    ensures IdsOf(SnapshotOf(its), its[i].number) == Ids(its[i].tasks)
    ensures DistinctTasks(its[i].tasks)
  {
    var ts, k := AllTasks(its), its[i].number;
    var plan := SnapshotOf(its);
    TaskMapHolds(ts);
    forall a: nat, b: nat | a < b < |its[i].tasks|
      ensures !Clash(its[i].tasks, a, b)
    {
      TaskPosition(its, i, a);
      TaskPosition(its, i, b);
      assert !Clash(ts, |AllTasks(its[..i])| + a, |AllTasks(its[..i])| + b);
    }
    forall id | id in IdsOf(plan, k)
      ensures id in Ids(its[i].tasks)
    {
      var n :| 0 <= n < |ts| && ts[n].id == id;
      var owner, j := TaskOwner(its, n);
      assert ValidIteration(its[owner], |ts|) && ValidTask(its[owner].tasks[j], its[owner].number, |ts|);
      assert owner < i ==> !SameNumber(its, owner, i);
      assert i < owner ==> !SameNumber(its, i, owner);
    }
    forall id | id in Ids(its[i].tasks)
      ensures id in IdsOf(plan, k)
    {
      var j :| 0 <= j < |its[i].tasks| && its[i].tasks[j].id == id;
      TaskPosition(its, i, j);
      assert ValidIteration(its[i], |ts|) && ValidTask(its[i].tasks[j], k, |ts|);
    }
  }

  /** An accepted plan gives a snapshot with everything the lifecycle relies on. */
  lemma AcceptableIsValid(its: seq<Iteration>)
    requires Acceptable(its)
    ensures Keyed(SnapshotOf(its)) && ListsEveryTaskOnce(SnapshotOf(its)) && ValidSnapshot(SnapshotOf(its))
  {
    AcceptableTasks(its);
    AcceptableIterations(its);
  }

  lemma AcceptableTasks(its: seq<Iteration>)
    requires Acceptable(its)
    ensures var plan := SnapshotOf(its);
      && |plan.tasks| == plan.total
      && forall id :: id in plan.tasks ==>
           plan.tasks[id].id == id && plan.tasks[id].iteration in plan.iterations
             && FieldsOf(plan, plan.tasks[id]).Valid()
  {
    var ts, plan := AllTasks(its), SnapshotOf(its);
    TaskMapHolds(ts);
    IterationMapHolds(its);
    forall id | id in plan.tasks
      ensures plan.tasks[id].id == id && plan.tasks[id].iteration in plan.iterations
      ensures FieldsOf(plan, plan.tasks[id]).Valid()
    {
      var n :| 0 <= n < |ts| && ts[n].id == id;
      var i, j := TaskOwner(its, n);
      assert ValidIteration(its[i], |ts|) && ValidTask(its[i].tasks[j], its[i].number, |ts|);
    }
  }

  lemma AcceptableIterations(its: seq<Iteration>)
    requires Acceptable(its)
    ensures ListsEveryTaskOnce(SnapshotOf(its))
    ensures var plan := SnapshotOf(its);
      && 1 <= |plan.iterations| <= plan.total
      && forall k :: k in plan.iterations ==> plan.iterations[k].number == k && PositiveInteger(k)
  {
    var plan := SnapshotOf(its);
    IterationMapHolds(its);
    forall i | 0 <= i < |its|
      ensures its[i].tasks != [] && PositiveInteger(its[i].number)
      ensures |IdsOf(plan, its[i].number)| == |its[i].tasks|
    {
      assert ValidIteration(its[i], |AllTasks(its)|);
      OwnIds(its, i);
      IdsCount(its[i].tasks);
    }
    AtLeastOneEach(its);
  }

  // Pigeonhole: as many distinct indices as there are numbers leave none out.

  function Upto(n: nat): (r: set<nat>)
    ensures forall k :: k in r <==> 1 <= k <= n
    ensures |r| == n
  {
    if n == 0 then {} else Upto(n - 1) + {n}
  }

  lemma NoIndexMissing(ts: seq<Task>)
    requires DistinctTasks(ts)
    requires forall i :: 0 <= i < |ts| ==> 1 <= ts[i].index <= |ts|
    ensures forall k :: 1 <= k <= |ts| ==> k in Indices(ts)
  {
    IdsCount(ts);
    SubsetSize(Indices(ts), Upto(|ts|));
  }

  /** What the loop of snapshotPlan has collected from some tasks. */
  ghost predicate Collected(ts: seq<Task>, tasks: map<string, LifecycleTask>, indices: set<nat>) {
    && DistinctTasks(ts)
    && tasks.Keys == Ids(ts) && indices == Indices(ts)
    && forall i: nat {:trigger Held(tasks, ts[i])} :: i < |ts| ==> Held(tasks, ts[i])
  }

  predicate Held(tasks: map<string, LifecycleTask>, task: Task) {
    task.id in tasks && tasks[task.id] == LifecycleTask(task, false, false, 0)
  }

  lemma CollectedMore(ts: seq<Task>, tasks: map<string, LifecycleTask>, indices: set<nat>, task: Task)
    requires Collected(ts, tasks, indices) && task.id !in tasks && task.index !in indices
    ensures Collected(ts + [task], tasks[task.id := LifecycleTask(task, false, false, 0)], indices + {task.index})
  {
    var more := ts + [task];
    var held := tasks[task.id := LifecycleTask(task, false, false, 0)];
    IdsMore(ts, task);
    DistinctMore(ts, task);
    forall i: nat | i < |more|
      ensures Held(held, more[i])
    {
      if i < |ts| {
        assert more[i] == ts[i] && Held(tasks, ts[i]);
      }
    }
  }

  lemma CollectedIsMap(ts: seq<Task>, tasks: map<string, LifecycleTask>, indices: set<nat>)
    requires Collected(ts, tasks, indices)
    ensures tasks.Keys == TaskMap(ts).Keys
    ensures forall id :: id in tasks ==> tasks[id] == LifecycleTask(TaskMap(ts)[id], false, false, 0)
  {
    TaskMapHolds(ts);
    forall id | id in tasks
      ensures id in TaskMap(ts) && tasks[id] == LifecycleTask(TaskMap(ts)[id], false, false, 0)
    {
      assert id in Ids(ts);
      var i: nat :| i < |ts| && ts[i].id == id;
      assert Held(tasks, ts[i]);
    }
  }

  // The loops.

  /** What snapshotPlan returns. */
  datatype Planned = Planned(tasks: map<string, LifecycleTask>, iterations: map<nat, LifecycleIteration>, total: nat)

  function NewIteration(it: Iteration): LifecycleIteration {
    LifecycleIteration(it, false, false, 0, NO_RESULTS, 0)
  }

  /** What the loop has collected from some iterations. */
  ghost predicate Gathered(its: seq<Iteration>, iterations: map<nat, LifecycleIteration>) {
    && DistinctNumbers(its)
    && iterations.Keys == Numbers(its)
    && forall i: nat {:trigger HeldIteration(iterations, its[i])} :: i < |its| ==> HeldIteration(iterations, its[i])
  }

  predicate HeldIteration(iterations: map<nat, LifecycleIteration>, it: Iteration) {
    it.number in iterations && iterations[it.number] == NewIteration(it)
  }

  lemma GatheredMore(its: seq<Iteration>, iterations: map<nat, LifecycleIteration>, it: Iteration)
    requires Gathered(its, iterations) && it.number !in iterations
    ensures Gathered(its + [it], iterations[it.number := NewIteration(it)])
  {
    var more, gathered := its + [it], iterations[it.number := NewIteration(it)];
    NumbersMore(its, it);
    forall i: nat | i < |more|
      ensures HeldIteration(gathered, more[i])
    {
      if i < |its| {
        assert more[i] == its[i] && HeldIteration(iterations, its[i]);
      }
    }
  }

  lemma GatheredIsMap(its: seq<Iteration>, iterations: map<nat, LifecycleIteration>)
    requires Gathered(its, iterations)
    ensures iterations.Keys == IterationMap(its).Keys
    ensures forall k :: k in iterations ==> iterations[k] == NewIteration(IterationMap(its)[k])
  {
    IterationMapHolds(its);
    forall k | k in iterations
      ensures k in IterationMap(its) && iterations[k] == NewIteration(IterationMap(its)[k])
    {
      assert k in Numbers(its);
      var i: nat :| i < |its| && its[i].number == k;
      assert HeldIteration(iterations, its[i]);
    }
  }

  lemma NumberRepeated(its: seq<Iteration>, i: nat)
    requires i < |its| && its[i].number in Numbers(its[..i])
    ensures !DistinctNumbers(its)
  {
    var j :| 0 <= j < i && its[..i][j].number == its[i].number;
    assert SameNumber(its, j, i);
  }

  /** The tasks before the j-th of the i-th iteration. */
  function Before(its: seq<Iteration>, i: nat, j: nat): seq<Task>
    requires i < |its| && j <= |its[i].tasks|
  {
    AllTasks(its[..i]) + its[i].tasks[..j]
  }

  lemma BeforeMore(its: seq<Iteration>, i: nat, j: nat)
    requires i < |its| && j <= |its[i].tasks|
    ensures Before(its, i, j) <= AllTasks(its)
    ensures j < |its[i].tasks| ==> Before(its, i, j + 1) == Before(its, i, j) + [its[i].tasks[j]]
  {
    AllTasksMore(its, i);
    AllTasksPrefix(its, i + 1);
    var ts := its[i].tasks;
    assert ts == ts[..j] + ts[j..];
    assert AllTasks(its[..i + 1]) == Before(its, i, j) + ts[j..];
    if j < |ts| {
      assert ts[..j + 1] == ts[..j] + [ts[j]];
    }
  }

  lemma BeforeEnds(its: seq<Iteration>, i: nat)
    requires i < |its|
    ensures Before(its, i, 0) == AllTasks(its[..i])
    ensures Before(its, i, |its[i].tasks|) == AllTasks(its[..i + 1])
  {
    AllTasksMore(its, i);
    assert its[i].tasks[..|its[i].tasks|] == its[i].tasks;
  }

  lemma DuplicateRefused(its: seq<Iteration>, i: nat, j: nat)
    requires i < |its| && j < |its[i].tasks| && DistinctTasks(Before(its, i, j))
    requires var task := its[i].tasks[j];
      task.id in Ids(Before(its, i, j)) || task.index in Indices(Before(its, i, j))
    ensures !DistinctTasks(AllTasks(its))
  {
    BeforeMore(its, i, j);
    BeforeMore(its, i, j + 1);
    DistinctMore(Before(its, i, j), its[i].tasks[j]);
    if DistinctTasks(AllTasks(its)) {
      DistinctPrefix(Before(its, i, j + 1), AllTasks(its));
    }
  }

  lemma OneMoreTask(its: seq<Iteration>, i: nat, j: nat, tasks: map<string, LifecycleTask>, indices: set<nat>)
    requires i < |its| && j < |its[i].tasks| && Collected(Before(its, i, j), tasks, indices)
    ensures var task := its[i].tasks[j];
      if task.id in tasks || task.index in indices then !Acceptable(its)
      else Collected(Before(its, i, j + 1), tasks[task.id := LifecycleTask(task, false, false, 0)],
                     indices + {task.index})
  {
    var task := its[i].tasks[j];
    if task.id in tasks || task.index in indices {
      DuplicateRefused(its, i, j);
    } else {
      BeforeMore(its, i, j);
      CollectedMore(Before(its, i, j), tasks, indices, task);
    }
  }

  lemma BadTaskRefused(its: seq<Iteration>, i: nat, j: nat)
    requires i < |its| && j < |its[i].tasks| && !ValidTask(its[i].tasks[j], its[i].number, |AllTasks(its)|)
    ensures !Acceptable(its)
  {
    assert !ValidIteration(its[i], |AllTasks(its)|);
  }

  /** The inner loop, over the tasks of the i-th iteration. */
  method CollectTasks(its: seq<Iteration>, i: nat, total: nat, tasks: map<string, LifecycleTask>, indices: set<nat>)
    returns (r: Result<(map<string, LifecycleTask>, set<nat>), PlanError>)
    requires i < |its| && total == |AllTasks(its)|
    requires Collected(AllTasks(its[..i]), tasks, indices)
    ensures r.Ok? ==> Collected(AllTasks(its[..i + 1]), r.value.0, r.value.1)
    ensures r.Ok? ==> ValidUpTo(its[i], total, |its[i].tasks|)
    ensures r.Err? ==> !Acceptable(its) && r.error != MissingIndex
  {
    var newTasks, newIndices := tasks, indices;
    BeforeEnds(its, i);
    for j := 0 to |its[i].tasks|
      invariant Collected(Before(its, i, j), newTasks, newIndices)
      invariant ValidUpTo(its[i], total, j)
    {
      var task := its[i].tasks[j];
      if !ValidTask(task, its[i].number, total) {
        BadTaskRefused(its, i, j);
        return Err(BadTask);
      }
      OneMoreTask(its, i, j, newTasks, newIndices);
      if task.id in newTasks { return Err(DuplicateId); }
      if task.index in newIndices { return Err(DuplicateIndex); }
      newIndices := newIndices + {task.index};
      newTasks := newTasks[task.id := LifecycleTask(task, false, false, 0)];
    }
    return Ok((newTasks, newIndices));
  }

  method CountTasks(its: seq<Iteration>) returns (n: nat)
    ensures n == |AllTasks(its)|
  {
    n := 0;
    for i := 0 to |its|
      invariant n == |AllTasks(its[..i])|
    {
      AllTasksMore(its, i);
      n := n + |its[i].tasks|;
    }
    assert its[..|its|] == its;
  }

  lemma OneMoreValid(its: seq<Iteration>, i: nat, total: nat)
    requires i < |its| && AllValid(its[..i], total) && ValidIteration(its[i], total)
    ensures AllValid(its[..i + 1], total)
  {
    var more := its[..i + 1];
    forall k | 0 <= k < |more|
      ensures ValidIteration(more[k], total)
    {
      if k < i {
        assert ValidIteration(its[..i][k], total);
      }
    }
  }

  /** Accepts exactly the acceptable plans, and never for want of a task index. */
  method SnapshotPlan(its: seq<Iteration>) returns (r: Result<Planned, PlanError>)
    ensures r.Ok? <==> Acceptable(its)
    ensures r.Ok? ==> r.value == Planned(NewTasks(SnapshotOf(its)), NewIterations(SnapshotOf(its)), |AllTasks(its)|)
    ensures r.Err? ==> r.error != MissingIndex
  {
    if its == [] { return Err(NoIterations); }
    var total := CountTasks(its);
    if !PositiveInteger(total) { return Err(BadTotal); }
    var tasks: map<string, LifecycleTask> := map[];
    var iterations: map<nat, LifecycleIteration>, indices: set<nat> := map[], {};
    for i := 0 to |its|
      invariant Collected(AllTasks(its[..i]), tasks, indices)
      invariant Gathered(its[..i], iterations)
      invariant AllValid(its[..i], total)
    {
      var it := its[i];
      assert Acceptable(its) ==> ValidIteration(it, total);
      if !PositiveInteger(it.number) { return Err(BadNumber); }
      if it.tasks == [] { return Err(EmptyIteration); }
      if it.number in iterations {
        NumberRepeated(its, i);
        return Err(DuplicateIteration);
      }
      GatheredMore(its[..i], iterations, it);
      assert its[..i] + [it] == its[..i + 1];
      iterations := iterations[it.number := NewIteration(it)];
      var collected := CollectTasks(its, i, total, tasks, indices);
      if collected.Err? { return Err(collected.error); }
      tasks, indices := collected.value.0, collected.value.1;
      OneMoreValid(its, i, total);
    }
    assert its[..|its|] == its;
    EverythingCollected(its, tasks, iterations, indices);
    for index := 1 to total + 1
    {
      if index !in indices { return Err(MissingIndex); }
    }
    return Ok(Planned(tasks, iterations, total));
  }

  /** After the loop no task index is missing, and the maps are the snapshot's. */
  lemma EverythingCollected(its: seq<Iteration>, tasks: map<string, LifecycleTask>,
                            iterations: map<nat, LifecycleIteration>, indices: set<nat>)
    requires Collected(AllTasks(its), tasks, indices) && Gathered(its, iterations)
    requires AllValid(its, |AllTasks(its)|)
    ensures forall k :: 1 <= k <= |AllTasks(its)| ==> k in indices
    ensures tasks == NewTasks(SnapshotOf(its)) && iterations == NewIterations(SnapshotOf(its))
  {
    AllTasksValid(its, |AllTasks(its)|);
    NoIndexMissing(AllTasks(its));
    CollectedIsMap(AllTasks(its), tasks, indices);
    GatheredIsMap(its, iterations);
    assert NewTasks(SnapshotOf(its)).Keys == tasks.Keys;
    assert NewIterations(SnapshotOf(its)).Keys == iterations.Keys;
  }

  lemma AllTasksValid(its: seq<Iteration>, total: nat)
    requires AllValid(its, total)
    ensures forall n :: 0 <= n < |AllTasks(its)| ==> 1 <= AllTasks(its)[n].index <= total
  {
    forall n | 0 <= n < |AllTasks(its)|
      ensures 1 <= AllTasks(its)[n].index <= total
    {
      var i, j := TaskOwner(its, n);
      assert ValidIteration(its[i], total) && ValidTask(its[i].tasks[j], its[i].number, total);
    }
  }

  /** ValidatePlan: its own check of the snapshot's sizes never fails. */
  method ValidatePlan(its: seq<Iteration>) returns (err: Option<PlanError>, inconsistent: bool)
    ensures err.None? <==> Acceptable(its)
    ensures !inconsistent
  {
    var r := SnapshotPlan(its);
    if r.Err? { return Some(r.error), false; }
    AcceptableSizes(its);
    inconsistent := |r.value.tasks| != r.value.total || |r.value.iterations| != |its|;
    return None, inconsistent;
  }

  lemma AcceptableSizes(its: seq<Iteration>)
    requires Acceptable(its)
    ensures |NewTasks(SnapshotOf(its))| == |AllTasks(its)| && |NewIterations(SnapshotOf(its))| == |its|
  {
    TaskMapHolds(AllTasks(its));
    IterationMapHolds(its);
    assert NewTasks(SnapshotOf(its)).Keys == TaskMap(AllTasks(its)).Keys;
    assert NewIterations(SnapshotOf(its)).Keys == IterationMap(its).Keys;
  }
}
