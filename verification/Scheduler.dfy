/** EvaluatePlan of internal/evaluator/evaluator.go: tasks run by goroutines, at most
    `limit` at a time, until the context is cancelled.

    The scheduling loop, the goroutines and the canceller take atomic steps in any
    order. A run is any sequence of enabled steps. What a task returns is arbitrary. */
module Scheduler {
  import opened Wrappers

  /** How far one task's goroutine has come: started, announced, its result written,
      announced again, its slot given back, wg.Done called. */
  datatype Stage = Launched | Announced | Written | Reported | Released | Done

  function Rank(stage: Stage): nat {
    match stage
    case Launched => 0
    case Announced => 1
    case Written => 2
    case Reported => 3
    case Released => 4
    case Done => 5
  }

  /** Where the scheduling loop is: before the first checks, at the head of the loop, in
      the select, holding a slot that it may have to return, in wg.Wait, or back at the
      caller. */
  datatype Main = Starting | AtHead | Selecting | Holding | Waiting | Returned(failed: bool)

  datatype Callback<R> = TaskStarted(task: nat) | TaskCompleted(task: nat, result: R)

  /** `slots` is the number of values in the semaphore channel. */
  datatype State<R> = State(
    cancelled: bool, main: Main, slots: nat, stages: seq<Stage>, results: seq<Option<R>>, calls: seq<Callback<R>>)

  datatype Action<R> =
    | Cancel
    | Enter(credentialsOk: bool)
    | Head
    | Acquire
    | GiveUp
    | Recheck
    | Wait
    | Announce(task: nat)
    | Write(task: nat, result: R)
    | Report(task: nat)
    | Release(task: nat)
    | Finish(task: nat)

  function Init<R>(n: nat, cancelled: bool): State<R> {
    State(cancelled, Starting, 0, [], seq(n, i => None), [])
  }

  predicate AtStage<R>(s: State<R>, task: nat, stage: Stage) {
    task < |s.stages| && s.stages[task] == stage
  }

  /** n is the number of tasks. */
  predicate Enabled<R>(s: State<R>, a: Action<R>, n: nat, limit: nat) {
    match a
    case Cancel => !s.cancelled
    case Enter(_) => s.main == Starting
    case Head => s.main == AtHead
    case Acquire => s.main == Selecting && s.slots < limit
    case GiveUp => s.main == Selecting && s.cancelled
    case Recheck => s.main == Holding
    case Wait => s.main == Waiting && forall j :: 0 <= j < |s.stages| ==> s.stages[j] == Done
    case Announce(j) => AtStage(s, j, Launched)
    case Write(j, _) => AtStage(s, j, Announced)
    case Report(j) => AtStage(s, j, Written)
    case Release(j) => AtStage(s, j, Reported)
    case Finish(j) => AtStage(s, j, Released)
  }

  function At<R>(s: State<R>, j: nat, stage: Stage): State<R>
    requires j < |s.stages|
  {
    s.(stages := s.stages[j := stage])
  }

  ghost predicate Typed<R>(s: State<R>, n: nat) {
    |s.stages| <= n && |s.results| == n
  }

  /** The state after an enabled action. */
  function Next<R>(s: State<R>, a: Action<R>, n: nat, limit: nat): State<R>
    requires Enabled(s, a, n, limit) && Typed(s, n)
  {
    match a
    case Cancel => s.(cancelled := true)
    case Enter(credentialsOk) =>
      if s.cancelled || !credentialsOk then s.(main := Returned(true)) else s.(main := AtHead)
    case Head =>
      if |s.stages| == n || s.cancelled then s.(main := Waiting) else s.(main := Selecting)
    case Acquire => s.(main := Holding, slots := s.slots + 1)
    case GiveUp => s.(main := Waiting)
    case Recheck =>
      if s.cancelled then s.(main := Waiting, slots := if s.slots > 0 then s.slots - 1 else 0)
      else s.(main := AtHead, stages := s.stages + [Launched])
    case Wait => s.(main := Returned(s.cancelled))
    case Announce(j) => At(s, j, Announced).(calls := s.calls + [TaskStarted(j)])
    case Write(j, r) => At(s, j, Written).(results := s.results[j := Some(r)])
    case Report(j) =>
      At(s, j, Reported).(calls := if s.results[j].Some? then s.calls + [TaskCompleted(j, s.results[j].value)]
                          else s.calls)
    case Release(j) => At(s, j, Released).(slots := if s.slots > 0 then s.slots - 1 else 0)
    case Finish(j) => At(s, j, Done)
  }

  /** The goroutines that hold a slot. */
  function Holders(stages: seq<Stage>): nat {
    if stages == [] then 0
    else Holders(stages[..|stages| - 1]) + if Rank(stages[|stages| - 1]) < Rank(Released) then 1 else 0
  }

  /** The goroutines between the two callbacks of their tasks. */
  function InFlight(stages: seq<Stage>): nat {
    if stages == [] then 0
    else
      var last := stages[|stages| - 1];
      InFlight(stages[..|stages| - 1]) + if last == Announced || last == Written then 1 else 0
  }

  function CallTask<R>(c: Callback<R>): nat { c.task }

  /** The callbacks of one task, in order. */
  function CallsOf<R>(calls: seq<Callback<R>>, j: nat): seq<Callback<R>> {
    if calls == [] then []
    else
      var last := calls[|calls| - 1];
      CallsOf(calls[..|calls| - 1], j) + if CallTask(last) == j then [last] else []
  }

  /** The callbacks of task j by a stage. */
  function CallsBy<R>(stage: Stage, j: nat, result: Option<R>): seq<Callback<R>> {
    match stage
    case Launched => []
    case Announced => [TaskStarted(j)]
    case Written => [TaskStarted(j)]
    case _ => if result.None? then [] else [TaskStarted(j), TaskCompleted(j, result.value)]
  }

  /** What task j's goroutine has done. */
  ghost predicate TaskOk<R(!new)>(s: State<R>, j: nat)
    requires j < |s.results|
  {
    if j >= |s.stages| then s.results[j].None? && CallsOf(s.calls, j) == []
    else
      && (s.results[j].Some? <==> Rank(s.stages[j]) >= Rank(Written))
      && CallsMatch(s.calls, s.stages[j], j, s.results[j])
  }

  ghost predicate CallsMatch<R(!new)>(calls: seq<Callback<R>>, stage: Stage, j: nat, result: Option<R>) {
    CallsOf(calls, j) == CallsBy(stage, j, result)
  }

  lemma FirstCall<R(!new)>(calls: seq<Callback<R>>, j: nat)
    requires CallsMatch(calls, Launched, j, None)
    ensures CallsMatch(calls + [TaskStarted(j)], Announced, j, None)
  {
    CallsMore(calls, TaskStarted(j), j);
  }

  lemma SecondCall<R(!new)>(calls: seq<Callback<R>>, j: nat, result: R)
    requires CallsMatch(calls, Written, j, Some(result))
    ensures CallsMatch(calls + [TaskCompleted(j, result)], Reported, j, Some(result))
  {
    CallsMore(calls, TaskCompleted(j, result), j);
  }

  /** What every state of every run satisfies. */
  ghost predicate Inv<R(!new)>(s: State<R>, n: nat, limit: nat) {
    && Typed(s, n)
    && s.slots == Holders(s.stages) + (if s.main == Holding then 1 else 0) <= limit
    && (s.main == Starting ==> s.stages == [])
    && ((s.main == Selecting || s.main == Holding) ==> |s.stages| < n)
    && (s.main == Waiting ==> |s.stages| == n || s.cancelled)
    && (s.main.Returned? ==> AllDone(s) && (s.main.failed || |s.stages| == n))
    && (forall j: nat {:trigger TaskOk(s, j)} :: j < n ==> TaskOk(s, j))
  }

  predicate AllDone<R>(s: State<R>) {
    forall j :: 0 <= j < |s.stages| ==> s.stages[j] == Done
  }

  lemma {:induction false} HoldersUpdate(stages: seq<Stage>, j: nat, stage: Stage)
    requires j < |stages|
    ensures Holders(stages[j := stage])
            == Holders(stages) - (if Rank(stages[j]) < Rank(Released) then 1 else 0)
               + (if Rank(stage) < Rank(Released) then 1 else 0)
    ensures Rank(stages[j]) < Rank(Released) ==> Holders(stages) > 0
  {
    var n := |stages| - 1;
    if j < n {
      HoldersUpdate(stages[..n], j, stage);
      assert stages[j := stage][..n] == stages[..n][j := stage];
    } else {
      assert stages[j := stage][..n] == stages[..n];
    }
  }

  lemma HoldersMore(stages: seq<Stage>)
    ensures Holders(stages + [Launched]) == Holders(stages) + 1
  {
    assert (stages + [Launched])[..|stages|] == stages;
  }

  lemma CallsMore<R>(calls: seq<Callback<R>>, c: Callback<R>, j: nat)
    ensures CallsOf(calls + [c], j) == CallsOf(calls, j) + if CallTask(c) == j then [c] else []
  {
    assert (calls + [c])[..|calls|] == calls;
  }

  lemma {:induction false} NoHolders(stages: seq<Stage>)
    requires forall j :: 0 <= j < |stages| ==> stages[j] == Done
    ensures Holders(stages) == 0
  {
    if stages != [] {
      NoHolders(stages[..|stages| - 1]);
    }
  }

  predicate ActsFor<R>(a: Action<R>, k: nat) {
    a == Announce(k) || (a.Write? && a.task == k) || a == Report(k) || a == Release(k) || a == Finish(k)
  }

  /** A step of one goroutine, seen from the other tasks. */
  lemma OtherTask<R(!new)>(s: State<R>, a: Action<R>, n: nat, limit: nat, j: nat, k: nat)
    requires Typed(s, n) && Enabled(s, a, n, limit) && j < n && k < |s.stages| && j != k && ActsFor(a, k)
    requires TaskOk(s, j)
    ensures TaskOk(Next(s, a, n, limit), j)
  {
    match a
    case Announce(_) => CallsMore(s.calls, TaskStarted(k), j);
    case Report(_) =>
      if s.results[k].Some? {
        CallsMore(s.calls, TaskCompleted(k, s.results[k].value), j);
      }
    case _ =>
  }

  /** And from its own. */
  lemma OwnAnnounce<R(!new)>(s: State<R>, a: Action<R>, n: nat, limit: nat, k: nat)
    requires Typed(s, n) && Enabled(s, a, n, limit) && k < |s.stages| && a == Announce(k)
    requires TaskOk(s, k)
    ensures TaskOk(Next(s, a, n, limit), k)
  {
    FirstCall(s.calls, k);
  }

  lemma OwnReport<R(!new)>(s: State<R>, a: Action<R>, n: nat, limit: nat, k: nat)
    requires Typed(s, n) && Enabled(s, a, n, limit) && k < |s.stages| && a == Report(k)
    requires TaskOk(s, k)
    ensures TaskOk(Next(s, a, n, limit), k)
  {
    SecondCall(s.calls, k, s.results[k].value);
  }

  lemma OwnWrite<R(!new)>(s: State<R>, a: Action<R>, n: nat, limit: nat, k: nat)
    requires Typed(s, n) && Enabled(s, a, n, limit) && k < |s.stages| && a.Write? && a.task == k
    requires TaskOk(s, k)
    ensures TaskOk(Next(s, a, n, limit), k)
  {
  }

  lemma OwnEnd<R(!new)>(s: State<R>, a: Action<R>, n: nat, limit: nat, k: nat)
    requires Typed(s, n) && Enabled(s, a, n, limit) && k < |s.stages| && (a == Release(k) || a == Finish(k))
    requires TaskOk(s, k)
    ensures TaskOk(Next(s, a, n, limit), k)
  {
  }

  lemma OwnTask<R(!new)>(s: State<R>, a: Action<R>, n: nat, limit: nat, k: nat)
    requires Typed(s, n) && Enabled(s, a, n, limit) && k < |s.stages| && ActsFor(a, k)
    requires TaskOk(s, k)
    ensures TaskOk(Next(s, a, n, limit), k)
  {
    match a
    case Announce(_) => OwnAnnounce(s, a, n, limit, k);
    case Write(_, _) => OwnWrite(s, a, n, limit, k);
    case Report(_) => OwnReport(s, a, n, limit, k);
    case _ => OwnEnd(s, a, n, limit, k);
  }

  lemma WorkerKeeps<R(!new)>(s: State<R>, a: Action<R>, n: nat, limit: nat, k: nat)
    requires Inv(s, n, limit) && Enabled(s, a, n, limit) && k < |s.stages| && ActsFor(a, k)
    ensures Inv(Next(s, a, n, limit), n, limit)
  {
    var t := Next(s, a, n, limit);
    HoldersUpdate(s.stages, k, t.stages[k]);
    forall j: nat | j < n
      ensures TaskOk(t, j)
    {
      assert TaskOk(s, j);
      if j == k {
        OwnTask(s, a, n, limit, k);
      } else {
        OtherTask(s, a, n, limit, j, k);
      }
    }
  }

  lemma MainKeeps<R(!new)>(s: State<R>, a: Action<R>, n: nat, limit: nat)
    requires Inv(s, n, limit) && Enabled(s, a, n, limit)
    requires a.Cancel? || a.Enter? || a.Head? || a.Acquire? || a.GiveUp? || a.Recheck? || a.Wait?
    ensures Inv(Next(s, a, n, limit), n, limit)
  {
    var t := Next(s, a, n, limit);
    HoldersMore(s.stages);
    forall j: nat | j < n
      ensures TaskOk(t, j)
    {
      assert TaskOk(s, j);
    }
  }

  /** Every enabled step keeps the invariant. */
  lemma StepKeeps<R(!new)>(s: State<R>, a: Action<R>, n: nat, limit: nat)
    requires Inv(s, n, limit) && Enabled(s, a, n, limit)
    ensures Inv(Next(s, a, n, limit), n, limit)
  {
    match a
    case Announce(k) => WorkerKeeps(s, a, n, limit, k);
    case Write(k, _) => WorkerKeeps(s, a, n, limit, k);
    case Report(k) => WorkerKeeps(s, a, n, limit, k);
    case Release(k) => WorkerKeeps(s, a, n, limit, k);
    case Finish(k) => WorkerKeeps(s, a, n, limit, k);
    case _ => MainKeeps(s, a, n, limit);
  }

  /** A run, from the states before and after each action. */
  ghost predicate IsRun<R(!new)>(states: seq<State<R>>, actions: seq<Action<R>>, n: nat, limit: nat) {
    && |states| == |actions| + 1
    && (exists cancelled :: states[0] == Init(n, cancelled))
    && forall i: nat {:trigger Steps(states, actions, i, n, limit)} ::
      i < |actions| ==> Steps(states, actions, i, n, limit)
  }

  ghost predicate Steps<R>(states: seq<State<R>>, actions: seq<Action<R>>, i: nat, n: nat, limit: nat)
    requires i < |actions| && i + 1 < |states|
  {
    && Typed(states[i], n)
    && Enabled(states[i], actions[i], n, limit) && states[i + 1] == Next(states[i], actions[i], n, limit)
  }

  lemma InitHolds<R(!new)>(n: nat, limit: nat, cancelled: bool)
    ensures Inv(Init<R>(n, cancelled), n, limit)
  {
    var s := Init<R>(n, cancelled);
    forall j: nat | j < n
      ensures TaskOk(s, j)
    {
    }
  }

  lemma {:induction false} RunHolds<R(!new)>(states: seq<State<R>>, actions: seq<Action<R>>, n: nat, limit: nat, i: nat)
    requires IsRun(states, actions, n, limit) && i <= |actions|
    ensures Inv(states[i], n, limit)
  {
    if i == 0 {
      var cancelled :| states[0] == Init(n, cancelled);
      InitHolds<R>(n, limit, cancelled);
    } else {
      RunHolds(states, actions, n, limit, i - 1);
      assert Steps(states, actions, i - 1, n, limit);
      StepKeeps(states[i - 1], actions[i - 1], n, limit);
    }
  }

  lemma {:induction false} InFlightHolds(stages: seq<Stage>)
    ensures InFlight(stages) <= Holders(stages)
  {
    if stages != [] {
      InFlightHolds(stages[..|stages| - 1]);
    }
  }

  /** Never more than `limit` tasks run at once. */
  lemma LimitKept<R(!new)>(states: seq<State<R>>, actions: seq<Action<R>>, n: nat, limit: nat, i: nat)
    requires IsRun(states, actions, n, limit) && i <= |actions|
    ensures InFlight(states[i].stages) <= limit
  {
    RunHolds(states, actions, n, limit, i);
    InFlightHolds(states[i].stages);
  }

  /** A returned call holds no slot. The tasks it started are the first ones of the
      list; each has had its two callbacks, in order, the second with the result that
      is in its own slot; the others have had none and no result. Without an error
      every task ran. */
  lemma ReturnedMeans<R(!new)>(states: seq<State<R>>, actions: seq<Action<R>>, n: nat, limit: nat, i: nat)
    requires IsRun(states, actions, n, limit) && i <= |actions| && states[i].main.Returned?
    ensures states[i].slots == 0 && |states[i].results| == n && |states[i].stages| <= n
    ensures forall j :: 0 <= j < n ==>
      if j < |states[i].stages| then
        && states[i].results[j].Some?
        && CallsOf(states[i].calls, j) == [TaskStarted(j), TaskCompleted(j, states[i].results[j].value)]
      else states[i].results[j].None? && CallsOf(states[i].calls, j) == []
    ensures !states[i].main.failed ==> |states[i].stages| == n
  {
    RunHolds(states, actions, n, limit, i);
    var s := states[i];
    NoHolders(s.stages);
    forall j | 0 <= j < n
      ensures if j < |s.stages| then
                s.results[j].Some? && CallsOf(s.calls, j) == [TaskStarted(j), TaskCompleted(j, s.results[j].value)]
              else s.results[j].None? && CallsOf(s.calls, j) == []
    {
      assert TaskOk(s, j);
    }
  }

  /** A result, once written, is never written again. */
  lemma ResultsStay<R(!new)>(s: State<R>, a: Action<R>, n: nat, limit: nat, j: nat)
    requires Inv(s, n, limit) && Enabled(s, a, n, limit) && j < n && s.results[j].Some?
    ensures Next(s, a, n, limit).results[j] == s.results[j]
  {
    if a.Write? {
      assert TaskOk(s, a.task);
    }
  }

  /** The slot of another task is never written. */
  lemma OwnSlotOnly<R(!new)>(s: State<R>, a: Action<R>, n: nat, limit: nat, j: nat)
    requires Inv(s, n, limit) && Enabled(s, a, n, limit) && j < n && Next(s, a, n, limit).results[j] != s.results[j]
    ensures a.Write? && a.task == j
  {
  }

  // Every run ends.

  function WorkLeft(stages: seq<Stage>): nat {
    if stages == [] then 0 else WorkLeft(stages[..|stages| - 1]) + (5 - Rank(stages[|stages| - 1]))
  }

  function MainLeft(main: Main): nat {
    match main
    case Starting => 5
    case AtHead => 4
    case Selecting => 3
    case Holding => 2
    case Waiting => 1
    case Returned(_) => 0
  }

  /** A bound on the steps that are left. */
  function Left<R>(s: State<R>, n: nat): int {
    10 * (n - |s.stages|) + WorkLeft(s.stages) + MainLeft(s.main) + if s.cancelled then 0 else 1
  }

  lemma {:induction false} WorkUpdate(stages: seq<Stage>, j: nat, stage: Stage)
    requires j < |stages| && Rank(stage) == Rank(stages[j]) + 1
    ensures WorkLeft(stages[j := stage]) == WorkLeft(stages) - 1
  {
    var n := |stages| - 1;
    if j < n {
      WorkUpdate(stages[..n], j, stage);
      assert stages[j := stage][..n] == stages[..n][j := stage];
    } else {
      assert stages[j := stage][..n] == stages[..n];
    }
  }

  lemma LaunchLeft(stages: seq<Stage>)
    ensures WorkLeft(stages + [Launched]) == WorkLeft(stages) + 5
  {
    assert (stages + [Launched])[..|stages|] == stages;
  }

  lemma WorkerRunsOut<R(!new)>(s: State<R>, a: Action<R>, n: nat, limit: nat)
    requires Typed(s, n) && Enabled(s, a, n, limit)
    requires a.Announce? || a.Write? || a.Report? || a.Release? || a.Finish?
    ensures 0 <= Left(Next(s, a, n, limit), n) < Left(s, n)
  {
    match a
    case Announce(j) => WorkUpdate(s.stages, j, Announced);
    case Write(j, _) => WorkUpdate(s.stages, j, Written);
    case Report(j) => WorkUpdate(s.stages, j, Reported);
    case Release(j) => WorkUpdate(s.stages, j, Released);
    case Finish(j) => WorkUpdate(s.stages, j, Done);
  }

  lemma LoopRunsOut<R(!new)>(s: State<R>, a: Action<R>, n: nat, limit: nat)
    requires Typed(s, n) && (s.main == Holding ==> |s.stages| < n) && Enabled(s, a, n, limit)
    requires !a.Announce? && !a.Write? && !a.Report? && !a.Release? && !a.Finish?
    ensures 0 <= Left(Next(s, a, n, limit), n) < Left(s, n)
  {
    LaunchLeft(s.stages);
  }

  /** Every step, cancellation included, brings the end closer. */
  lemma StepsRunOut<R(!new)>(s: State<R>, a: Action<R>, n: nat, limit: nat)
    requires Inv(s, n, limit) && Enabled(s, a, n, limit)
    ensures 0 <= Left(Next(s, a, n, limit), n) < Left(s, n)
  {
    if a.Announce? || a.Write? || a.Report? || a.Release? || a.Finish? {
      WorkerRunsOut(s, a, n, limit);
    } else {
      LoopRunsOut(s, a, n, limit);
    }
  }

  function WorkerAction<R>(stage: Stage, j: nat, r: R): Action<R> {
    match stage
    case Launched => Announce(j)
    case Announced => Write(j, r)
    case Written => Report(j)
    case Reported => Release(j)
    case Released => Finish(j)
    case Done => Cancel
  }

  lemma {:induction false} SomeHolder(stages: seq<Stage>) returns (j: nat)
    requires Holders(stages) > 0
    ensures j < |stages| && stages[j] != Done
  {
    var n := |stages| - 1;
    if Rank(stages[n]) < Rank(Released) {
      j := n;
    } else {
      j := SomeHolder(stages[..n]);
    }
  }

  /** No deadlock: until the call has returned, some step other than a cancellation
      can be taken. */
  lemma NoDeadlock<R(!new)>(s: State<R>, n: nat, limit: nat, r: R) returns (a: Action<R>)
    requires Inv(s, n, limit) && limit >= 1 && !s.main.Returned?
    ensures Enabled(s, a, n, limit) && !a.Cancel?
  {
    match s.main
    case Starting => a := Enter(true);
    case AtHead => a := Head;
    case Holding => a := Recheck;
    case Selecting =>
      if s.slots < limit {
        a := Acquire;
      } else {
        var j := SomeHolder(s.stages);
        a := WorkerAction(s.stages[j], j, r);
      }
    case Waiting =>
      if AllDone(s) {
        a := Wait;
      } else {
        var j: nat :| j < |s.stages| && s.stages[j] != Done;
        a := WorkerAction(s.stages[j], j, r);
      }
  }
}
