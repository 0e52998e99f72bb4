/** What being a well-formed log means, said about positions in the log. */
module RunShape {
  import opened EvalEvent
  import opened RunGrammar

  predicate StartsCase(event: Event, id: string) {
    event.payload.CaseStarted? && event.payload.task.taskId == id
  }

  predicate CompletesCase(event: Event, id: string) {
    event.payload.CaseCompleted? && event.payload.task.taskId == id
  }

  predicate StartsIteration(event: Event, k: nat) {
    event.payload == IterationStarted(k)
  }

  predicate CompletesIteration(event: Event, k: nat) {
    event.payload.IterationCompleted? && event.payload.iteration == k
  }

  ghost predicate CaseHasStarted(log: seq<Event>, id: string) {
    exists i :: 0 <= i < |log| && StartsCase(log[i], id)
  }

  ghost predicate CaseHasCompleted(log: seq<Event>, id: string) {
    exists i :: 0 <= i < |log| && CompletesCase(log[i], id)
  }

  ghost predicate IterationHasStarted(log: seq<Event>, k: nat) {
    exists i :: 0 <= i < |log| && StartsIteration(log[i], k)
  }

  ghost predicate IterationHasCompleted(log: seq<Event>, k: nat) {
    exists i :: 0 <= i < |log| && CompletesIteration(log[i], k)
  }

  /** The sets of a view are the events that occur. */
  lemma {:induction false} CaseOccurs(log: seq<Event>, id: string)
    ensures id in Observe(log).started <==> CaseHasStarted(log, id)
    ensures id in Observe(log).completed <==> CaseHasCompleted(log, id)
  {
    if log != [] {
      var before, last := log[..|log| - 1], log[|log| - 1];
      CaseOccurs(before, id);
      assert log == before + [last];
      assert CaseHasStarted(log, id) <==> CaseHasStarted(before, id) || StartsCase(last, id) by {
        if CaseHasStarted(before, id) {
          var i :| 0 <= i < |before| && StartsCase(before[i], id);
          assert StartsCase(log[i], id);
        }
      }
      assert CaseHasCompleted(log, id) <==> CaseHasCompleted(before, id) || CompletesCase(last, id) by {
        if CaseHasCompleted(before, id) {
          var i :| 0 <= i < |before| && CompletesCase(before[i], id);
          assert CompletesCase(log[i], id);
        }
      }
    }
  }

  lemma {:induction false} IterationOccurs(log: seq<Event>, k: nat)
    ensures k in Observe(log).iterationsStarted <==> IterationHasStarted(log, k)
    ensures k in Observe(log).iterationsCompleted <==> IterationHasCompleted(log, k)
  {
    if log != [] {
      var before, last := log[..|log| - 1], log[|log| - 1];
      IterationOccurs(before, k);
      assert log == before + [last];
      assert IterationHasStarted(log, k) <==> IterationHasStarted(before, k) || StartsIteration(last, k) by {
        if IterationHasStarted(before, k) {
          var i :| 0 <= i < |before| && StartsIteration(before[i], k);
          assert StartsIteration(log[i], k);
        }
      }
      assert IterationHasCompleted(log, k) <==> IterationHasCompleted(before, k) || CompletesIteration(last, k) by {
        if IterationHasCompleted(before, k) {
          var i :| 0 <= i < |before| && CompletesIteration(before[i], k);
          assert CompletesIteration(log[i], k);
        }
      }
    }
  }

  /** The number of events of one kind. */
  function Starts(log: seq<Event>): nat {
    if log == [] then 0
    else Starts(log[..|log| - 1]) + (if log[|log| - 1].payload.CaseStarted? then 1 else 0)
  }

  function Completions(log: seq<Event>): nat {
    if log == [] then 0
    else Completions(log[..|log| - 1]) + (if log[|log| - 1].payload.CaseCompleted? then 1 else 0)
  }

  /** The results of the case_completed events of one iteration, or of all. */
  function Results(log: seq<Event>, k: nat, all: bool): ResultCounts {
    if log == [] then NO_RESULTS
    else
      var before := Results(log[..|log| - 1], k, all);
      match log[|log| - 1].payload
      case CaseCompleted(f, _, status, _, _) => if all || f.iteration == k then before.Add(status) else before
      case _ => before
  }

  lemma AppliedSets(plan: Snapshot, v: View, payload: Payload)
    requires LegalPayload(plan, v, payload)
    ensures |Apply(v, payload).started| == |v.started| + (if payload.CaseStarted? then 1 else 0)
    ensures |Apply(v, payload).completed| == |v.completed| + (if payload.CaseCompleted? then 1 else 0)
  {
  }

  lemma AppliedCounts(v: View, payload: Payload, k: nat)
    ensures Apply(v, payload).counts == if payload.CaseCompleted? then v.counts.Add(payload.status) else v.counts
    ensures CountsOf(Apply(v, payload), k)
            == if payload.CaseCompleted? && payload.task.iteration == k then CountsOf(v, k).Add(payload.status)
               else CountsOf(v, k)
  {
  }

  /** The counters of a view are the numbers of events. */
  lemma {:induction false} Replay(plan: Snapshot, log: seq<Event>, k: nat)
    requires WellFormed(plan, log)
    ensures |Observe(log).started| == Starts(log)
    ensures |Observe(log).completed| == Completions(log)
    ensures Observe(log).counts == Results(log, 0, true)
    ensures CountsOf(Observe(log), k) == Results(log, k, false)
  {
    if log != [] {
      var before, payload := log[..|log| - 1], log[|log| - 1].payload;
      PrefixLegal(plan, log, |log| - 1);
      Replay(plan, before, k);
      AppliedSets(plan, Observe(before), payload);
      AppliedCounts(Observe(before), payload, k);
    }
  }

  /** Every snapshot equals a replay of the log before it: the completed tasks and
      their results are those of the preceding case_completed events, and the running
      tasks are those started and not completed, except in the final snapshot, which
      reports none. */
  lemma SnapshotsReplay(plan: Snapshot, log: seq<Event>, i: nat)
    requires WellFormed(plan, log) && i < |log|
    ensures match log[i].payload
      case RunProgress(counts, phase, taskTotal, completedTasks, runningTasks, _) =>
        && taskTotal == plan.total
        && completedTasks == Completions(log[..i]) && counts == Results(log[..i], 0, true)
        && runningTasks == (if phase == Finalizing then 0 else Starts(log[..i]) - Completions(log[..i]))
      case CaseCompleted(_, completedTasks, _, _, _) => completedTasks == Completions(log[..i]) + 1
      case IterationCompleted(counts, k, invocationCompletedTasks, _) =>
        counts == Results(log[..i], k, false) && invocationCompletedTasks == Completions(log[..i])
      case RunFinished(counts, _, completedTasks, _) =>
        completedTasks == Completions(log[..i]) && counts == Results(log[..i], 0, true)
      case _ => true
  {
    PrefixLegal(plan, log, i);
    Replay(plan, log[..i], if log[i].payload.IterationCompleted? then log[i].payload.iteration else 0);
  }

  /** A log opens with run_started and then a preparing snapshot, and is numbered
      from 1 without a gap. */
  lemma Opening(plan: Snapshot, log: seq<Event>)
    requires WellFormed(plan, log)
    ensures |log| > 0 ==> log[0].payload.RunStarted?
    ensures |log| > 1 ==> log[1].payload.RunProgress? && log[1].payload.phase == Preparing
    ensures forall i :: 0 <= i < |log| ==> log[i].sequence == i + 1
  {
    if |log| > 0 {
      PrefixLegal(plan, log, 0);
    }
    if |log| > 1 {
      PrefixLegal(plan, log, 1);
      assert log[..1][..0] == [];
    }
    forall i | 0 <= i < |log|
      ensures log[i].sequence == i + 1
    {
      PrefixLegal(plan, log, i);
    }
  }

  lemma {:induction false} PhaseReached(plan: Snapshot, log: seq<Event>, i: nat)
    requires WellFormed(plan, log) && i < |log| && log[i].payload.RunProgress?
    ensures PhaseRank(log[i].payload.phase) <= PhaseRank(Observe(log).phase)
  {
    if i < |log| - 1 {
      PrefixLegal(plan, log, |log| - 1);
      PhaseReached(plan, log[..|log| - 1], i);
    }
  }

  /** Phases never go back. */
  lemma PhasesGoForward(plan: Snapshot, log: seq<Event>, i: nat, j: nat)
    requires WellFormed(plan, log) && i < j < |log|
    requires log[i].payload.RunProgress? && log[j].payload.RunProgress?
    ensures PhaseRank(log[i].payload.phase) <= PhaseRank(log[j].payload.phase)
  {
    PrefixLegal(plan, log, j);
    PhaseReached(plan, log[..j], i);
  }

  /** A case is announced with its planned fields, starts at most once, after its
      iteration has started and before it has completed. */
  lemma CaseStartsInOrder(plan: Snapshot, log: seq<Event>, i: nat, id: string)
    requires WellFormed(plan, log) && i < |log| && StartsCase(log[i], id)
    ensures Announced(plan, log[i].payload.task)
    ensures !CaseHasStarted(log[..i], id)
    ensures IterationHasStarted(log[..i], plan.tasks[id].iteration)
    ensures !IterationHasCompleted(log[..i], plan.tasks[id].iteration)
  {
    PrefixLegal(plan, log, i);
    CaseOccurs(log[..i], id);
    IterationOccurs(log[..i], log[i].payload.task.iteration);
  }

  /** A case completes at most once, and only after it has started. */
  lemma CaseCompletesInOrder(plan: Snapshot, log: seq<Event>, i: nat, id: string)
    requires WellFormed(plan, log) && i < |log| && CompletesCase(log[i], id)
    ensures Announced(plan, log[i].payload.task)
    ensures CaseHasStarted(log[..i], id) && !CaseHasCompleted(log[..i], id)
  {
    PrefixLegal(plan, log, i);
    CaseOccurs(log[..i], id);
  }

  /** An iteration starts at most once. It completes at most once, after it has
      started and after every one of its tasks has completed. */
  lemma IterationInOrder(plan: Snapshot, log: seq<Event>, i: nat, k: nat)
    requires WellFormed(plan, log) && i < |log|
    ensures StartsIteration(log[i], k) ==> k in plan.iterations && !IterationHasStarted(log[..i], k)
    ensures CompletesIteration(log[i], k) ==>
      && IterationHasStarted(log[..i], k) && !IterationHasCompleted(log[..i], k)
      && forall id :: id in plan.tasks && plan.tasks[id].iteration == k ==> CaseHasCompleted(log[..i], id)
  {
    PrefixLegal(plan, log, i);
    IterationOccurs(log[..i], k);
    if CompletesIteration(log[i], k) {
      forall id | id in plan.tasks && plan.tasks[id].iteration == k
        ensures CaseHasCompleted(log[..i], id)
      {
        assert id in IdsOf(plan, k);
        CaseOccurs(log[..i], id);
      }
    }
  }

  /** Only the empty log shows a run that has not started. */
  lemma {:induction false} StartedByFirst(plan: Snapshot, log: seq<Event>)
    requires WellFormed(plan, log) && log != []
    ensures Observe(log).stage != NotStarted
  {
    var n := |log| - 1;
    PrefixLegal(plan, log, n);
    if n > 0 {
      StartedByFirst(plan, log[..n]);
    }
  }

  /** run_finished directly follows the finalizing snapshot, is the only event with
      the last_event flag, and nothing follows it. */
  lemma FinishedIsLast(plan: Snapshot, log: seq<Event>, i: nat)
    requires WellFormed(plan, log) && i < |log|
    ensures log[i].last <==> log[i].payload.RunFinished?
    ensures log[i].last ==> i == |log| - 1
    ensures log[i].last ==> i > 0 && log[i - 1].payload.RunProgress? && log[i - 1].payload.phase == Finalizing
  {
    PrefixLegal(plan, log, i);
    if log[i].last {
      if i + 1 < |log| {
        assert log[..i + 1][..i] == log[..i];
        PrefixLegal(plan, log, i + 1);
      }
      if i > 0 {
        PrefixLegal(plan, log, i - 1);
        if i > 1 {
          StartedByFirst(plan, log[..i - 1]);
        }
        assert log[..i][..i - 1] == log[..i - 1];
      }
    }
  }

  ghost predicate CaseStartsOnce(log: seq<Event>, id: string) {
    exists i :: 0 <= i < |log| && StartsCase(log[i], id)
                && forall j :: 0 <= j < |log| && StartsCase(log[j], id) ==> j == i
  }

  ghost predicate CaseCompletesOnce(log: seq<Event>, id: string) {
    exists i :: 0 <= i < |log| && CompletesCase(log[i], id)
                && forall j :: 0 <= j < |log| && CompletesCase(log[j], id) ==> j == i
  }

  ghost predicate IterationStartsOnce(log: seq<Event>, k: nat) {
    exists i :: 0 <= i < |log| && StartsIteration(log[i], k)
                && forall j :: 0 <= j < |log| && StartsIteration(log[j], k) ==> j == i
  }

  ghost predicate IterationCompletesOnce(log: seq<Event>, k: nat) {
    exists i :: 0 <= i < |log| && CompletesIteration(log[i], k)
                && forall j :: 0 <= j < |log| && CompletesIteration(log[j], k) ==> j == i
  }

  lemma CaseOnce(plan: Snapshot, log: seq<Event>, id: string)
    requires WellFormed(plan, log) && CaseHasStarted(log, id) && CaseHasCompleted(log, id)
    ensures CaseStartsOnce(log, id) && CaseCompletesOnce(log, id)
  {
    var i :| 0 <= i < |log| && StartsCase(log[i], id);
    forall j | 0 <= j < |log| && StartsCase(log[j], id)
      ensures j == i
    {
      var first, second := if i < j then i else j, if i < j then j else i;
      if first < second {
        assert StartsCase(log[..second][first], id);
        CaseStartsInOrder(plan, log, second, id);
        assert false;
      }
    }
    var m :| 0 <= m < |log| && CompletesCase(log[m], id);
    forall j | 0 <= j < |log| && CompletesCase(log[j], id)
      ensures j == m
    {
      var first, second := if m < j then m else j, if m < j then j else m;
      if first < second {
        assert CompletesCase(log[..second][first], id);
        CaseCompletesInOrder(plan, log, second, id);
        assert false;
      }
    }
  }

  lemma IterationOnce(plan: Snapshot, log: seq<Event>, k: nat)
    requires WellFormed(plan, log) && IterationHasStarted(log, k) && IterationHasCompleted(log, k)
    ensures IterationStartsOnce(log, k) && IterationCompletesOnce(log, k)
  {
    var i :| 0 <= i < |log| && StartsIteration(log[i], k);
    forall j | 0 <= j < |log| && StartsIteration(log[j], k)
      ensures j == i
    {
      var first, second := if i < j then i else j, if i < j then j else i;
      if first < second {
        assert StartsIteration(log[..second][first], k);
        IterationInOrder(plan, log, second, k);
        assert false;
      }
    }
    var m :| 0 <= m < |log| && CompletesIteration(log[m], k);
    forall j | 0 <= j < |log| && CompletesIteration(log[j], k)
      ensures j == m
    {
      var first, second := if m < j then m else j, if m < j then j else m;
      if first < second {
        assert CompletesIteration(log[..second][first], k);
        IterationInOrder(plan, log, second, k);
        assert false;
      }
    }
  }

  /** A run that ends COMPLETED has exactly one case_started and one case_completed
      for every planned task, and exactly one iteration_started and one
      iteration_completed for every planned iteration. */
  lemma CompletedRunIsComplete(plan: Snapshot, log: seq<Event>)
    requires WellFormed(plan, log) && log != []
    requires log[|log| - 1].payload.RunFinished? && log[|log| - 1].payload.runStatus == Completed
    ensures forall id :: id in plan.tasks ==> CaseStartsOnce(log, id) && CaseCompletesOnce(log, id)
    ensures forall k :: k in plan.iterations ==> IterationStartsOnce(log, k) && IterationCompletesOnce(log, k)
  {
    PrefixLegal(plan, log, |log| - 1);
    ObservedSound(plan, log);
    forall id | id in plan.tasks
      ensures CaseStartsOnce(log, id) && CaseCompletesOnce(log, id)
    {
      CaseOccurs(log, id);
      CaseOnce(plan, log, id);
    }
    forall k | k in plan.iterations
      ensures IterationStartsOnce(log, k) && IterationCompletesOnce(log, k)
    {
      IterationOccurs(log, k);
      IterationOnce(plan, log, k);
    }
  }
}
