/** evaluationEventAdapter of internal/cli/run_events.go: it turns the callbacks of
    the scheduler into calls of the lifecycle and keeps the first error. */
module Adapter {
  import opened Wrappers
  import opened EvalEvent
  import opened LifecycleSpec
  import opened EventPlans
  import L = Lifecycles

  datatype JudgeStatus = JudgePass | JudgeFail | JudgeError | JudgeSkip | OtherJudgeStatus

  /** What executeCase returns, as far as the adapter looks at it. */
  datatype EvalResult = EvalResult(status: JudgeStatus, passRate: PassRate)

  datatype AdapterError = FromLifecycle(error: LifecycleError) | UnsafeIterationNumber | UnsupportedStatus

  /** evaluationEventCaseStatus. */
  function EventCaseStatus(status: JudgeStatus): Option<CaseStatus> {
    match status
    case JudgePass => Some(Pass)
    case JudgeFail => Some(Fail)
    case JudgeError => Some(Error)
    case JudgeSkip => Some(Skip)
    case OtherJudgeStatus => None
  }

  /** record: the first error stays. */
  function Record(err: Option<AdapterError>, next: Option<LifecycleError>): Option<AdapterError> {
    if err.Some? || next.None? then err else Some(FromLifecycle(next.value))
  }

  class EvaluationEventAdapter {
    const lifecycle: L.Lifecycle
    var err: Option<AdapterError>

    constructor (lifecycle: L.Lifecycle)
      ensures this.lifecycle == lifecycle && err.None?
    {
      this.lifecycle, err := lifecycle, None;
    }

    method RecordError(next: Option<LifecycleError>)
      modifies this
      ensures err == Record(old(err), next)
    {
      if next.None? { return; }
      if err.None? { err := Some(FromLifecycle(next.value)); }
    }

    method OnIterationStart(number: int, now: int)
      requires lifecycle.Valid()
      modifies this, lifecycle, lifecycle.publisher, lifecycle.publisher.sink
      ensures lifecycle.Valid()
      ensures var n := PositiveSafeEventInteger(number);
        if n.None? then
          lifecycle.Value() == old(lifecycle.Value())
            && err == if old(err).Some? then old(err) else Some(UnsafeIterationNumber)
        else
          var (t, e) := Step(old(lifecycle.Value()), StartIteration(n.value, now));
          lifecycle.Value() == t && err == Record(old(err), e)
    {
      var n := PositiveSafeEventInteger(number);
      if n.None? {
        if err.None? { err := Some(UnsafeIterationNumber); }
        return;
      }
      var e := lifecycle.IterationStarted(n.value, now);
      RecordError(e);
    }

    method OnIterationComplete(number: int, now: int)
      requires lifecycle.Valid()
      modifies this, lifecycle, lifecycle.publisher, lifecycle.publisher.sink
      ensures lifecycle.Valid()
      ensures var n := PositiveSafeEventInteger(number);
        if n.None? then
          lifecycle.Value() == old(lifecycle.Value())
            && err == if old(err).Some? then old(err) else Some(UnsafeIterationNumber)
        else
          var (t, e) := Step(old(lifecycle.Value()), CompleteIteration(n.value, now));
          lifecycle.Value() == t && err == Record(old(err), e)
    {
      var n := PositiveSafeEventInteger(number);
      if n.None? {
        if err.None? { err := Some(UnsafeIterationNumber); }
        return;
      }
      var e := lifecycle.IterationCompleted(n.value, now);
      RecordError(e);
    }

    method OnTaskStart(taskId: string, at: int, now: int)
      requires lifecycle.Valid()
      modifies this, lifecycle, lifecycle.publisher, lifecycle.publisher.sink
      ensures lifecycle.Valid()
      ensures var (t, e) := Step(old(lifecycle.Value()), StartCase(taskId, at, now));
        lifecycle.Value() == t && err == Record(old(err), e)
    {
      var e := lifecycle.CaseStarted(taskId, at, now);
      RecordError(e);
    }

    method OnTaskComplete(taskId: string, result: EvalResult, at: int, now: int)
      requires lifecycle.Valid()
      modifies this, lifecycle, lifecycle.publisher, lifecycle.publisher.sink
      ensures lifecycle.Valid()
      ensures var status := EventCaseStatus(result.status);
        if status.None? then
          lifecycle.Value() == old(lifecycle.Value())
            && err == if old(err).Some? then old(err) else Some(UnsupportedStatus)
        else
          var (t, e) := Step(old(lifecycle.Value()), CompleteCase(taskId, status.value, result.passRate, at, now));
          lifecycle.Value() == t && err == Record(old(err), e)
    {
      var status := EventCaseStatus(result.status);
      if status.None? {
        if err.None? { err := Some(UnsupportedStatus); }
        return;
      }
      var e := lifecycle.CaseCompleted(taskId, status.value, result.passRate, at, now);
      RecordError(e);
    }
  }
}
