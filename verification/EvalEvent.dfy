/** internal/evalevent/event.go: the payloads of the evaluation event protocol
    and what each of them must satisfy before it is published. */
module EvalEvent {
  import opened GoText

  /** The largest integer that JavaScript represents exactly, 2^53 - 1. */
  const MAX_SAFE_INTEGER: nat := 9007199254740991

  // The source's enumerations are string types, so a caller can pass a value
  // outside each of them; the last constructor stands for all such values.
  datatype Configuration = WithSkill | WithoutSkill | OtherConfiguration
  datatype CaseStatus = Pass | Fail | Error | Skip | OtherCaseStatus
  datatype RunStatus = Completed | Errored | Cancelled | OtherRunStatus
  datatype RunPhase = Preparing | Executing | Finalizing | OtherPhase

  /** A pass rate: absent (a nil pointer) or a float64. */
  datatype PassRate = NoRate | NaN | PositiveInfinity | NegativeInfinity | Rate(value: real)

  datatype ResultCounts = ResultCounts(passed: nat, failed: nat, errored: nat, skipped: nat) {
    function Total(): nat {
      passed + failed + errored + skipped
    }

    /** addStatus. */
    function Add(status: CaseStatus): ResultCounts {
      match status
      case Pass => this.(passed := passed + 1)
      case Fail => this.(failed := failed + 1)
      case Error => this.(errored := errored + 1)
      case Skip => this.(skipped := skipped + 1)
      case OtherCaseStatus => this
    }

    predicate Valid() {
      && SafeInteger(passed) && SafeInteger(failed) && SafeInteger(errored) && SafeInteger(skipped)
      && passed <= MAX_SAFE_INTEGER - failed
      && passed + failed <= MAX_SAFE_INTEGER - errored
      && passed + failed + errored <= MAX_SAFE_INTEGER - skipped
    }
  }

  const NO_RESULTS := ResultCounts(0, 0, 0, 0)

  datatype TaskFields = TaskFields(
    taskId: string, iteration: nat, caseId: string, configuration: Configuration,
    taskIndex: nat, taskTotal: nat, title: string)
  {
    predicate Valid() {
      && NonEmptyString(taskId)
      && PositiveInteger(iteration)
      && NonEmptyString(caseId)
      && ValidConfiguration(configuration)
      && PositiveInteger(taskTotal)
      && PositiveInteger(taskIndex)
      && taskIndex <= taskTotal
      && ValidUtf8(title)
    }
  }

  datatype Payload =
    | RunStarted(engine: string, skillName: string, taskTotal: nat, iterationsTotal: nat)
    | RunProgress(counts: ResultCounts, phase: RunPhase, taskTotal: nat, completedTasks: nat,
                  runningTasks: nat, elapsedMS: nat)
    | IterationStarted(iteration: nat)
    | CaseStarted(task: TaskFields)
    | CaseCompleted(task: TaskFields, completedTasks: nat, status: CaseStatus, passRate: PassRate,
                    durationMS: nat)
    | IterationCompleted(counts: ResultCounts, iteration: nat, invocationCompletedTasks: nat, durationMS: nat)
    | RunFinished(counts: ResultCounts, runStatus: RunStatus, completedTasks: nat, durationMS: nat)
  {
    /** Payload.validate, with the checks in the source's order. */
    predicate Valid() {
      match this
      case RunStarted(engine, skillName, taskTotal, iterationsTotal) =>
        NonEmptyString(engine) && NonEmptyString(skillName)
        && PositiveInteger(taskTotal) && PositiveInteger(iterationsTotal)
      case RunProgress(counts, phase, taskTotal, completedTasks, runningTasks, elapsedMS) =>
        && ValidPhase(phase)
        && PositiveInteger(taskTotal)
        && SafeInteger(completedTasks) && SafeInteger(runningTasks) && SafeInteger(elapsedMS)
        && counts.Valid()
        && completedTasks == counts.Total()
        && completedTasks <= taskTotal && runningTasks <= taskTotal - completedTasks
      case IterationStarted(iteration) => PositiveInteger(iteration)
      case CaseStarted(task) => task.Valid()
      case CaseCompleted(task, completedTasks, status, passRate, durationMS) =>
        && task.Valid()
        && SafeInteger(completedTasks) && completedTasks <= task.taskTotal
        && ValidCaseStatus(status) && ValidPassRate(passRate) && SafeInteger(durationMS)
      case IterationCompleted(counts, iteration, invocationCompletedTasks, durationMS) =>
        && PositiveInteger(iteration) && SafeInteger(invocationCompletedTasks)
        && counts.Valid() && SafeInteger(durationMS)
      case RunFinished(counts, status, completedTasks, durationMS) =>
        && ValidRunStatus(status) && SafeInteger(completedTasks)
        && counts.Valid() && completedTasks == counts.Total() && SafeInteger(durationMS)
    }
  }

  /** One enveloped event: its sequence number, its last_event flag, its payload. */
  datatype Event = Event(sequence: nat, last: bool, payload: Payload)

  predicate SafeInteger(n: nat) { n <= MAX_SAFE_INTEGER }
  predicate PositiveInteger(n: nat) { n != 0 && SafeInteger(n) }
  predicate NonEmptyString(s: string) { s != "" && ValidUtf8(s) }
  predicate ValidConfiguration(c: Configuration) { c != OtherConfiguration }
  predicate ValidCaseStatus(s: CaseStatus) { s != OtherCaseStatus }
  predicate ValidRunStatus(s: RunStatus) { s != OtherRunStatus }
  predicate ValidPhase(p: RunPhase) { p != OtherPhase }

  predicate ValidPassRate(rate: PassRate) {
    match rate
    case NoRate => true
    case Rate(v) => 0.0 <= v <= 1.0
    case _ => false
  }

  /** phaseRank. */
  function PhaseRank(phase: RunPhase): nat {
    match phase
    case Preparing => 1
    case Executing => 2
    case Finalizing => 3
    case OtherPhase => 0
  }

  const MIN_DURATION: int := -0x8000_0000_0000_0000
  const MAX_DURATION: int := 0x7FFF_FFFF_FFFF_FFFF
  const NANOSECONDS_PER_MS: int := 1_000_000

  /** end.Sub(start): nanoseconds in an int64, saturating at both ends. */
  function Sub(end: int, start: int): int {
    if end - start < MIN_DURATION then MIN_DURATION
    else if end - start > MAX_DURATION then MAX_DURATION
    else end - start
  }

  /** The largest whole number of milliseconds in a duration. */
  const MAX_ELAPSED_MS: nat := MAX_DURATION / NANOSECONDS_PER_MS

  /** elapsedMS. */
  function ElapsedMS(start: int, end: int): nat {
    if Sub(end, start) <= 0 then 0 else Sub(end, start) / NANOSECONDS_PER_MS
  }

  /** Every pair of clock readings gives a safe integer, and every value up to
      the bound is given by some reading. */
  lemma ElapsedMSRange(start: int, end: int, ms: nat)
    ensures ElapsedMS(start, end) <= MAX_ELAPSED_MS < MAX_SAFE_INTEGER
    ensures ms <= MAX_ELAPSED_MS ==> ElapsedMS(start, start + ms * NANOSECONDS_PER_MS) == ms
  {
  }
}
