/** The converse of safety: every well-formed log whose events fit the sink is
    delivered by some run. Together with LifecycleTheorems.RunIsSafe, the delivered
    logs are exactly the well-formed ones. */
module LifecycleConverse {
  import opened Wrappers
  import opened EvalEvent
  import opened RunGrammar
  import opened JsonlSink
  import opened LifecycleSpec
  import opened LifecycleRuns
  import opened LifecycleTheorems
  import opened RunShape
  import P = Publishing

  /** A clock reading that makes ms milliseconds elapse. */
  function ReadingAt(start: int, ms: nat): int {
    start + ms * NANOSECONDS_PER_MS
  }

  /** The call that announces a payload. */
  function CallFor(r: Run, payload: Payload, now: int): Call
    requires payload.CaseCompleted? ==> payload.task.taskId in r.tasks
    requires payload.IterationCompleted? ==> payload.iteration in r.iterations
  {
    match payload
    case RunStarted(engine, skillName, _, _) => Start(engine, skillName, 0, now)
    case RunProgress(_, phase, _, _, _, _) => if phase == r.phase then Heartbeat(now) else SetPhase(phase, now)
    case IterationStarted(k) => StartIteration(k, now)
    case CaseStarted(f) => StartCase(f.taskId, 0, now)
    case CaseCompleted(f, _, status, passRate, ms) =>
      CompleteCase(f.taskId, status, passRate, ReadingAt(r.tasks[f.taskId].startedAt, ms), now)
    case IterationCompleted(_, k, _, ms) => CompleteIteration(k, ReadingAt(r.iterations[k].startedAt, ms))
    case RunFinished(_, status, _, ms) => Finish(status, now, ReadingAt(r.runStartedAt, ms))
  }

  /** A call boundary: no snapshot is due and Finish has not begun. */
  predicate Settled(v: View) {
    !v.due && v.phase != Finalizing && v.stage != Finished
  }

  /** The payload can be announced by one call made at a boundary. */
  ghost predicate Announceable(plan: Snapshot, v: View, payload: Payload) {
    if payload.RunFinished? then LegalPayload(plan, Refreshed(v, Finalizing), payload)
    else LegalPayload(plan, v, payload) && (payload.RunProgress? ==> payload.phase != Finalizing)
  }

  /** The lifecycle accepts that call, and the call announces exactly the payload. */
  ghost predicate Accepts(r: Run, payload: Payload, now: int) {
    && TasksHaveIterations(r)
    && (payload.CaseCompleted? ==> payload.task.taskId in r.tasks)
    && (payload.IterationCompleted? ==> payload.iteration in r.iterations)
    && Refusal(r, CallFor(r, payload, now)).None?
    && (!payload.RunProgress? ==> Announcement(r, CallFor(r, payload, now)) == payload)
  }

  lemma CallAccepted(plan: Snapshot, r: Run, v: View, payload: Payload, now: int)
    requires Consistent(plan, r, v) && !r.finished && |plan.tasks| == plan.total && TasksHaveIterations(r)
    requires Settled(v) && Announceable(plan, v, payload)
    ensures Accepts(r, payload, now)
  {
    match payload
    case RunStarted(_, _, _, _) => assert r.iterations.Keys == plan.iterations.Keys;
    case IterationStarted(k) => assert IterationAgrees(r, v, k);
    case CaseStarted(f) =>
      assert TaskAgrees(r, v, f.taskId) && IterationAgrees(r, v, plan.tasks[f.taskId].iteration);
      CaseAccepted(plan, r, v, payload, now);
    case CaseCompleted(f, _, _, _, _) =>
      assert TaskAgrees(r, v, f.taskId);
      CaseResultAccepted(plan, r, v, payload, now);
    case IterationCompleted(_, _, _, _) => CompletionAccepted(plan, r, v, payload, now);
    case RunFinished(_, _, _, _) => FinishAccepted(plan, r, v, payload, now);
    case RunProgress(_, _, _, _, _, _) =>
  }

  lemma CaseAccepted(plan: Snapshot, r: Run, v: View, payload: Payload, now: int)
    requires RunAgrees(r, v) && HoldsPlan(plan, r) && TasksHaveIterations(r)
    requires payload.CaseStarted? && LegalPayload(plan, v, payload)
    requires TaskAgrees(r, v, payload.task.taskId)
    requires IterationAgrees(r, v, plan.tasks[payload.task.taskId].iteration)
    ensures Accepts(r, payload, now)
  {
  }

  lemma CaseResultAccepted(plan: Snapshot, r: Run, v: View, payload: Payload, now: int)
    requires RunAgrees(r, v) && r.completed == |v.completed| && HoldsPlan(plan, r) && TasksHaveIterations(r)
    requires payload.CaseCompleted? && LegalPayload(plan, v, payload)
    requires TaskAgrees(r, v, payload.task.taskId)
    ensures Accepts(r, payload, now)
  {
    ElapsedMSRange(r.tasks[payload.task.taskId].startedAt, 0, payload.durationMS);
  }

  lemma CompletionAccepted(plan: Snapshot, r: Run, v: View, payload: Payload, now: int)
    requires Consistent(plan, r, v) && !r.finished && TasksHaveIterations(r)
    requires payload.IterationCompleted? && LegalPayload(plan, v, payload)
    ensures Accepts(r, payload, now)
  {
    var k := payload.iteration;
    assert IterationAgrees(r, v, k) && TallyAgrees(plan, r, v, k);
    assert v.completed * IdsOf(plan, k) == IdsOf(plan, k);
    ElapsedMSRange(r.iterations[k].startedAt, 0, payload.durationMS);
  }

  lemma IterationsCompleted(plan: Snapshot, r: Run, v: View)
    requires Consistent(plan, r, v) && !r.finished && v.iterationsCompleted == plan.iterations.Keys
    ensures forall k :: k in r.iterations ==> r.iterations[k].completed
  {
    forall k | k in r.iterations
      ensures r.iterations[k].completed
    {
      assert IterationAgrees(r, v, k);
    }
  }

  lemma FinishAccepted(plan: Snapshot, r: Run, v: View, payload: Payload, now: int)
    requires Consistent(plan, r, v) && !r.finished && |plan.tasks| == plan.total && TasksHaveIterations(r)
    requires payload.RunFinished? && LegalPayload(plan, Refreshed(v, Finalizing), payload)
    ensures Accepts(r, payload, now)
  {
    ElapsedMSRange(r.runStartedAt, 0, payload.durationMS);
    if payload.runStatus == Completed {
      IterationsCompleted(plan, r, v);
    }
  }

  /** A snapshot of fields that agree with v, taken at the right moment. */
  lemma SnapshotTaken(plan: Snapshot, r: Run, v: View, payload: Payload)
    requires HoldsPlan(plan, r) && Sound(plan, v) && SnapshotAgrees(r, v)
    requires payload.RunProgress? && LegalPayload(plan, v, payload) && payload.phase == r.phase
    ensures ProgressPayload(r, ReadingAt(r.runStartedAt, payload.elapsedMS)) == payload
  {
    ActiveCount(r, v);
    ElapsedMSRange(r.runStartedAt, 0, payload.elapsedMS);
  }

  /** The publisher can still deliver. */
  predicate Healthy(p: P.PublisherState) {
    !p.closed && !p.finalized && p.err.None? && p.sink.hasWriter && !p.sink.closed
  }

  const REFUSING := Attempt(true, false, [])

  /** The first n attempts of the sink are clean. */
  predicate CleanFor(sink: Sink, n: nat) {
    n <= |sink.attempts| && forall i :: 0 <= i < n ==> sink.attempts[i] == CLEAN
  }

  /** A run over the sink has delivered exactly log, and nothing has failed. */
  ghost predicate At(sink: Sink, p: P.PublisherState, log: seq<Event>) {
    match p
    case PublisherState(s, _, _, _, _, delivered) =>
      && Healthy(p) && P.Invariant(p)
      && delivered == log && s.marshal == sink.marshal
      && |log| <= |sink.attempts| && s.attempts == sink.attempts[|log|..]
  }

  /** A clean attempt delivers the event. */
  lemma CleanPublish(sink: Sink, p: P.PublisherState, log: seq<Event>, event: Event)
    requires At(sink, p, log) && CleanFor(sink, |log| + 1)
    requires event.payload.Valid() && event.sequence == |log| + 1 <= MAX_SAFE_INTEGER && Fits(sink.marshal, event)
    ensures var (q, err) := P.PublishEvent(p, event.payload, event.last);
      && err.None? && q.log == log + [event]
      && (!event.last ==> At(sink, q, log + [event]))
  {
    DeliverEffect(p.sink, event);
    P.PublishEventEffect(p, event.payload, event.last);
  }

  /** A refusing one delivers nothing. */
  lemma RefusedPublish(sink: Sink, p: P.PublisherState, log: seq<Event>, payload: Payload, last: bool)
    requires At(sink, p, log) && RefusesAt(sink, |log|)
    ensures var (q, err) := P.PublishEvent(p, payload, last); err.Some? && q.log == log
  {
  }

  predicate RefusesAt(sink: Sink, n: nat) {
    n < |sink.attempts| && sink.attempts[n] == REFUSING
  }

  /** An event, and then a refusal of its snapshot. */
  lemma RefusedRefresh(sink: Sink, p: P.PublisherState, log: seq<Event>, first: Event, r: Run, now: int)
    requires At(sink, p, log) && CleanFor(sink, |log| + 1) && RefusesAt(sink, |log| + 1)
    requires Sendable(sink, first, |log| + 1) && !first.last
    ensures PublishWithProgress(p, r, first.payload, now).0.log == log + [first]
  {
    CleanPublish(sink, p, log, first);
    RefusedPublish(sink, P.PublishEvent(p, first.payload, false).0, log + [first], ProgressPayload(r, now), false);
  }

  /** An event and the snapshot due after it. */
  lemma CleanRefresh(sink: Sink, p: P.PublisherState, log: seq<Event>, first: Event, second: Event, r: Run, now: int)
    requires At(sink, p, log) && CleanFor(sink, |log| + 2)
    requires Sendable(sink, first, |log| + 1) && !first.last
    requires Sendable(sink, second, |log| + 2) && !second.last && ProgressPayload(r, now) == second.payload
    ensures var (q, err) := PublishWithProgress(p, r, first.payload, now);
      err.None? && At(sink, q, log + [first, second])
  {
    CleanPublish(sink, p, log, first);
    CleanPublish(sink, P.PublishEvent(p, first.payload, false).0, log + [first], second);
    assert log + [first] + [second] == log + [first, second];
  }

  /** The final snapshot and the last event. */
  lemma CleanFinish(sink: Sink, p: P.PublisherState, log: seq<Event>, first: Event, second: Event, r: Run, now: int)
    requires At(sink, p, log) && CleanFor(sink, |log| + 2)
    requires Sendable(sink, first, |log| + 1) && !first.last && ProgressPayload(r, now) == first.payload
    requires Sendable(sink, second, |log| + 2) && second.last
    ensures PublishFinish(p, r, second.payload, now).0.log == log + [first, second]
  {
    CleanPublish(sink, p, log, first);
    CleanPublish(sink, P.PublishEvent(p, first.payload, false).0, log + [first], second);
    assert log + [first] + [second] == log + [first, second];
  }

  /** The final snapshot, and then a refusal. */
  lemma RefusedFinish(sink: Sink, p: P.PublisherState, log: seq<Event>, first: Event, second: Payload, r: Run, now: int)
    requires At(sink, p, log) && CleanFor(sink, |log| + 1)
    requires RefusesAt(sink, |log| + 1)
    requires Sendable(sink, first, |log| + 1) && !first.last && ProgressPayload(r, now) == first.payload
    ensures PublishFinish(p, r, second, now).0.log == log + [first]
  {
    CleanPublish(sink, p, log, first);
    RefusedPublish(sink, P.PublishEvent(p, first.payload, false).0, log + [first], second, true);
  }

  predicate NeedsRefresh(payload: Payload) {
    payload.RunStarted? || payload.CaseStarted? || payload.CaseCompleted?
  }

  lemma RefreshTaken(plan: Snapshot, r: Run, v: View, c: Call, second: Payload)
    requires Ready(plan, r, c, v) && (c.Start? || c.StartCase? || c.CompleteCase?)
    requires LegalPayload(plan, v, Announcement(r, c)) && second.RunProgress?
    requires LegalPayload(plan, Apply(v, Announcement(r, c)), second)
    requires c.now == ReadingAt(Mutated(r, c).runStartedAt, second.elapsedMS)
    ensures ProgressPayload(Mutated(r, c), c.now) == second
  {
    MutatedSnapshot(plan, r, c, v);
    ApplySound(plan, v, Announcement(r, c));
    SnapshotTaken(plan, Mutated(r, c), Apply(v, Announcement(r, c)), second);
  }

  /** Some call is accepted, announces first and then takes the snapshot second. */
  lemma RefreshAccepted(plan: Snapshot, r: Run, v: View, first: Payload, second: Payload) returns (c: Call)
    requires Boundary(plan, r, v) && NeedsRefresh(first) && LegalPayload(plan, v, first)
    requires second.RunProgress? && LegalPayload(plan, Apply(v, first), second)
    ensures TasksHaveIterations(r)
    ensures (c.Start? || c.StartCase? || c.CompleteCase?) && Refusal(r, c).None?
    ensures Announcement(r, c) == first && ProgressPayload(Mutated(r, c), c.now) == second
  {
    var now := ReadingAt(if first.RunStarted? then 0 else r.runStartedAt, second.elapsedMS);
    CallAccepted(plan, r, v, first, now);
    c := CallFor(r, first, now);
    RefreshTaken(plan, r, v, c, second);
  }

  lemma MutatedSnapshot(plan: Snapshot, r: Run, c: Call, v: View)
    requires Ready(plan, r, c, v) && (c.Start? || c.StartCase? || c.CompleteCase?)
    ensures HoldsPlan(plan, Mutated(r, c)) && SnapshotAgrees(Mutated(r, c), Apply(v, Announcement(r, c)))
  {
    MutatedHoldsPlan(plan, r, c);
    if c.Start? {
      StartMoves(plan, r, c, v);
    } else if c.StartCase? {
      StartCaseMoves(plan, r, c, v);
    } else {
      CompleteCaseMoves(plan, r, c, v);
    }
  }

  /** A run that has delivered exactly log and is between two calls. */
  ghost predicate Reached(plan: Snapshot, sink: Sink, t: State, v: View, log: seq<Event>) {
    match t
    case State(p, r, _, _) =>
      && Invariant(plan, t, v) && TasksHaveIterations(r) && At(sink, p, log)
  }

  /** Fields that agree with a log at a call boundary. */
  ghost predicate Boundary(plan: Snapshot, r: Run, v: View) {
    match r
    case Run(_, _, _, _, finished, _, _, _, _, _) =>
      && Consistent(plan, r, v) && !finished && |plan.tasks| == plan.total && TasksHaveIterations(r) && Settled(v)
  }

  /** Before the sequence numbers run out the fields agree with the log. */
  lemma ReachedAgrees(plan: Snapshot, sink: Sink, t: State, v: View, log: seq<Event>)
    requires Reached(plan, sink, t, v, log) && |log| < MAX_SAFE_INTEGER && Settled(Observe(log))
    ensures Boundary(plan, t.run, Observe(log)) && At(sink, t.publisher, log)
  {
    assert Publishable(plan, t.publisher) && Tracks(t.publisher, v);
  }

  /** The sink takes the event as the n-th of its log. */
  predicate Sendable(sink: Sink, event: Event, n: nat) {
    match event
    case Event(sequence, _, payload) =>
      payload.Valid() && sequence == n <= MAX_SAFE_INTEGER && Fits(sink.marshal, event)
  }

  /** The event may come n-th, after a log whose view is v. */
  predicate Next(plan: Snapshot, sink: Sink, v: View, n: nat, event: Event) {
    match event
    case Event(_, last, payload) =>
      Sendable(sink, event, n) && LegalPayload(plan, v, payload) && (last <==> payload.RunFinished?)
  }

  lemma TwoEventCall(plan: Snapshot, sink: Sink, t: State, v: View, log: seq<Event>, first: Event, second: Event)
    returns (c: Call)
    requires Boundary(plan, t.run, v) && At(sink, t.publisher, log) && CleanFor(sink, |log| + 2)
    requires Next(plan, sink, v, |log| + 1, first) && NeedsRefresh(first.payload)
    requires Next(plan, sink, Apply(v, first.payload), |log| + 2, second) && second.payload.RunProgress?
    ensures At(sink, Step(t, c).0.publisher, log + [first, second])
  {
    c := RefreshAccepted(plan, t.run, v, first.payload, second.payload);
    CleanRefresh(sink, t.publisher, log, first, second, Mutated(t.run, c), c.now);
  }

  lemma IterationEventCall(plan: Snapshot, sink: Sink, t: State, v: View, log: seq<Event>, event: Event)
    returns (c: Call)
    requires Boundary(plan, t.run, v) && At(sink, t.publisher, log) && CleanFor(sink, |log| + 1)
    requires Next(plan, sink, v, |log| + 1, event)
    requires event.payload.IterationStarted? || event.payload.IterationCompleted?
    ensures At(sink, Step(t, c).0.publisher, log + [event])
  {
    c := IterationAccepted(plan, t.run, v, event.payload);
    IterationStep(t, c);
    CleanPublish(sink, t.publisher, log, event);
  }

  lemma IterationStep(t: State, c: Call)
    requires TasksHaveIterations(t.run) && (c.StartIteration? || c.CompleteIteration?) && Refusal(t.run, c).None?
    ensures Step(t, c).0.publisher == P.PublishEvent(t.publisher, Announcement(t.run, c), false).0
  {
  }

  lemma IterationAccepted(plan: Snapshot, r: Run, v: View, payload: Payload) returns (c: Call)
    requires Boundary(plan, r, v) && LegalPayload(plan, v, payload)
    requires payload.IterationStarted? || payload.IterationCompleted?
    ensures TasksHaveIterations(r)
    ensures (c.StartIteration? || c.CompleteIteration?) && Refusal(r, c).None? && Announcement(r, c) == payload
  {
    CallAccepted(plan, r, v, payload, 0);
    c := CallFor(r, payload, 0);
  }

  lemma ProgressAccepted(plan: Snapshot, r: Run, v: View, payload: Payload) returns (c: Call)
    requires Boundary(plan, r, v) && LegalPayload(plan, v, payload)
    requires payload.RunProgress? && payload.phase != Finalizing
    ensures TasksHaveIterations(r)
    ensures (c.SetPhase? || c.Heartbeat?) && Refusal(r, c).None? && ProgressPayload(Mutated(r, c), c.now) == payload
  {
    var now := ReadingAt(r.runStartedAt, payload.elapsedMS);
    CallAccepted(plan, r, v, payload, now);
    c := CallFor(r, payload, now);
    MutatedHoldsPlan(plan, r, c);
    PhaseMoves(plan, r, c, v);
    SnapshotTaken(plan, Mutated(r, c), v, payload);
  }

  lemma ProgressEventCall(plan: Snapshot, sink: Sink, t: State, v: View, log: seq<Event>, event: Event)
    returns (c: Call)
    requires Boundary(plan, t.run, v) && At(sink, t.publisher, log) && CleanFor(sink, |log| + 1)
    requires Next(plan, sink, v, |log| + 1, event)
    requires event.payload.RunProgress? && event.payload.phase != Finalizing
    ensures At(sink, Step(t, c).0.publisher, log + [event])
  {
    c := ProgressAccepted(plan, t.run, v, event.payload);
    CleanPublish(sink, t.publisher, log, event);
  }

  // Calls whose second publication the sink refuses, and Finish.

  lemma FirstEventCall(plan: Snapshot, sink: Sink, t: State, v: View, log: seq<Event>, first: Event)
    returns (c: Call)
    requires Boundary(plan, t.run, v) && At(sink, t.publisher, log) && CleanFor(sink, |log| + 1)
    requires RefusesAt(sink, |log| + 1)
    requires Next(plan, sink, v, |log| + 1, first) && NeedsRefresh(first.payload)
    ensures Step(t, c).0.publisher.log == log + [first]
  {
    CallAccepted(plan, t.run, v, first.payload, 0);
    c := CallFor(t.run, first.payload, 0);
    RefusedRefresh(sink, t.publisher, log, first, Mutated(t.run, c), c.now);
  }

  lemma FinishTaken(plan: Snapshot, r: Run, v: View, first: Payload, second: Payload) returns (c: Call)
    requires Boundary(plan, r, v)
    requires first.RunProgress? && first.phase == Finalizing && LegalPayload(plan, v, first)
    requires second.RunFinished? && LegalPayload(plan, Refreshed(v, Finalizing), second)
    ensures TasksHaveIterations(r)
    ensures c.Finish? && Refusal(r, c).None? && Announcement(r, c) == second
    ensures ProgressPayload(Mutated(r, c), c.now) == first
  {
    var now := ReadingAt(r.runStartedAt, first.elapsedMS);
    FinishAccepted(plan, r, v, second, now);
    c := CallFor(r, second, now);
    FinishSnapshot(plan, r, v, c, first);
  }

  lemma FinishSnapshot(plan: Snapshot, r: Run, v: View, c: Call, first: Payload)
    requires c.Finish? && TasksHaveIterations(r) && Refusal(r, c).None? && Agrees(r, v)
    requires HoldsPlan(plan, r) && Sound(plan, v)
    requires first.RunProgress? && first.phase == Finalizing && LegalPayload(plan, v, first)
    requires c.now == ReadingAt(r.runStartedAt, first.elapsedMS)
    ensures ProgressPayload(Mutated(r, c), c.now) == first
  {
    FinishMoves(r, c, v);
    MutatedHoldsPlan(plan, r, c);
    SnapshotTaken(plan, Mutated(r, c), v, first);
  }

  lemma FinishEventsCall(plan: Snapshot, sink: Sink, t: State, v: View, log: seq<Event>, first: Event, second: Event)
    returns (c: Call)
    requires Boundary(plan, t.run, v) && At(sink, t.publisher, log) && CleanFor(sink, |log| + 2)
    requires Next(plan, sink, v, |log| + 1, first)
    requires first.payload.RunProgress? && first.payload.phase == Finalizing
    requires Next(plan, sink, Refreshed(v, Finalizing), |log| + 2, second) && second.payload.RunFinished?
    ensures Step(t, c).0.publisher.log == log + [first, second]
  {
    c := FinishTaken(plan, t.run, v, first.payload, second.payload);
    CleanFinish(sink, t.publisher, log, first, second, Mutated(t.run, c), c.now);
  }

  lemma FinishFirstCall(plan: Snapshot, sink: Sink, t: State, v: View, log: seq<Event>, first: Event)
    returns (c: Call)
    requires Boundary(plan, t.run, v) && At(sink, t.publisher, log) && CleanFor(sink, |log| + 1)
    requires RefusesAt(sink, |log| + 1)
    requires Next(plan, sink, v, |log| + 1, first)
    requires first.payload.RunProgress? && first.payload.phase == Finalizing
    ensures Step(t, c).0.publisher.log == log + [first]
  {
    var second := RunFinished(v.counts, Errored, |v.completed|, 0);
    c := FinishTaken(plan, t.run, v, first.payload, second);
    RefusedFinish(sink, t.publisher, log, first, second, Mutated(t.run, c), c.now);
  }

  // The induction over the log, one call at a time.

  /** A log that the sink can hold. */
  ghost predicate Deliverable(plan: Snapshot, sink: Sink, log: seq<Event>) {
    WellFormed(plan, log) && forall i :: 0 <= i < |log| ==> Fits(sink.marshal, log[i])
  }

  lemma NextOf(plan: Snapshot, sink: Sink, log: seq<Event>, n: nat)
    requires Deliverable(plan, sink, log) && n < |log| && ValidSnapshot(plan)
    ensures Next(plan, sink, Observe(log[..n]), n + 1, log[n])
    ensures Observe(log[..n + 1]) == Apply(Observe(log[..n]), log[n].payload)
  {
    PrefixLegal(plan, log, n);
    ObservedSound(plan, log[..n]);
    LegalStep(plan, Observe(log[..n]), log[n].payload);
    assert log[..n] + [log[n]] == log[..n + 1];
    Extend(plan, log[..n], log[n]);
  }

  /** Where a log stands, from its last event. */
  predicate Stands(v: View, payload: Payload, w: View) {
    && (NeedsRefresh(payload) <==> w.due)
    && (NeedsRefresh(payload) || payload.IterationStarted? || payload.IterationCompleted? ==> Settled(v))
    && (payload.RunProgress? && !v.due ==> Settled(v))
    && (payload.RunProgress? && v.due ==> payload.phase != Finalizing)
    && (payload.RunFinished? ==> v.phase == Finalizing && v.stage != Finished)
    && (w.stage == Finished <==> payload.RunFinished?)
    && (w.phase == Finalizing && !payload.RunFinished? ==> payload.RunProgress? && payload.phase == Finalizing)
  }

  /** No snapshot is due once the final one has been taken. */
  lemma {:induction false} FinalizingIsNotDue(plan: Snapshot, log: seq<Event>)
    requires WellFormed(plan, log)
    ensures Observe(log).phase == Finalizing ==> !Observe(log).due
    ensures Observe(log).stage == NotStarted ==> log == []
  {
    if log != [] {
      PrefixLegal(plan, log, |log| - 1);
      FinalizingIsNotDue(plan, log[..|log| - 1]);
      StartedByFirst(plan, log);
    }
  }

  lemma LastEvent(plan: Snapshot, v: View, payload: Payload)
    requires LegalPayload(plan, v, payload) && (v.stage == NotStarted ==> v == NOTHING)
    requires v.phase == Finalizing ==> !v.due
    ensures Stands(v, payload, Apply(v, payload))
  {
  }

  lemma ExecuteMore(s: State, calls: seq<Call>, c: Call)
    requires TasksHaveIterations(s.run)
    ensures Execute(s, calls + [c]) == Step(Execute(s, calls), c).0
  {
    assert (calls + [c])[..|calls|] == calls;
  }

  lemma StandsAt(plan: Snapshot, log: seq<Event>, n: nat)
    requires WellFormed(plan, log) && n < |log|
    ensures Stands(Observe(log[..n]), log[n].payload, Observe(log[..n + 1]))
  {
    PrefixLegal(plan, log, n);
    FinalizingIsNotDue(plan, log[..n]);
    LastEvent(plan, Observe(log[..n]), log[n].payload);
    assert log[..n] + [log[n]] == log[..n + 1];
    Extend(plan, log[..n], log[n]);
  }

  predicate AnnouncedAlone(payload: Payload) {
    payload.IterationStarted? || payload.IterationCompleted? || (payload.RunProgress? && payload.phase != Finalizing)
  }

  /** Some calls lead from s to a state that has delivered exactly log. */
  ghost predicate Attains(plan: Snapshot, sink: Sink, s: State, log: seq<Event>)
    requires TasksHaveIterations(s.run)
  {
    exists calls: seq<Call>, v: View :: Reached(plan, sink, Execute(s, calls), v, log)
  }

  lemma Further(plan: Snapshot, sink: Sink, s: State, calls: seq<Call>, v: View, c: Call, log: seq<Event>,
                more: seq<Event>)
    requires TasksHaveIterations(s.run)
    requires Reached(plan, sink, Execute(s, calls), v, log)
    requires At(sink, Step(Execute(s, calls), c).0.publisher, more)
    ensures Attains(plan, sink, s, more)
  {
    var t := Execute(s, calls);
    ExecuteMore(s, calls, c);
    ReachedNext(plan, sink, t, v, c, log, more);
    Attained(plan, sink, s, calls + [c], ViewAfter(t, c, v), more);
  }

  lemma Attained(plan: Snapshot, sink: Sink, s: State, calls: seq<Call>, v: View, log: seq<Event>)
    requires TasksHaveIterations(s.run) && Reached(plan, sink, Execute(s, calls), v, log)
    ensures Attains(plan, sink, s, log)
  {
  }

  lemma ReachedNext(plan: Snapshot, sink: Sink, t: State, v: View, c: Call, log: seq<Event>, more: seq<Event>)
    requires Reached(plan, sink, t, v, log) && TasksHaveIterations(t.run)
    requires At(sink, Step(t, c).0.publisher, more)
    ensures Reached(plan, sink, Step(t, c).0, ViewAfter(t, c, v), more)
  {
    StepKeeps(plan, t, c, v);
  }

  /** One call delivers the next event, when no snapshot is due after it. */
  lemma CleanBefore(sink: Sink, n: nat, m: nat)
    requires CleanFor(sink, n) && m <= n
    ensures CleanFor(sink, m)
  {
  }

  lemma OneFurther(plan: Snapshot, sink: Sink, s: State, log: seq<Event>, event: Event, n: nat)
    requires TasksHaveIterations(s.run) && CleanFor(sink, n) && |log| < n
    requires Attains(plan, sink, s, log) && Settled(Observe(log))
    requires Next(plan, sink, Observe(log), |log| + 1, event) && AnnouncedAlone(event.payload)
    ensures Attains(plan, sink, s, log + [event])
  {
    CleanBefore(sink, n, |log| + 1);
    var calls, v :| Reached(plan, sink, Execute(s, calls), v, log);
    var t := Execute(s, calls);
    ReachedAgrees(plan, sink, t, v, log);
    var c;
    if event.payload.RunProgress? {
      c := ProgressEventCall(plan, sink, t, Observe(log), log, event);
    } else {
      c := IterationEventCall(plan, sink, t, Observe(log), log, event);
    }
    Further(plan, sink, s, calls, v, c, log, log + [event]);
  }

  /** One call delivers an event and the snapshot due after it. */
  lemma TwoFurther(plan: Snapshot, sink: Sink, s: State, log: seq<Event>, first: Event, second: Event, n: nat)
    requires TasksHaveIterations(s.run) && CleanFor(sink, n) && |log| + 1 < n
    requires Attains(plan, sink, s, log) && Settled(Observe(log))
    requires Next(plan, sink, Observe(log), |log| + 1, first) && NeedsRefresh(first.payload)
    requires Next(plan, sink, Apply(Observe(log), first.payload), |log| + 2, second) && second.payload.RunProgress?
    ensures Attains(plan, sink, s, log + [first, second])
  {
    CleanBefore(sink, n, |log| + 2);
    var calls, v :| Reached(plan, sink, Execute(s, calls), v, log);
    var t := Execute(s, calls);
    ReachedAgrees(plan, sink, t, v, log);
    var c := TwoEventCall(plan, sink, t, Observe(log), log, first, second);
    Further(plan, sink, s, calls, v, c, log, log + [first, second]);
  }

  /** One call delivers the events from m up to n. */
  predicate OneCall(log: seq<Event>, m: nat, n: nat)
    requires m < n <= |log|
  {
    && Settled(Observe(log[..m]))
    && (if m == n - 1 then AnnouncedAlone(log[m].payload)
        else m == n - 2 && NeedsRefresh(log[m].payload) && log[m + 1].payload.RunProgress?)
  }

  /** Before a call boundary there is another, one or two events back. */
  lemma EarlierBoundary(plan: Snapshot, log: seq<Event>, n: nat) returns (m: nat)
    requires WellFormed(plan, log) && 0 < n <= |log| && Settled(Observe(log[..n]))
    ensures m < n && OneCall(log, m, n)
  {
    StandsAt(plan, log, n - 1);
    m := n - 1;
    if log[m].payload.RunProgress? && Observe(log[..m]).due {
      m := n - 2;
      StandsAt(plan, log, m);
    }
  }

  lemma Ends<T>(s: seq<T>)
    ensures s[..0] == [] && s[..|s|] == s
  {
  }

  lemma Slices<T>(s: seq<T>, n: nat)
    requires 0 < n <= |s|
    ensures s[..n - 1] + [s[n - 1]] == s[..n]
    ensures n > 1 ==> s[..n - 2] + [s[n - 2], s[n - 1]] == s[..n]
  {
  }

  lemma OneStep(plan: Snapshot, sink: Sink, s: State, log: seq<Event>, m: nat, n: nat)
    requires TasksHaveIterations(s.run) && CleanFor(sink, |log|)
    requires ValidSnapshot(plan) && Deliverable(plan, sink, log)
    requires m < n <= |log| && OneCall(log, m, n) && Attains(plan, sink, s, log[..m])
    ensures Attains(plan, sink, s, log[..n])
  {
    NextOf(plan, sink, log, m);
    Slices(log, n);
    if m == n - 1 {
      OneFurther(plan, sink, s, log[..m], log[m], |log|);
    } else {
      NextOf(plan, sink, log, m + 1);
      TwoFurther(plan, sink, s, log[..m], log[m], log[m + 1], |log|);
    }
  }

  /** Every call boundary of a deliverable log is reached by some run. */
  lemma {:induction false} BoundaryReached(plan: Snapshot, sink: Sink, s: State, log: seq<Event>, n: nat)
    requires TasksHaveIterations(s.run) && Attains(plan, sink, s, log[..0])
    requires ValidSnapshot(plan) && Deliverable(plan, sink, log) && CleanFor(sink, |log|)
    requires n <= |log| && Settled(Observe(log[..n]))
    ensures Attains(plan, sink, s, log[..n])
    decreases n
  {
    if n > 0 {
      var m := EarlierBoundary(plan, log, n);
      BoundaryReached(plan, sink, s, log, m);
      OneStep(plan, sink, s, log, m, n);
    }
  }

  lemma NothingSent(sink: Sink)
    requires sink.out == "" && !sink.closed && sink.hasWriter
    ensures At(sink, P.NewPublisher(sink), [])
  {
    P.NewPublisherInvariant(sink);
    assert sink.attempts[0..] == sink.attempts;
  }

  lemma NothingReached(plan: Snapshot, sink: Sink, s: State)
    requires Invariant(plan, s, NOTHING) && At(sink, s.publisher, [])
    ensures TasksHaveIterations(s.run) && Reached(plan, sink, s, NOTHING, [])
  {
    InvariantIterations(plan, s, NOTHING);
  }

  // Logs that end inside a call: the sink refuses the call's next event.

  /** The call boundary before the end of the log is after n events. */
  predicate EndsPast(log: seq<Event>, n: nat)
    requires n <= |log|
  {
    && Settled(Observe(log[..n]))
    && |log| <= n + 2
    && (|log| == n + 1 ==> OpensPair(log[n].payload))
    && (|log| == n + 2 ==> FinalSnapshot(log[n].payload) && log[n + 1].payload.RunFinished?)
  }

  predicate OpensPair(payload: Payload) {
    NeedsRefresh(payload) || FinalSnapshot(payload)
  }

  predicate FinalSnapshot(payload: Payload) {
    payload.RunProgress? && payload.phase == Finalizing
  }

  lemma LastBoundary(plan: Snapshot, log: seq<Event>) returns (n: nat)
    requires WellFormed(plan, log)
    ensures n <= |log| && EndsPast(log, n)
  {
    n := |log|;
    Ends(log);
    if !Settled(Observe(log)) {
      n := n - 1;
      StandsAt(plan, log, n);
      if log[n].payload.RunFinished? {
        n := n - 1;
        StandsAt(plan, log, n);
      }
    }
  }

  /** Some calls lead from s to a state whose delivered log is this one. */
  ghost predicate Delivers(s: State, log: seq<Event>)
    requires TasksHaveIterations(s.run)
  {
    exists calls: seq<Call> {:trigger Execute(s, calls)} :: Execute(s, calls).publisher.log == log
  }

  lemma OneMoreCall(s: State, calls: seq<Call>, c: Call, log: seq<Event>)
    requires TasksHaveIterations(s.run) && Step(Execute(s, calls), c).0.publisher.log == log
    ensures Delivers(s, log)
  {
    ExecuteMore(s, calls, c);
  }

  lemma FirstDelivered(plan: Snapshot, sink: Sink, s: State, log: seq<Event>, first: Event, n: nat)
    requires TasksHaveIterations(s.run) && CleanFor(sink, n) && RefusesAt(sink, n) && n == |log| + 1
    requires Attains(plan, sink, s, log) && Settled(Observe(log))
    requires Next(plan, sink, Observe(log), |log| + 1, first)
    requires OpensPair(first.payload)
    ensures Delivers(s, log + [first])
  {
    var calls, v :| Reached(plan, sink, Execute(s, calls), v, log);
    var t := Execute(s, calls);
    ReachedAgrees(plan, sink, t, v, log);
    var c;
    if FinalSnapshot(first.payload) {
      c := FinishFirstCall(plan, sink, t, Observe(log), log, first);
    } else {
      c := FirstEventCall(plan, sink, t, Observe(log), log, first);
    }
    OneMoreCall(s, calls, c, log + [first]);
  }

  lemma FinishDelivered(plan: Snapshot, sink: Sink, s: State, log: seq<Event>, first: Event, second: Event)
    requires TasksHaveIterations(s.run) && CleanFor(sink, |log| + 2)
    requires Attains(plan, sink, s, log) && Settled(Observe(log))
    requires Next(plan, sink, Observe(log), |log| + 1, first) && FinalSnapshot(first.payload)
    requires Next(plan, sink, Apply(Observe(log), first.payload), |log| + 2, second) && second.payload.RunFinished?
    ensures Delivers(s, log + [first, second])
  {
    var calls, v :| Reached(plan, sink, Execute(s, calls), v, log);
    var t := Execute(s, calls);
    ReachedAgrees(plan, sink, t, v, log);
    var c := FinishEventsCall(plan, sink, t, Observe(log), log, first, second);
    OneMoreCall(s, calls, c, log + [first, second]);
  }

  lemma OneDelivered(plan: Snapshot, sink: Sink, s: State, log: seq<Event>)
    requires TasksHaveIterations(s.run)
    requires ValidSnapshot(plan) && Deliverable(plan, sink, log) && CleanFor(sink, |log|) && RefusesAt(sink, |log|)
    requires |log| > 0 && EndsPast(log, |log| - 1) && Attains(plan, sink, s, log[..|log| - 1])
    ensures Delivers(s, log)
  {
    var n := |log| - 1;
    Ends(log);
    Slices(log, |log|);
    NextOf(plan, sink, log, n);
    FirstDelivered(plan, sink, s, log[..n], log[n], |log|);
  }

  lemma TwoDelivered(plan: Snapshot, sink: Sink, s: State, log: seq<Event>)
    requires TasksHaveIterations(s.run)
    requires ValidSnapshot(plan) && Deliverable(plan, sink, log) && CleanFor(sink, |log|)
    requires |log| > 1 && EndsPast(log, |log| - 2) && Attains(plan, sink, s, log[..|log| - 2])
    ensures Delivers(s, log)
  {
    var n := |log| - 2;
    Ends(log);
    Slices(log, |log|);
    NextOf(plan, sink, log, n);
    NextOf(plan, sink, log, n + 1);
    FinishDelivered(plan, sink, s, log[..n], log[n], log[n + 1]);
  }

  lemma RestDelivered(plan: Snapshot, sink: Sink, s: State, log: seq<Event>, n: nat)
    requires TasksHaveIterations(s.run)
    requires ValidSnapshot(plan) && Deliverable(plan, sink, log) && CleanFor(sink, |log|) && RefusesAt(sink, |log|)
    requires n <= |log| && EndsPast(log, n) && Attains(plan, sink, s, log[..n])
    ensures Delivers(s, log)
  {
    if n == |log| {
      Ends(log);
    } else if n == |log| - 1 {
      OneDelivered(plan, sink, s, log);
    } else {
      TwoDelivered(plan, sink, s, log);
    }
  }

  /** Some run over some sink with this encoding delivers exactly this log. */
  ghost predicate IsDelivered(plan: Snapshot, marshal: Event -> Option<string>, log: seq<Event>) {
    exists sink: Sink ::
      && Fresh(plan, sink) && sink.marshal == marshal
      && TasksHaveIterations(Initial(plan, sink).run) && Delivers(Initial(plan, sink), log)
  }

  lemma StartReached(plan: Snapshot, sink: Sink)
    requires Fresh(plan, sink) && sink.hasWriter
    ensures TasksHaveIterations(Initial(plan, sink).run) && Attains(plan, sink, Initial(plan, sink), [])
  {
    var s := Initial(plan, sink);
    InitialHolds(plan, sink);
    NothingSent(sink);
    NothingReached(plan, sink, s);
    NoCalls(plan, sink, s);
  }

  lemma NoCalls(plan: Snapshot, sink: Sink, s: State)
    requires TasksHaveIterations(s.run) && Reached(plan, sink, s, NOTHING, [])
    ensures Attains(plan, sink, s, [])
  {
    assert Reached(plan, sink, Execute(s, []), NOTHING, []);
  }

  lemma ScriptReached(plan: Snapshot, sink: Sink, s: State, log: seq<Event>)
    requires TasksHaveIterations(s.run) && Attains(plan, sink, s, log[..0])
    requires ValidSnapshot(plan) && Deliverable(plan, sink, log) && CleanFor(sink, |log|) && RefusesAt(sink, |log|)
    ensures Delivers(s, log)
  {
    var n := LastBoundary(plan, log);
    BoundaryReached(plan, sink, s, log, n);
    RestDelivered(plan, sink, s, log, n);
  }

  /** A sink that takes the events of the log and refuses the next. */
  lemma ScriptedSink(plan: Snapshot, marshal: Event -> Option<string>, log: seq<Event>) returns (sink: Sink)
    requires Keyed(plan) && ListsEveryTaskOnce(plan) && ValidSnapshot(plan)
    requires WellFormed(plan, log) && forall i :: 0 <= i < |log| ==> Fits(marshal, log[i])
    ensures Fresh(plan, sink) && Deliverable(plan, sink, log) && CleanFor(sink, |log|) && RefusesAt(sink, |log|)
    ensures sink.hasWriter && sink.marshal == marshal
  {
    var attempts := seq(|log|, i => CLEAN) + [REFUSING];
    sink := Sink(marshal, true, false, "", attempts, false, None);
  }

  lemma WellFormedIsDelivered(plan: Snapshot, marshal: Event -> Option<string>, log: seq<Event>)
    requires Keyed(plan) && ListsEveryTaskOnce(plan) && ValidSnapshot(plan)
    requires WellFormed(plan, log) && forall i :: 0 <= i < |log| ==> Fits(marshal, log[i])
    ensures IsDelivered(plan, marshal, log)
  {
    var sink := ScriptedSink(plan, marshal, log);
    StartReached(plan, sink);
    Ends(log);
    ScriptReached(plan, sink, Initial(plan, sink), log);
  }

  lemma PublishKeepsMarshal(p: P.PublisherState, payload: Payload, last: bool)
    ensures P.PublishEvent(p, payload, last).0.sink.marshal == p.sink.marshal
  {
  }

  lemma StepKeepsMarshal(s: State, c: Call)
    requires TasksHaveIterations(s.run)
    ensures Step(s, c).0.publisher.sink.marshal == s.publisher.sink.marshal
  {
    forall p: P.PublisherState, payload: Payload, last: bool
      ensures P.PublishEvent(p, payload, last).0.sink.marshal == p.sink.marshal
    {
      PublishKeepsMarshal(p, payload, last);
    }
  }

  lemma {:induction false} RunKeepsMarshal(s: State, calls: seq<Call>)
    requires TasksHaveIterations(s.run)
    ensures Execute(s, calls).publisher.sink.marshal == s.publisher.sink.marshal
  {
    if calls != [] {
      RunKeepsMarshal(s, calls[..|calls| - 1]);
      StepKeepsMarshal(Execute(s, calls[..|calls| - 1]), calls[|calls| - 1]);
    }
  }

  lemma DeliveredIsWellFormed(plan: Snapshot, sink: Sink, log: seq<Event>)
    requires Fresh(plan, sink) && TasksHaveIterations(Initial(plan, sink).run)
    requires Delivers(Initial(plan, sink), log)
    ensures WellFormed(plan, log) && forall i :: 0 <= i < |log| ==> Fits(sink.marshal, log[i])
  {
    var calls: seq<Call> :| Execute(Initial(plan, sink), calls).publisher.log == log;
    var v := RunHolds(plan, sink, calls);
    RunKeepsMarshal(Initial(plan, sink), calls);
    assert Publishable(plan, Execute(Initial(plan, sink), calls).publisher);
  }

  /** The delivered logs are exactly the well-formed ones whose events fit the sink. */
  lemma DeliveredExactly(plan: Snapshot, marshal: Event -> Option<string>, log: seq<Event>)
    requires Keyed(plan) && ListsEveryTaskOnce(plan) && ValidSnapshot(plan)
    ensures IsDelivered(plan, marshal, log)
            <==> WellFormed(plan, log) && forall i :: 0 <= i < |log| ==> Fits(marshal, log[i])
  {
    if IsDelivered(plan, marshal, log) {
      var sink: Sink :|
        && Fresh(plan, sink) && sink.marshal == marshal
        && TasksHaveIterations(Initial(plan, sink).run) && Delivers(Initial(plan, sink), log);
      DeliveredIsWellFormed(plan, sink, log);
    }
    if WellFormed(plan, log) && forall i :: 0 <= i < |log| ==> Fits(marshal, log[i]) {
      WellFormedIsDelivered(plan, marshal, log);
    }
  }
}
