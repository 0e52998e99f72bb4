/** Safety of the event log over every run: any calls, in any order, with any
    arguments, clock readings and sink failures. */
module LifecycleTheorems {
  import opened Wrappers
  import opened EvalEvent
  import opened RunGrammar
  import opened LifecycleSpec
  import opened LifecycleRuns
  import opened JsonlSink
  import P = Publishing

  ghost predicate Publishable(plan: Snapshot, p: P.PublisherState) {
    match p
    case PublisherState(_, _, _, _, _, log) =>
      ValidSnapshot(plan) && P.Invariant(p) && WellFormed(plan, log)
  }

  /** v is the view of the run. Until publication is blocked it is the view of the
      delivered log too, so that the fields agree with what was delivered. */
  ghost predicate Tracks(p: P.PublisherState, v: View) {
    match p
    case PublisherState(_, _, _, _, _, log) => P.Blocked(p) || v == Observe(log)
  }

  /** What one or two publications leave. */
  ghost predicate Published(plan: Snapshot, p: P.PublisherState, q: P.PublisherState,
                            err: Option<P.PublishError>, w: View)
  {
    match q
    case PublisherState(_, _, _, _, _, log) =>
      && Publishable(plan, q) && Tracks(q, w)
      && |p.log| <= |log|
      && (P.Blocked(p) || err.Some? ==> P.Blocked(q))
      && err != Some(P.InvalidPayload)
  }

  /** A payload that is legal after v is valid, and v stays sound after it. */
  lemma LegalStep(plan: Snapshot, v: View, payload: Payload)
    requires ValidSnapshot(plan) && Sound(plan, v) && LegalPayload(plan, v, payload)
    ensures payload.Valid() && Sound(plan, Apply(v, payload))
  {
    LegalIsValid(plan, v, payload);
    ApplySound(plan, v, payload);
  }

  /** Publishing a payload that is legal after v: it is delivered and the log stays
      well formed, or publication is blocked for good. */
  lemma PublishLegal(plan: Snapshot, p: P.PublisherState, payload: Payload, last: bool, v: View)
    requires Publishable(plan, p) && Tracks(p, v)
    requires Sound(plan, v) && LegalPayload(plan, v, payload) && last == payload.RunFinished?
    ensures var (q, err) := P.PublishEvent(p, payload, last);
      && Published(plan, p, q, err, Apply(v, payload))
      && (err.None? ==> |q.log| == |p.log| + 1)
      && (last ==> P.Blocked(q))
    ensures Sound(plan, Apply(v, payload))
  {
    LegalStep(plan, v, payload);
    P.PublishEventEffect(p, payload, last);
    if !P.Blocked(p) {
      Extend(plan, p.log, Event(|p.log| + 1, last, payload));
    }
  }

  lemma ProgressPublished(plan: Snapshot, p: P.PublisherState, r: Run, v: View, now: int)
    requires Publishable(plan, p) && Tracks(p, v)
    requires Sound(plan, v) && HoldsPlan(plan, r)
    requires SnapshotAgrees(r, v) && v.stage == Running && NextPhase(v, r.phase)
    ensures var (q, err) := PublishProgress(p, r, now);
      && Published(plan, p, q, err, Refreshed(v, r.phase))
      && (err.None? ==> |q.log| == |p.log| + 1)
    ensures Sound(plan, Refreshed(v, r.phase))
  {
    ProgressLegal(plan, r, v, now);
    PublishLegal(plan, p, ProgressPayload(r, now), false, v);
  }

  /** An event and the snapshot that refreshes it. */
  lemma RefreshPublished(plan: Snapshot, p: P.PublisherState, r: Run, payload: Payload, v: View, now: int)
    requires Publishable(plan, p) && Tracks(p, v)
    requires Sound(plan, v) && LegalPayload(plan, v, payload) && !payload.RunFinished?
    requires HoldsPlan(plan, r)
    requires var w := Apply(v, payload); SnapshotAgrees(r, w) && w.stage == Running && NextPhase(w, r.phase)
    ensures var (q, err) := PublishWithProgress(p, r, payload, now);
      && Published(plan, p, q, err, Refreshed(Apply(v, payload), r.phase))
      && (err.None? ==> |q.log| == |p.log| + 2)
    ensures Sound(plan, Refreshed(Apply(v, payload), r.phase))
  {
    PublishLegal(plan, p, payload, false, v);
    ProgressPublished(plan, P.PublishEvent(p, payload, false).0, r, Apply(v, payload), now);
  }

  /** The last snapshot and run_finished. */
  lemma FinishPublished(plan: Snapshot, p: P.PublisherState, r: Run, payload: Payload, v: View, now: int)
    requires Publishable(plan, p) && Tracks(p, v)
    requires Sound(plan, v) && HoldsPlan(plan, r) && r.phase == Finalizing
    requires SnapshotAgrees(r, v) && v.stage == Running && NextPhase(v, Finalizing)
    requires payload.RunFinished? && LegalPayload(plan, Refreshed(v, Finalizing), payload)
    ensures var (q, err) := PublishFinish(p, r, payload, now);
      && Published(plan, p, q, err, Apply(Refreshed(v, Finalizing), payload))
      && P.Blocked(q)
    ensures Sound(plan, Apply(Refreshed(v, Finalizing), payload))
  {
    ProgressPublished(plan, p, r, v, now);
    PublishLegal(plan, PublishProgress(p, r, now).0, payload, true, Refreshed(v, Finalizing));
  }

  /** The fields of the run: they hold the plan and agree with v until Finish. */
  ghost predicate Consistent(plan: Snapshot, r: Run, v: View) {
    match plan
    case Snapshot(_, _, _) =>
      && Keyed(plan) && ListsEveryTaskOnce(plan) && HoldsPlan(plan, r) && Sound(plan, v)
      && (if r.finished then r.started else Agrees(r, v) && TalliesAgree(plan, r, v))
  }

  ghost predicate Invariant(plan: Snapshot, s: State, v: View) {
    match s
    case State(p, r, heartbeatStarted, _) =>
      && Consistent(plan, r, v)
      && Publishable(plan, p) && Tracks(p, v)
      && (r.finished ==> P.Blocked(p))
      && (heartbeatStarted ==> |p.log| >= 2)
  }

  lemma FieldsMove(plan: Snapshot, r: Run, c: Call, v: View)
    requires Consistent(plan, r, v) && TasksHaveIterations(r) && Refusal(r, c).None?
    requires !c.Finish? && !r.finished
    ensures HoldsPlan(plan, Mutated(r, c)) && Agrees(Mutated(r, c), NextView(r, c, v))
    ensures TalliesAgree(plan, Mutated(r, c), NextView(r, c, v))
  {
    MutatedHoldsPlan(plan, r, c);
    if c.CompleteCase? { CompletedTallies(plan, r, c, v); } else { OtherTallies(plan, r, c, v); }
    match c
    case Start(_, _, _, _) => StartMoves(plan, r, c, v);
    case SetPhase(_, _) => PhaseMoves(plan, r, c, v);
    case Heartbeat(_) => PhaseMoves(plan, r, c, v);
    case StartIteration(_, _) => StartIterationMoves(plan, r, c, v);
    case StartCase(_, _, _) => StartCaseMoves(plan, r, c, v);
    case CompleteCase(_, _, _, _, _) => CompleteCaseMoves(plan, r, c, v);
    case CompleteIteration(_, _) => CompleteIterationMoves(plan, r, c, v);
    case ClosePublisher =>
  }

  /** Every announcement is legal at the moment it is made. */
  lemma AnnouncementLegal(plan: Snapshot, r: Run, c: Call, v: View)
    requires Consistent(plan, r, v) && TasksHaveIterations(r) && Refusal(r, c).None? && !r.finished
    requires |plan.tasks| == plan.total
    requires !c.SetPhase? && !c.Heartbeat? && !c.ClosePublisher?
    ensures LegalPayload(plan, if c.Finish? then Refreshed(v, Finalizing) else v, Announcement(r, c))
  {
    match c
    case Start(_, _, _, _) => StartMoves(plan, r, c, v);
    case StartIteration(_, _) => StartIterationLegal(plan, r, c, v);
    case StartCase(_, _, _) => StartCaseLegal(plan, r, c, v);
    case CompleteCase(_, _, _, _, _) => CompleteCaseLegal(plan, r, c, v);
    case CompleteIteration(k, _) =>
      AllTasksCompleted(plan, r, v, k);
      CompleteIterationLegal(plan, r, c, v);
    case Finish(_, _, _) => FinishLegal(plan, r, c, v);
  }

  /** The publisher and the fields before a call that is accepted. */
  ghost predicate Accepting(plan: Snapshot, p: P.PublisherState, r: Run, c: Call, v: View) {
    match p
    case PublisherState(_, _, _, _, _, _) =>
      && Consistent(plan, r, v) && Publishable(plan, p) && Tracks(p, v)
      && !r.finished && TasksHaveIterations(r) && Refusal(r, c).None?
  }

  lemma RefreshingCall(plan: Snapshot, p: P.PublisherState, r: Run, c: Call, v: View, now: int)
    requires c.Start? || c.StartCase? || c.CompleteCase?
    requires Accepting(plan, p, r, c, v)
    ensures var (q, err) := PublishWithProgress(p, Mutated(r, c), Announcement(r, c), now);
      && Published(plan, p, q, err, NextView(r, c, v))
      && (err.None? ==> |q.log| >= 2)
    ensures Sound(plan, NextView(r, c, v))
  {
    AnnouncementLegal(plan, r, c, v);
    MutatedHoldsPlan(plan, r, c);
    if c.Start? {
      StartMoves(plan, r, c, v);
    } else if c.StartCase? {
      StartCaseMoves(plan, r, c, v);
    } else {
      CompleteCaseMoves(plan, r, c, v);
    }
    RefreshPublished(plan, p, Mutated(r, c), Announcement(r, c), v, now);
  }

  lemma PhaseCall(plan: Snapshot, p: P.PublisherState, r: Run, c: Call, v: View, now: int)
    requires c.SetPhase? || c.Heartbeat?
    requires Accepting(plan, p, r, c, v)
    ensures var (q, err) := PublishProgress(p, Mutated(r, c), now);
      Published(plan, p, q, err, NextView(r, c, v))
    ensures Sound(plan, NextView(r, c, v))
  {
    MutatedHoldsPlan(plan, r, c);
    PhaseMoves(plan, r, c, v);
    ProgressPublished(plan, p, Mutated(r, c), v, now);
  }

  lemma IterationCall(plan: Snapshot, p: P.PublisherState, r: Run, c: Call, v: View)
    requires c.StartIteration? || c.CompleteIteration?
    requires Accepting(plan, p, r, c, v)
    ensures var (q, err) := P.PublishEvent(p, Announcement(r, c), false);
      Published(plan, p, q, err, NextView(r, c, v))
    ensures Sound(plan, NextView(r, c, v))
  {
    AnnouncementLegal(plan, r, c, v);
    PublishLegal(plan, p, Announcement(r, c), false, v);
  }

  lemma FinishView(r: Run, c: Call, v: View)
    requires c.Finish? && TasksHaveIterations(r) && Refusal(r, c).None?
    ensures Mutated(r, c).phase == Finalizing && Announcement(r, c).RunFinished?
    ensures NextView(r, c, v) == Apply(Refreshed(v, Finalizing), Announcement(r, c))
  {
  }

  lemma FinishFacts(plan: Snapshot, r: Run, c: Call, v: View)
    requires c.Finish? && Consistent(plan, r, v) && TasksHaveIterations(r) && Refusal(r, c).None? && !r.finished
    requires |plan.tasks| == plan.total
    ensures var t := Mutated(r, c);
      && HoldsPlan(plan, t) && t.phase == Finalizing
      && SnapshotAgrees(t, v) && v.stage == Running && NextPhase(v, Finalizing)
    ensures LegalPayload(plan, Refreshed(v, Finalizing), Announcement(r, c)) && Announcement(r, c).RunFinished?
    ensures NextView(r, c, v) == Apply(Refreshed(v, Finalizing), Announcement(r, c))
  {
    AnnouncementLegal(plan, r, c, v);
    MutatedHoldsPlan(plan, r, c);
    FinishMoves(r, c, v);
    FinishView(r, c, v);
  }

  lemma FinishCall(plan: Snapshot, p: P.PublisherState, r: Run, c: Call, v: View, now: int)
    requires c.Finish?
    requires Accepting(plan, p, r, c, v)
    ensures var (q, err) := PublishFinish(p, Mutated(r, c), Announcement(r, c), now);
      Published(plan, p, q, err, NextView(r, c, v)) && P.Blocked(q)
    ensures Sound(plan, NextView(r, c, v))
  {
    FinishFacts(plan, r, c, v);
    FinishPublished(plan, p, Mutated(r, c), Announcement(r, c), v, now);
  }

  /** The view after a call: unchanged by a refused one. */
  function ViewAfter(s: State, c: Call, v: View): View
    requires TasksHaveIterations(s.run)
  {
    if Refusal(s.run, c).Some? then v else NextView(s.run, c, v)
  }

  lemma CallPublishes(plan: Snapshot, p: P.PublisherState, s: State, c: Call, v: View)
    requires p == s.publisher && Accepting(plan, p, s.run, c, v) && !c.ClosePublisher?
    ensures var (q, err) := Publications(s, Mutated(s.run, c), c);
      && Published(plan, p, q, err, NextView(s.run, c, v))
      && (c.Finish? ==> P.Blocked(q))
      && (c.Start? && err.None? ==> |q.log| >= 2)
    ensures Sound(plan, NextView(s.run, c, v))
  {
    match c
    case Start(_, _, _, now) => RefreshingCall(plan, p, s.run, c, v, now);
    case SetPhase(_, now) => PhaseCall(plan, p, s.run, c, v, now);
    case Heartbeat(now) => PhaseCall(plan, p, s.run, c, v, now);
    case StartCase(_, _, now) => RefreshingCall(plan, p, s.run, c, v, now);
    case CompleteCase(_, _, _, _, now) => RefreshingCall(plan, p, s.run, c, v, now);
    case StartIteration(_, _) => IterationCall(plan, p, s.run, c, v);
    case CompleteIteration(_, _) => IterationCall(plan, p, s.run, c, v);
    case Finish(_, now, _) => FinishCall(plan, p, s.run, c, v, now);
  }

  lemma PerformedKeeps(plan: Snapshot, s: State, c: Call, v: View)
    requires Invariant(plan, s, v) && TasksHaveIterations(s.run)
    requires Refusal(s.run, c).None? && !c.ClosePublisher? && !s.run.finished
    ensures Invariant(plan, Step(s, c).0, NextView(s.run, c, v))
    ensures Step(s, c).1 != Some(Publication(P.InvalidPayload))
    ensures |s.publisher.log| <= |Step(s, c).0.publisher.log|
  {
    CallPublishes(plan, s.publisher, s, c, v);
    FieldsConsistent(plan, s.run, c, v);
    var (q, err) := Publications(s, Mutated(s.run, c), c);
    Assemble(plan, s.publisher, Mutated(s.run, c), NextView(s.run, c, v), q, err, Step(s, c).0);
  }

  lemma Assemble(plan: Snapshot, p: P.PublisherState, r: Run, w: View,
                 q: P.PublisherState, err: Option<P.PublishError>, t: State)
    requires Published(plan, p, q, err, w) && Consistent(plan, r, w) && (r.finished ==> P.Blocked(q))
    requires t.publisher == q && t.run == r && (t.heartbeatStarted ==> |q.log| >= 2)
    ensures Invariant(plan, t, w)
  {
  }

  lemma FieldsConsistent(plan: Snapshot, r: Run, c: Call, v: View)
    requires Consistent(plan, r, v) && TasksHaveIterations(r) && Refusal(r, c).None? && !r.finished
    requires Sound(plan, NextView(r, c, v))
    ensures Consistent(plan, Mutated(r, c), NextView(r, c, v))
    ensures Mutated(r, c).finished <==> c.Finish?
  {
    if c.Finish? {
      MutatedHoldsPlan(plan, r, c);
    } else {
      FieldsMove(plan, r, c, v);
    }
  }

  lemma ClosingKeeps(plan: Snapshot, s: State, c: Call, v: View)
    requires c.ClosePublisher? && Invariant(plan, s, v) && TasksHaveIterations(s.run)
    ensures Invariant(plan, Step(s, c).0, v)
    ensures Step(s, c).1 != Some(Publication(P.InvalidPayload))
    ensures Step(s, c).0.publisher.log == s.publisher.log && ViewAfter(s, c, v) == v
  {
    P.ClosePublisherEffect(s.publisher);
  }

  /** A refused call changes nothing but, when it is Finish, the request to stop. */
  lemma RefusedKeeps(plan: Snapshot, s: State, c: Call, v: View)
    requires Invariant(plan, s, v) && TasksHaveIterations(s.run) && Refusal(s.run, c).Some?
    ensures var (t, err) := Step(s, c);
      && Invariant(plan, t, v) && t.publisher == s.publisher && t.run == s.run
      && t.heartbeatStarted == s.heartbeatStarted && t.heartbeatStopped == (s.heartbeatStopped || c.Finish?)
      && (err.Some? && !err.value.Publication?)
  {
    RefusalIsNoPublication(s.run, c);
  }

  lemma RefusalIsNoPublication(r: Run, c: Call)
    requires TasksHaveIterations(r) && Refusal(r, c).Some?
    ensures !Refusal(r, c).value.Publication?
  {
  }

  /** After Finish every call but the closing of the publisher is refused. */
  lemma NotFinished(plan: Snapshot, s: State, c: Call, v: View)
    requires Invariant(plan, s, v) && TasksHaveIterations(s.run)
    requires Refusal(s.run, c).None? && !c.ClosePublisher?
    ensures !s.run.finished
  {
    assert Consistent(plan, s.run, v);
  }

  /** Every call, accepted or refused, keeps the invariant, and none builds a
      payload that fails its own validation. */
  lemma StepKeeps(plan: Snapshot, s: State, c: Call, v: View)
    requires Invariant(plan, s, v) && TasksHaveIterations(s.run)
    ensures Invariant(plan, Step(s, c).0, ViewAfter(s, c, v))
    ensures Step(s, c).1 != Some(Publication(P.InvalidPayload))
    ensures |s.publisher.log| <= |Step(s, c).0.publisher.log|
  {
    if c.ClosePublisher? {
      ClosingKeeps(plan, s, c, v);
    } else if Refusal(s.run, c).Some? {
      RefusedKeeps(plan, s, c, v);
    } else {
      NotFinished(plan, s, c, v);
      PerformedKeeps(plan, s, c, v);
    }
  }

  /** What a lifecycle is built from: a validated plan and a fresh, open sink. */
  ghost predicate Fresh(plan: Snapshot, sink: Sink) {
    match sink
    case Sink(_, _, _, out, _, closed, _) =>
      Keyed(plan) && ListsEveryTaskOnce(plan) && ValidSnapshot(plan) && out == "" && !closed
  }

  function Initial(plan: Snapshot, sink: Sink): State {
    NewState(plan, P.NewPublisher(sink))
  }

  lemma InitialPublisher(plan: Snapshot, sink: Sink)
    requires ValidSnapshot(plan) && sink.out == "" && !sink.closed
    ensures Publishable(plan, P.NewPublisher(sink)) && Tracks(P.NewPublisher(sink), NOTHING)
  {
    P.NewPublisherInvariant(sink);
  }

  lemma InitialFields(plan: Snapshot)
    requires Keyed(plan) && ListsEveryTaskOnce(plan)
    ensures Consistent(plan, NewRun(plan), NOTHING)
  {
    NewRunAgrees(plan);
    NewRunTallies(plan);
  }

  lemma InitialHolds(plan: Snapshot, sink: Sink)
    requires Fresh(plan, sink)
    ensures Invariant(plan, Initial(plan, sink), NOTHING)
  {
    InitialPublisher(plan, sink);
    InitialFields(plan);
  }

  lemma NewRunAgrees(plan: Snapshot)
    ensures HoldsPlan(plan, NewRun(plan)) && Agrees(NewRun(plan), NOTHING) && Sound(plan, NOTHING)
  {
  }

  lemma NewRunTallies(plan: Snapshot)
    ensures TalliesAgree(plan, NewRun(plan), NOTHING)
  {
    forall k | k in NewRun(plan).iterations
      ensures TallyAgrees(plan, NewRun(plan), NOTHING, k)
    {
      assert {} * IdsOf(plan, k) == {};
    }
  }

  lemma InvariantIterations(plan: Snapshot, s: State, v: View)
    requires Invariant(plan, s, v)
    ensures TasksHaveIterations(s.run)
  {
  }

  /** Every run keeps the invariant. */
  lemma {:induction false} RunKeeps(plan: Snapshot, s: State, calls: seq<Call>, u: View) returns (v: View)
    requires Invariant(plan, s, u) && TasksHaveIterations(s.run)
    ensures Invariant(plan, Execute(s, calls), v)
  {
    v := u;
    if calls != [] {
      var before, call := Execute(s, calls[..|calls| - 1]), calls[|calls| - 1];
      v := RunKeeps(plan, s, calls[..|calls| - 1], u);
      StepKeeps(plan, before, call, v);
      v := ViewAfter(before, call, v);
    }
  }

  lemma RunHolds(plan: Snapshot, sink: Sink, calls: seq<Call>) returns (v: View)
    requires Fresh(plan, sink)
    ensures TasksHaveIterations(Initial(plan, sink).run)
    ensures Invariant(plan, Execute(Initial(plan, sink), calls), v)
  {
    InitialHolds(plan, sink);
    InvariantIterations(plan, Initial(plan, sink), NOTHING);
    v := RunKeeps(plan, Initial(plan, sink), calls, NOTHING);
  }

  /** The publisher's log is well formed, and its file holds exactly the log's lines
      and at most a prefix of one more, which only a sink error leaves there. */
  ghost predicate Safe(plan: Snapshot, p: P.PublisherState) {
    && WellFormed(plan, p.log)
    && P.LinesThenPrefix(p.sink.marshal, p.log, p.sink.out)
    && (p.err.None? ==> p.sink.out == P.Lines(p.sink.marshal, p.log))
  }

  lemma InvariantIsSafe(plan: Snapshot, s: State, v: View)
    requires Invariant(plan, s, v)
    ensures Safe(plan, s.publisher)
  {
    assert Publishable(plan, s.publisher);
  }

  /** Safety. Whatever is called, in any order and with any arguments, and whatever
      the sink refuses, the log and the file are safe, and the next call builds no
      payload that fails its own validation. */
  lemma RunIsSafe(plan: Snapshot, sink: Sink, calls: seq<Call>, next: Call)
    requires Fresh(plan, sink)
    ensures TasksHaveIterations(Initial(plan, sink).run)
    ensures var t := Execute(Initial(plan, sink), calls);
      Safe(plan, t.publisher) && Step(t, next).1 != Some(Publication(P.InvalidPayload))
  {
    var v := RunHolds(plan, sink, calls);
    InvariantIsSafe(plan, Execute(Initial(plan, sink), calls), v);
    StepKeeps(plan, Execute(Initial(plan, sink), calls), next, v);
  }
}
