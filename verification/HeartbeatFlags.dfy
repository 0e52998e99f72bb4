/** What Heartbeats keeps of the lifecycle, against LifecycleSpec: its flags and events
    are those of the lifecycle's own step. */
module HeartbeatFlags {
  import opened Wrappers
  import opened EvalEvent
  import opened RunGrammar
  import opened LifecycleSpec
  import P = Publishing
  import H = Heartbeats

  /** The same number of events, and run_finished at the same places. */
  ghost predicate EventsMatch(events: seq<H.Event>, log: seq<Event>) {
    && |events| == |log|
    && forall n :: 0 <= n < |log| ==> (events[n] == H.RunFinishedEvent <==> log[n].payload.RunFinished?)
  }

  /** The goroutine's model and the lifecycle agree. The request of a Finish to stop, which
      comes before its own work, is then already in both. */
  ghost predicate Matches(h: H.State, s: State) {
    && h.started == s.run.started && h.finished == s.run.finished
    && h.heartbeatStarted == s.heartbeatStarted && (h.stopCloses > 0 <==> s.heartbeatStopped)
    && EventsMatch(h.events, s.publisher.log)
  }

  function KindOf(c: Call): H.Kind {
    match c
    case Start(_, _, _, _) => H.StartCall
    case Finish(_, _, _) => H.FinishCall
    case _ => H.OtherCall
  }

  lemma MatchMore(events: seq<H.Event>, log: seq<Event>, event: H.Event, e: Event)
    requires EventsMatch(events, log) && (event == H.RunFinishedEvent <==> e.payload.RunFinished?)
    ensures EventsMatch(events + [event], log + [e])
  {
  }

  /** One publication delivers its event or none. */
  lemma PublishesOne(p: P.PublisherState, payload: Payload, last: bool)
    ensures var (q, err) := P.PublishEvent(p, payload, last);
      if err.None? then q.log == p.log + [Event(p.nextSequence, last, payload)] else q.log == p.log
  {
  }

  /** After a failure that is not the payload's own, nothing more is delivered. */
  lemma FailureBlocks(p: P.PublisherState, payload: Payload, last: bool, next: Payload, end: bool)
    requires var err := P.PublishEvent(p, payload, last).1; err.Some? && err != Some(P.InvalidPayload)
    ensures P.PublishEvent(P.PublishEvent(p, payload, last).0, next, end).1.Some?
  {
  }

  /** One or no event of a pair that failed. */
  ghost predicate FailedPair(events: seq<H.Event>, log: seq<Event>, delivered: bool) {
    EventsMatch(events + H.Delivered(delivered), log)
  }

  lemma NothingDelivered(events: seq<H.Event>, log: seq<Event>)
    requires EventsMatch(events, log)
    ensures FailedPair(events, log, false)
  {
    assert events + [] == events;
  }

  /** An event and its snapshot. */
  lemma PairPublished(events: seq<H.Event>, p: P.PublisherState, r: Run, payload: Payload, now: int)
    returns (delivered: bool)
    requires EventsMatch(events, p.log) && !payload.RunFinished?
    ensures var (q, err) := PublishWithProgress(p, r, payload, now);
      if err.Some? then FailedPair(events, q.log, delivered)
      else EventsMatch(events + [H.OtherEvent, H.OtherEvent], q.log)
  {
    var (q, err) := P.PublishEvent(p, payload, false);
    PublishesOne(p, payload, false);
    delivered := err.None?;
    if err.None? {
      MatchMore(events, p.log, H.OtherEvent, Event(p.nextSequence, false, payload));
      var progress := ProgressPayload(r, now);
      PublishesOne(q, progress, false);
      MatchMore(events + [H.OtherEvent], q.log, H.OtherEvent, Event(q.nextSequence, false, progress));
      assert events + [H.OtherEvent] + [H.OtherEvent] == events + [H.OtherEvent, H.OtherEvent];
    } else {
      NothingDelivered(events, p.log);
    }
  }

  /** The final snapshot and run_finished. */
  lemma EndPublished(events: seq<H.Event>, p: P.PublisherState, r: Run, payload: Payload, now: int)
    returns (delivered: bool)
    requires EventsMatch(events, p.log) && payload.RunFinished?
    requires PublishFinish(p, r, payload, now).1 != Some(P.InvalidPayload)
    ensures var (q, err) := PublishFinish(p, r, payload, now);
      if err.Some? then FailedPair(events, q.log, delivered)
      else EventsMatch(events + [H.OtherEvent, H.RunFinishedEvent], q.log)
  {
    var progress := ProgressPayload(r, now);
    var (q, err) := P.PublishEvent(p, progress, false);
    PublishesOne(p, progress, false);
    PublishesOne(q, payload, true);
    delivered := err.None?;
    if err.None? {
      MatchMore(events, p.log, H.OtherEvent, Event(p.nextSequence, false, progress));
      MatchMore(events + [H.OtherEvent], q.log, H.RunFinishedEvent, Event(q.nextSequence, true, payload));
      assert events + [H.OtherEvent] + [H.RunFinishedEvent] == events + [H.OtherEvent, H.RunFinishedEvent];
    } else {
      FailureBlocks(p, progress, false, payload, true);
      NothingDelivered(events, p.log);
    }
  }

  lemma OnePublished(events: seq<H.Event>, p: P.PublisherState, payload: Payload)
    requires EventsMatch(events, p.log) && !payload.RunFinished?
    ensures var (q, err) := P.PublishEvent(p, payload, false);
      if err.Some? then FailedPair(events, q.log, false)
      else EventsMatch(events + [H.OtherEvent] + H.Delivered(false), q.log)
  {
    PublishesOne(p, payload, false);
    if P.PublishEvent(p, payload, false).1.None? {
      MatchMore(events, p.log, H.OtherEvent, Event(p.nextSequence, false, payload));
      assert events + [H.OtherEvent] + [] == events + [H.OtherEvent];
    } else {
      NothingDelivered(events, p.log);
    }
  }

  /** What an accepted call publishes, beside the events that the model adds. */
  ghost predicate SameEvents(h: H.State, s: State, c: Call, outcome: H.Outcome)
    requires TasksHaveIterations(s.run) && Refusal(s.run, c).None?
  {
    var (q, err) := Publications(s, Mutated(s.run, c), c);
    && outcome != H.Refused && (err.Some? <==> outcome.PublishFailed?)
    && EventsMatch(H.DoWork(h, KindOf(c), outcome).events, q.log)
  }

  lemma StartPublishes(h: H.State, s: State, c: Call) returns (outcome: H.Outcome)
    requires Matches(h, s) && TasksHaveIterations(s.run) && Refusal(s.run, c).None? && c.Start? && !h.started
    ensures SameEvents(h, s, c, outcome)
  {
    var delivered := PairPublished(h.events, s.publisher, Mutated(s.run, c), Announcement(s.run, c), c.now);
    outcome := if Publications(s, Mutated(s.run, c), c).1.Some? then H.PublishFailed(delivered) else H.Succeeded(true);
  }

  lemma CasePublishes(h: H.State, s: State, c: Call) returns (outcome: H.Outcome)
    requires Matches(h, s) && TasksHaveIterations(s.run) && Refusal(s.run, c).None?
    requires (c.StartCase? || c.CompleteCase?) && H.Active(h)
    ensures SameEvents(h, s, c, outcome)
  {
    var delivered := PairPublished(h.events, s.publisher, Mutated(s.run, c), Announcement(s.run, c), c.now);
    assert h.events + [H.OtherEvent] + [H.OtherEvent] == h.events + [H.OtherEvent, H.OtherEvent];
    outcome := if Publications(s, Mutated(s.run, c), c).1.Some? then H.PublishFailed(delivered) else H.Succeeded(true);
  }

  lemma FinishPublishes(h: H.State, s: State, c: Call) returns (outcome: H.Outcome)
    requires Matches(h, s) && TasksHaveIterations(s.run) && Refusal(s.run, c).None? && c.Finish? && H.Active(h)
    requires Publications(s, Mutated(s.run, c), c).1 != Some(P.InvalidPayload)
    ensures SameEvents(h, s, c, outcome)
  {
    var delivered := EndPublished(h.events, s.publisher, Mutated(s.run, c), Announcement(s.run, c), c.now);
    outcome := if Publications(s, Mutated(s.run, c), c).1.Some? then H.PublishFailed(delivered) else H.Succeeded(true);
  }

  lemma OtherPublishes(h: H.State, s: State, c: Call) returns (outcome: H.Outcome)
    requires Matches(h, s) && TasksHaveIterations(s.run) && Refusal(s.run, c).None? && H.Active(h)
    requires c.SetPhase? || c.Heartbeat? || c.StartIteration? || c.CompleteIteration?
    ensures SameEvents(h, s, c, outcome)
  {
    if c.SetPhase? || c.Heartbeat? {
      OnePublished(h.events, s.publisher, ProgressPayload(Mutated(s.run, c), c.now));
    } else {
      OnePublished(h.events, s.publisher, Announcement(s.run, c));
    }
    outcome := if Publications(s, Mutated(s.run, c), c).1.Some? then H.PublishFailed(false) else H.Succeeded(false);
  }

  lemma CallPublishes(h: H.State, s: State, c: Call) returns (outcome: H.Outcome)
    requires Matches(h, s) && TasksHaveIterations(s.run) && Refusal(s.run, c).None? && !c.ClosePublisher?
    requires if c.Start? then !h.started else H.Active(h)
    requires Publications(s, Mutated(s.run, c), c).1 != Some(P.InvalidPayload)
    ensures SameEvents(h, s, c, outcome)
  {
    if c.Start? {
      outcome := StartPublishes(h, s, c);
    } else if c.Finish? {
      outcome := FinishPublishes(h, s, c);
    } else if c.StartCase? || c.CompleteCase? {
      outcome := CasePublishes(h, s, c);
    } else {
      outcome := OtherPublishes(h, s, c);
    }
  }

  lemma AcceptedIsActive(r: Run, c: Call)
    requires TasksHaveIterations(r) && Refusal(r, c).None? && !c.ClosePublisher?
    ensures if c.Start? then !r.started else r.started && !r.finished
    ensures var t := Mutated(r, c); t.started && (t.finished <==> if c.Start? then r.finished else c.Finish?)
  {
  }

  /** What a caller does while it holds the mutex is the lifecycle's step, with one of the
      outcomes of the model. A Finish has asked the goroutine to stop before. */
  lemma WorkIsStep(h: H.State, s: State, c: Call) returns (outcome: H.Outcome)
    requires Matches(h, s) && TasksHaveIterations(s.run) && !c.ClosePublisher?
    requires c.Finish? ==> h.stopCloses > 0
    requires Step(s, c).1 != Some(Publication(P.InvalidPayload))
    ensures Matches(H.DoWork(h, KindOf(c), outcome), Step(s, c).0)
  {
    outcome := H.Refused;
    if Refusal(s.run, c).None? {
      AcceptedIsActive(s.run, c);
      outcome := CallPublishes(h, s, c);
    }
  }

  /** And what the goroutine does is the lifecycle's Heartbeat. */
  lemma RoutineIsStep(h: H.State, s: State, now: int)
    requires Matches(h, s) && TasksHaveIterations(s.run) && h.routine == H.Publishing
    ensures var (t, err) := Step(s, Heartbeat(now)); Matches(H.Next(h, H.RoutinePublish(err.None?)), t)
  {
    var payload := ProgressPayload(s.run, now);
    PublishesOne(s.publisher, payload, false);
    if P.PublishEvent(s.publisher, payload, false).1.None? {
      MatchMore(h.events, s.publisher.log, H.HeartbeatEvent, Event(s.publisher.nextSequence, false, payload));
    }
  }
}
