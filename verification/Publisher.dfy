/** internal/evalevent/publisher.go: sequence numbers, the sticky sink error and
    the end of publication. */
module Publishing {
  import opened Wrappers
  import opened EvalEvent
  import opened JsonlSink

  datatype PublishError =
    | PublisherClosed
    | AlreadyFinalized
    | InvalidPayload
    | SequenceExhausted
    | SinkRefused(sinkError: SinkError)
    | CloseRefused(sinkError: SinkError)
    | Joined(first: PublishError, second: PublishError)

  /** The publisher as a value. `log` is the delivered events, in order: those
      for which the sink returned no error. */
  datatype PublisherState = PublisherState(
    sink: Sink, nextSequence: nat, finalized: bool, closed: bool, err: Option<PublishError>, log: seq<Event>)

  function NewPublisher(sink: Sink): PublisherState {
    PublisherState(sink, 1, false, false, None, [])
  }

  /** Why publishEvent does not reach the sink, if it does not. */
  function Rejection(p: PublisherState, payload: Payload): Option<PublishError> {
    if p.closed then Some(PublisherClosed)
    else if p.finalized then Some(AlreadyFinalized)
    else if p.err.Some? then p.err
    else if !payload.Valid() then Some(InvalidPayload)
    else if p.nextSequence > MAX_SAFE_INTEGER then Some(SequenceExhausted)
    else None
  }

  /** publishEvent. Only a sink error is recorded; the error of an invalid payload is not. */
  function PublishEvent(p: PublisherState, payload: Payload, last: bool): (PublisherState, Option<PublishError>) {
    var rejection := Rejection(p, payload);
    if rejection.Some? then (p, rejection)
    else
      var event := Event(p.nextSequence, last, payload);
      var (sink, err) := Deliver(p.sink, event);
      if err.Some? then
        var refused := Some(SinkRefused(err.value));
        (p.(sink := sink, err := refused), refused)
      else
        (p.(sink := sink, nextSequence := p.nextSequence + 1, finalized := last, log := p.log + [event]), None)
  }

  function ClosePublisher(p: PublisherState): (PublisherState, Option<PublishError>) {
    if p.closed then (p, p.err)
    else
      var (sink, err) := CloseSink(p.sink);
      var joined :=
        if err.None? then p.err
        else if p.err.None? then Some(CloseRefused(err.value))
        else Some(Joined(p.err.value, CloseRefused(err.value)));
      (p.(sink := sink, closed := true, err := joined), joined)
  }

  /** No payload, however valid, will ever be delivered again. */
  predicate Blocked(p: PublisherState) {
    p.closed || p.finalized || p.err.Some? || p.nextSequence > MAX_SAFE_INTEGER
  }

  /** The complete lines of a log. */
  function Lines(marshal: Event -> Option<string>, log: seq<Event>): string {
    if log == [] then "" else Lines(marshal, log[..|log| - 1]) + Line(marshal, log[|log| - 1])
  }

  /** `content` is the complete lines of the log and then a prefix, possibly
      empty and possibly complete, of one more line. */
  ghost predicate LinesThenPrefix(marshal: Event -> Option<string>, log: seq<Event>, content: string) {
    exists event: Event, n: nat ::
      n <= |Line(marshal, event)| && content == Lines(marshal, log) + Line(marshal, event)[..n]
  }

  /** What every publication and every close keeps. */
  ghost predicate Invariant(p: PublisherState) {
    match p
    case PublisherState(sink, nextSequence, _, closed, err, log) =>
      && nextSequence == |log| + 1
      && (forall i :: 0 <= i < |log| ==> log[i].sequence == i + 1 && Fits(sink.marshal, log[i]))
      && LinesThenPrefix(sink.marshal, log, sink.out)
      && (err.None? ==> sink.out == Lines(sink.marshal, log))
      && (closed <==> sink.closed)
      && (err.Some? ==> err.value.SinkRefused? || err.value.CloseRefused? || err.value.Joined?)
  }

  lemma NewPublisherInvariant(sink: Sink)
    requires sink.out == "" && !sink.closed
    ensures Invariant(NewPublisher(sink))
  {
    var event := Event(1, false, IterationStarted(1));
    assert sink.out == Lines(sink.marshal, []) + Line(sink.marshal, event)[..0];
  }

  lemma LinesMore(marshal: Event -> Option<string>, log: seq<Event>, event: Event)
    ensures Lines(marshal, log + [event]) == Lines(marshal, log) + Line(marshal, event)
    ensures LinesThenPrefix(marshal, log, Lines(marshal, log))
  {
    assert (log + [event])[..|log|] == log;
    assert Lines(marshal, log) == Lines(marshal, log) + Line(marshal, event)[..0];
  }

  /** The state after an event that the sink has written. */
  lemma WrittenKeeps(p: PublisherState, sink: Sink, event: Event)
    requires Invariant(p) && p.err.None? && event.sequence == p.nextSequence && Fits(p.sink.marshal, event)
    requires sink.marshal == p.sink.marshal && sink.closed == p.sink.closed
    requires sink.out == p.sink.out + Line(p.sink.marshal, event)
    ensures Invariant(p.(sink := sink, nextSequence := p.nextSequence + 1, finalized := event.last,
                         log := p.log + [event]))
  {
    LinesMore(p.sink.marshal, p.log, event);
    LinesMore(p.sink.marshal, p.log + [event], event);
  }

  /** The state after an event that the sink has refused. */
  lemma RefusedKeeps(p: PublisherState, sink: Sink, event: Event, n: nat, err: PublishError)
    requires Invariant(p) && p.err.None? && err.SinkRefused? && n <= |Line(p.sink.marshal, event)|
    requires sink.marshal == p.sink.marshal && sink.closed == p.sink.closed
    requires sink.out == p.sink.out + Line(p.sink.marshal, event)[..n]
    ensures Invariant(p.(sink := sink, err := Some(err)))
  {
  }

  /** One publication. It keeps the invariant. It delivers exactly one event or
      none; when it delivers none the error says why, and a failure other than an
      invalid payload blocks every later publication. */
  lemma PublishEventEffect(p: PublisherState, payload: Payload, last: bool)
    requires Invariant(p)
    ensures var (q, err) := PublishEvent(p, payload, last);
      && Invariant(q)
      && q.sink.marshal == p.sink.marshal
      && (err.None? ==> !Blocked(p) && payload.Valid() && q.log == p.log + [Event(|p.log| + 1, last, payload)]
                        && (Blocked(q) <==> last || q.nextSequence > MAX_SAFE_INTEGER))
      && (err.Some? ==> q.log == p.log && (Blocked(q) || !payload.Valid()))
      && (Blocked(p) ==> q == p && err.Some?)
      && (err == Some(InvalidPayload) ==> !payload.Valid())
  {
    var (q, err) := PublishEvent(p, payload, last);
    if !Blocked(p) && payload.Valid() {
      var event := Event(p.nextSequence, last, payload);
      var (sink, failure) := Deliver(p.sink, event);
      DeliverEffect(p.sink, event);
      if failure.None? {
        WrittenKeeps(p, sink, event);
      } else {
        var n :| 0 <= n <= |Line(sink.marshal, event)| && sink.out == p.sink.out + Line(sink.marshal, event)[..n];
        RefusedKeeps(p, sink, event, n, SinkRefused(failure.value));
      }
    }
  }

  lemma ClosePublisherEffect(p: PublisherState)
    requires Invariant(p)
    ensures var (q, err) := ClosePublisher(p);
      && Invariant(q)
      && q.log == p.log && q.sink.out == p.sink.out && q.sink.marshal == p.sink.marshal
      && q.closed && Blocked(q)
      && ClosePublisher(q) == (q, err)
  {
    var (q, err) := ClosePublisher(p);
    assert q.sink.out == p.sink.out;
  }

  /** The publisher object, which owns its sink. */
  class Publisher {
    const sink: JSONLSink
    var nextSequence: nat
    var finalized: bool
    var closed: bool
    var err: Option<PublishError>
    ghost var log: seq<Event>

    constructor (sink: JSONLSink)
      ensures this.sink == sink
      ensures Value() == NewPublisher(sink.Value())
    {
      this.sink := sink;
      nextSequence, finalized, closed, err, log := 1, false, false, None, [];
    }

    ghost function Value(): PublisherState
      reads this, sink
    {
      PublisherState(sink.Value(), nextSequence, finalized, closed, err, log)
    }

    method Publish(payload: Payload, last: bool) returns (r: Option<PublishError>)
      modifies this, sink
      ensures (Value(), r) == PublishEvent(old(Value()), payload, last)
    {
      if closed { return Some(PublisherClosed); }
      if finalized { return Some(AlreadyFinalized); }
      if err.Some? { return err; }
      if !payload.Valid() { return Some(InvalidPayload); }
      if nextSequence > MAX_SAFE_INTEGER { return Some(SequenceExhausted); }
      var event := Event(nextSequence, last, payload);
      var sinkErr := sink.Publish(event);
      if sinkErr.Some? {
        err := Some(SinkRefused(sinkErr.value));
        return err;
      }
      log := log + [event];
      nextSequence := nextSequence + 1;
      if last { finalized := true; }
      return None;
    }

    method Close() returns (r: Option<PublishError>)
      modifies this, sink
      ensures (Value(), r) == ClosePublisher(old(Value()))
    {
      if closed { return err; }
      closed := true;
      var sinkErr := sink.Close();
      if sinkErr.Some? {
        err := Some(if err.None? then CloseRefused(sinkErr.value) else Joined(err.value, CloseRefused(sinkErr.value)));
      }
      return err;
    }
  }
}
