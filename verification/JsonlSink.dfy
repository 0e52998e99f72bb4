/** internal/evalevent/jsonl.go: the file sink that writes one newline-terminated
    record per event.

    What the environment does is a value: each call of Publish consumes one
    `Attempt`, which says what the two reads of ctx.Err() give and how each Write
    behaves. Beyond the end of a script everything succeeds. json.Marshal is the
    function `marshal`. */
module JsonlSink {
  import opened Wrappers
  import opened EvalEvent

  const MAX_JSON_EVENT_SIZE: nat := 0x10_0000

  /** One call of io.Writer.Write: the count it reports, whether it reports an
      error, and the bytes it really took if the count is out of range. */
  datatype WriteOutcome = WriteOutcome(count: int, taken: nat, failed: bool)

  datatype Attempt = Attempt(doneBefore: bool, doneLocked: bool, writes: seq<WriteOutcome>)

  const CLEAN := Attempt(false, false, [])

  datatype SinkError =
    | ContextDone | MarshalFailed | TooLarge | SinkClosed | NoWriter
    | InvalidWriteCount | WriteFailed | ShortWrite | WriterCloseFailed

  /** The sink as a value; `out` is the content of the file. */
  datatype Sink = Sink(
    marshal: Event -> Option<string>, hasWriter: bool, closeFails: bool,
    out: string, attempts: seq<Attempt>, closed: bool, closeErr: Option<SinkError>)

  function Min(m: nat, n: nat): nat { if m <= n then m else n }

  /** The bytes of record that reach the file, and how the write loop ends. */
  function WriteAll(record: string, writes: seq<WriteOutcome>): (string, Option<SinkError>)
    decreases writes
  {
    if record == "" then ("", None)
    else if writes == [] then (record, None)
    else
      var w := writes[0];
      if w.count < 0 || w.count > |record| then (record[..Min(w.taken, |record|)], Some(InvalidWriteCount))
      else if w.failed then (record[..w.count], Some(WriteFailed))
      else if w.count == 0 then ("", Some(ShortWrite))
      else
        var (written, err) := WriteAll(record[w.count..], writes[1..]);
        (record[..w.count] + written, err)
  }

  /** Without an error the whole record is in the file; with one, a prefix of it. */
  lemma {:induction false} WriteAllEffect(record: string, writes: seq<WriteOutcome>)
    ensures WriteAll(record, writes).1.None? ==> WriteAll(record, writes).0 == record
    ensures WriteAll(record, writes).0 <= record
    decreases writes
  {
    if record != "" && writes != [] {
      var w := writes[0];
      if 0 < w.count <= |record| && !w.failed {
        WriteAllEffect(record[w.count..], writes[1..]);
        assert record == record[..w.count] + record[w.count..];
      }
    }
  }

  /** The line an event becomes. */
  function Line(marshal: Event -> Option<string>, event: Event): string {
    match marshal(event)
    case Some(record) => record + "\n"
    case None => ""
  }

  /** An event the sink has no reason of its own to refuse. */
  predicate Fits(marshal: Event -> Option<string>, event: Event) {
    marshal(event).Some? && |marshal(event).value| <= MAX_JSON_EVENT_SIZE
  }

  /** Why Publish writes nothing, if it does not. */
  function Obstacle(sink: Sink, event: Event, attempt: Attempt): Option<SinkError> {
    if attempt.doneBefore then Some(ContextDone)
    else if sink.marshal(event).None? then Some(MarshalFailed)
    else if !Fits(sink.marshal, event) then Some(TooLarge)
    else if sink.closed then Some(SinkClosed)
    else if !sink.hasWriter then Some(NoWriter)
    else if attempt.doneLocked then Some(ContextDone)
    else None
  }

  function NextAttempt(sink: Sink): Attempt {
    if sink.attempts == [] then CLEAN else sink.attempts[0]
  }

  /** JSONLSink.Publish on values: the bytes it adds to the file, and the error. */
  function Output(sink: Sink, event: Event): (string, Option<SinkError>) {
    var attempt := NextAttempt(sink);
    var obstacle := Obstacle(sink, event, attempt);
    if obstacle.Some? then ("", obstacle) else WriteAll(Line(sink.marshal, event), attempt.writes)
  }

  function Deliver(sink: Sink, event: Event): (Sink, Option<SinkError>) {
    var (bytes, err) := Output(sink, event);
    (sink.(out := sink.out + bytes, attempts := if sink.attempts == [] then [] else sink.attempts[1..]), err)
  }

  function CloseSink(sink: Sink): (Sink, Option<SinkError>) {
    if sink.closed then (sink, sink.closeErr)
    else
      var err :=
        if !sink.hasWriter then Some(NoWriter)
        else if sink.closeFails then Some(WriterCloseFailed)
        else None;
      (sink.(closed := true, closeErr := err), err)
  }

  /** A delivered event leaves exactly its line in the file; a refused one leaves
      some prefix of its line; and an open sink with a clean environment takes
      every event that fits. */
  lemma DeliverEffect(sink: Sink, event: Event)
    ensures var (s, err) := Deliver(sink, event);
      && s.marshal == sink.marshal
      && (err.None? ==> s.out == sink.out + Line(sink.marshal, event) && Fits(sink.marshal, event))
      && (exists n :: 0 <= n <= |Line(sink.marshal, event)| && s.out == sink.out + Line(sink.marshal, event)[..n])
    ensures !sink.closed && sink.hasWriter && Fits(sink.marshal, event)
            && (sink.attempts == [] || sink.attempts[0] == CLEAN)
            ==> Deliver(sink, event).1.None?
  {
    var bytes := Output(sink, event).0;
    var line := Line(sink.marshal, event);
    WriteAllEffect(line, NextAttempt(sink).writes);
    assert bytes == line[..|bytes|];
  }

  /** The sink object. The mutex makes each method one atomic step. */
  class JSONLSink {
    const marshal: Event -> Option<string>
    const hasWriter: bool
    const closeFails: bool
    var out: string
    var attempts: seq<Attempt>
    var closed: bool
    var closeErr: Option<SinkError>

    constructor (marshal: Event -> Option<string>, hasWriter: bool, closeFails: bool, attempts: seq<Attempt>)
      ensures Value() == Sink(marshal, hasWriter, closeFails, "", attempts, false, None)
    {
      this.marshal, this.hasWriter, this.closeFails := marshal, hasWriter, closeFails;
      this.attempts := attempts;
      out, closed, closeErr := "", false, None;
    }

    ghost function Value(): Sink
      reads this
    {
      Sink(marshal, hasWriter, closeFails, out, attempts, closed, closeErr)
    }

    method Publish(event: Event) returns (err: Option<SinkError>)
      modifies this
      ensures (Value(), err) == Deliver(old(Value()), event)
    {
      var attempt := CLEAN;
      if attempts != [] {
        attempt, attempts := attempts[0], attempts[1..];
      }
      assert out + "" == out;
      if attempt.doneBefore { return Some(ContextDone); }
      var encoded := marshal(event);
      if encoded.None? { return Some(MarshalFailed); }
      if |encoded.value| > MAX_JSON_EVENT_SIZE { return Some(TooLarge); }
      var record := encoded.value + "\n";
      if closed { return Some(SinkClosed); }
      if !hasWriter { return Some(NoWriter); }
      if attempt.doneLocked { return Some(ContextDone); }
      var writes := attempt.writes;
      ghost var before := out;
      ghost var whole := WriteAll(record, writes);
      while |record| > 0
        invariant out + WriteAll(record, writes).0 == before + whole.0
        invariant WriteAll(record, writes).1 == whole.1
        invariant closed == old(closed) && closeErr == old(closeErr)
        invariant attempts == if old(attempts) == [] then [] else old(attempts)[1..]
        decreases |record|
      {
        var w := WriteOutcome(|record|, 0, false);
        if writes != [] {
          w, writes := writes[0], writes[1..];
        }
        if w.count < 0 || w.count > |record| {
          out := out + record[..Min(w.taken, |record|)];
          return Some(InvalidWriteCount);
        }
        out := out + record[..w.count];
        record := record[w.count..];
        if w.failed { return Some(WriteFailed); }
        if w.count == 0 { return Some(ShortWrite); }
      }
      assert out + "" == out;
      return None;
    }

    method Close() returns (err: Option<SinkError>)
      modifies this
      ensures (Value(), err) == CloseSink(old(Value()))
    {
      if closed { return closeErr; }
      closed := true;
      if !hasWriter {
        closeErr := Some(NoWriter);
        return closeErr;
      }
      closeErr := if closeFails then Some(WriterCloseFailed) else None;
      return closeErr;
    }
  }
}
