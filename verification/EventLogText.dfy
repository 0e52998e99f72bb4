/** Reading the event log back: the file that internal/evalevent writes, split at its
    newlines, is the records of the delivered events and at most one more piece. */
module EventLogText {
  import opened Wrappers
  import opened GoText
  import opened EvalEvent
  import opened RunGrammar
  import opened JsonlSink
  import opened LifecycleSpec
  import opened LifecycleTheorems
  import opened LifecycleConverse
  import R = RecordReader
  import P = Publishing

  /** json.Marshal writes no newline. */
  ghost predicate OneLine(marshal: Event -> Option<string>) {
    forall event {:trigger marshal(event)} :: marshal(event).Some? ==> '\n' !in marshal(event).value
  }

  /** The records of a log. */
  function Records(marshal: Event -> Option<string>, log: seq<Event>): seq<string> {
    if log == [] then []
    else
      var last := marshal(log[|log| - 1]);
      Records(marshal, log[..|log| - 1]) + [if last.Some? then last.value else ""]
  }

  lemma {:induction false} RecordsAreLines(marshal: Event -> Option<string>, log: seq<Event>)
    requires OneLine(marshal)
    ensures |Records(marshal, log)| == |log|
    ensures forall r :: r in Records(marshal, log) ==> '\n' !in r
  {
    if log != [] {
      RecordsAreLines(marshal, log[..|log| - 1]);
    }
  }

  lemma {:induction false} JoinMore(parts: seq<string>, last: string, tail: string)
    ensures Join(parts + [last, tail], '\n') == Join(parts + [last + "\n" + tail], '\n')
    decreases parts
  {
    if parts == [] {
      assert [last, tail][1..] == [tail];
      assert [] + [last, tail] == [last, tail] && [] + [last + "\n" + tail] == [last + "\n" + tail];
      assert last + ['\n'] + tail == last + "\n" + tail;
    } else {
      JoinMore(parts[1..], last, tail);
      assert (parts + [last, tail])[1..] == parts[1..] + [last, tail];
      assert (parts + [last + "\n" + tail])[1..] == parts[1..] + [last + "\n" + tail];
    }
  }

  /** The lines of a log, and then a tail, are its records and the tail, joined. */
  lemma {:induction false} LinesJoin(marshal: Event -> Option<string>, log: seq<Event>, tail: string)
    requires forall i :: 0 <= i < |log| ==> marshal(log[i]).Some?
    ensures P.Lines(marshal, log) + tail == Join(Records(marshal, log) + [tail], '\n')
    decreases |log|
  {
    if log == [] {
      assert "" + tail == tail && [] + [tail] == [tail];
    } else {
      var n := |log| - 1;
      var before, last := log[..n], marshal(log[n]).value;
      LinesJoin(marshal, before, last + "\n" + tail);
      JoinMore(Records(marshal, before), last, tail);
      assert Records(marshal, log) + [tail] == Records(marshal, before) + [last, tail];
      assert P.Lines(marshal, before) + (last + "\n") + tail == P.Lines(marshal, before) + (last + "\n" + tail);
    }
  }

  /** Splitting gives the records back, whatever newline-free tail follows them. */
  lemma LinesReadBack(marshal: Event -> Option<string>, log: seq<Event>, tail: string)
    requires OneLine(marshal) && '\n' !in tail
    requires forall i :: 0 <= i < |log| ==> marshal(log[i]).Some?
    ensures R.Pieces(P.Lines(marshal, log) + tail) == Records(marshal, log) + [tail]
  {
    LinesJoin(marshal, log, tail);
    RecordsAreLines(marshal, log);
    R.JoinPieces(Records(marshal, log) + [tail]);
  }

  /** After the records: a prefix of one more, and an empty piece if its newline is there. */
  ghost predicate AtMostOneMore(marshal: Event -> Option<string>, rest: seq<string>) {
    && 1 <= |rest| <= 2
    && (|rest| == 2 ==> rest[1] == "")
    && exists event: Event :: rest[0] <= Line(marshal, event)
  }

  lemma TailReadsBack(marshal: Event -> Option<string>, log: seq<Event>, event: Event, n: nat)
    returns (rest: seq<string>)
    requires OneLine(marshal) && n <= |Line(marshal, event)|
    requires forall i :: 0 <= i < |log| ==> marshal(log[i]).Some?
    ensures R.Pieces(P.Lines(marshal, log) + Line(marshal, event)[..n]) == Records(marshal, log) + rest
    ensures AtMostOneMore(marshal, rest)
  {
    var tail := Line(marshal, event)[..n];
    if n > 0 && n == |Line(marshal, event)| {
      var record := marshal(event).value;
      var longer := log + [event];
      assert longer[..|log|] == log && tail == Line(marshal, event);
      assert P.Lines(marshal, longer) + "" == P.Lines(marshal, log) + tail;
      LinesReadBack(marshal, longer, "");
      rest := [record, ""];
      assert Records(marshal, log) + [record] + [""] == Records(marshal, log) + rest;
      assert rest[0] <= Line(marshal, event);
    } else {
      assert marshal(event).Some? ==> tail == marshal(event).value[..n];
      LinesReadBack(marshal, log, tail);
      rest := [tail];
      assert rest[0] <= Line(marshal, event);
    }
  }

  lemma PublisherReadsBack(p: P.PublisherState) returns (rest: seq<string>)
    requires P.Invariant(p) && OneLine(p.sink.marshal)
    ensures R.Pieces(p.sink.out) == Records(p.sink.marshal, p.log) + rest
    ensures AtMostOneMore(p.sink.marshal, rest)
    ensures p.err.None? ==> rest == [""]
  {
    var event: Event, n: nat :| n <= |Line(p.sink.marshal, event)|
      && p.sink.out == P.Lines(p.sink.marshal, p.log) + Line(p.sink.marshal, event)[..n];
    if p.err.None? {
      assert Line(p.sink.marshal, event)[..0] == "" && p.sink.out + "" == p.sink.out;
      LinesReadBack(p.sink.marshal, p.log, "");
      rest := [""];
      assert rest[0] <= Line(p.sink.marshal, event);
    } else {
      rest := TailReadsBack(p.sink.marshal, p.log, event, n);
    }
  }

  /** Whatever is called and whatever the sink refuses, the file splits into the records
      of the delivered events, in order, and then a prefix of at most one more. */
  lemma FileReadsBack(plan: Snapshot, sink: Sink, calls: seq<Call>) returns (rest: seq<string>)
    requires Fresh(plan, sink) && OneLine(sink.marshal)
    ensures TasksHaveIterations(Initial(plan, sink).run)
    ensures var p := Execute(Initial(plan, sink), calls).publisher;
      && R.Pieces(p.sink.out) == Records(sink.marshal, p.log) + rest
      && AtMostOneMore(sink.marshal, rest)
      && (p.err.None? ==> rest == [""])
  {
    var v := RunHolds(plan, sink, calls);
    var s := Execute(Initial(plan, sink), calls);
    RunKeepsMarshal(Initial(plan, sink), calls);
    assert Publishable(plan, s.publisher);
    rest := PublisherReadsBack(s.publisher);
  }
}
