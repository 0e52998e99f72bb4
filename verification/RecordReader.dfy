/** readCodexJSONLRecords of internal/agent/codex.go: newline-separated records of a
    limited size, read through a buffer that may cut them anywhere. */
module RecordReader {
  import opened Wrappers
  import opened GoText

  datatype ReadError = BadLimit | TooLarge(recordNumber: nat) | ReadFailed(recordNumber: nat)

  datatype Outcome = Outcome(applied: seq<string>, err: Option<ReadError>)

  /** What the calls of ReadSlice('\n') return, in order. A fragment that ends in a
      newline comes without an error; the last one comes with io.EOF or a read error;
      any other fills the buffer. */
  predicate FromReadSlice(fragments: seq<string>) {
    && fragments != []
    && '\n' !in fragments[|fragments| - 1]
    && forall i :: 0 <= i < |fragments| ==> AtMostAtEnd(fragments[i])
  }

  predicate AtMostAtEnd(fragment: string) {
    fragment == "" || '\n' !in fragment[..|fragment| - 1]
  }

  function Concat(fragments: seq<string>): string {
    if fragments == [] then "" else fragments[0] + Concat(fragments[1..])
  }

  /** The pieces of a text between its newlines. */
  function Pieces(text: string): (ps: seq<string>)
    ensures |ps| > 0
    decreases |text|
  {
    match IndexByte(text, '\n')
    case None => [text]
    case Some(i) => [text[..i]] + Pieces(text[i + 1..])
  }

  /** The pieces hold no newline, and joined by newlines they are the text. */
  lemma {:induction false} PiecesJoin(text: string)
    ensures Join(Pieces(text), '\n') == text
    ensures forall p :: p in Pieces(text) ==> '\n' !in p
    decreases |text|
  {
    match IndexByte(text, '\n')
    case None =>
    case Some(i) =>
      PiecesJoin(text[i + 1..]);
      assert Pieces(text)[1..] == Pieces(text[i + 1..]);
      assert text == text[..i] + ['\n'] + text[i + 1..];
  }

  /** Any list of newline-free pieces is recovered from its join. */
  lemma {:induction false} JoinPieces(ps: seq<string>)
    requires |ps| > 0 && forall p :: p in ps ==> '\n' !in p
    ensures Pieces(Join(ps, '\n')) == ps
  {
    if |ps| > 1 {
      var rest := Join(ps[1..], '\n');
      var text := ps[0] + ['\n'] + rest;
      JoinPieces(ps[1..]);
      assert text[..|ps[0]|] == ps[0] && ps[0] in ps && text[|ps[0]| + 1..] == rest;
      IndexByteIs(text, '\n', |ps[0]|);
      assert ps == [ps[0]] + ps[1..];
    } else {
      assert ps[0] in ps;
    }
  }

  /** The pieces that are applied: all, but the last not if it is empty or was cut
      short by a read error. */
  function Kept(pieces: seq<string>, failed: bool): seq<string>
    requires |pieces| > 0
  {
    var n := |pieces| - 1;
    if failed || pieces[n] == "" then pieces[..n] else pieces
  }

  function FirstTooLong(pieces: seq<string>, limit: int): (r: Option<nat>)
    ensures r.None? ==> forall i :: 0 <= i < |pieces| ==> |pieces[i]| <= limit
    ensures r.Some? ==> r.value < |pieces| && |pieces[r.value]| > limit
                        && forall i :: 0 <= i < r.value ==> |pieces[i]| <= limit
  {
    if pieces == [] then None
    else if |pieces[0]| > limit then Some(0)
    else
      match FirstTooLong(pieces[1..], limit)
      case None => None
      case Some(k) => Some(k + 1)
  }

  /** What applying the pieces, numbered from n, comes to. */
  function Split(pieces: seq<string>, failed: bool, limit: int, n: nat): Outcome
    requires |pieces| > 0
  {
    match FirstTooLong(pieces, limit)
    case Some(k) => Outcome(pieces[..k], Some(TooLarge(n + k)))
    case None => Outcome(Kept(pieces, failed), if failed then Some(ReadFailed(n + |pieces| - 1)) else None)
  }

  /** The same, piece by piece, from record n on. */
  function SplitFrom(text: string, failed: bool, limit: nat, n: nat): Outcome
    decreases |text|
  {
    match IndexByte(text, '\n')
    case None =>
      if |text| > limit then Outcome([], Some(TooLarge(n)))
      else if failed then Outcome([], Some(ReadFailed(n)))
      else Outcome(if text == "" then [] else [text], None)
    case Some(i) =>
      if i > limit then Outcome([], Some(TooLarge(n)))
      else
        var rest := SplitFrom(text[i + 1..], failed, limit, n + 1);
        Outcome([text[..i]] + rest.applied, rest.err)
  }

  lemma SplitMore(p: string, rest: seq<string>, failed: bool, limit: nat, n: nat)
    requires |rest| > 0 && |p| <= limit
    ensures var r := Split(rest, failed, limit, n + 1);
      Split([p] + rest, failed, limit, n) == Outcome([p] + r.applied, r.err)
  {
    var ps := [p] + rest;
    assert ps[1..] == rest;
    match FirstTooLong(rest, limit)
    case Some(k) => assert ps[..k + 1] == [p] + rest[..k];
    case None => assert ps[..|rest|] == [p] + rest[..|rest| - 1];
  }

  lemma SplitTooLong(p: string, rest: seq<string>, failed: bool, limit: nat, n: nat)
    requires |p| > limit
    ensures Split([p] + rest, failed, limit, n) == Outcome([], Some(TooLarge(n)))
  {
    assert ([p] + rest)[..0] == [];
  }

  lemma SplitOne(p: string, failed: bool, limit: nat, n: nat)
    ensures Split([p], failed, limit, n)
            == if |p| > limit then Outcome([], Some(TooLarge(n)))
               else if failed then Outcome([], Some(ReadFailed(n)))
               else Outcome(if p == "" then [] else [p], None)
  {
    assert [p][..0] == [] && [p][1..] == [];
  }

  /** The first newline of a text cuts off its first piece. */
  lemma FirstPiece(text: string, i: nat, failed: bool, limit: nat, n: nat)
    requires IndexByte(text, '\n') == Some(i)
    ensures i < |text| && Pieces(text) == [text[..i]] + Pieces(text[i + 1..])
    ensures SplitFrom(text, failed, limit, n)
            == if i > limit then Outcome([], Some(TooLarge(n)))
               else var rest := SplitFrom(text[i + 1..], failed, limit, n + 1);
                    Outcome([text[..i]] + rest.applied, rest.err)
  {
  }

  lemma {:induction false} SplitFromPieces(text: string, failed: bool, limit: nat, n: nat)
    ensures SplitFrom(text, failed, limit, n) == Split(Pieces(text), failed, limit, n)
    decreases |text|
  {
    match IndexByte(text, '\n')
    case None =>
      SplitOne(text, failed, limit, n);
    case Some(i) =>
      FirstPiece(text, i, failed, limit, n);
      var rest := Pieces(text[i + 1..]);
      if i > limit {
        SplitTooLong(text[..i], rest, failed, limit, n);
      } else {
        SplitFromPieces(text[i + 1..], failed, limit, n + 1);
        SplitMore(text[..i], rest, failed, limit, n);
      }
  }

  /** A first fragment with a newline at its end completes a record. */
  lemma RecordCompleted(record: string, payload: string, rest: string, failed: bool, limit: nat, n: nat)
    requires '\n' !in record && '\n' !in payload
    ensures SplitFrom(record + (payload + "\n" + rest), failed, limit, n)
            == if |record| + |payload| > limit then Outcome([], Some(TooLarge(n)))
               else var r := SplitFrom(rest, failed, limit, n + 1); Outcome([record + payload] + r.applied, r.err)
  {
    var text, i := record + (payload + "\n" + rest), |record| + |payload|;
    assert text[..i] == record + payload && text[i + 1..] == rest;
    IndexByteIs(text, '\n', i);
  }

  lemma NewlineAfter(record: string, rest: string)
    requires '\n' !in record
    ensures IndexByte(record + rest, '\n').Some? ==> IndexByte(record + rest, '\n').value >= |record|
  {
    assert forall j :: 0 <= j < |record| ==> (record + rest)[j] == record[j];
  }

  /** A record that is already too long stays so. */
  lemma AlreadyTooLarge(record: string, rest: string, failed: bool, limit: nat, n: nat)
    requires '\n' !in record && |record| > limit
    ensures SplitFrom(record + rest, failed, limit, n) == Outcome([], Some(TooLarge(n)))
  {
    NewlineAfter(record, rest);
  }

  /** However the buffer cuts the text, the records applied and the error are those
      of splitting the whole text at its newlines. */
  method ReadRecords(fragments: seq<string>, failed: bool, limit: int) returns (r: Outcome)
    requires FromReadSlice(fragments)
    ensures r == if limit <= 0 then Outcome([], Some(BadLimit)) else Split(Pieces(Concat(fragments)), failed, limit, 1)
  {
    if limit <= 0 { return Outcome([], Some(BadLimit)); }
    ghost var whole := SplitFrom(Concat(fragments), failed, limit, 1);
    SplitFromPieces(Concat(fragments), failed, limit, 1);
    var record, recordNumber, applied := "", 1, [];
    var i := 0;
    Begin(fragments, failed, limit);
    while true
      invariant 0 <= i < |fragments|
      invariant '\n' !in record && |record| <= limit
      invariant Remains(record + Concat(fragments[i..]), failed, limit, recordNumber, applied, whole)
      decreases |fragments| - i
    {
      var fragment := fragments[i];
      ghost var rest := Concat(fragments[i + 1..]);
      ConcatMore(fragments, i);
      var hasNewline := |fragment| > 0 && fragment[|fragment| - 1] == '\n';
      var payload := fragment;
      if hasNewline {
        payload := fragment[..|fragment| - 1];
      }
      NextFragment(record, fragment, payload, hasNewline, rest, failed, limit, recordNumber, applied, whole);
      if |record| > limit - |payload| { return Outcome(applied, Some(TooLarge(recordNumber))); }
      record := record + payload;
      if hasNewline {
        applied, record, recordNumber := applied + [record], "", recordNumber + 1;
        i := i + 1;
      } else if i + 1 < |fragments| {
        i := i + 1;
      } else {
        LastFragment(record, rest, failed, limit, recordNumber, applied, whole);
        if failed { return Outcome(applied, Some(ReadFailed(recordNumber))); }
        if |record| > 0 { applied := applied + [record]; }
        return Outcome(applied, None);
      }
    }
  }

  lemma ConcatMore(fragments: seq<string>, i: nat)
    requires i < |fragments|
    ensures Concat(fragments[i..]) == fragments[i] + Concat(fragments[i + 1..])
  {
    assert fragments[i..][1..] == fragments[i + 1..];
  }

  lemma Begin(fragments: seq<string>, failed: bool, limit: nat)
    ensures Remains("" + Concat(fragments[0..]), failed, limit, 1, [], SplitFrom(Concat(fragments), failed, limit, 1))
  {
    var whole := SplitFrom(Concat(fragments), failed, limit, 1);
    assert fragments[0..] == fragments && "" + Concat(fragments) == Concat(fragments);
    assert [] + whole.applied == whole.applied;
  }

  /** One turn of the loop: an error, a completed record, or a longer one. */
  lemma NextFragment(record: string, fragment: string, payload: string, hasNewline: bool, rest: string,
                     failed: bool, limit: nat, n: nat, applied: seq<string>, whole: Outcome)
    requires '\n' !in record && '\n' !in payload
    requires fragment == if hasNewline then payload + "\n" else payload
    requires Remains(record + (fragment + rest), failed, limit, n, applied, whole)
    ensures |record| + |payload| > limit ==> whole == Outcome(applied, Some(TooLarge(n)))
    ensures |record| + |payload| <= limit && hasNewline
            ==> Remains("" + rest, failed, limit, n + 1, applied + [record + payload], whole)
    ensures |record| + |payload| <= limit && !hasNewline
            ==> Remains(record + payload + rest, failed, limit, n, applied, whole)
  {
    assert Extends(applied, SplitFrom(record + (fragment + rest), failed, limit, n), whole);
    assert record + (payload + rest) == record + payload + rest;
    if hasNewline {
      RecordCompleted(record, payload, rest, failed, limit, n);
      assert "" + rest == rest;
      Regroup(applied, record + payload, SplitFrom(rest, failed, limit, n + 1).applied);
    } else if |record| + |payload| > limit {
      AlreadyTooLarge(record + payload, rest, failed, limit, n);
    }
    Regroup(applied, "", []);
  }

  lemma Regroup(applied: seq<string>, record: string, more: seq<string>)
    ensures applied + ([record] + more) == applied + [record] + more && applied + [] == applied
  {
  }

  lemma LastFragment(record: string, rest: string, failed: bool, limit: nat, n: nat, applied: seq<string>,
                     whole: Outcome)
    requires '\n' !in record && |record| <= limit && rest == ""
    requires Remains(record + rest, failed, limit, n, applied, whole)
    ensures whole == if failed then Outcome(applied, Some(ReadFailed(n)))
                     else Outcome(if record == "" then applied else applied + [record], None)
  {
    assert Extends(applied, SplitFrom(record + rest, failed, limit, n), whole);
    assert record + rest == record && applied + [] == applied;
  }

  /** `whole` is what is applied already, and then what splitting the text gives. */
  ghost predicate Remains(text: string, failed: bool, limit: nat, n: nat, applied: seq<string>, whole: Outcome) {
    forall r {:trigger Extends(applied, r, whole)} ::
      r == SplitFrom(text, failed, limit, n) ==> Extends(applied, r, whole)
  }

  predicate Extends(applied: seq<string>, r: Outcome, whole: Outcome) {
    whole == Outcome(applied + r.applied, r.err)
  }
}
