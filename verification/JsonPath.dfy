/** parseSimpleJSONPath of internal/evaluator/multiturn.go, with the grammar that it
    parses: exactly the paths that spell a list of segments. */
module JsonPath {
  import opened Wrappers
  import opened GoText
  import opened Decimal

  const QUOTE := 39 as char

  datatype Segment = Key(key: string) | Index(index: int)

  datatype PathError =
    | NoDollar | EmptyKey | UnterminatedBracket | EmptyBracket | BadBracket | UnsupportedToken

  predicate IsKeyChar(c: char) {
    c == '_' || c == '-' || 'a' <= c <= 'z' || 'A' <= c <= 'Z' || '0' <= c <= '9'
  }

  /** The length of the longest prefix of key characters. */
  function KeyLength(s: string): (n: nat)
    ensures n <= |s| && (forall i :: 0 <= i < n ==> IsKeyChar(s[i])) && (n < |s| ==> !IsKeyChar(s[n]))
  {
    if s == "" || !IsKeyChar(s[0]) then 0 else 1 + KeyLength(s[1..])
  }

  predicate IsQuoteMark(c: char) {
    c == QUOTE || c == '"'
  }

  /** No quotes and no brackets. */
  predicate PlainKey(key: string) {
    forall i :: 0 <= i < |key| ==> !IsQuoteMark(key[i]) && key[i] != '[' && key[i] != ']'
  }

  /** unquoteJSONPathKey. */
  function UnquoteKey(raw: string): Option<string> {
    if |raw| < 2 then None
    else if !IsQuoteMark(raw[0]) || raw[|raw| - 1] != raw[0] then None
    else if !PlainKey(raw[1..|raw| - 1]) then None
    else Some(raw[1..|raw| - 1])
  }

  /** The segment between brackets. */
  function BracketSegment(raw: string): Option<Segment> {
    match UnquoteKey(raw)
    case Some(key) => Some(Key(key))
    case None =>
      match Atoi(raw)
      case Some(n) => Some(Index(n))
      case None => None
  }

  /** The first segment of a text that is not empty, and its length. */
  function FirstSegment(s: string): (r: Result<(Segment, nat), PathError>)
    requires s != ""
    ensures r.Ok? ==> 0 < r.value.1 <= |s|
  {
    if s[0] == '.' then
      var n := KeyLength(s[1..]);
      if n == 0 then Err(EmptyKey) else Ok((Key(s[1..n + 1]), n + 1))
    else if s[0] == '[' then
      match IndexByte(s, ']')
      case None => Err(UnterminatedBracket)
      case Some(end) =>
        var raw := s[1..end];
        if raw == "" then Err(EmptyBracket)
        else
          match BracketSegment(raw)
          case Some(segment) => Ok((segment, end + 1))
          case None => Err(BadBracket)
    else Err(UnsupportedToken)
  }

  type Parsed = Result<seq<Segment>, PathError>

  function Segments(s: string): Parsed
    decreases |s|
  {
    if s == "" then Ok([])
    else
      match FirstSegment(s)
      case Err(e) => Err(e)
      case Ok(first) =>
        match Segments(s[first.1..])
        case Err(e) => Err(e)
        case Ok(rest) => Ok([first.0] + rest)
  }

  /** parseSimpleJSONPath as a function. */
  function Parse(path: string): Parsed {
    if !HasPrefix(path, "$") then Err(NoDollar) else Segments(path[1..])
  }

  /** The body of the loop: the segment that starts here, and where it ends. */
  method NextSegment(s: string) returns (r: Result<(Segment, nat), PathError>)
    requires s != ""
    ensures r == FirstSegment(s)
  {
    if s[0] == '.' {
      var i := 1;
      while i < |s| && IsKeyChar(s[i])
        invariant 1 <= i <= |s|
        invariant forall k :: 1 <= k < i ==> IsKeyChar(s[k])
      {
        i := i + 1;
      }
      KeyLengthIs(s[1..], i - 1);
      if i == 1 { return Err(EmptyKey); }
      return Ok((Key(s[1..i]), i));
    }
    if s[0] == '[' {
      var end := IndexByte(s, ']');
      if end.None? { return Err(UnterminatedBracket); }
      var raw := s[1..end.value];
      if raw == "" { return Err(EmptyBracket); }
      var segment := BracketSegment(raw);
      if segment.None? { return Err(BadBracket); }
      return Ok((segment.value, end.value + 1));
    }
    return Err(UnsupportedToken);
  }

  /** `rest` is the path from the source's index on. */
  method ParseSimpleJSONPath(path: string) returns (r: Parsed)
    ensures r == Parse(path)
  {
    if path == "$" { return Ok([]); }
    if !HasPrefix(path, "$") { return Err(NoDollar); }
    var segments: seq<Segment>, rest := [], path[1..];
    NothingBefore(Segments(rest));
    while rest != ""
      invariant Parse(path) == Following(segments, Segments(rest))
      decreases |rest|
    {
      var first := NextSegment(rest);
      if first.Err? { return Err(first.error); }
      OneSegment(segments, rest);
      segments, rest := segments + [first.value.0], rest[first.value.1..];
    }
    EverythingRead(segments);
    return Ok(segments);
  }

  /** Segments read already, and then the rest. */
  function Following(before: seq<Segment>, r: Parsed): Parsed {
    match r
    case Ok(rest) => Ok(before + rest)
    case Err(e) => Err(e)
  }

  lemma NothingBefore(r: Parsed)
    ensures Following([], r) == r
  {
    if r.Ok? {
      assert [] + r.value == r.value;
    }
  }

  lemma EverythingRead(segments: seq<Segment>)
    ensures Following(segments, Ok([])) == Ok(segments)
  {
    assert segments + [] == segments;
  }

  lemma OneSegment(before: seq<Segment>, s: string)
    requires s != "" && FirstSegment(s).Ok?
    ensures var (segment, n) := FirstSegment(s).value;
      Following(before, Segments(s)) == Following(before + [segment], Segments(s[n..]))
  {
    var (segment, n) := FirstSegment(s).value;
    if Segments(s[n..]).Ok? {
      var rest := Segments(s[n..]).value;
      assert before + ([segment] + rest) == before + [segment] + rest;
    }
  }

  lemma {:induction false} KeyLengthIs(s: string, n: nat)
    requires n <= |s| && (forall i :: 0 <= i < n ==> IsKeyChar(s[i])) && (n < |s| ==> !IsKeyChar(s[n]))
    ensures KeyLength(s) == n
  {
    if n > 0 {
      KeyLengthIs(s[1..], n - 1);
    }
  }

  // The grammar.

  /** A text spells a segment: a dotted key, a quoted key, or a number in brackets. */
  predicate Spells(text: string, segment: Segment) {
    || (text != "" && text[0] == '.' && |text| > 1 && segment == Key(text[1..])
        && forall i :: 1 <= i < |text| ==> IsKeyChar(text[i]))
    || (|text| > 2 && text[0] == '[' && text[|text| - 1] == ']' && ']' !in text[1..|text| - 1]
        && BracketSegment(text[1..|text| - 1]) == Some(segment))
  }

  function ConcatTexts(texts: seq<string>): string {
    if texts == [] then "" else texts[0] + ConcatTexts(texts[1..])
  }

  ghost predicate SpellAll(texts: seq<string>, segments: seq<Segment>) {
    |texts| == |segments| && forall i :: 0 <= i < |texts| ==> Spells(texts[i], segments[i])
  }

  lemma SpellTail(texts: seq<string>, segments: seq<Segment>)
    requires SpellAll(texts, segments) && texts != []
    ensures SpellAll(texts[1..], segments[1..])
  {
  }

  lemma StartsNewSegment(texts: seq<string>, segments: seq<Segment>)
    requires SpellAll(texts, segments)
    ensures ConcatTexts(texts) == "" || !IsKeyChar(ConcatTexts(texts)[0])
  {
    if texts != [] {
      assert Spells(texts[0], segments[0]);
    }
  }

  lemma SliceOfPrefix(text: string, rest: string, a: nat, b: nat)
    requires a <= b <= |text|
    ensures (text + rest)[a..b] == text[a..b]
    ensures (text + rest)[a..] == text[a..] + rest
  {
  }

  /** A spelled segment is read back, whatever segments follow. */
  lemma FirstIsSpelled(text: string, segment: Segment, rest: string)
    requires Spells(text, segment) && (rest == "" || !IsKeyChar(rest[0]))
    ensures FirstSegment(text + rest) == Ok((segment, |text|))
  {
    if text[0] == '.' {
      DotIsSpelled(text, rest);
    } else {
      BracketIsSpelled(text, rest);
    }
  }

  lemma DotIsSpelled(text: string, rest: string)
    requires |text| > 1 && text[0] == '.' && (forall i :: 1 <= i < |text| ==> IsKeyChar(text[i]))
    requires rest == "" || !IsKeyChar(rest[0])
    ensures FirstSegment(text + rest) == Ok((Key(text[1..]), |text|))
  {
    var s := text + rest;
    SliceOfPrefix(text, rest, 1, |text|);
    assert text[1..|text|] == text[1..];
    KeyLengthIs(s[1..], |text| - 1);
  }

  lemma BracketIsSpelled(text: string, rest: string)
    requires |text| > 2 && text[0] == '[' && text[|text| - 1] == ']' && ']' !in text[1..|text| - 1]
    requires BracketSegment(text[1..|text| - 1]).Some?
    ensures FirstSegment(text + rest) == Ok((BracketSegment(text[1..|text| - 1]).value, |text|))
  {
    var s, end := text + rest, |text| - 1;
    SliceOfPrefix(text, rest, 0, end);
    SliceOfPrefix(text, rest, 1, end);
    assert text[0..end] == ['['] + text[1..end];
    assert s[..end] == s[0..end];
    IndexByteIs(s, ']', end);
  }

  lemma {:induction false} SegmentsOfSpelling(texts: seq<string>, segments: seq<Segment>)
    requires SpellAll(texts, segments)
    ensures Segments(ConcatTexts(texts)) == Ok(segments)
    decreases texts
  {
    if texts != [] {
      var rest := ConcatTexts(texts[1..]);
      assert Spells(texts[0], segments[0]);
      SpellTail(texts, segments);
      StartsNewSegment(texts[1..], segments[1..]);
      FirstIsSpelled(texts[0], segments[0], rest);
      assert (texts[0] + rest)[|texts[0]|..] == rest;
      SegmentsOfSpelling(texts[1..], segments[1..]);
      assert [segments[0]] + segments[1..] == segments;
    }
  }

  /** What is read as the first segment spells it. */
  lemma FirstSpells(s: string)
    requires s != "" && FirstSegment(s).Ok?
    ensures Spells(s[..FirstSegment(s).value.1], FirstSegment(s).value.0)
  {
    var n := FirstSegment(s).value.1;
    var text := s[..n];
    if s[0] == '.' {
      assert text[1..] == s[1..n];
      forall i | 1 <= i < n
        ensures IsKeyChar(text[i])
      {
        assert text[i] == s[1..][i - 1];
      }
    } else {
      assert text[1..n - 1] == s[1..n - 1];
      assert forall i :: 1 <= i < n - 1 ==> s[i] == s[..n - 1][i];
    }
  }

  lemma {:induction false} SpellingOfSegments(s: string) returns (texts: seq<string>)
    requires Segments(s).Ok?
    ensures s == ConcatTexts(texts) && SpellAll(texts, Segments(s).value)
    decreases |s|
  {
    if s == "" {
      texts := [];
    } else {
      FirstAndRest(s);
      var (segment, n) := FirstSegment(s).value;
      FirstSpells(s);
      var rest := SpellingOfSegments(s[n..]);
      texts := [s[..n]] + rest;
      SpellOneMore(s[..n], segment, rest, Segments(s[n..]).value);
    }
  }

  lemma FirstAndRest(s: string)
    requires s != "" && Segments(s).Ok?
    ensures FirstSegment(s).Ok?
    ensures var (segment, n) := FirstSegment(s).value;
      s == s[..n] + s[n..] && Segments(s[n..]).Ok? && Segments(s).value == [segment] + Segments(s[n..]).value
  {
  }

  lemma SpellOneMore(text: string, segment: Segment, texts: seq<string>, segments: seq<Segment>)
    requires Spells(text, segment) && SpellAll(texts, segments)
    ensures SpellAll([text] + texts, [segment] + segments)
    ensures ConcatTexts([text] + texts) == text + ConcatTexts(texts)
  {
    assert ([text] + texts)[1..] == texts;
  }

  /** Parsing gives these segments exactly when the path spells them. */
  lemma ParseIsSpelling(path: string, segments: seq<Segment>)
    ensures Parse(path) == Ok(segments)
            <==> exists texts :: SpellAll(texts, segments) && path == "$" + ConcatTexts(texts)
  {
    if Parse(path) == Ok(segments) {
      var texts := SpellingOfSegments(path[1..]);
      assert path == "$" + path[1..];
      assert SpellAll(texts, segments) && path == "$" + ConcatTexts(texts);
    }
    if exists texts :: SpellAll(texts, segments) && path == "$" + ConcatTexts(texts) {
      var texts :| SpellAll(texts, segments) && path == "$" + ConcatTexts(texts);
      SegmentsOfSpelling(texts, segments);
      assert path[1..] == ConcatTexts(texts);
    }
  }

  // The canonical printer.

  /** [n] for an index; .key where the key allows it, and ['key'] elsewhere. */
  function Print(segment: Segment): string {
    match segment
    case Index(n) => "[" + Itoa(n) + "]"
    case Key(key) =>
      if key != "" && forall i :: 0 <= i < |key| ==> IsKeyChar(key[i]) then "." + key
      else [ '[', QUOTE ] + key + [ QUOTE, ']' ]
  }

  predicate Printable(segment: Segment) {
    match segment
    case Index(n) => MIN_INT <= n <= MAX_INT
    case Key(key) => PlainKey(key)
  }

  function PrintAll(segments: seq<Segment>): seq<string> {
    if segments == [] then [] else [Print(segments[0])] + PrintAll(segments[1..])
  }

  lemma QuotedSpells(key: string)
    requires PlainKey(key)
    ensures Spells([ '[', QUOTE ] + key + [ QUOTE, ']' ], Key(key))
  {
    var text := [ '[', QUOTE ] + key + [ QUOTE, ']' ];
    var raw := text[1..|text| - 1];
    assert raw == [QUOTE] + key + [QUOTE];
    assert raw[1..|raw| - 1] == key;
  }

  lemma NumberSpells(n: int)
    requires MIN_INT <= n <= MAX_INT
    ensures Spells("[" + Itoa(n) + "]", Index(n))
  {
    var digits := Itoa(n);
    var text := "[" + digits + "]";
    AtoiInvertsItoa(n);
    assert text[1..|text| - 1] == digits;
    NumeralBytes(n);
    assert !IsQuoteMark(digits[0]);
  }

  lemma NumeralBytes(n: int)
    ensures Itoa(n) != "" && forall c :: c in Itoa(n) ==> c == '-' || '0' <= c <= '9'
  {
  }

  lemma PrintSpells(segment: Segment)
    requires Printable(segment)
    ensures Spells(Print(segment), segment)
  {
    match segment
    case Index(n) => NumberSpells(n);
    case Key(key) =>
      if key != "" && forall i :: 0 <= i < |key| ==> IsKeyChar(key[i]) {
        assert ("." + key)[1..] == key;
      } else {
        QuotedSpells(key);
      }
  }

  lemma {:induction false} PrintAllSpells(segments: seq<Segment>)
    requires forall s :: s in segments ==> Printable(s)
    ensures SpellAll(PrintAll(segments), segments)
  {
    if segments != [] {
      PrintSpells(segments[0]);
      PrintAllSpells(segments[1..]);
      var rest := PrintAll(segments[1..]);
      assert forall i ::
        0 < i < |segments| ==> PrintAll(segments)[i] == rest[i - 1] && segments[i] == segments[1..][i - 1];
    }
  }

  /** Parsing inverts printing. */
  lemma ParseInvertsPrint(segments: seq<Segment>)
    requires forall s :: s in segments ==> Printable(s)
    ensures Parse("$" + ConcatTexts(PrintAll(segments))) == Ok(segments)
  {
    PrintAllSpells(segments);
    ParseIsSpelling("$" + ConcatTexts(PrintAll(segments)), segments);
  }
}
