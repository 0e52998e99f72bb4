/** Shebang lines: the `env -S` tokenizer and its callers in
    internal/judge/interpreter.go, and the shellQuote of
    internal/evaluator/evaluator.go that it undoes. */
module Shebang {
  import opened Wrappers
  import opened GoText

  const NUL := 0 as char
  const QUOTE := 39 as char
  const BACKSLASH := 92 as char

  /** tokenizerState as a value. */
  datatype Scanner = Scanner(
    cur: string, tokens: seq<string>, inSingle: bool, inDouble: bool, started: bool, skipNext: bool, done: bool)

  const START := Scanner("", [], false, false, false, false, false)

  function Flush(s: Scanner): Scanner {
    if s.started then s.(tokens := s.tokens + [s.cur], cur := "", started := false) else s
  }

  function Write(s: Scanner, c: char): Scanner {
    s.(cur := s.cur + [c], started := true)
  }

  predicate IsSpace(c: char) {
    c == ' ' || c == '\t' || c == '\n' || c == 11 as char || c == '\r' || c == 12 as char
  }

  /** env -S escapes that stand for whitespace. */
  predicate IsSpaceEscape(c: char) {
    c == '_' || c == 't' || c == 'n' || c == 'r' || c == 'v' || c == 'f'
  }

  function StepSingle(s: Scanner, c: char): Scanner {
    if c == QUOTE then s.(inSingle := false, started := true) else Write(s, c)
  }

  function StepDouble(s: Scanner, c: char, next: char): Scanner {
    if c == '"' then s.(inDouble := false, started := true)
    else if c == BACKSLASH && (next == '"' || next == BACKSLASH) then Write(s, next).(skipNext := true)
    else Write(s, c)
  }

  /** Outside quotes. A backslash at the end, or before a NUL byte, is dropped. */
  function StepUnquoted(s: Scanner, c: char, next: char): Scanner {
    if IsSpace(c) then Flush(s)
    else if c == QUOTE then s.(inSingle := true, started := true)
    else if c == '"' then s.(inDouble := true, started := true)
    else if c == BACKSLASH then
      if next == NUL then s
      else if next == 'c' then Flush(s).(skipNext := true, done := true)
      else if IsSpaceEscape(next) then Flush(s).(skipNext := true)
      else Write(s, next).(skipNext := true)
    else Write(s, c)
  }

  function Step(s: Scanner, c: char, next: char): Scanner {
    if s.inSingle then StepSingle(s, c)
    else if s.inDouble then StepDouble(s, c, next)
    else StepUnquoted(s, c, next)
  }

  function After(body: string): char {
    if |body| > 1 then body[1] else NUL
  }

  /** The whole loop. */
  function Run(s: Scanner, body: string): Scanner
    decreases body
  {
    if body == "" then s
    else if s.skipNext then Run(s.(skipNext := false), body[1..])
    else
      var t := Step(s, body[0], After(body));
      if t.done then t else Run(t, body[1..])
  }

  datatype TokenizeError = UnterminatedQuote

  /** tokenizeShebangSplitString as a function. */
  function Tokenize(body: string): Result<seq<string>, TokenizeError> {
    var s := Run(START, body);
    if s.inSingle || s.inDouble then Err(UnterminatedQuote) else Ok(Flush(s).tokens)
  }

  class TokenizerState {
    var cur: string
    var tokens: seq<string>
    var inSingle: bool
    var inDouble: bool
    var started: bool
    var skipNext: bool
    var done: bool

    constructor ()
      ensures Value() == START
    {
      cur, tokens, inSingle, inDouble, started, skipNext, done := "", [], false, false, false, false, false;
    }

    ghost function Value(): Scanner
      reads this
    {
      Scanner(cur, tokens, inSingle, inDouble, started, skipNext, done)
    }

    method FlushToken()
      modifies this
      ensures Value() == Flush(old(Value()))
    {
      if started {
        tokens, cur, started := tokens + [cur], "", false;
      }
    }

    method TokenizeStepSingle(c: char)
      modifies this
      ensures Value() == StepSingle(old(Value()), c)
    {
      if c == QUOTE { inSingle := false; } else { cur := cur + [c]; }
      started := true;
    }

    method TokenizeStepDouble(c: char, next: char)
      modifies this
      ensures Value() == StepDouble(old(Value()), c, next)
    {
      if c == '"' {
        inDouble := false;
      } else if c == BACKSLASH && (next == '"' || next == BACKSLASH) {
        cur, skipNext := cur + [next], true;
      } else {
        cur := cur + [c];
      }
      started := true;
    }

    method TokenizeStepUnquoted(c: char, next: char)
      modifies this
      ensures Value() == StepUnquoted(old(Value()), c, next)
    {
      if IsSpace(c) {
        FlushToken();
      } else if c == QUOTE {
        inSingle, started := true, true;
      } else if c == '"' {
        inDouble, started := true, true;
      } else if c == BACKSLASH {
        if next == NUL { return; }
        if next == 'c' {
          FlushToken();
          skipNext, done := true, true;
          return;
        }
        if IsSpaceEscape(next) {
          FlushToken();
        } else {
          cur, started := cur + [next], true;
        }
        skipNext := true;
      } else {
        cur, started := cur + [c], true;
      }
    }
  }

  method TokenizeShebangSplitString(body: string) returns (r: Result<seq<string>, TokenizeError>)
    ensures r == Tokenize(body)
  {
    var s := new TokenizerState();
    var i := 0;
    assert body[0..] == body;
    while i < |body| && !s.done
      invariant 0 <= i <= |body|
      invariant !s.done ==> Run(s.Value(), body[i..]) == Run(START, body)
      invariant s.done ==> s.Value() == Run(START, body)
      decreases |body| - i
    {
      assert body[i..][1..] == body[i + 1..];
      if s.skipNext {
        s.skipNext := false;
        i := i + 1;
        continue;
      }
      var next := NUL;
      if i + 1 < |body| { next := body[i + 1]; }
      if s.inSingle {
        s.TokenizeStepSingle(body[i]);
      } else if s.inDouble {
        s.TokenizeStepDouble(body[i], next);
      } else {
        s.TokenizeStepUnquoted(body[i], next);
      }
      i := i + 1;
    }
    if s.inSingle || s.inDouble { return Err(UnterminatedQuote); }
    s.FlushToken();
    return Ok(s.tokens);
  }

  // Quoting, and back.

  /** strings.ReplaceAll(s, "'", `'\''`). */
  function Escape(s: string): string {
    if s == "" then "" else (if s[0] == QUOTE then [QUOTE, BACKSLASH, QUOTE, QUOTE] else [s[0]]) + Escape(s[1..])
  }

  /** shellQuote. */
  function ShellQuote(s: string): string {
    [QUOTE] + Escape(s) + [QUOTE]
  }

  function QuoteAll(args: seq<string>): seq<string> {
    if args == [] then [] else [ShellQuote(args[0])] + QuoteAll(args[1..])
  }

  /** Inside single quotes, with these tokens done and this one begun. */
  function Inside(tokens: seq<string>, cur: string): Scanner {
    Scanner(cur, tokens, true, false, true, false, false)
  }

  /** Outside quotes, or inside double quotes, where the token has begun. */
  function Outside(tokens: seq<string>, cur: string, started: bool, bare: bool): Scanner {
    Scanner(cur, tokens, false, !bare, started, false, false)
  }

  function Mid(tokens: seq<string>, cur: string, started: bool): Scanner {
    Outside(tokens, cur, started, true)
  }

  function Closed(tokens: seq<string>, cur: string): Scanner {
    Mid(tokens, cur, true)
  }

  /** One byte, when nothing is to be skipped. */
  lemma RunByte(s: Scanner, c: char, rest: string)
    requires !s.skipNext
    ensures var t := Step(s, c, After([c] + rest)); Run(s, [c] + rest) == if t.done then t else Run(t, rest)
  {
    assert ([c] + rest)[1..] == rest;
  }

  /** Close, escaped quote, open again. */
  lemma QuoteInside(tokens: seq<string>, cur: string, rest: string)
    ensures Run(Inside(tokens, cur), [QUOTE, BACKSLASH, QUOTE, QUOTE] + rest)
            == Run(Inside(tokens, cur + [QUOTE]), rest)
  {
    var s := Inside(tokens, cur);
    var r1, r2, r3 := [BACKSLASH, QUOTE, QUOTE] + rest, [QUOTE, QUOTE] + rest, [QUOTE] + rest;
    assert [QUOTE, BACKSLASH, QUOTE, QUOTE] + rest == [QUOTE] + r1;
    assert r1 == [BACKSLASH] + r2 && r2 == [QUOTE] + r3;
    RunByte(s, QUOTE, r1);
    RunByte(Closed(tokens, cur), BACKSLASH, r2);
    var w := Closed(tokens, cur + [QUOTE]);
    assert r2[1..] == r3;
    assert Run(w.(skipNext := true), r2) == Run(w, r3);
    RunByte(w, QUOTE, rest);
  }

  lemma OtherInside(tokens: seq<string>, cur: string, c: char, rest: string)
    requires c != QUOTE
    ensures Run(Inside(tokens, cur), [c] + rest) == Run(Inside(tokens, cur + [c]), rest)
  {
    RunByte(Inside(tokens, cur), c, rest);
  }

  lemma CloseInside(tokens: seq<string>, cur: string, rest: string)
    ensures Run(Inside(tokens, cur), [QUOTE] + rest) == Run(Closed(tokens, cur), rest)
  {
    RunByte(Inside(tokens, cur), QUOTE, rest);
  }

  /** The escaped bytes of s and the closing quote read back as s. */
  lemma {:induction false} EscapeReadsBack(tokens: seq<string>, cur: string, s: string, rest: string)
    ensures Run(Inside(tokens, cur), Escape(s) + ([QUOTE] + rest)) == Run(Closed(tokens, cur + s), rest)
    decreases s
  {
    var tail := [QUOTE] + rest;
    if s == "" {
      EmptySides(tail, cur);
      CloseInside(tokens, cur, rest);
    } else {
      Regroup(s, cur, tail);
      if s[0] == QUOTE {
        QuoteInside(tokens, cur, Escape(s[1..]) + tail);
      } else {
        OtherInside(tokens, cur, s[0], Escape(s[1..]) + tail);
      }
      EscapeReadsBack(tokens, cur + [s[0]], s[1..], rest);
    }
  }

  lemma EmptySides(tail: string, cur: string)
    ensures "" + tail == tail && cur + "" == cur
  {
  }

  lemma Regroup(s: string, cur: string, tail: string)
    requires s != ""
    ensures cur + [s[0]] + s[1..] == cur + s
    ensures Escape(s) + tail
            == (if s[0] == QUOTE then [QUOTE, BACKSLASH, QUOTE, QUOTE] else [s[0]]) + (Escape(s[1..]) + tail)
  {
    RegroupHead(s, cur);
    RegroupThree(if s[0] == QUOTE then [QUOTE, BACKSLASH, QUOTE, QUOTE] else [s[0]], Escape(s[1..]), tail);
  }

  lemma RegroupHead(s: string, cur: string)
    requires s != ""
    ensures cur + [s[0]] + s[1..] == cur + s
  {
  }

  lemma RegroupThree(a: string, b: string, c: string)
    ensures (a + b) + c == a + (b + c)
  {
  }

  /** A quoted text, anywhere outside quotes, reads back as the text. */
  lemma QuoteReadsBack(tokens: seq<string>, cur: string, started: bool, text: string, rest: string)
    ensures Run(Mid(tokens, cur, started), ShellQuote(text) + rest) == Run(Closed(tokens, cur + text), rest)
  {
    var more := Escape(text) + ([QUOTE] + rest);
    assert ShellQuote(text) + rest == [QUOTE] + more;
    RunByte(Mid(tokens, cur, started), QUOTE, more);
    EscapeReadsBack(tokens, cur, text, rest);
  }

  // Double quotes and backslashes, and back.

  /** The bytes that need a backslash, bare or inside double quotes. */
  predicate Escaped(c: char, bare: bool) {
    c == '"' || c == BACKSLASH || (bare && (IsSpace(c) || c == QUOTE))
  }

  function Backslashed(s: string, bare: bool): string {
    if s == "" then ""
    else (if Escaped(s[0], bare) then [BACKSLASH, s[0]] else [s[0]]) + Backslashed(s[1..], bare)
  }

  lemma EscapedByte(tokens: seq<string>, cur: string, started: bool, bare: bool, c: char, rest: string)
    requires Escaped(c, bare) && (started || bare)
    ensures Run(Outside(tokens, cur, started, bare), [BACKSLASH, c] + rest)
            == Run(Outside(tokens, cur + [c], true, bare), rest)
  {
    var s, w := Outside(tokens, cur, started, bare), Outside(tokens, cur + [c], true, bare);
    assert [BACKSLASH, c] + rest == [BACKSLASH] + ([c] + rest);
    RunByte(s, BACKSLASH, [c] + rest);
    assert Step(s, BACKSLASH, c) == w.(skipNext := true);
    assert ([c] + rest)[1..] == rest;
  }

  lemma PlainByte(tokens: seq<string>, cur: string, started: bool, bare: bool, c: char, rest: string)
    requires !Escaped(c, bare) && (started || bare)
    ensures Run(Outside(tokens, cur, started, bare), [c] + rest) == Run(Outside(tokens, cur + [c], true, bare), rest)
  {
    RunByte(Outside(tokens, cur, started, bare), c, rest);
  }

  lemma RegroupBackslashed(s: string, cur: string, tail: string, bare: bool)
    requires s != ""
    ensures cur + [s[0]] + s[1..] == cur + s
    ensures Backslashed(s, bare) + tail
            == (if Escaped(s[0], bare) then [BACKSLASH, s[0]] else [s[0]]) + (Backslashed(s[1..], bare) + tail)
  {
    RegroupHead(s, cur);
    RegroupThree(if Escaped(s[0], bare) then [BACKSLASH, s[0]] else [s[0]], Backslashed(s[1..], bare), tail);
  }

  lemma {:induction false} BackslashedReadsBack(
      tokens: seq<string>, cur: string, started: bool, bare: bool, s: string, rest: string)
    requires started || bare
    ensures Run(Outside(tokens, cur, started, bare), Backslashed(s, bare) + rest)
            == Run(Outside(tokens, cur + s, started || s != "", bare), rest)
    decreases s
  {
    if s == "" {
      EmptySides(rest, cur);
    } else {
      var more := Backslashed(s[1..], bare) + rest;
      RegroupBackslashed(s, cur, rest, bare);
      if Escaped(s[0], bare) {
        EscapedByte(tokens, cur, started, bare, s[0], more);
      } else {
        PlainByte(tokens, cur, started, bare, s[0], more);
      }
      BackslashedReadsBack(tokens, cur + [s[0]], true, bare, s[1..], rest);
    }
  }

  function DoubleQuote(s: string): string {
    "\"" + Backslashed(s, false) + "\""
  }

  lemma DoubleReadsBack(tokens: seq<string>, cur: string, started: bool, text: string, rest: string)
    ensures Run(Mid(tokens, cur, started), DoubleQuote(text) + rest) == Run(Closed(tokens, cur + text), rest)
  {
    var more := Backslashed(text, false) + ("\"" + rest);
    assert DoubleQuote(text) + rest == ['"'] + more;
    RunByte(Mid(tokens, cur, started), '"', more);
    BackslashedReadsBack(tokens, cur, true, false, text, "\"" + rest);
    RunByte(Outside(tokens, cur + text, true, false), '"', rest);
  }

  // Words of any spelling, and back.

  datatype Style = Single | Double | Bare

  datatype Segment = Segment(text: string, style: Style)

  /** A word is spelled piece by piece: a"b c"'d'\ e is one word. */
  type Word = seq<Segment>

  function Spell(g: Segment): string {
    match g.style
    case Single => ShellQuote(g.text)
    case Double => DoubleQuote(g.text)
    case Bare => Backslashed(g.text, true)
  }

  function SpellWord(w: Word): string {
    if w == [] then "" else Spell(w[0]) + SpellWord(w[1..])
  }

  function TextOf(w: Word): string {
    if w == [] then "" else w[0].text + TextOf(w[1..])
  }

  /** There is something to see of the word: an empty one needs quotes. */
  predicate Visible(w: Word) {
    exists i :: 0 <= i < |w| && (w[i].style != Bare || w[i].text != "")
  }

  function SpellAll(ws: seq<Word>): seq<string> {
    if ws == [] then [] else [SpellWord(ws[0])] + SpellAll(ws[1..])
  }

  function Texts(ws: seq<Word>): seq<string> {
    if ws == [] then [] else [TextOf(ws[0])] + Texts(ws[1..])
  }

  lemma SegmentReadsBack(tokens: seq<string>, cur: string, started: bool, g: Segment, rest: string)
    ensures Run(Mid(tokens, cur, started), Spell(g) + rest)
            == Run(Mid(tokens, cur + g.text, started || g.style != Bare || g.text != ""), rest)
  {
    match g.style
    case Single => QuoteReadsBack(tokens, cur, started, g.text, rest);
    case Double => DoubleReadsBack(tokens, cur, started, g.text, rest);
    case Bare => BackslashedReadsBack(tokens, cur, started, true, g.text, rest);
  }

  lemma RegroupWord(w: Word, cur: string, rest: string)
    requires w != []
    ensures SpellWord(w) + rest == Spell(w[0]) + (SpellWord(w[1..]) + rest)
    ensures cur + w[0].text + TextOf(w[1..]) == cur + TextOf(w)
  {
    RegroupThree(Spell(w[0]), SpellWord(w[1..]), rest);
    RegroupThree(cur, w[0].text, TextOf(w[1..]));
  }

  lemma VisibleFromHere(w: Word)
    requires w != []
    ensures Visible(w) <==> w[0].style != Bare || w[0].text != "" || Visible(w[1..])
  {
    var more := w[1..];
    if Visible(more) {
      var i :| 0 <= i < |more| && (more[i].style != Bare || more[i].text != "");
      assert w[i + 1] == more[i];
    }
    if Visible(w) {
      var i :| 0 <= i < |w| && (w[i].style != Bare || w[i].text != "");
      assert i > 0 ==> more[i - 1] == w[i];
    }
  }

  lemma {:induction false} WordReadsBack(tokens: seq<string>, cur: string, started: bool, w: Word, rest: string)
    ensures Run(Mid(tokens, cur, started), SpellWord(w) + rest)
            == Run(Mid(tokens, cur + TextOf(w), started || Visible(w)), rest)
    decreases w
  {
    if w == [] {
      EmptySides(rest, cur);
    } else {
      var begun := started || w[0].style != Bare || w[0].text != "";
      RegroupWord(w, cur, rest);
      VisibleFromHere(w);
      SegmentReadsBack(tokens, cur, started, w[0], SpellWord(w[1..]) + rest);
      WordReadsBack(tokens, cur + w[0].text, begun, w[1..], rest);
    }
  }

  lemma VisibleReadsBack(tokens: seq<string>, w: Word, rest: string)
    requires Visible(w)
    ensures Run(Mid(tokens, "", false), SpellWord(w) + rest) == Run(Closed(tokens, TextOf(w)), rest)
  {
    WordReadsBack(tokens, "", false, w, rest);
    assert "" + TextOf(w) == TextOf(w);
  }

  // What stands between words and after them.

  /** A separator byte, or a backslash and the name of one. */
  datatype Separator = Plain(c: char) | Named(c: char)

  predicate IsSeparator(p: Separator) {
    match p
    case Plain(c) => IsSpace(c)
    case Named(c) => IsSpaceEscape(c)
  }

  type Gap = seq<Separator>

  function SeparatorText(p: Separator): string {
    match p
    case Plain(c) => [c]
    case Named(c) => [BACKSLASH, c]
  }

  function GapText(gap: Gap): string {
    if gap == [] then "" else SeparatorText(gap[0]) + GapText(gap[1..])
  }

  predicate IsGap(gap: Gap) {
    forall i :: 0 <= i < |gap| ==> IsSeparator(gap[i])
  }

  /** How a line ends: with the last gap, with `\c` and a rest that is ignored, or with a
      backslash that escapes nothing. */
  datatype Ending = NothingMore | Stop(ignored: string) | LoneBackslash

  function EndingText(ending: Ending): string {
    match ending
    case NothingMore => ""
    case Stop(ignored) => [BACKSLASH, 'c'] + ignored
    case LoneBackslash => [BACKSLASH]
  }

  /** Each word and the gap after it, and then the ending. */
  function LineText(ws: seq<Word>, gaps: seq<Gap>, ending: Ending): string
    requires |gaps| == |ws|
    decreases ws
  {
    if ws == [] then EndingText(ending)
    else SpellWord(ws[0]) + (GapText(gaps[0]) + LineText(ws[1..], gaps[1..], ending))
  }

  /** Only after the last word the gap may be empty. */
  predicate Separates(gaps: seq<Gap>) {
    && (forall i :: 0 <= i < |gaps| ==> IsGap(gaps[i]))
    && forall i :: 0 <= i < |gaps| - 1 ==> gaps[i] != []
  }

  /** A separator ends the token before it, if there is one. */
  lemma SeparatorReadsBack(tokens: seq<string>, cur: string, started: bool, p: Separator, rest: string)
    requires IsSeparator(p) && (!started ==> cur == "")
    ensures Run(Mid(tokens, cur, started), SeparatorText(p) + rest)
            == Run(Mid(if started then tokens + [cur] else tokens, "", false), rest)
  {
    var s := Mid(tokens, cur, started);
    match p
    case Plain(c) =>
      RunByte(s, c, rest);
    case Named(c) =>
      assert [BACKSLASH, c] + rest == [BACKSLASH] + ([c] + rest);
      RunByte(s, BACKSLASH, [c] + rest);
      assert ([c] + rest)[1..] == rest;
  }

  lemma RegroupGap(gap: Gap, rest: string)
    requires gap != []
    ensures GapText(gap) + rest == SeparatorText(gap[0]) + (GapText(gap[1..]) + rest)
  {
    RegroupThree(SeparatorText(gap[0]), GapText(gap[1..]), rest);
  }

  lemma {:induction false} GapReadsBack(tokens: seq<string>, cur: string, started: bool, gap: Gap, rest: string)
    requires IsGap(gap) && (!started ==> cur == "") && (gap == [] ==> !started)
    ensures Run(Mid(tokens, cur, started), GapText(gap) + rest)
            == Run(Mid(if started then tokens + [cur] else tokens, "", false), rest)
    decreases gap
  {
    if gap == [] {
      EmptySides(rest, cur);
    } else {
      RegroupGap(gap, rest);
      SeparatorReadsBack(tokens, cur, started, gap[0], GapText(gap[1..]) + rest);
      GapReadsBack(if started then tokens + [cur] else tokens, "", false, gap[1..], rest);
    }
  }

  /** An ending adds nothing, whatever it ignores. */
  lemma EndingReadsBack(tokens: seq<string>, cur: string, started: bool, ending: Ending)
    ensures var s := Run(Mid(tokens, cur, started), EndingText(ending));
      && Flush(s).tokens == (if started then tokens + [cur] else tokens)
      && !s.inSingle && !s.inDouble
  {
    var s := Mid(tokens, cur, started);
    match ending
    case NothingMore =>
    case Stop(ignored) =>
      assert EndingText(ending) == [BACKSLASH] + (['c'] + ignored);
      RunByte(s, BACKSLASH, ['c'] + ignored);
    case LoneBackslash =>
      assert [BACKSLASH] + "" == [BACKSLASH];
      RunByte(s, BACKSLASH, "");
  }

  lemma TextsMore(tokens: seq<string>, ws: seq<Word>)
    requires ws != []
    ensures tokens + [TextOf(ws[0])] + Texts(ws[1..]) == tokens + Texts(ws)
  {
  }

  /** One word and the gap after it. */
  lemma WordAndGap(tokens: seq<string>, w: Word, gap: Gap, rest: string)
    requires Visible(w) && IsGap(gap) && gap != []
    ensures Run(Mid(tokens, "", false), SpellWord(w) + (GapText(gap) + rest))
            == Run(Mid(tokens + [TextOf(w)], "", false), rest)
  {
    VisibleReadsBack(tokens, w, GapText(gap) + rest);
    GapReadsBack(tokens, TextOf(w), true, gap, rest);
  }

  lemma WordAndEnding(tokens: seq<string>, w: Word, ending: Ending)
    requires Visible(w)
    ensures var s := Run(Mid(tokens, "", false), SpellWord(w) + (GapText([]) + EndingText(ending)));
      Flush(s).tokens == tokens + [TextOf(w)] && !s.inSingle && !s.inDouble
  {
    EmptySides(EndingText(ending), "");
    VisibleReadsBack(tokens, w, EndingText(ending));
    EndingReadsBack(tokens, TextOf(w), true, ending);
  }

  lemma {:induction false} LineReadsBack(tokens: seq<string>, ws: seq<Word>, gaps: seq<Gap>, ending: Ending)
    requires |gaps| == |ws| && Separates(gaps) && forall w :: w in ws ==> Visible(w)
    ensures var s := Run(Mid(tokens, "", false), LineText(ws, gaps, ending));
      Flush(s).tokens == tokens + Texts(ws) && !s.inSingle && !s.inDouble
    decreases ws
  {
    if ws == [] {
      EndingReadsBack(tokens, "", false, ending);
    } else {
      assert ws[0] in ws;
      TextsMore(tokens, ws);
      if gaps[0] == [] {
        WordAndEnding(tokens, ws[0], ending);
      } else {
        WordAndGap(tokens, ws[0], gaps[0], LineText(ws[1..], gaps[1..], ending));
        LineReadsBack(tokens + [TextOf(ws[0])], ws[1..], gaps[1..], ending);
      }
    }
  }

  /** Words in any spelling, separated by any separators or escaped separators, and then
      perhaps `\c` and anything, or a last backslash: tokenizing gives back exactly the
      words' texts. */
  lemma TokenizeInvertsLine(lead: Gap, ws: seq<Word>, gaps: seq<Gap>, ending: Ending)
    requires IsGap(lead) && |gaps| == |ws| && Separates(gaps) && forall w :: w in ws ==> Visible(w)
    ensures Tokenize(GapText(lead) + LineText(ws, gaps, ending)) == Ok(Texts(ws))
  {
    GapReadsBack([], "", false, lead, LineText(ws, gaps, ending));
    LineReadsBack([], ws, gaps, ending);
    assert [] + Texts(ws) == Texts(ws);
  }

  /** Before a NUL byte a backslash is dropped, and the NUL byte is kept. */
  lemma BackslashBeforeNul(tokens: seq<string>, cur: string, started: bool, rest: string)
    ensures Run(Mid(tokens, cur, started), [BACKSLASH, NUL] + rest) == Run(Closed(tokens, cur + [NUL]), rest)
  {
    assert [BACKSLASH, NUL] + rest == [BACKSLASH] + ([NUL] + rest);
    RunByte(Mid(tokens, cur, started), BACKSLASH, [NUL] + rest);
    RunByte(Mid(tokens, cur, started), NUL, rest);
  }

  /** A space after every word but the last. */
  function SpaceGaps(n: nat): seq<Gap> {
    if n == 0 then [] else if n == 1 then [[]] else [[Plain(' ')]] + SpaceGaps(n - 1)
  }

  lemma {:induction false} SpaceGapsSeparate(n: nat)
    ensures |SpaceGaps(n)| == n && Separates(SpaceGaps(n))
  {
    if n > 1 {
      SpaceGapsSeparate(n - 1);
      var gaps := SpaceGaps(n);
      assert gaps[1..] == SpaceGaps(n - 1);
      assert forall i :: 0 < i < n ==> gaps[i] == SpaceGaps(n - 1)[i - 1];
    }
  }

  lemma {:induction false} JoinIsLine(ws: seq<Word>)
    ensures |SpaceGaps(|ws|)| == |ws| && Join(SpellAll(ws), ' ') == LineText(ws, SpaceGaps(|ws|), NothingMore)
    decreases ws
  {
    SpaceGapsSeparate(|ws|);
    if |ws| == 1 {
      OneWordLine(ws[0]);
      assert ws == [ws[0]];
    } else if |ws| > 1 {
      JoinIsLine(ws[1..]);
      JoinSpelled(ws);
      SpaceGap();
      assert SpaceGaps(|ws|)[1..] == SpaceGaps(|ws| - 1);
    }
  }

  lemma OneWordLine(w: Word)
    ensures Join(SpellAll([w]), ' ') == LineText([w], SpaceGaps(1), NothingMore)
  {
    var gaps: seq<Gap> := [[]];
    assert [w][1..] == [] && gaps[1..] == [];
    EmptySides("", SpellWord(w));
  }

  lemma SpaceGap()
    ensures GapText([Plain(' ')]) == [' ']
  {
    assert [Plain(' ')][1..] == [];
  }

  lemma JoinSpelled(ws: seq<Word>)
    requires |ws| > 1
    ensures Join(SpellAll(ws), ' ') == SpellWord(ws[0]) + ([' '] + Join(SpellAll(ws[1..]), ' '))
  {
    assert SpellAll(ws)[1..] == SpellAll(ws[1..]);
    assert |SpellAll(ws[1..])| > 0;
  }

  /** However words are spelled, with single quotes, double quotes and backslashes in any
      mixture, tokenizing them gives back exactly their texts. */
  lemma TokenizeInvertsSpelling(ws: seq<Word>)
    requires forall w :: w in ws ==> Visible(w)
    ensures Tokenize(Join(SpellAll(ws), ' ')) == Ok(Texts(ws))
  {
    JoinIsLine(ws);
    SpaceGapsSeparate(|ws|);
    TokenizeInvertsLine([], ws, SpaceGaps(|ws|), NothingMore);
    assert GapText([]) + Join(SpellAll(ws), ' ') == Join(SpellAll(ws), ' ');
  }

  function QuotedWords(args: seq<string>): seq<Word> {
    if args == [] then [] else [[Segment(args[0], Single)]] + QuotedWords(args[1..])
  }

  lemma OneSegment(arg: string)
    ensures var w := [Segment(arg, Single)]; SpellWord(w) == ShellQuote(arg) && TextOf(w) == arg && Visible(w)
  {
    var w := [Segment(arg, Single)];
    assert w[1..] == [] && SpellWord(w[1..]) == "" && TextOf(w[1..]) == "";
    assert ShellQuote(arg) + "" == ShellQuote(arg) && arg + "" == arg;
    assert w[0].style != Bare;
  }

  lemma {:induction false} QuotedWordsAre(args: seq<string>)
    ensures SpellAll(QuotedWords(args)) == QuoteAll(args) && Texts(QuotedWords(args)) == args
    ensures forall w :: w in QuotedWords(args) ==> Visible(w)
  {
    if args != [] {
      OneSegment(args[0]);
      QuotedWordsAre(args[1..]);
      assert QuotedWords(args)[1..] == QuotedWords(args[1..]);
      assert args == [args[0]] + args[1..];
    }
  }

  /** Quoting arguments, joining them with spaces and tokenizing gives back exactly
      the arguments, whatever bytes they hold. */
  lemma TokenizeInvertsQuote(args: seq<string>)
    ensures Tokenize(Join(QuoteAll(args), ' ')) == Ok(args)
  {
    QuotedWordsAre(args);
    TokenizeInvertsSpelling(QuotedWords(args));
  }

  // The interpreter.

  datatype Interpreter = NoInterpreter | Interpreter(name: string, options: seq<string>)

  function TrimSlashes(path: string): string {
    if path != "" && path[|path| - 1] == '/' then TrimSlashes(path[..|path| - 1]) else path
  }

  function AfterLastSlash(path: string): string {
    match IndexByte(path, '/')
    case None => path
    case Some(i) => AfterLastSlash(path[i + 1..])
  }

  /** filepath.Base. */
  function Base(path: string): string {
    if path == "" then "."
    else
      var name := AfterLastSlash(TrimSlashes(path));
      if name == "" then "/" else name
  }

  predicate IsNameByte(c: char, first: bool) {
    c == '_' || 'A' <= c <= 'Z' || 'a' <= c <= 'z' || (!first && '0' <= c <= '9')
  }

  predicate IsEnvAssignment(token: string) {
    match IndexByte(token, '=')
    case None => false
    case Some(eq) => eq > 0 && forall i :: 0 <= i < eq ==> IsNameByte(token[i], i == 0)
  }

  function InterpreterOf(args: seq<string>): Interpreter {
    if args == [] then NoInterpreter
    else if IsEnvAssignment(args[0]) then InterpreterOf(args[1..])
    else Interpreter(Base(args[0]), args[1..])
  }

  method InterpreterFromArgs(args: seq<string>) returns (r: Interpreter)
    ensures r == InterpreterOf(args)
  {
    var i := 0;
    assert args[0..] == args;
    while i < |args| && IsEnvAssignment(args[i])
      invariant 0 <= i <= |args|
      invariant InterpreterOf(args) == InterpreterOf(args[i..])
    {
      assert args[i..][1..] == args[i + 1..];
      i := i + 1;
    }
    if i >= |args| { return NoInterpreter; }
    assert args[i..][1..] == args[i + 1..];
    return Interpreter(Base(args[i]), args[i + 1..]);
  }

  function SplitStringInterpreter(body: string): Interpreter {
    match Tokenize(body)
    case Err(_) => NoInterpreter
    case Ok(tokens) => InterpreterOf(tokens)
  }

  /** A quoted command line gives the interpreter and arguments that the unquoted
      list gives, and in particular args[0] and the rest when args[0] assigns nothing. */
  lemma QuotedInterpreter(args: seq<string>)
    ensures SplitStringInterpreter(Join(QuoteAll(args), ' ')) == InterpreterOf(args)
    ensures args != [] && !IsEnvAssignment(args[0])
            ==> SplitStringInterpreter(Join(QuoteAll(args), ' ')) == Interpreter(Base(args[0]), args[1..])
  {
    TokenizeInvertsQuote(args);
  }

  predicate TakesValue(flag: string) {
    flag == "-u" || flag == "-C" || flag == "-a" || flag == "--unset" || flag == "--chdir" || flag == "--argv0"
  }

  /** What follows a compact -S, joined with the tokens after it. */
  function Rejoined(rest: string, args: seq<string>): string {
    if args == [] then rest
    else (if rest == "" then "" else rest + [' ']) + Join(args, ' ')
  }

  /** parseEnvShebang as a function. */
  function EnvShebang(args: seq<string>): Interpreter
    decreases |args|
  {
    if args == [] then NoInterpreter
    else
      var f := args[0];
      if f == "-S" || f == "--split-string" then SplitStringInterpreter(Join(args[1..], ' '))
      else if HasPrefix(f, "--split-string=") then SplitStringInterpreter(Rejoined(f[15..], args[1..]))
      else if HasPrefix(f, "-S") then SplitStringInterpreter(Rejoined(f[2..], args[1..]))
      else if TakesValue(f) then (if |args| < 2 then NoInterpreter else EnvShebang(args[2..]))
      else if HasPrefix(f, "-") then EnvShebang(args[1..])
      else InterpreterOf(args)
  }

  method ParseEnvShebang(args: seq<string>) returns (r: Interpreter)
    ensures r == EnvShebang(args)
  {
    var i := 0;
    assert args[0..] == args;
    while i < |args|
      invariant 0 <= i
      invariant EnvShebang(args) == if i < |args| then EnvShebang(args[i..]) else NoInterpreter
      decreases |args| - i
    {
      var f := args[i];
      assert args[i..][1..] == args[i + 1..];
      if f == "-S" || f == "--split-string" {
        return SplitStringInterpreter(Join(args[i + 1..], ' '));
      } else if HasPrefix(f, "--split-string=") {
        var rest := f[15..];
        if i + 1 < |args| {
          if rest != "" { rest := rest + [' ']; }
          rest := rest + Join(args[i + 1..], ' ');
        }
        return SplitStringInterpreter(rest);
      } else if HasPrefix(f, "-S") {
        var rest := f[2..];
        if i + 1 < |args| {
          if rest != "" { rest := rest + [' ']; }
          rest := rest + Join(args[i + 1..], ' ');
        }
        return SplitStringInterpreter(rest);
      } else if TakesValue(f) {
        if i + 2 <= |args| {
          assert args[i..][2..] == args[i + 2..];
        }
        i := i + 2;
      } else if HasPrefix(f, "-") {
        i := i + 1;
      } else {
        r := InterpreterFromArgs(args[i..]);
        return;
      }
    }
    return NoInterpreter;
  }

  /** The split, long compact and compact spellings of -S mean the same. */
  lemma SplitSpellingsAgree(x: string, more: seq<string>)
    ensures EnvShebang(["-S" + x] + more) == EnvShebang(["-S", x] + more)
    ensures EnvShebang(["--split-string=" + x] + more) == EnvShebang(["-S", x] + more)
    ensures EnvShebang(["--split-string", x] + more) == EnvShebang(["-S", x] + more)
  {
    assert (["-S", x] + more)[1..] == [x] + more && (["--split-string", x] + more)[1..] == [x] + more;
    JoinOne(x, more);
    CompactSplit(x, more);
    LongSplit(x, more);
  }

  lemma LeadingSpace(body: string)
    ensures Tokenize([' '] + body) == Tokenize(body)
  {
    RunByte(START, ' ', body);
  }

  /** An empty body before more tokens leaves only a space. */
  lemma JoinOne(x: string, more: seq<string>)
    ensures SplitStringInterpreter(Rejoined(x, more)) == SplitStringInterpreter(Join([x] + more, ' '))
  {
    assert ([x] + more)[1..] == more;
    if x == "" && more != [] {
      var rest := Join(more, ' ');
      assert "" + [' '] + rest == [' '] + rest && "" + rest == rest;
      LeadingSpace(rest);
    }
  }

  lemma BareSplit(more: seq<string>)
    ensures EnvShebang(["-S"] + more) == SplitStringInterpreter(Rejoined("", more))
  {
    assert (["-S"] + more)[1..] == more && "" + Join(more, ' ') == Join(more, ' ');
  }

  lemma CompactSplit(x: string, more: seq<string>)
    ensures EnvShebang(["-S" + x] + more) == SplitStringInterpreter(Rejoined(x, more))
  {
    var f := "-S" + x;
    if x == "" {
      assert f == "-S";
      BareSplit(more);
    } else {
      assert f[1] == 'S' && f[2..] == x && ([f] + more)[1..] == more;
    }
  }

  lemma LongSplit(x: string, more: seq<string>)
    ensures EnvShebang(["--split-string=" + x] + more) == SplitStringInterpreter(Rejoined(x, more))
  {
    var f := "--split-string=" + x;
    assert |f| >= 15 && f[15..] == x && ([f] + more)[1..] == more;
  }
}
