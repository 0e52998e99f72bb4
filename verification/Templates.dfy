/** ${...} references: internal/customengine/template_token.go, the configuration-time
    resolver of internal/config/customengine.go and the run-time renderer of
    internal/agent/custom.go. */
module Templates {
  import opened Wrappers
  import opened GoText

  /** strings.Index for a pattern of two bytes. */
  function IndexPair(s: string, a: char, b: char): (r: Option<nat>)
    ensures r.Some? ==> r.value + 2 <= |s| && s[r.value] == a && s[r.value + 1] == b
  {
    if |s| < 2 then None
    else if s[0] == a && s[1] == b then Some(0)
    else
      match IndexPair(s[1..], a, b)
      case None => None
      case Some(i) => Some(i + 1)
  }

  datatype TemplateToken = TemplateToken(
    name: string, fallback: string, errMsg: string, hasDefault: bool, hasErrForm: bool)

  /** ":-" is looked for before "?". */
  function ParseTemplateToken(inner: string): TemplateToken {
    match IndexPair(inner, ':', '-')
    case Some(i) => TemplateToken(inner[..i], inner[i + 2..], "", true, false)
    case None =>
      match IndexByte(inner, '?')
      case Some(i) => TemplateToken(inner[..i], "", inner[i + 1..], false, true)
      case None => TemplateToken(inner, "", "", false, false)
  }

  const BUILTINS: set<string> := {
    "workspace", "prompt", "messages", "messages_json", "session_input", "session_input_json",
    "input_file", "output_file", "model", "model_provider", "model_name", "api_key", "case_id",
    "variant", "max_turns", "timeout_seconds", "kwargs", "kwargs_json"}

  predicate IsBuiltinTemplateVar(name: string) {
    HasPrefix(name, "kwargs.") || name in BUILTINS
  }

  type Environment = map<string, string>

  /** os.Getenv. */
  function Getenv(env: Environment, name: string): string {
    if name in env then env[name] else ""
  }

  datatype TemplateError = Required(name: string, message: string) | NotSet(name: string) | Unresolved(name: string)

  /** The test that tells built-in variables from the others is an argument of most
      functions here; Resolve uses IsBuiltinTemplateVar. */
  type Builtins = string -> bool

  /** resolveEnvToken outside strict mode; a built-in reference stays as it is. */
  function ResolveEnvToken(inner: string, builtin: Builtins, env: Environment): Result<string, TemplateError> {
    var token := ParseTemplateToken(inner);
    if builtin(token.name) then Ok("${" + inner + "}")
    else if Getenv(env, token.name) != "" then Ok(Getenv(env, token.name))
    else if token.hasDefault then Ok(token.fallback)
    else if token.hasErrForm then Err(Required(token.name, token.errMsg))
    else Err(NotSet(token.name))
  }

  /** resolveTemplateToken. */
  function ResolveTemplateToken(inner: string, vars: map<string, string>,
                                env: Environment): Result<string, TemplateError> {
    var token := ParseTemplateToken(inner);
    if token.name in vars && (vars[token.name] != "" || (!token.hasDefault && !token.hasErrForm))
    then Ok(vars[token.name])
    else if Getenv(env, token.name) != "" then Ok(Getenv(env, token.name))
    else if token.hasDefault then Ok(token.fallback)
    else if token.hasErrForm then Err(Required(token.name, token.errMsg))
    else if HasPrefix(token.name, "kwargs.") then Ok("")
    else Err(Unresolved(token.name))
  }

  /** What the two loops see next: the first terminated reference, or the end. The
      source looks for '}' from the "${" on; neither of its two bytes is one. */
  datatype Piece = End(text: string) | Reference(before: string, inner: string, rest: string)

  function NextPiece(s: string): (p: Piece)
    ensures p.Reference? ==> |p.rest| + 3 <= |s| && s[|s| - |p.rest|..] == p.rest && '}' !in p.inner
    ensures p.End? ==> p.text == s
  {
    match IndexPair(s, '$', '{')
    case None => End(s)
    case Some(i) =>
      var tail := s[i + 2..];
      match IndexByte(tail, '}')
      case None => End(s)
      case Some(k) => Reference(s[..i], tail[..k], tail[k + 1..])
  }

  type Outcome = Result<string, TemplateError>

  function Prepend(p: string, r: Outcome): Outcome {
    match r
    case Ok(v) => Ok(p + v)
    case Err(e) => Err(e)
  }

  lemma PrependNothing(r: Outcome)
    ensures Prepend("", r) == r
  {
    if r.Ok? {
      assert "" + r.value == r.value;
    }
  }

  lemma PrependTwice(p: string, q: string, r: Outcome)
    ensures Prepend(p, Prepend(q, r)) == Prepend(p + q, r)
  {
    if r.Ok? {
      assert p + (q + r.value) == (p + q) + r.value;
    }
  }

  /** Replace every terminated reference, left to right; the first failure counts. */
  function Expand(s: string, value: string -> Outcome): Outcome
    decreases |s|
  {
    match NextPiece(s)
    case End(text) => Ok(text)
    case Reference(before, inner, rest) =>
      match value(inner)
      case Err(e) => Err(e)
      case Ok(v) => Prepend(before + v, Expand(rest, value))
  }

  function EnvToken(builtin: Builtins, env: Environment): string -> Outcome {
    inner => ResolveEnvToken(inner, builtin, env)
  }

  function RunToken(vars: map<string, string>, env: Environment): string -> Outcome {
    inner => ResolveTemplateToken(inner, vars, env)
  }

  /** resolveEnvRefs. */
  function Resolve(s: string, env: Environment): Outcome {
    Expand(s, EnvToken(IsBuiltinTemplateVar, env))
  }

  /** renderTemplate. */
  function Render(s: string, vars: map<string, string>, env: Environment): Outcome {
    Expand(s, RunToken(vars, env))
  }

  /** The loop of both, which differ only in what a reference becomes. `rest` is
      what is left from the source's index on. */
  method ExpandLoop(s: string, value: string -> Outcome) returns (r: Outcome)
    ensures r == Expand(s, value)
  {
    var out, rest := "", s;
    PrependNothing(Expand(s, value));
    while rest != ""
      invariant Expand(s, value) == Prepend(out, Expand(rest, value))
      decreases |rest|
    {
      var piece := NextPiece(rest);
      ExpandNext(rest, value, out);
      if piece.End? { return Ok(out + piece.text); }
      var v := value(piece.inner);
      if v.Err? { return Err(v.error); }
      out, rest := out + piece.before + v.value, piece.rest;
    }
    assert out + "" == out;
    return Ok(out);
  }

  lemma ExpandNext(s: string, value: string -> Outcome, out: string)
    ensures Prepend(out, Expand(s, value)) == match NextPiece(s)
      case End(text) => Ok(out + text)
      case Reference(before, inner, rest) =>
        match value(inner)
        case Err(e) => Err(e)
        case Ok(v) => Prepend(out + before + v, Expand(rest, value))
  {
    if NextPiece(s).Reference? && value(NextPiece(s).inner).Ok? {
      var before, v := NextPiece(s).before, value(NextPiece(s).inner).value;
      PrependTwice(out, before + v, Expand(NextPiece(s).rest, value));
      Associate(out, before, v);
    }
  }

  lemma Associate(a: string, b: string, c: string)
    ensures a + (b + c) == a + b + c
  {
  }

  method ResolveEnvRefs(s: string, env: Environment) returns (r: Outcome)
    ensures r == Resolve(s, env)
  {
    if IndexPair(s, '$', '{').None? { return Ok(s); }
    r := ExpandLoop(s, EnvToken(IsBuiltinTemplateVar, env));
  }

  method RenderTemplate(s: string, vars: map<string, string>, env: Environment) returns (r: Outcome)
    ensures r == Render(s, vars, env)
  {
    if IndexPair(s, '$', '{').None? { return Ok(s); }
    r := ExpandLoop(s, RunToken(vars, env));
  }

  // A resolved template, before it is flattened: bytes that are now fixed, and the
  // built-in references that were left alone.

  datatype Item = Byte(c: char) | Builtin(inner: string)

  function Bytes(s: string): seq<Item> {
    if s == "" then [] else [Byte(s[0])] + Bytes(s[1..])
  }

  type ItemsOutcome = Result<seq<Item>, TemplateError>

  function TokenItems(builtin: Builtins, env: Environment): string -> ItemsOutcome {
    inner =>
      if builtin(ParseTemplateToken(inner).name) then Ok([Builtin(inner)])
      else
        match ResolveEnvToken(inner, builtin, env)
        case Ok(value) => Ok(Bytes(value))
        case Err(e) => Err(e)
  }

  /** The items of a template, given those of each reference. */
  function Items(s: string, items: string -> ItemsOutcome): ItemsOutcome
    decreases |s|
  {
    match NextPiece(s)
    case End(text) => Ok(Bytes(text))
    case Reference(before, inner, rest) =>
      match items(inner)
      case Err(e) => Err(e)
      case Ok(value) =>
        match Items(rest, items)
        case Err(e) => Err(e)
        case Ok(more) => Ok(Bytes(before) + value + more)
  }

  /** The text of one item, which Resolve writes out. */
  function Text(item: Item): string {
    match item
    case Byte(c) => [c]
    case Builtin(inner) => "${" + inner + "}"
  }

  function Flat(items: seq<Item>): string {
    if items == [] then "" else Text(items[0]) + Flat(items[1..])
  }

  /** The value of one item, which Render of the unresolved template writes out. */
  function ItemValue(item: Item, value: string -> Outcome): Outcome {
    match item
    case Byte(c) => Ok([c])
    case Builtin(inner) => value(inner)
  }

  function Value(items: seq<Item>, value: string -> Outcome): Outcome {
    if items == [] then Ok("")
    else
      match ItemValue(items[0], value)
      case Err(e) => Err(e)
      case Ok(v) => Prepend(v, Value(items[1..], value))
  }

  lemma {:induction false} FlatConcat(a: seq<Item>, b: seq<Item>)
    ensures Flat(a + b) == Flat(a) + Flat(b)
  {
    if a == [] {
      assert a + b == b;
    } else {
      assert (a + b)[1..] == a[1..] + b;
      FlatConcat(a[1..], b);
    }
  }

  lemma {:induction false} FlatBytes(s: string)
    ensures Flat(Bytes(s)) == s
  {
    if s != "" {
      assert Bytes(s)[1..] == Bytes(s[1..]);
      FlatBytes(s[1..]);
    }
  }

  lemma {:induction false} ValueConcat(a: seq<Item>, b: seq<Item>, value: string -> Outcome)
    ensures Value(a, value).Ok? ==> Value(a + b, value) == Prepend(Value(a, value).value, Value(b, value))
    ensures Value(a, value).Err? ==> Value(a + b, value).Err?
  {
    if a == [] {
      assert a + b == b;
      PrependNothing(Value(b, value));
    } else {
      assert (a + b)[1..] == a[1..] + b;
      ValueConcat(a[1..], b, value);
      if ItemValue(a[0], value).Ok? && Value(a[1..], value).Ok? {
        PrependTwice(ItemValue(a[0], value).value, Value(a[1..], value).value, Value(b, value));
      }
    }
  }

  lemma {:induction false} ValueBytes(s: string, value: string -> Outcome)
    ensures Value(Bytes(s), value) == Ok(s)
  {
    if s != "" {
      assert Bytes(s)[1..] == Bytes(s[1..]);
      ValueBytes(s[1..], value);
      assert [s[0]] + s[1..] == s;
    }
  }

  /** Resolve writes out the items. */
  lemma {:induction false} ExpandIsFlat(s: string, value: string -> Outcome, items: string -> ItemsOutcome)
    requires forall inner {:trigger items(inner)} {:trigger value(inner)} ::
      if items(inner).Ok? then value(inner) == Ok(Flat(items(inner).value)) else value(inner) == Err(items(inner).error)
    ensures Items(s, items).Ok? ==> Expand(s, value) == Ok(Flat(Items(s, items).value))
    ensures Items(s, items).Err? ==> Expand(s, value) == Err(Items(s, items).error)
    decreases |s|
  {
    match NextPiece(s)
    case End(text) => FlatBytes(text);
    case Reference(before, inner, rest) =>
      ExpandIsFlat(rest, value, items);
      if items(inner).Ok? && Items(rest, items).Ok? {
        var now, more := items(inner).value, Items(rest, items).value;
        FlatConcat(Bytes(before) + now, more);
        FlatConcat(Bytes(before), now);
        FlatBytes(before);
      }
  }

  lemma FlatTokenItems(inner: string, builtin: Builtins, env: Environment)
    ensures var items, value := TokenItems(builtin, env)(inner), EnvToken(builtin, env)(inner);
      if items.Ok? then value == Ok(Flat(items.value)) else value == Err(items.error)
  {
    if builtin(ParseTemplateToken(inner).name) {
      assert [Builtin(inner)][1..] == [];
      assert Text(Builtin(inner)) + "" == Text(Builtin(inner));
    } else if ResolveEnvToken(inner, builtin, env).Ok? {
      FlatBytes(ResolveEnvToken(inner, builtin, env).value);
    }
  }

  lemma ResolveIsFlat(s: string, builtin: Builtins, env: Environment)
    ensures Items(s, TokenItems(builtin, env)).Ok?
            ==> Expand(s, EnvToken(builtin, env)) == Ok(Flat(Items(s, TokenItems(builtin, env)).value))
    ensures Items(s, TokenItems(builtin, env)).Err?
            ==> Expand(s, EnvToken(builtin, env)) == Err(Items(s, TokenItems(builtin, env)).error)
  {
    forall inner
      ensures var items, value := TokenItems(builtin, env)(inner), EnvToken(builtin, env)(inner);
        if items.Ok? then value == Ok(Flat(items.value)) else value == Err(items.error)
    {
      FlatTokenItems(inner, builtin, env);
    }
    ExpandIsFlat(s, EnvToken(builtin, env), TokenItems(builtin, env));
  }

  /** The names of the run-time variables are built in, and so is every kwarg. */
  ghost predicate RunTimeVars(builtin: Builtins, vars: map<string, string>) {
    && (forall name :: name in vars ==> builtin(name))
    && (forall name :: HasPrefix(name, "kwargs.") ==> builtin(name))
  }

  /** The same value, or both fail. */
  predicate Agree(a: Outcome, b: Outcome) {
    a == b || (a.Err? && b.Err?)
  }

  /** A text, the value of a reference after it, and then the rest. */
  function PieceValue(before: string, now: Outcome, more: Outcome): Outcome {
    match now
    case Err(e) => Err(e)
    case Ok(v) => Prepend(before + v, more)
  }

  lemma PiecesAgree(before: string, a: Outcome, b: Outcome, more: Outcome, rest: Outcome)
    requires Agree(a, b) && Agree(more, rest)
    ensures Agree(PieceValue(before, a, more), PieceValue(before, b, rest))
  {
  }

  lemma ValueOfPiece(before: string, now: seq<Item>, more: seq<Item>, value: string -> Outcome)
    ensures Agree(Value(Bytes(before) + now + more, value), PieceValue(before, Value(now, value), Value(more, value)))
  {
    ValueConcat(Bytes(before) + now, more, value);
    ValueConcat(Bytes(before), now, value);
    ValueBytes(before, value);
  }

  /** Rendering the unresolved template gives the values of the items, and fails if
      resolving it does. */
  lemma {:induction false} ExpandIsValue(s: string, value: string -> Outcome, items: string -> ItemsOutcome)
    requires forall inner {:trigger items(inner)} {:trigger value(inner)} ::
      if items(inner).Ok? then Agree(value(inner), Value(items(inner).value, value)) else value(inner).Err?
    ensures Items(s, items).Ok? ==> Agree(Expand(s, value), Value(Items(s, items).value, value))
    ensures Items(s, items).Err? ==> Expand(s, value).Err?
    decreases |s|
  {
    match NextPiece(s)
    case End(text) => ValueBytes(text, value);
    case Reference(before, inner, rest) =>
      ExpandIsValue(rest, value, items);
      if items(inner).Ok? && Items(rest, items).Ok? {
        var now, more := items(inner).value, Items(rest, items).value;
        ValueOfPiece(before, now, more, value);
        PiecesAgree(before, value(inner), Value(now, value), Expand(rest, value), Value(more, value));
      }
  }

  lemma OneReference(inner: string, value: string -> Outcome)
    ensures Value([Builtin(inner)], value) == value(inner)
  {
    assert [Builtin(inner)][1..] == [];
    if value(inner).Ok? {
      assert value(inner).value + "" == value(inner).value;
    }
  }

  lemma TokenValue(inner: string, builtin: Builtins, vars: map<string, string>, env: Environment)
    requires RunTimeVars(builtin, vars)
    ensures var items, value := TokenItems(builtin, env)(inner), RunToken(vars, env);
      if items.Ok? then Agree(value(inner), Value(items.value, value)) else value(inner).Err?
  {
    var token := ParseTemplateToken(inner);
    var value := RunToken(vars, env);
    if builtin(token.name) {
      OneReference(inner, value);
    } else if ResolveEnvToken(inner, builtin, env).Ok? {
      ValueBytes(ResolveEnvToken(inner, builtin, env).value, value);
    }
  }

  lemma RenderIsValue(s: string, builtin: Builtins, vars: map<string, string>, env: Environment)
    requires RunTimeVars(builtin, vars)
    ensures var items := Items(s, TokenItems(builtin, env));
      if items.Ok? then Agree(Render(s, vars, env), Value(items.value, RunToken(vars, env)))
        else Render(s, vars, env).Err?
  {
    forall inner
      ensures var items, value := TokenItems(builtin, env)(inner), RunToken(vars, env);
        if items.Ok? then Agree(value(inner), Value(items.value, value)) else value(inner).Err?
    {
      TokenValue(inner, builtin, vars, env);
    }
    ExpandIsValue(s, RunToken(vars, env), TokenItems(builtin, env));
  }

  // Rendering the resolved template.

  /** Some fixed '$' and '{' have come together, and a '}' follows: a reference that
      the unresolved template does not have. */
  predicate OpensAt(items: seq<Item>, i: nat)
    requires i < |items|
  {
    && items[i] == Byte('$')
    && i + 1 < |items| && items[i + 1] == Byte('{')
    && Closes(items[i + 2..])
  }

  predicate Closes(items: seq<Item>) {
    items != [] && (items[0] == Byte('}') || items[0].Builtin? || Closes(items[1..]))
  }

  ghost predicate HasNewReference(items: seq<Item>) {
    exists i: nat :: i < |items| && OpensAt(items, i)
  }

  lemma {:induction false} ClosesIs(items: seq<Item>)
    ensures Closes(items) <==> '}' in Flat(items)
  {
    if items != [] {
      ClosesIs(items[1..]);
      if items[0].Builtin? {
        assert Text(items[0])[|items[0].inner| + 2] == '}';
      }
    }
  }

  /** The references left alone were cut at the first '}'. */
  ghost predicate WellCut(items: seq<Item>) {
    forall item :: item in items && item.Builtin? ==> '}' !in item.inner
  }

  lemma {:induction false} ItemsWellCut(s: string, items: string -> ItemsOutcome)
    requires forall inner :: '}' !in inner && items(inner).Ok? ==> WellCut(items(inner).value)
    ensures Items(s, items).Ok? ==> WellCut(Items(s, items).value)
    decreases |s|
  {
    match NextPiece(s)
    case End(text) => BytesAreBytes(text);
    case Reference(before, inner, rest) =>
      ItemsWellCut(rest, items);
      BytesAreBytes(before);
  }

  lemma TokenItemsWellCut(s: string, builtin: Builtins, env: Environment)
    ensures Items(s, TokenItems(builtin, env)).Ok? ==> WellCut(Items(s, TokenItems(builtin, env)).value)
  {
    forall inner | '}' !in inner && TokenItems(builtin, env)(inner).Ok?
      ensures WellCut(TokenItems(builtin, env)(inner).value)
    {
      if !builtin(ParseTemplateToken(inner).name) {
        BytesAreBytes(ResolveEnvToken(inner, builtin, env).value);
      }
    }
    ItemsWellCut(s, TokenItems(builtin, env));
  }

  lemma {:induction false} BytesAreBytes(s: string)
    ensures forall item :: item in Bytes(s) ==> item.Byte?
  {
    if s != "" {
      BytesAreBytes(s[1..]);
    }
  }

  /** A byte that opens nothing is passed over. */
  lemma ExpandByte(c: char, s: string, value: string -> Outcome)
    requires c == '$' && s != "" && s[0] == '{' ==> '}' !in s
    ensures Expand([c] + s, value) == Prepend([c], Expand(s, value))
  {
    NextAfterByte(c, s);
    if NextPiece(s).Reference? {
      var v := value(NextPiece(s).inner);
      if v.Ok? {
        PrependTwice([c], NextPiece(s).before + v.value, Expand(NextPiece(s).rest, value));
        Associate([c], NextPiece(s).before, v.value);
      }
    }
  }

  lemma PairAfterByte(c: char, s: string, a: char, b: char)
    requires !(c == a && s != "" && s[0] == b)
    ensures IndexPair([c] + s, a, b) == match IndexPair(s, a, b)
      case None => None
      case Some(i) => Some(i + 1)
  {
    assert ([c] + s)[1..] == s;
  }

  lemma NextAfterByte(c: char, s: string)
    requires c == '$' && s != "" && s[0] == '{' ==> '}' !in s
    ensures NextPiece([c] + s) == match NextPiece(s)
      case End(text) => End([c] + text)
      case Reference(before, inner, rest) => Reference([c] + before, inner, rest)
  {
    if c == '$' && s != "" && s[0] == '{' {
      NeverClosed(s);
    } else {
      PairAfterByte(c, s, '$', '{');
      if IndexPair(s, '$', '{').Some? {
        ShiftSlices(c, s, IndexPair(s, '$', '{').value);
      }
    }
  }

  lemma NeverClosed(s: string)
    requires s != "" && s[0] == '{' && '}' !in s
    ensures NextPiece(['$'] + s) == End(['$'] + s) && NextPiece(s) == End(s)
  {
    assert (['$'] + s)[2..] == s[1..];
  }

  lemma ShiftSlices(c: char, s: string, i: nat)
    requires i + 2 <= |s|
    ensures ([c] + s)[i + 3..] == s[i + 2..] && ([c] + s)[..i + 1] == [c] + s[..i]
  {
  }

  /** A reference at the start is the next piece. */
  lemma NextIsReference(inner: string, rest: string)
    requires '}' !in inner
    ensures NextPiece("${" + inner + "}" + rest) == Reference("", inner, rest)
  {
    var t := "${" + inner + "}" + rest;
    assert IndexPair(t, '$', '{') == Some(0);
    var tail := t[2..];
    assert tail == inner + "}" + rest;
    IndexByteIs(tail, '}', |inner|);
  }

  /** Without a new reference, resolving first changes nothing. */
  lemma {:induction false} ExpandFlat(items: seq<Item>, value: string -> Outcome)
    requires WellCut(items) && !HasNewReference(items)
    ensures Expand(Flat(items), value) == Value(items, value)
  {
    if items != [] {
      var rest := items[1..];
      RestHasNone(items);
      ExpandFlat(rest, value);
      match items[0]
      case Byte(c) =>
        if c == '$' && Flat(rest) != "" && Flat(rest)[0] == '{' {
          assert !OpensAt(items, 0);
          NothingOpens(items);
        }
        ExpandByte(c, Flat(rest), value);
      case Builtin(inner) =>
        assert items[0] in items;
        assert Flat(items) == "${" + inner + "}" + Flat(rest);
        NextIsReference(inner, Flat(rest));
        if value(inner).Ok? {
          assert "" + value(inner).value == value(inner).value;
        }
    }
  }

  lemma RestHasNone(items: seq<Item>)
    requires items != [] && WellCut(items) && !HasNewReference(items)
    ensures WellCut(items[1..]) && !HasNewReference(items[1..])
  {
    var rest := items[1..];
    forall i: nat | i < |rest|
      ensures !OpensAt(rest, i)
    {
      assert !OpensAt(items, i + 1);
      if i + 1 < |rest| {
        assert items[i + 3..] == rest[i + 2..];
      }
    }
  }

  lemma NothingOpens(items: seq<Item>)
    requires items != [] && items[0] == Byte('$') && !OpensAt(items, 0)
    requires Flat(items[1..]) != "" && Flat(items[1..])[0] == '{'
    ensures '}' !in Flat(items[1..])
  {
    var rest := items[1..];
    assert rest[0] == Byte('{');
    assert items[2..] == rest[1..];
    ClosesIs(rest[1..]);
    assert Flat(rest) == "{" + Flat(rest[1..]);
  }

  // With a new reference, some run-time variables tell the two apart.

  /** A reference gives a value without '$', or one no longer than itself. */
  ghost predicate Plain(value: string -> Outcome) {
    forall inner {:trigger value(inner)} ::
      value(inner).Ok? ==> '$' !in value(inner).value || |value(inner).value| <= |inner|
  }

  /** The references left alone all have the value w. */
  ghost predicate AllGive(items: seq<Item>, value: string -> Outcome, w: string) {
    forall item :: item in items && item.Builtin? ==> value(item.inner) == Ok(w)
  }

  lemma {:induction false} AllHaveValues(items: seq<Item>, value: string -> Outcome, w: string)
    requires AllGive(items, value, w)
    ensures Value(items, value).Ok?
  {
    if items != [] {
      assert items[0] in items;
      AllHaveValues(items[1..], value, w);
    }
  }

  lemma Cancel(a: string, x: string, b: string, y: string)
    requires a + x == b + y && |a| <= |b|
    ensures x == b[|a|..] + y
  {
    assert (a + x)[|a|..] == x;
    assert (b + y)[|a|..] == b[|a|..] + y;
  }

  /** After a new "${": the reference it opens, and what that stands for. */
  lemma {:induction false} Region(items: seq<Item>, value: string -> Outcome, w: string)
    returns (k: nat, inner: string, meant: string)
    requires Closes(items) && WellCut(items) && AllGive(items, value, w) && |w| > |Flat(items)|
    ensures 1 <= k <= |items| && '}' !in inner && |meant| > |inner|
    ensures Flat(items) == inner + "}" + Flat(items[k..])
    ensures Value(items, value) == Prepend(meant, Value(items[k..], value))
  {
    var rest := items[1..];
    assert items[0] in items;
    match items[0]
    case Builtin(inside) =>
      k, inner, meant := 1, "${" + inside, w;
    case Byte(c) =>
      if c == '}' {
        k, inner, meant := 1, "", "}";
      } else {
        k, inner, meant := Region(rest, value, w);
        assert rest[k..] == items[k + 1..];
        PrependTwice([c], meant, Value(rest[k..], value));
        RegionFlat(c, inner, Flat(rest[k..]));
        k, inner, meant := k + 1, [c] + inner, [c] + meant;
      }
  }

  lemma RegionFlat(c: char, inner: string, rest: string)
    ensures [c] + (inner + "}" + rest) == [c] + inner + "}" + rest
  {
  }

  /** The rendered text is shorter than u and what the template stands for. */
  lemma {:induction false} ToldApart(items: seq<Item>, value: string -> Outcome, w: string, u: string)
    requires WellCut(items) && Plain(value) && AllGive(items, value, w) && |w| > |Flat(items)|
    requires HasNewReference(items)
    ensures Value(items, value).Ok? && Expand(Flat(items), value) != Ok(u + Value(items, value).value)
    decreases |items|, 1
  {
    AllHaveValues(items, value, w);
    if OpensAt(items, 0) {
      ToldApartHere(items, value, w, u);
    } else {
      var rest := items[1..];
      StillNew(items);
      AllHaveValues(rest, value, w);
      var now := ItemValue(items[0], value).value;
      assert items[0] in items;
      SkipItem(items, value);
      ToldApart(rest, value, w, (u + now)[|now|..]);
      if Expand(Flat(items), value) == Ok(u + Value(items, value).value) {
        Associate(u, now, Value(rest, value).value);
        Cancel(now, Expand(Flat(rest), value).value, u + now, Value(rest, value).value);
      }
    }
  }

  lemma StillNew(items: seq<Item>)
    requires HasNewReference(items) && !OpensAt(items, 0)
    ensures HasNewReference(items[1..])
  {
    var i: nat :| i < |items| && OpensAt(items, i);
    assert items[i + 2..] == items[1..][i - 1 + 2..];
    assert OpensAt(items[1..], i - 1);
  }

  /** An item that opens nothing gives its value and is passed over. */
  lemma SkipItem(items: seq<Item>, value: string -> Outcome)
    requires items != [] && WellCut(items) && !OpensAt(items, 0) && ItemValue(items[0], value).Ok?
    ensures Expand(Flat(items), value) == Prepend(ItemValue(items[0], value).value, Expand(Flat(items[1..]), value))
  {
    var rest := items[1..];
    match items[0]
    case Byte(c) =>
      if c == '$' && Flat(rest) != "" && Flat(rest)[0] == '{' {
        NothingOpens(items);
      }
      ExpandByte(c, Flat(rest), value);
    case Builtin(inner) =>
      assert items[0] in items;
      assert Flat(items) == "${" + inner + "}" + Flat(rest);
      NextIsReference(inner, Flat(rest));
      assert "" + value(inner).value == value(inner).value;
  }

  lemma {:induction false} ToldApartHere(items: seq<Item>, value: string -> Outcome, w: string, u: string)
    requires WellCut(items) && Plain(value) && AllGive(items, value, w) && |w| > |Flat(items)|
    requires items != [] && OpensAt(items, 0) && Value(items, value).Ok?
    ensures Expand(Flat(items), value) != Ok(u + Value(items, value).value)
    decreases |items|, 0
  {
    var tail := items[2..];
    TwoBytes(items, value);
    var k, inner, meant := Region(tail, value, w);
    var rest := tail[k..];
    var text := "${" + meant;
    PrependTwice("${", meant, Value(rest, value));
    RegionText(inner, Flat(rest));
    NextIsReference(inner, Flat(rest));
    if Expand(Flat(items), value) == Ok(u + Value(items, value).value) {
      var v, x, y := value(inner).value, Expand(Flat(rest), value).value, Value(rest, value).value;
      Associate(u, text, y);
      assert "" + v == v;
      assert |v| > |u| ==> (v + x)[|u|] == '$' && (v + x)[|u|] == v[|u|];
      Cancel(v, x, u + text, y);
      var left := (u + text)[|v|..];
      assert |x| == |left| + |y|;
      if HasNewReference(rest) {
        ToldApart(rest, value, w, left);
      } else {
        ExpandFlat(rest, value);
      }
    }
  }

  lemma RegionText(inner: string, rest: string)
    ensures "${" + (inner + "}" + rest) == "${" + inner + "}" + rest
  {
  }

  lemma TwoBytes(items: seq<Item>, value: string -> Outcome)
    requires |items| > 1 && items[0] == Byte('$') && items[1] == Byte('{')
    ensures Flat(items) == "${" + Flat(items[2..])
    ensures Value(items, value) == Prepend("${", Value(items[2..], value))
  {
    assert items[1..][1..] == items[2..];
    assert "$" + "{" == "${";
    PrependTwice("$", "{", Value(items[2..], value));
  }

  // The exact condition.

  /** No variable of the environment has a '$' in its value. */
  ghost predicate DollarFree(env: Environment) {
    forall name :: name in env ==> '$' !in env[name]
  }

  /** For these run-time variables, resolving first changes nothing. */
  predicate PreservedFor(s: string, builtin: Builtins, vars: map<string, string>, env: Environment) {
    match Expand(s, EnvToken(builtin, env))
    case Err(_) => Render(s, vars, env).Err?
    case Ok(resolved) => Agree(Render(resolved, vars, env), Render(s, vars, env))
  }

  ghost predicate Preserved(s: string, builtin: Builtins, env: Environment) {
    forall vars {:trigger RunTimeVars(builtin, vars)} ::
      RunTimeVars(builtin, vars) ==> PreservedFor(s, builtin, vars, env)
  }

  /** Resolving s brings no fixed '$' and '{' together before a '}'. */
  ghost predicate OpensNothing(s: string, builtin: Builtins, env: Environment) {
    Items(s, TokenItems(builtin, env)).Ok? ==> !HasNewReference(Items(s, TokenItems(builtin, env)).value)
  }

  /** Resolving at configuration time keeps the run-time meaning whenever it opens
      no new reference, in every environment. */
  lemma OpensNothingPreserves(s: string, builtin: Builtins, vars: map<string, string>, env: Environment)
    requires OpensNothing(s, builtin, env) && RunTimeVars(builtin, vars)
    ensures PreservedFor(s, builtin, vars, env)
  {
    ResolveIsFlat(s, builtin, env);
    RenderIsValue(s, builtin, vars, env);
    TokenItemsWellCut(s, builtin, env);
    if Items(s, TokenItems(builtin, env)).Ok? {
      ExpandFlat(Items(s, TokenItems(builtin, env)).value, RunToken(vars, env));
    }
  }

  /** The names in a text. */
  function Slices(t: string): set<string> {
    set i, j | 0 <= i <= j <= |t| :: t[i..j]
  }

  /** The references of a text. */
  function ReferencesOf(s: string): seq<string>
    decreases |s|
  {
    match NextPiece(s)
    case End(_) => []
    case Reference(_, inner, rest) => [inner] + ReferencesOf(rest)
  }

  /** The names that rendering a text looks up. */
  function ReadNames(s: string): set<string> {
    set inner | inner in ReferencesOf(s) :: ParseTemplateToken(inner).name
  }

  /** No environment value that rendering t could bring in has a '$'. */
  ghost predicate PlainReads(t: string, builtin: Builtins, env: Environment) {
    forall name :: name in ReadNames(t) && !builtin(name) ==> '$' !in Getenv(env, name)
  }

  /** The same, of the text that resolving s gives, if it gives one. */
  ghost predicate PlainlyRead(s: string, builtin: Builtins, env: Environment) {
    Expand(s, EnvToken(builtin, env)).Ok? ==> PlainReads(Expand(s, EnvToken(builtin, env)).value, builtin, env)
  }

  lemma {:induction false} ExpandReads(s: string, value: string -> Outcome, other: string -> Outcome)
    requires forall inner :: inner in ReferencesOf(s) ==> value(inner) == other(inner)
    ensures Expand(s, value) == Expand(s, other)
    decreases |s|
  {
    match NextPiece(s)
    case End(_) =>
    case Reference(_, inner, rest) =>
      assert ReferencesOf(s)[0] == inner && ReferencesOf(s)[1..] == ReferencesOf(rest);
      forall later | later in ReferencesOf(rest)
        ensures value(later) == other(later)
      {
        assert later in ReferencesOf(s);
      }
      ExpandReads(rest, value, other);
  }

  /** The environment without what t does not look up there. */
  function Restricted(t: string, builtin: Builtins, env: Environment): Environment {
    map name | name in env && name in ReadNames(t) && !builtin(name) :: env[name]
  }

  lemma RestrictedIsEnough(t: string, builtin: Builtins, w: string, env: Environment)
    requires w != ""
    ensures var vars := Filling(t, builtin, w); Render(t, vars, env) == Render(t, vars, Restricted(t, builtin, env))
  {
    var vars, less := Filling(t, builtin, w), Restricted(t, builtin, env);
    forall inner | inner in ReferencesOf(t)
      ensures RunToken(vars, env)(inner) == RunToken(vars, less)(inner)
    {
      var name := ParseTemplateToken(inner).name;
      assert name in ReadNames(t);
      if builtin(name) {
        FillingGivesOne(t, inner, builtin, w, env);
        FillingGivesOne(t, inner, builtin, w, less);
      } else {
        assert Getenv(env, name) == Getenv(less, name);
      }
    }
    ExpandReads(t, RunToken(vars, env), RunToken(vars, less));
  }

  lemma {:induction false} SameValues(items: seq<Item>, value: string -> Outcome, other: string -> Outcome, w: string)
    requires AllGive(items, value, w) && AllGive(items, other, w)
    ensures Value(items, value) == Value(items, other)
  {
    if items != [] {
      assert items[0] in items;
      SameValues(items[1..], value, other, w);
    }
  }

  /** Give every built-in variable that t could name the value w. */
  function Filling(t: string, builtin: Builtins, w: string): map<string, string> {
    map name | name in Slices(t) + ReadNames(t) && builtin(name) :: w
  }

  lemma FillingIsPlain(t: string, builtin: Builtins, w: string, env: Environment)
    requires DollarFree(env) && '$' !in w
    ensures Plain(RunToken(Filling(t, builtin, w), env))
  {
    var value := RunToken(Filling(t, builtin, w), env);
    forall inner | value(inner).Ok?
      ensures '$' !in value(inner).value || |value(inner).value| <= |inner|
    {
      assert value(inner) == ResolveTemplateToken(inner, Filling(t, builtin, w), env);
    }
  }

  /** The references left alone are to built-in variables. */
  ghost predicate NamesBuiltin(items: seq<Item>, builtin: Builtins) {
    forall item :: item in items && item.Builtin? ==> builtin(ParseTemplateToken(item.inner).name)
  }

  lemma {:induction false} ItemsNameBuiltin(s: string, builtin: Builtins, items: string -> ItemsOutcome)
    requires forall inner :: items(inner).Ok? ==> NamesBuiltin(items(inner).value, builtin)
    ensures Items(s, items).Ok? ==> NamesBuiltin(Items(s, items).value, builtin)
    decreases |s|
  {
    match NextPiece(s)
    case End(text) => BytesAreBytes(text);
    case Reference(before, inner, rest) =>
      ItemsNameBuiltin(rest, builtin, items);
      BytesAreBytes(before);
  }

  lemma TokenItemsNameBuiltin(s: string, builtin: Builtins, env: Environment)
    ensures Items(s, TokenItems(builtin, env)).Ok? ==> NamesBuiltin(Items(s, TokenItems(builtin, env)).value, builtin)
  {
    forall inner | TokenItems(builtin, env)(inner).Ok?
      ensures NamesBuiltin(TokenItems(builtin, env)(inner).value, builtin)
    {
      if !builtin(ParseTemplateToken(inner).name) {
        BytesAreBytes(ResolveEnvToken(inner, builtin, env).value);
      }
    }
    ItemsNameBuiltin(s, builtin, TokenItems(builtin, env));
  }

  /** A reference left alone appears in the resolved text. */
  lemma {:induction false} InnerAppears(items: seq<Item>, item: Item) returns (before: string, after: string)
    requires item in items && item.Builtin?
    ensures Flat(items) == before + item.inner + after
  {
    if items[0] == item {
      before, after := "${", "}" + Flat(items[1..]);
      RegionText(item.inner, Flat(items[1..]));
      Associate("${" + item.inner, "}", Flat(items[1..]));
    } else {
      before, after := InnerAppears(items[1..], item);
      Associate(Text(items[0]), before + item.inner, after);
      Associate(Text(items[0]), before, item.inner);
      before := Text(items[0]) + before;
    }
  }

  lemma PrefixIsSlice(before: string, inner: string, after: string, name: string)
    requires name <= inner
    ensures name in Slices(before + inner + after)
  {
    var t := before + inner + after;
    assert t[|before|..|before| + |name|] == name;
  }

  lemma FillingGives(items: seq<Item>, builtin: Builtins, w: string, env: Environment)
    requires NamesBuiltin(items, builtin) && w != ""
    ensures AllGive(items, RunToken(Filling(Flat(items), builtin, w), env), w)
  {
    var t := Flat(items);
    forall item | item in items && item.Builtin?
      ensures RunToken(Filling(t, builtin, w), env)(item.inner) == Ok(w)
    {
      var before, after := InnerAppears(items, item);
      PrefixIsSlice(before, item.inner, after, ParseTemplateToken(item.inner).name);
      FillingGivesOne(t, item.inner, builtin, w, env);
    }
  }

  lemma FillingGivesOne(t: string, inner: string, builtin: Builtins, w: string, env: Environment)
    requires var name := ParseTemplateToken(inner).name; name in Slices(t) + ReadNames(t) && builtin(name)
    requires w != ""
    ensures RunToken(Filling(t, builtin, w), env)(inner) == Ok(w)
  {
  }

  /** With long values for the built-in names, the resolved text does not render to what it stands for. */
  lemma FilledApart(items: seq<Item>, builtin: Builtins, w: string, env: Environment)
    requires WellCut(items) && HasNewReference(items) && NamesBuiltin(items, builtin)
    requires PlainReads(Flat(items), builtin, env) && |w| > |Flat(items)| && '$' !in w
    ensures var value := RunToken(Filling(Flat(items), builtin, w), env);
      Value(items, value).Ok? && Expand(Flat(items), value) != Value(items, value)
  {
    var t := Flat(items);
    var vars, less := Filling(t, builtin, w), Restricted(t, builtin, env);
    FillingIsPlain(t, builtin, w, less);
    FillingGives(items, builtin, w, env);
    FillingGives(items, builtin, w, less);
    SameValues(items, RunToken(vars, env), RunToken(vars, less), w);
    RestrictedIsEnough(t, builtin, w, env);
    ToldApart(items, RunToken(vars, less), w, "");
    assert "" + Value(items, RunToken(vars, less)).value == Value(items, RunToken(vars, less)).value;
  }

  /** A new reference shows for some run-time variables. */
  lemma NewReferenceShows(s: string, builtin: Builtins, env: Environment) returns (vars: map<string, string>)
    requires PlainlyRead(s, builtin, env) && forall name :: HasPrefix(name, "kwargs.") ==> builtin(name)
    requires !OpensNothing(s, builtin, env)
    ensures RunTimeVars(builtin, vars) && !PreservedFor(s, builtin, vars, env)
  {
    var items := Items(s, TokenItems(builtin, env)).value;
    var w := seq(|Flat(items)| + 1, i => 'x');
    vars := Filling(Flat(items), builtin, w);
    ResolveIsFlat(s, builtin, env);
    RenderIsValue(s, builtin, vars, env);
    TokenItemsWellCut(s, builtin, env);
    TokenItemsNameBuiltin(s, builtin, env);
    FilledApart(items, builtin, w, env);
  }

  /** When no environment value that the resolved text looks up has a '$', resolving at
      configuration time keeps the run-time meaning for all run-time variables exactly if
      it opens no reference. */
  lemma PreservedExactly(s: string, builtin: Builtins, env: Environment)
    requires PlainlyRead(s, builtin, env) && forall name :: HasPrefix(name, "kwargs.") ==> builtin(name)
    ensures Preserved(s, builtin, env) <==> OpensNothing(s, builtin, env)
  {
    if OpensNothing(s, builtin, env) {
      forall vars | RunTimeVars(builtin, vars)
        ensures PreservedFor(s, builtin, vars, env)
      {
        OpensNothingPreserves(s, builtin, vars, env);
      }
    } else {
      var vars := NewReferenceShows(s, builtin, env);
    }
  }

  lemma KwargsAreBuiltin()
    ensures forall name :: HasPrefix(name, "kwargs.") ==> IsBuiltinTemplateVar(name)
  {
  }

  const BASE_NAMES: set<string> := {
    "workspace", "prompt", "input_file", "output_file", "model", "model_provider", "model_name", "api_key", "case_id",
    "variant", "max_turns", "timeout_seconds"}

  const SESSION_NAMES: set<string> := {
    "messages", "messages_json", "session_input", "session_input_json", "kwargs", "kwargs_json"}

  /** buildBaseVars, whose values are arbitrary texts. */
  function BuildBaseVars(value: string -> string): map<string, string> {
    map name | name in BASE_NAMES :: value(name)
  }

  function KwargName(key: string): string {
    "kwargs." + key
  }

  lemma KwargNames(key: string)
    ensures HasPrefix(KwargName(key), "kwargs.") && KwargName(key)[7..] == key
  {
  }

  function KwargVars(kwargs: map<string, string>): (vars: map<string, string>)
    ensures forall key :: key in kwargs ==> KwargName(key) in vars && vars[KwargName(key)] == kwargs[key]
    ensures forall name :: name in vars ==> HasPrefix(name, "kwargs.") && name[7..] in kwargs
  {
    forall key: string
      ensures HasPrefix(KwargName(key), "kwargs.") && KwargName(key)[7..] == key
    {
      KwargNames(key);
    }
    map key | key in kwargs :: KwargName(key) := kwargs[key]
  }

  /** completeTemplateVars. */
  function CompleteTemplateVars(base: map<string, string>, kwargs: map<string, string>, value: string -> string)
    : map<string, string>
  {
    base + (map name | name in SESSION_NAMES :: value(name)) + KwargVars(kwargs)
  }

  lemma NamesAreBuiltin()
    ensures BASE_NAMES <= BUILTINS && SESSION_NAMES <= BUILTINS
  {
  }

  /** The variables of a run, those that kwargs are rendered with and those that the rest
      is, all have built-in names. */
  lemma CodeVarsAreBuiltin(value: string -> string, kwargs: map<string, string>)
    ensures RunTimeVars(IsBuiltinTemplateVar, BuildBaseVars(value))
    ensures RunTimeVars(IsBuiltinTemplateVar, CompleteTemplateVars(BuildBaseVars(value), kwargs, value))
  {
    KwargsAreBuiltin();
    NamesAreBuiltin();
  }

  /** The theorem for the built-in names of the source: what Resolve gives renders, for
      all variables with such names, as the template itself does, exactly if resolving
      opens no reference. */
  lemma ResolveThenRender(s: string, env: Environment)
    requires PlainlyRead(s, IsBuiltinTemplateVar, env)
    ensures (forall vars {:trigger RunTimeVars(IsBuiltinTemplateVar, vars)} ::
             RunTimeVars(IsBuiltinTemplateVar, vars) ==>
              if Resolve(s, env).Ok? then Agree(Render(Resolve(s, env).value, vars, env), Render(s, vars, env))
              else Render(s, vars, env).Err?)
            <==> OpensNothing(s, IsBuiltinTemplateVar, env)
  {
    KwargsAreBuiltin();
    PreservedExactly(s, IsBuiltinTemplateVar, env);
    forall vars | RunTimeVars(IsBuiltinTemplateVar, vars)
      ensures PreservedFor(s, IsBuiltinTemplateVar, vars, env)
        <==> if Resolve(s, env).Ok? then Agree(Render(Resolve(s, env).value, vars, env), Render(s, vars, env))
             else Render(s, vars, env).Err?
    {
    }
  }

  // A condition on the template's own references.

  /** Every reference to a variable that is not built in has a value, and one that
      is not empty and has no '$' and no '{'. */
  ghost predicate Solid(s: string, builtin: Builtins, env: Environment)
    decreases |s|
  {
    match NextPiece(s)
    case End(_) => true
    case Reference(_, inner, rest) =>
      && Solid(rest, builtin, env)
      && (builtin(ParseTemplateToken(inner).name) || SolidOutcome(ResolveEnvToken(inner, builtin, env)))
  }

  predicate SolidOutcome(r: Outcome) {
    r.Ok? ==> r.value != "" && '$' !in r.value && '{' !in r.value
  }

  lemma {:induction false} BytesAt(s: string, i: nat)
    requires i < |s|
    ensures |Bytes(s)| == |s| && Bytes(s)[i] == Byte(s[i])
  {
    if i > 0 {
      BytesAt(s[1..], i - 1);
    } else if |s| > 1 {
      BytesAt(s[1..], 0);
    }
  }

  /** IndexPair finds the first pair. */
  lemma {:induction false} FirstPair(s: string, a: char, b: char, j: nat)
    requires j + 1 < |s| && s[j] == a && s[j + 1] == b
    ensures IndexPair(s, a, b).Some? && IndexPair(s, a, b).value <= j
  {
    if j > 0 {
      FirstPair(s[1..], a, b, j - 1);
    }
  }

  lemma {:induction false} BytesFrom(s: string, j: nat)
    requires j <= |s|
    ensures |Bytes(s)| == |s| && Bytes(s)[j..] == Bytes(s[j..])
  {
    if j > 0 {
      BytesFrom(s[1..], j - 1);
      assert s[1..][j - 1..] == s[j..];
    } else {
      assert s[0..] == s;
      if s != "" {
        BytesAt(s, 0);
      }
    }
  }

  lemma EndOpensNothing(text: string)
    requires NextPiece(text).End?
    ensures !HasNewReference(Bytes(text))
  {
    BytesFrom(text, 0);
    forall i: nat | i < |Bytes(text)|
      ensures !OpensAt(Bytes(text), i)
    {
      BytesAt(text, i);
      if i + 1 < |text| {
        BytesAt(text, i + 1);
        if text[i] == '$' && text[i + 1] == '{' {
          FirstPair(text, '$', '{', i);
          var k := IndexPair(text, '$', '{').value;
          assert text[i + 2..] == text[k + 2..][i - k..];
          BytesFrom(text, i + 2);
          ClosesIs(Bytes(text[i + 2..]));
          FlatBytes(text[i + 2..]);
        }
      }
    }
  }

  /** The items of a reference that keep apart what is before from what is after. */
  ghost predicate Separates(items: seq<Item>) {
    && items != [] && items[0] != Byte('{')
    && forall item :: item in items ==> item != Byte('$')
  }

  lemma JoinedOpenNothing(before: string, now: seq<Item>, more: seq<Item>)
    requires IndexPair(before, '$', '{').None? && Separates(now) && !HasNewReference(more)
    ensures !HasNewReference(Bytes(before) + now + more)
  {
    BytesFrom(before, 0);
    var items, n := Bytes(before) + now + more, |before| + |now|;
    forall i: nat | i < |items|
      ensures !OpensAt(items, i)
    {
      if i < |before| {
        BytesAt(before, i);
        if i + 1 < |before| {
          BytesAt(before, i + 1);
          NoPairAt(before, i);
        } else {
          assert items[i + 1] == now[0];
        }
      } else if i < n {
        assert items[i] == now[i - |before|] && now[i - |before|] in now;
      } else {
        assert !OpensAt(more, i - n);
        if i + 1 < |items| {
          assert items[i + 2..] == more[i - n + 2..];
        }
      }
    }
  }

  lemma NoPairAt(s: string, i: nat)
    requires IndexPair(s, '$', '{').None? && i + 1 < |s|
    ensures !(s[i] == '$' && s[i + 1] == '{')
  {
    if s[i] == '$' && s[i + 1] == '{' {
      FirstPair(s, '$', '{', i);
    }
  }

  lemma {:induction false} BeforeHasNoPair(s: string)
    ensures NextPiece(s).Reference? ==> IndexPair(NextPiece(s).before, '$', '{').None?
  {
    if NextPiece(s).Reference? {
      var before := NextPiece(s).before;
      if IndexPair(before, '$', '{').Some? {
        FirstPair(s, '$', '{', IndexPair(before, '$', '{').value);
      }
    }
  }

  lemma TokenSeparates(inner: string, builtin: Builtins, env: Environment)
    requires TokenItems(builtin, env)(inner).Ok?
    requires builtin(ParseTemplateToken(inner).name) || SolidOutcome(ResolveEnvToken(inner, builtin, env))
    ensures Separates(TokenItems(builtin, env)(inner).value)
  {
    if !builtin(ParseTemplateToken(inner).name) {
      var v := ResolveEnvToken(inner, builtin, env).value;
      BytesFrom(v, 0);
      BytesAt(v, 0);
      forall i | 0 <= i < |v|
        ensures Bytes(v)[i] != Byte('$')
      {
        BytesAt(v, i);
      }
    }
  }

  lemma {:induction false} SolidOpensNothing(s: string, builtin: Builtins, env: Environment)
    requires Solid(s, builtin, env)
    ensures OpensNothing(s, builtin, env)
    decreases |s|
  {
    match NextPiece(s)
    case End(text) => EndOpensNothing(text);
    case Reference(before, inner, rest) =>
      SolidOpensNothing(rest, builtin, env);
      if Items(s, TokenItems(builtin, env)).Ok? {
        BeforeHasNoPair(s);
        TokenSeparates(inner, builtin, env);
        JoinedOpenNothing(before, TokenItems(builtin, env)(inner).value, Items(rest, TokenItems(builtin, env)).value);
      }
  }

  /** Resolving a template whose references are solid keeps its run-time meaning. */
  lemma SolidIsPreserved(s: string, builtin: Builtins, vars: map<string, string>, env: Environment)
    requires Solid(s, builtin, env) && RunTimeVars(builtin, vars)
    ensures PreservedFor(s, builtin, vars, env)
  {
    SolidOpensNothing(s, builtin, env);
    OpensNothingPreserves(s, builtin, vars, env);
  }

  /** "$" + "${a}" + tail. */
  function Seam(a: string, tail: string): string {
    ['$'] + ("${" + a + "}" + tail)
  }

  lemma SeamPiece(a: string, tail: string)
    requires '}' !in a
    ensures NextPiece(Seam(a, tail)) == Reference(['$'], a, tail)
  {
    var t := "${" + a + "}" + tail;
    NextIsReference(a, tail);
    assert t[0] == '$';
    NextAfterByte('$', t);
    assert ['$'] + "" == ['$'];
  }

  lemma NoDollarNoPiece(tail: string)
    requires '$' !in tail
    ensures NextPiece(tail) == End(tail)
  {
  }

  /** A reference with an empty value disappears. */
  lemma SeamExpands(a: string, tail: string, value: string -> Outcome)
    requires '}' !in a && '$' !in tail && value(a) == Ok("")
    ensures Expand(Seam(a, tail), value) == Ok(['$'] + tail)
  {
    SeamPiece(a, tail);
    NoDollarNoPiece(tail);
    assert ['$'] + "" == ['$'];
  }

  lemma JoinedText(b: string)
    ensures ['$'] + ("{" + b + "}") == "${" + b + "}" + ""
  {
    Associate(['$'], "{" + b, "}");
    Associate(['$'], "{", b);
    assert ['$'] + "{" == "${";
  }

  /** "$" and "{b}" together are a reference to b. */
  lemma JoinedIsReference(b: string, value: string -> Outcome)
    requires '}' !in b && value(b).Err?
    ensures Expand(['$'] + ("{" + b + "}"), value).Err?
  {
    NextIsReference(b, "");
    JoinedText(b);
  }

  /** An empty default is enough to change the meaning: "$${A:-}{B}" renders, but
      what it resolves to does not. */
  lemma EmptyDefaultOpensReference(vars: map<string, string>, env: Environment)
    requires RunTimeVars(IsBuiltinTemplateVar, vars) && Getenv(env, "A") == "" && Getenv(env, "B") == ""
    ensures var s := Seam("A:-", "{" + "B" + "}");
      && Render(s, vars, env).Ok?
      && Resolve(s, env).Ok?
      && Render(Resolve(s, env).value, vars, env).Err?
  {
    ExampleTokens();
    ExampleNames();
    ExampleValues(vars, env);
    SeamExpands("A:-", "{" + "B" + "}", EnvToken(IsBuiltinTemplateVar, env));
    SeamExpands("A:-", "{" + "B" + "}", RunToken(vars, env));
    JoinedIsReference("B", RunToken(vars, env));
  }

  lemma ExampleNames()
    ensures !IsBuiltinTemplateVar("A") && !IsBuiltinTemplateVar("B")
    ensures !HasPrefix("A", "kwargs.") && !HasPrefix("B", "kwargs.")
  {
    LongNames("A");
    LongNames("B");
  }

  lemma LongNames(name: string)
    ensures name in BUILTINS ==> |name| > 1
  {
  }

  lemma ExampleValues(vars: map<string, string>, env: Environment)
    requires "A" !in vars && "B" !in vars && Getenv(env, "A") == "" && Getenv(env, "B") == ""
    requires !IsBuiltinTemplateVar("A") && !HasPrefix("B", "kwargs.")
    ensures EnvToken(IsBuiltinTemplateVar, env)("A:-") == Ok("")
    ensures RunToken(vars, env)("A:-") == Ok("") && RunToken(vars, env)("B").Err?
  {
    ExampleTokens();
  }

  lemma ExampleTokens()
    ensures ParseTemplateToken("A:-") == TemplateToken("A", "", "", true, false)
    ensures ParseTemplateToken("B") == TemplateToken("B", "", "", false, false)
  {
    assert "A:-"[1..] == ":-";
    assert IndexPair("A:-", ':', '-') == Some(1);
    assert IndexPair("B", ':', '-') == None;
    assert "A:-"[..1] == "A" && "A:-"[3..] == "";
  }
}
