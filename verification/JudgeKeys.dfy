/** The strict key scanner of internal/judge/agent_judge.go: it reads a JSON text
    token by token, and its verdict is that of a predicate on the JSON value. */
module JudgeKeys {
  import opened Wrappers

  /** What decoder.Token gives in turn; Malformed where the text is not JSON. */
  datatype Token = Delim(c: char) | Str(s: string) | Literal(text: string) | Malformed

  datatype Context = AnyValue | Response | Results | OneResult

  datatype ScanError = NoToken | KeyNotString | DuplicateKey(key: string) | KeyNotAllowed(key: string) | BadDelim

  /** agentJudgeJSONChildContext. */
  function ChildContext(context: Context, key: string): (Context, bool) {
    match context
    case Response => if key == "results" then (Results, true) else (AnyValue, false)
    case OneResult => (AnyValue, IsResultKey(key))
    case _ => (AnyValue, true)
  }

  predicate IsResultKey(key: string) {
    key == "criterion_id" || key == "passed" || key == "evidence" || key == "failures"
  }

  function ElementContext(context: Context): Context {
    if context == Results then OneResult else AnyValue
  }

  /** decoder.More. */
  predicate More(tokens: seq<Token>) {
    tokens != [] && tokens[0] != Delim('}') && tokens[0] != Delim(']')
  }

  type Scanned = Result<seq<Token>, ScanError>

  /** scanAgentJudgeJSONValue as a function: the tokens that are left. */
  function Scan(tokens: seq<Token>, context: Context): (r: Scanned)
    ensures r.Ok? ==> |r.value| < |tokens|
    decreases |tokens|, 1
  {
    if NoNext(tokens) then Err(NoToken)
    else
      match tokens[0]
      case Delim(c) =>
        if c == '{' then Finish(ScanFields(tokens[1..], context, {}))
        else if c == '[' then Finish(ScanElements(tokens[1..], ElementContext(context)))
        else Err(BadDelim)
      case _ => Ok(tokens[1..])
  }

  /** The closing token. */
  function Finish(r: Scanned): Scanned {
    match r
    case Ok(rest) => if NoNext(rest) then Err(NoToken) else Ok(rest[1..])
    case Err(e) => Err(e)
  }

  predicate NoNext(tokens: seq<Token>) {
    tokens == [] || tokens[0].Malformed?
  }

  function ScanFields(tokens: seq<Token>, context: Context, seen: set<string>): (r: Scanned)
    ensures r.Ok? ==> |r.value| <= |tokens|
    decreases |tokens|, 0
  {
    if !More(tokens) then Ok(tokens)
    else if NoNext(tokens) then Err(NoToken)
    else if !tokens[0].Str? then Err(KeyNotString)
    else
      var key := tokens[0].s;
      if key in seen then Err(DuplicateKey(key))
      else
        var (child, allowed) := ChildContext(context, key);
        if !allowed then Err(KeyNotAllowed(key))
        else
          match Scan(tokens[1..], child)
          case Err(e) => Err(e)
          case Ok(rest) => ScanFields(rest, context, seen + {key})
  }

  function ScanElements(tokens: seq<Token>, context: Context): (r: Scanned)
    ensures r.Ok? ==> |r.value| <= |tokens|
    decreases |tokens|, 2
  {
    if !More(tokens) then Ok(tokens)
    else
      match Scan(tokens, context)
      case Err(e) => Err(e)
      case Ok(rest) => ScanElements(rest, context)
  }

  /** The decoder, which hands out the tokens of the text. */
  class Decoder {
    var tokens: seq<Token>

    constructor (tokens: seq<Token>)
      ensures this.tokens == tokens
    {
      this.tokens := tokens;
    }

    method Next() returns (r: Result<Token, ScanError>)
      modifies this
      ensures NoNext(old(tokens)) ==> r == Err(NoToken) && tokens == old(tokens)
      ensures !NoNext(old(tokens)) ==> r == Ok(old(tokens)[0]) && tokens == old(tokens)[1..]
    {
      if NoNext(tokens) { return Err(NoToken); }
      r := Ok(tokens[0]);
      tokens := tokens[1..];
    }
  }

  /** What a scan that returns err has done, if it set out to give r. */
  predicate Gives(tokens: seq<Token>, err: Option<ScanError>, r: Scanned) {
    match err
    case None => r == Ok(tokens)
    case Some(e) => r == Err(e)
  }

  method ScanObject(decoder: Decoder, context: Context) returns (err: Option<ScanError>)
    modifies decoder
    ensures Gives(decoder.tokens, err, ScanFields(old(decoder.tokens), context, {}))
    ensures |decoder.tokens| <= |old(decoder.tokens)|
    decreases |decoder.tokens|, 0
  {
    ghost var whole := ScanFields(decoder.tokens, context, {});
    var seen: set<string> := {};
    while More(decoder.tokens)
      invariant |decoder.tokens| <= |old(decoder.tokens)|
      invariant ScanFields(decoder.tokens, context, seen) == whole
      decreases |decoder.tokens|
    {
      var token := decoder.Next();
      if token.Err? { return Some(token.error); }
      if !token.value.Str? { return Some(KeyNotString); }
      var key := token.value.s;
      if key in seen { return Some(DuplicateKey(key)); }
      seen := seen + {key};
      var (child, allowed) := ChildContext(context, key);
      if !allowed { return Some(KeyNotAllowed(key)); }
      err := ScanValue(decoder, child);
      if err.Some? { return; }
    }
    return None;
  }

  method ScanArray(decoder: Decoder, context: Context) returns (err: Option<ScanError>)
    modifies decoder
    ensures Gives(decoder.tokens, err, ScanElements(old(decoder.tokens), context))
    ensures |decoder.tokens| <= |old(decoder.tokens)|
    decreases |decoder.tokens|, 2
  {
    ghost var whole := ScanElements(decoder.tokens, context);
    while More(decoder.tokens)
      invariant |decoder.tokens| <= |old(decoder.tokens)|
      invariant ScanElements(decoder.tokens, context) == whole
      decreases |decoder.tokens|
    {
      err := ScanValue(decoder, context);
      if err.Some? { return; }
    }
    return None;
  }

  method ScanValue(decoder: Decoder, context: Context) returns (err: Option<ScanError>)
    modifies decoder
    ensures Gives(decoder.tokens, err, Scan(old(decoder.tokens), context))
    ensures |decoder.tokens| <= |old(decoder.tokens)|
    ensures err.None? ==> |decoder.tokens| < |old(decoder.tokens)|
    decreases |decoder.tokens|, 1
  {
    var token := decoder.Next();
    if token.Err? { return Some(token.error); }
    if !token.value.Delim? { return None; }
    if token.value.c == '{' {
      err := ScanObject(decoder, context);
      if err.Some? { return; }
    } else if token.value.c == '[' {
      err := ScanArray(decoder, ElementContext(context));
      if err.Some? { return; }
    } else {
      return Some(BadDelim);
    }
    var last := decoder.Next();
    if last.Err? { return Some(last.error); }
    return None;
  }

  // JSON values.

  datatype Json = Text(s: string) | Scalar(text: string) | Array(elements: seq<Json>) | Object(fields: seq<Field>)

  datatype Field = Field(name: string, value: Json)

  /** The tokens of a value. */
  function Tokens(json: Json): seq<Token>
    decreases json
  {
    match json
    case Text(s) => [Str(s)]
    case Scalar(text) => [Literal(text)]
    case Array(elements) => [Delim('[')] + ElementTokens(elements) + [Delim(']')]
    case Object(fields) => [Delim('{')] + FieldTokens(fields) + [Delim('}')]
  }

  function ElementTokens(elements: seq<Json>): seq<Token>
    decreases elements
  {
    if elements == [] then [] else Tokens(elements[0]) + ElementTokens(elements[1..])
  }

  function FieldTokens(fields: seq<Field>): seq<Token>
    decreases fields
  {
    if fields == [] then [] else [Str(fields[0].name)] + Tokens(fields[0].value) + FieldTokens(fields[1..])
  }

  /** The value satisfies the contract in its context. */
  predicate Conforms(json: Json, context: Context)
    decreases json
  {
    match json
    case Array(elements) => ElementsConform(elements, ElementContext(context))
    case Object(fields) => FieldsConform(fields, context, {})
    case _ => true
  }

  predicate ElementsConform(elements: seq<Json>, context: Context)
    decreases elements
  {
    elements != [] ==> Conforms(elements[0], context) && ElementsConform(elements[1..], context)
  }

  predicate FieldsConform(fields: seq<Field>, context: Context, seen: set<string>)
    decreases fields
  {
    fields != [] ==>
      && fields[0].name !in seen
      && ChildContext(context, fields[0].name).1
      && Conforms(fields[0].value, ChildContext(context, fields[0].name).0)
      && FieldsConform(fields[1..], context, seen + {fields[0].name})
  }

  predicate IsKeyError(e: ScanError) {
    e.DuplicateKey? || e.KeyNotAllowed?
  }

  /** Scanning consumes exactly the value if it conforms, and otherwise fails for a key. */
  predicate Verdict(r: Scanned, conforms: bool, rest: seq<Token>) {
    if conforms then r == Ok(rest) else r.Err? && IsKeyError(r.error)
  }

  lemma {:induction false} StartsWell(json: Json, rest: seq<Token>)
    ensures More(Tokens(json) + rest)
  {
  }

  /** The scanner agrees with the predicate, on any value before any other tokens. */
  lemma {:induction false} ScanAgrees(json: Json, context: Context, rest: seq<Token>)
    ensures Verdict(Scan(Tokens(json) + rest, context), Conforms(json, context), rest)
    decreases json
  {
    match json
    case Text(s) =>
      assert (Tokens(json) + rest)[1..] == rest;
    case Scalar(text) =>
      assert (Tokens(json) + rest)[1..] == rest;
    case Array(elements) =>
      var tail := [Delim(']')] + rest;
      Unwrap(Delim('['), ElementTokens(elements), Delim(']'), rest);
      ElementsAgree(elements, ElementContext(context), tail);
      assert tail[1..] == rest;
    case Object(fields) =>
      var tail := [Delim('}')] + rest;
      Unwrap(Delim('{'), FieldTokens(fields), Delim('}'), rest);
      FieldsAgree(fields, context, {}, tail);
      assert tail[1..] == rest;
  }

  lemma Unwrap(open: Token, inside: seq<Token>, close: Token, rest: seq<Token>)
    ensures var all := [open] + inside + [close] + rest;
      all[0] == open && all[1..] == inside + ([close] + rest)
  {
  }

  lemma {:induction false} ElementsAgree(elements: seq<Json>, context: Context, tail: seq<Token>)
    requires !More(tail)
    ensures Verdict(ScanElements(ElementTokens(elements) + tail, context), ElementsConform(elements, context), tail)
    decreases elements
  {
    if elements == [] {
      assert ElementTokens(elements) + tail == tail;
    } else {
      var more := ElementTokens(elements[1..]) + tail;
      assert ElementTokens(elements) + tail == Tokens(elements[0]) + more;
      StartsWell(elements[0], more);
      ScanAgrees(elements[0], context, more);
      ElementsAgree(elements[1..], context, tail);
    }
  }

  lemma {:induction false} FieldsAgree(fields: seq<Field>, context: Context, seen: set<string>, tail: seq<Token>)
    requires !More(tail)
    ensures Verdict(ScanFields(FieldTokens(fields) + tail, context, seen), FieldsConform(fields, context, seen), tail)
    decreases fields
  {
    if fields == [] {
      assert FieldTokens(fields) + tail == tail;
    } else {
      var f := fields[0];
      var more := FieldTokens(fields[1..]) + tail;
      FieldSplit(fields, tail);
      ScanAgrees(f.value, ChildContext(context, f.name).0, more);
      FieldsAgree(fields[1..], context, seen + {f.name}, tail);
    }
  }

  lemma FieldSplit(fields: seq<Field>, tail: seq<Token>)
    requires fields != []
    ensures var all := FieldTokens(fields) + tail;
      && all != [] && all[0] == Str(fields[0].name)
      && all[1..] == Tokens(fields[0].value) + (FieldTokens(fields[1..]) + tail)
  {
    SplitFour(Str(fields[0].name), Tokens(fields[0].value), FieldTokens(fields[1..]), tail);
  }

  lemma SplitFour(first: Token, a: seq<Token>, b: seq<Token>, tail: seq<Token>)
    ensures var all := [first] + a + b + tail; all[0] == first && all[1..] == a + (b + tail)
  {
  }

  // What conforming means, without contexts.

  /** No object at any depth repeats a name. */
  ghost predicate NoRepeats(json: Json)
    decreases json
  {
    match json
    case Array(elements) => forall i :: 0 <= i < |elements| ==> NoRepeats(elements[i])
    case Object(fields) =>
      DistinctNames(fields) && forall i :: 0 <= i < |fields| ==> NoRepeats(fields[i].value)
    case _ => true
  }

  ghost predicate DistinctNames(fields: seq<Field>) {
    forall i, j :: 0 <= i < j < |fields| ==> fields[i].name != fields[j].name
  }

  /** An object has only names of the contract. */
  ghost predicate ResultNames(json: Json) {
    json.Object? ==> forall i :: 0 <= i < |json.fields| ==> IsResultKey(json.fields[i].name)
  }

  /** The root object has only "results", and if that is an array, the objects
      directly in it have only the four names of the contract. */
  ghost predicate ContractNames(json: Json) {
    json.Object? ==> forall i :: 0 <= i < |json.fields| ==>
      && json.fields[i].name == "results"
      && (json.fields[i].value.Array? ==>
            forall j :: 0 <= j < |json.fields[i].value.elements| ==> ResultNames(json.fields[i].value.elements[j]))
  }

  /** The names a context allows, for the value itself and one level down. */
  ghost predicate NamesOf(json: Json, context: Context) {
    match context
    case AnyValue => true
    case Response => ContractNames(json)
    case Results =>
      json.Array? ==> forall j :: 0 <= j < |json.elements| ==> ResultNames(json.elements[j])
    case OneResult => ResultNames(json)
  }

  lemma {:induction false} ConformsMeans(json: Json, context: Context)
    ensures Conforms(json, context) <==> NoRepeats(json) && NamesOf(json, context)
    decreases json
  {
    match json
    case Array(elements) =>
      ElementsMean(elements, ElementContext(context));
    case Object(fields) =>
      FieldsMean(fields, context, {});
    case _ =>
  }

  lemma {:induction false} ElementsMean(elements: seq<Json>, context: Context)
    ensures ElementsConform(elements, context)
            <==> forall i :: 0 <= i < |elements| ==> NoRepeats(elements[i]) && NamesOf(elements[i], context)
    decreases elements
  {
    if elements != [] {
      ConformsMeans(elements[0], context);
      ElementsMean(elements[1..], context);
      assert forall i :: 0 <= i < |elements[1..]| ==> elements[1..][i] == elements[i + 1];
      assert forall i :: 0 < i < |elements| ==> elements[i] == elements[1..][i - 1];
    }
  }

  /** One field is new, allowed and fine. */
  ghost predicate FieldMeans(f: Field, context: Context, seen: set<string>) {
    && f.name !in seen && ChildContext(context, f.name).1
    && NoRepeats(f.value) && NamesOf(f.value, ChildContext(context, f.name).0)
  }

  lemma {:induction false} FieldsMean(fields: seq<Field>, context: Context, seen: set<string>)
    ensures FieldsConform(fields, context, seen)
            <==> DistinctNames(fields) && forall i :: 0 <= i < |fields| ==> FieldMeans(fields[i], context, seen)
    decreases fields
  {
    if fields != [] {
      var f, rest := fields[0], fields[1..];
      ConformsMeans(f.value, ChildContext(context, f.name).0);
      FieldsMean(rest, context, seen + {f.name});
      assert forall i :: 0 <= i < |rest| ==> rest[i] == fields[i + 1];
      assert forall i :: 0 < i < |fields| ==> fields[i] == rest[i - 1];
    }
  }

  /** The whole validation: it succeeds exactly on values without repeated names whose
      root and results use only the names of the contract. */
  lemma ValidationMeans(json: Json, rest: seq<Token>)
    ensures Scan(Tokens(json) + rest, Response) == Ok(rest) <==> NoRepeats(json) && ContractNames(json)
    ensures var r := Scan(Tokens(json) + rest, Response); r.Ok? ==> r.value == rest
  {
    ScanAgrees(json, Response, rest);
    ConformsMeans(json, Response);
  }
}
