/** The templates and captures of internal/evaluator/multiturn.go: the placeholders
    that a turn's message refers to, and the variables that a response gives.

    A rule's extractor, a regular expression or a JSON path, is an arbitrary function
    of the response; the regular expression for placeholders is modelled as it is. */
module TurnTemplates {
  import opened Wrappers
  import opened GoText

  type Vars = map<string, string>

  /** \w of the regexp package. */
  predicate IsWordByte(c: char) {
    '0' <= c <= '9' || 'A' <= c <= 'Z' || 'a' <= c <= 'z' || c == '_'
  }

  predicate IsWord(name: string) {
    name != "" && forall i :: 0 <= i < |name| ==> IsWordByte(name[i])
  }

  /** The longest run of word bytes that s starts with. */
  function WordAtStart(s: string): (w: string)
    ensures w <= s && (forall i :: 0 <= i < |w| ==> IsWordByte(w[i]))
    ensures |w| < |s| ==> !IsWordByte(s[|w|])
  {
    if s == "" || !IsWordByte(s[0]) then "" else [s[0]] + WordAtStart(s[1..])
  }

  function Braced(name: string): string {
    ['{', '{'] + name + ['}', '}']
  }

  /** The name in the match of `\{\{(\w+)\}\}` at the start of s, if there is one. */
  function PlaceholderAtStart(s: string): Option<string> {
    if |s| < 2 || s[0] != '{' || s[1] != '{' then None
    else
      var name := WordAtStart(s[2..]);
      if name != "" && HasPrefix(s, Braced(name)) then Some(name) else None
  }

  datatype Part = Plain(c: char) | Placeholder(name: string)

  /** A message cut at its matches, from left to right. */
  function Parts(s: string): seq<Part>
    decreases |s|
  {
    if s == "" then []
    else
      match PlaceholderAtStart(s)
      case Some(name) => [Placeholder(name)] + Parts(s[|Braced(name)|..])
      case None => [Plain(s[0])] + Parts(s[1..])
  }

  function PartText(p: Part): string {
    match p
    case Plain(c) => [c]
    case Placeholder(name) => Braced(name)
  }

  function TextOfParts(ps: seq<Part>): string {
    if ps == [] then "" else PartText(ps[0]) + TextOfParts(ps[1..])
  }

  /** The placeholders of a message. */
  function Placeholders(s: string): set<string> {
    set p | p in Parts(s) && p.Placeholder? :: p.name
  }

  /** The names, in order, that have no value. */
  function Unresolved(ps: seq<Part>, vars: Vars): seq<string> {
    if ps == [] then []
    else (if ps[0].Placeholder? && ps[0].name !in vars then [ps[0].name] else []) + Unresolved(ps[1..], vars)
  }

  function FilledIn(ps: seq<Part>, vars: Vars): string {
    if ps == [] then ""
    else
      (if ps[0].Placeholder? && ps[0].name in vars then vars[ps[0].name] else PartText(ps[0]))
      + FilledIn(ps[1..], vars)
  }

  /** substituteTemplate. The error holds the names that are not resolved. */
  function SubstituteTemplate(content: string, vars: Vars): Result<string, seq<string>> {
    var unresolved := Unresolved(Parts(content), vars);
    if unresolved != [] then Err(unresolved) else Ok(FilledIn(Parts(content), vars))
  }

  lemma {:induction false} UnresolvedAre(ps: seq<Part>, vars: Vars)
    ensures forall name :: name in Unresolved(ps, vars) <==> Placeholder(name) in ps && name !in vars
  {
    if ps != [] {
      UnresolvedAre(ps[1..], vars);
      assert forall p :: p in ps <==> p == ps[0] || p in ps[1..];
    }
  }

  /** Substitution succeeds exactly if every placeholder has a value; its error names
      exactly the placeholders that have none. */
  lemma SubstitutesExactly(content: string, vars: Vars)
    ensures SubstituteTemplate(content, vars).Ok? <==> Placeholders(content) <= vars.Keys
    ensures SubstituteTemplate(content, vars).Err? ==>
      forall name :: name in SubstituteTemplate(content, vars).error
                     <==> name in Placeholders(content) && name !in vars
  {
    var ps := Parts(content);
    UnresolvedAre(ps, vars);
    forall name
      ensures name in Placeholders(content) <==> Placeholder(name) in ps
    {
    }
    if Unresolved(ps, vars) != [] {
      var name := Unresolved(ps, vars)[0];
      assert name in Unresolved(ps, vars);
    }
  }

  lemma AtStartMeans(s: string)
    requires PlaceholderAtStart(s).Some?
    ensures var name := PlaceholderAtStart(s).value; IsWord(name) && Braced(name) <= s
  {
  }

  /** The parts are the message. */
  lemma {:induction false} PartsAreText(s: string)
    ensures TextOfParts(Parts(s)) == s
    decreases |s|
  {
    if s != "" {
      match PlaceholderAtStart(s)
      case Some(name) =>
        AtStartMeans(s);
        PartsAreText(s[|Braced(name)|..]);
        assert Parts(s)[1..] == Parts(s[|Braced(name)|..]);
        assert s == Braced(name) + s[|Braced(name)|..];
      case None =>
        PartsAreText(s[1..]);
        assert Parts(s)[1..] == Parts(s[1..]);
    }
  }

  lemma {:induction false} WholeWord(s: string, name: string, rest: string)
    requires (forall i :: 0 <= i < |name| ==> IsWordByte(name[i])) && s == name + rest
    requires rest != "" && !IsWordByte(rest[0])
    ensures WordAtStart(s) == name
    decreases name
  {
    if name == "" {
      assert s == rest;
    } else {
      assert s[0] == name[0] && s[1..] == name[1..] + rest;
      WholeWord(s[1..], name[1..], rest);
    }
  }

  /** A name in double braces at the start is found there. */
  lemma FoundAtStart(s: string, name: string)
    requires IsWord(name) && Braced(name) <= s
    ensures PlaceholderAtStart(s) == Some(name)
  {
    var rest := ['}', '}'] + s[|Braced(name)|..];
    assert s[..|Braced(name)|] == Braced(name);
    assert s == Braced(name) + s[|Braced(name)|..];
    assert s[2..] == name + rest;
    WholeWord(s[2..], name, rest);
  }

  lemma LaterOccurrence(s: string, part: string, i: nat, d: nat)
    requires d <= i && d <= |s|
    ensures OccursAt(s, part, i) <==> OccursAt(s[d..], part, i - d)
  {
    if i + |part| <= |s| {
      assert s[i..i + |part|] == s[d..][i - d..i - d + |part|];
    }
  }

  /** Where a match can start. */
  predicate Opens(s: string, i: nat) {
    i + 2 < |s| && s[i] == '{' && s[i + 1] == '{' && IsWordByte(s[i + 2])
  }

  lemma OccurrenceOpens(s: string, name: string, i: nat)
    requires IsWord(name) && OccursAt(s, Braced(name), i)
    ensures Opens(s, i)
  {
    var t := Braced(name);
    var u := s[i..i + |t|];
    assert u[0] == s[i] && u[1] == s[i + 1] && u[2] == s[i + 2];
    assert t[0] == '{' && t[1] == '{' && t[2] == name[0];
  }

  lemma NoneOpensInside(s: string, name: string, i: nat)
    requires IsWord(name) && Braced(name) <= s && 0 < i < |Braced(name)|
    ensures !Opens(s, i)
  {
    var t := Braced(name);
    assert forall j :: 0 <= j < |t| ==> s[j] == t[j];
    assert t[2] == name[0];
  }

  /** No match starts inside another. */
  lemma NoneInside(s: string, name: string, other: string, i: nat)
    requires IsWord(name) && IsWord(other) && Braced(name) <= s && 0 < i < |Braced(name)|
    ensures !OccursAt(s, Braced(other), i)
  {
    NoneOpensInside(s, name, i);
    if OccursAt(s, Braced(other), i) {
      OccurrenceOpens(s, other, i);
    }
  }

  /** The placeholders of a message are exactly the words that stand somewhere in it
      between double braces. */
  lemma {:induction false} PlaceholdersAre(s: string, name: string)
    ensures name in Placeholders(s) <==> IsWord(name) && ContainsText(s, Braced(name))
    decreases |s|
  {
    if s != "" {
      match PlaceholderAtStart(s)
      case Some(first) =>
        AtStartMeans(s);
        var d := |Braced(first)|;
        PlaceholdersAre(s[d..], name);
        FirstPart(s, Placeholder(first), s[d..], name);
        AfterMatch(s, first, name);
      case None =>
        PlaceholdersAre(s[1..], name);
        FirstPart(s, Plain(s[0]), s[1..], name);
        AfterByte(s, name);
    }
  }

  lemma FirstPart(s: string, first: Part, rest: string, name: string)
    requires Parts(s) == [first] + Parts(rest)
    ensures name in Placeholders(s) <==> first == Placeholder(name) || name in Placeholders(rest)
  {
    assert Placeholder(name) in Parts(s) <==> Placeholder(name) == first || Placeholder(name) in Parts(rest);
    assert name in Placeholders(s) <==> Placeholder(name) in Parts(s);
    assert name in Placeholders(rest) <==> Placeholder(name) in Parts(rest);
  }

  lemma AfterMatch(s: string, first: string, name: string)
    requires IsWord(first) && Braced(first) <= s
    ensures IsWord(name) && ContainsText(s, Braced(name))
            <==> name == first || (IsWord(name) && ContainsText(s[|Braced(first)|..], Braced(name)))
  {
    var d := |Braced(first)|;
    var t := Braced(name);
    if name == first {
      assert OccursAt(s, t, 0);
    }
    if IsWord(name) && ContainsText(s, t) && name != first {
      var i: nat :| i <= |s| && OccursAt(s, t, i);
      if i == 0 {
        FoundAtStart(s, first);
        FoundAtStart(s, name);
      } else if i < d {
        NoneInside(s, first, name, i);
      } else {
        LaterOccurrence(s, t, i, d);
        assert OccursAt(s[d..], t, i - d);
      }
    }
    if IsWord(name) && ContainsText(s[d..], t) {
      var i: nat :| i <= |s[d..]| && OccursAt(s[d..], t, i);
      LaterOccurrence(s, t, i + d, d);
      assert OccursAt(s, t, i + d);
    }
  }

  lemma AfterByte(s: string, name: string)
    requires s != "" && PlaceholderAtStart(s).None?
    ensures IsWord(name) && ContainsText(s, Braced(name)) <==> IsWord(name) && ContainsText(s[1..], Braced(name))
  {
    var t := Braced(name);
    if IsWord(name) && ContainsText(s, t) {
      var i: nat :| i <= |s| && OccursAt(s, t, i);
      if i == 0 {
        FoundAtStart(s, name);
      } else {
        LaterOccurrence(s, t, i, 1);
        assert OccursAt(s[1..], t, i - 1);
      }
    }
    if ContainsText(s[1..], t) {
      var i: nat :| i <= |s[1..]| && OccursAt(s[1..], t, i);
      LaterOccurrence(s, t, i + 1, 1);
      assert OccursAt(s, t, i + 1);
    }
  }

  // Captures.

  datatype CaptureRule = CaptureRule(variable: string, extract: string -> Result<string, string>)

  /** captureVariables as a function. */
  function Capture(rules: seq<CaptureRule>, response: string): Result<Vars, string> {
    if |rules| == 0 then Ok(map[])
    else
      var n := |rules| - 1;
      match Capture(rules[..n], response)
      case Err(reason) => Err(reason)
      case Ok(captured) =>
        match rules[n].extract(response)
        case Err(reason) => Err(reason)
        case Ok(value) => if value == "" then Err("empty value") else Ok(captured[rules[n].variable := value])
  }

  lemma {:induction false} CaptureFails(rules: seq<CaptureRule>, response: string, n: nat)
    requires n <= |rules| && Capture(rules[..n], response).Err?
    ensures Capture(rules, response) == Capture(rules[..n], response)
    decreases |rules| - n
  {
    if n < |rules| {
      assert rules[..n + 1][..n] == rules[..n];
      CaptureFails(rules, response, n + 1);
    } else {
      assert rules[..n] == rules;
    }
  }

  method CaptureVariables(rules: seq<CaptureRule>, response: string) returns (r: Result<Vars, string>)
    ensures r == Capture(rules, response)
  {
    var captured: Vars := map[];
    for i := 0 to |rules|
      invariant Capture(rules[..i], response) == Ok(captured)
    {
      assert rules[..i + 1][..i] == rules[..i];
      var value := rules[i].extract(response);
      if value.Err? {
        CaptureFails(rules, response, i + 1);
        return Err(value.error);
      }
      if value.value == "" {
        CaptureFails(rules, response, i + 1);
        return Err("empty value");
      }
      captured := captured[rules[i].variable := value.value];
    }
    assert rules[..|rules|] == rules;
    return Ok(captured);
  }

  /** The variables that the rules name. */
  function Names(rules: seq<CaptureRule>): set<string> {
    set i | 0 <= i < |rules| :: rules[i].variable
  }

  predicate Extracts(rule: CaptureRule, response: string) {
    rule.extract(response).Ok? && rule.extract(response).value != ""
  }

  predicate AllExtract(rules: seq<CaptureRule>, response: string) {
    forall i :: 0 <= i < |rules| ==> Extracts(rules[i], response)
  }

  /** Capturing succeeds exactly if every rule finds a value that is not empty, and then
      captures exactly the variables that the rules name. */
  lemma {:induction false} CapturesExactly(rules: seq<CaptureRule>, response: string)
    ensures Capture(rules, response).Ok? <==> AllExtract(rules, response)
    ensures Capture(rules, response).Ok? ==> Capture(rules, response).value.Keys == Names(rules)
  {
    if |rules| > 0 {
      var before := rules[..|rules| - 1];
      CapturesExactly(before, response);
      NamesMore(rules);
      assert AllExtract(rules, response) <==> AllExtract(before, response) && Extracts(rules[|rules| - 1], response);
    }
  }

  lemma NamesMore(rules: seq<CaptureRule>)
    requires |rules| > 0
    ensures Names(rules) == Names(rules[..|rules| - 1]) + {rules[|rules| - 1].variable}
  {
    var before := rules[..|rules| - 1];
    forall name | name in Names(rules)
      ensures name in Names(before) + {rules[|rules| - 1].variable}
    {
      var i :| 0 <= i < |rules| && rules[i].variable == name;
      assert i < |before| ==> before[i].variable == name;
    }
    forall name | name in Names(before)
      ensures name in Names(rules)
    {
      var i :| 0 <= i < |before| && before[i].variable == name;
      assert rules[i].variable == name;
    }
  }
}
