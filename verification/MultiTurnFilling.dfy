/** When the template of a turn of internal/evaluator/multiturn.go cannot be filled in,
    and what is lost then. The case alone decides: which placeholders its messages
    have, which variables its turns capture, and what its turns ask of a response. */
module MultiTurnFilling {
  import opened Wrappers
  import opened GoText
  import opened TurnTemplates
  import opened MultiTurn

  /** The variables that the turns before the i-th capture. */
  function CapturedBefore(turns: seq<Turn>, i: nat): set<string>
    requires i <= |turns|
  {
    if i == 0 then {} else CapturedBefore(turns, i - 1) + Names(turns[i - 1].capture)
  }

  predicate Fills(turns: seq<Turn>, i: nat)
    requires i < |turns|
  {
    Placeholders(turns[i].content) <= CapturedBefore(turns, i)
  }

  /** Every placeholder is captured by an earlier turn. */
  predicate Fillable(turns: seq<Turn>) {
    forall i :: 0 <= i < |turns| ==> Fills(turns, i)
  }

  /** The first turn from i on that refers to a variable no earlier turn captures. */
  function FirstUnfillable(turns: seq<Turn>, i: nat): (k: nat)
    requires i <= |turns|
    ensures i <= k <= |turns| && forall j :: i <= j < k ==> Fills(turns, j)
    ensures k < |turns| ==> !Fills(turns, k)
    decreases |turns| - i
  {
    if i == |turns| || !Fills(turns, i) then i else FirstUnfillable(turns, i + 1)
  }

  /** The turn goes on after this response. */
  predicate Passes(turn: Turn, response: string) {
    && (turn.postCondition.Some? ==> Holds(turn.postCondition.value, response))
    && AllExtract(turn.capture, response)
  }

  ghost predicate Passable(turn: Turn) {
    exists response :: Passes(turn, response)
  }

  /** Nothing in the case keeps it from the turn that cannot be filled in. */
  ghost predicate CanGetStuck(turns: seq<Turn>) {
    !Fillable(turns) && forall i :: 0 <= i < FirstUnfillable(turns, 0) ==> Passable(turns[i])
  }

  // Where a conversation fails.

  lemma ConcludePasses(s: State, turns: seq<Turn>, i: nat, r: TurnResult)
    requires i < |turns|
    ensures Conclude(s, turns, i, r).Goes? <==> Passes(turns[i], r.response)
    ensures Conclude(s, turns, i, r).Goes? ==>
      Conclude(s, turns, i, r).state.capturedVars.Keys == s.capturedVars.Keys + Names(turns[i].capture)
    ensures Conclude(s, turns, i, r).Ends? ==> !FailedToFill(Conclude(s, turns, i, r).conversation)
  {
    CapturesExactly(turns[i].capture, r.response);
  }

  /** What the case says of one step, from a state that holds exactly the variables
      captured so far. */
  ghost predicate TurnFills(turns: seq<Turn>, i: nat, p: Progress)
    requires i < |turns|
  {
    match p
    case Goes(t) => Fills(turns, i) && Passable(turns[i]) && t.capturedVars.Keys == CapturedBefore(turns, i + 1)
    case Ends(c) => FailedToFill(c) <==> !Fills(turns, i)
  }

  lemma TakeTurnFills(s: State, turns: seq<Turn>, i: nat, agent: Agent)
    requires i < |turns| && s.capturedVars.Keys == CapturedBefore(turns, i)
    ensures TurnFills(turns, i, TakeTurn(s, turns, i, agent))
  {
    SubstitutesExactly(turns[i].content, s.capturedVars);
    match SubstituteTemplate(turns[i].content, s.capturedVars)
    case Err(_) =>
    case Ok(content) =>
      match agent(i + 1, content, s.sessionId)
      case Broke(_, _) =>
      case Replied(session) =>
        ConcludePasses(Absorbed(s, session, i), turns, i,
                       NewResult(i, content, session, s.account.sessionTranscript));
  }

  ghost predicate EveryTurnFills(turns: seq<Turn>, step: Step) {
    forall s: State, i: nat {:trigger step(s, i)} ::
      i < |turns| && s.capturedVars.Keys == CapturedBefore(turns, i) ==> TurnFills(turns, i, step(s, i))
  }

  lemma TurnsFill(turns: seq<Turn>, agent: Agent)
    ensures EveryTurnFills(turns, TurnStep(turns, agent))
  {
    var step := TurnStep(turns, agent);
    forall s: State, i: nat | i < |turns| && s.capturedVars.Keys == CapturedBefore(turns, i)
      ensures TurnFills(turns, i, step(s, i))
    {
      TakeTurnFills(s, turns, i, agent);
    }
  }

  /** Turn k is the first that is not filled in; k == |turns| if there is none. */
  ghost predicate IsFirst(turns: seq<Turn>, k: nat) {
    && k <= |turns| && (k < |turns| ==> !Fills(turns, k))
    && forall j: nat {:trigger Fills(turns, j)} :: j < k ==> Fills(turns, j)
  }

  lemma FirstIsFirst(turns: seq<Turn>)
    ensures IsFirst(turns, FirstUnfillable(turns, 0))
  {
  }

  /** A turn that goes on has heard a session, and one that is not filled in has not. */
  ghost predicate EveryTurnHears(n: nat, step: Step, ear: Ear) {
    forall s: State, i: nat {:trigger step(s, i)} :: i < n ==>
      match step(s, i)
      case Goes(_) => ear(s, i).Some?
      case Ends(c) => FailedToFill(c) ==> ear(s, i).None?
  }

  lemma TurnsHear(turns: seq<Turn>, agent: Agent)
    ensures EveryTurnHears(|turns|, TurnStep(turns, agent), TurnEar(turns, agent))
  {
    var step, ear := TurnStep(turns, agent), TurnEar(turns, agent);
    TurnsKeep(turns, agent);
    forall s: State, i: nat | i < |turns|
      ensures match step(s, i)
        case Goes(_) => ear(s, i).Some?
        case Ends(c) => FailedToFill(c) ==> ear(s, i).None?
    {
      TurnAt(s, i, |turns|, step, ear);
    }
  }

  lemma OneTurnMore(s: State, i: nat, n: nat, t: State, step: Step, ear: Ear)
    requires i < n && step(s, i) == Goes(t) && ear(s, i).Some?
    ensures RunFrom(s, i, n, step) == RunFrom(t, i + 1, n, step)
    ensures |HeardFrom(s, i, n, step, ear)| == 1 + |HeardFrom(t, i + 1, n, step, ear)|
  {
  }

  lemma {:induction false} RunFails(s: State, turns: seq<Turn>, i: nat, k: nat, step: Step, ear: Ear)
    requires i <= k && IsFirst(turns, k) && s.capturedVars.Keys == CapturedBefore(turns, i)
    requires EveryTurnHears(|turns|, step, ear) && EveryTurnFills(turns, step)
    requires FailedToFill(RunFrom(s, i, |turns|, step))
    ensures i + |HeardFrom(s, i, |turns|, step, ear)| == k < |turns|
    decreases |turns| - i
  {
    if i < |turns| {
      assert TurnFills(turns, i, step(s, i));
      match step(s, i)
      case Ends(c) => RunEnds(s, i, |turns|, c, step, ear);
      case Goes(t) =>
        OneTurnMore(s, i, |turns|, t, step, ear);
        RunFails(t, turns, i + 1, k, step, ear);
    }
  }

  lemma {:induction false} RunPasses(s: State, turns: seq<Turn>, i: nat, k: nat, step: Step)
    requires i <= k && IsFirst(turns, k) && s.capturedVars.Keys == CapturedBefore(turns, i)
    requires EveryTurnFills(turns, step) && FailedToFill(RunFrom(s, i, |turns|, step))
    ensures forall j :: i <= j < k ==> Passable(turns[j])
    decreases |turns| - i
  {
    if i < |turns| {
      assert TurnFills(turns, i, step(s, i));
      match step(s, i)
      case Ends(_) =>
      case Goes(t) => RunPasses(t, turns, i + 1, k, step);
    }
  }

  /** A template can only fail at the first turn that refers to a variable which no earlier
      turn captures, after a session has been heard in each turn before it. */
  lemma FailsOnlyThere(turns: seq<Turn>, agent: Agent)
    requires FailedToFill(Converse(turns, Some(agent)))
    ensures CanGetStuck(turns) && |SessionsHeard(turns, agent)| == FirstUnfillable(turns, 0)
  {
    TurnsHear(turns, agent);
    TurnsFill(turns, agent);
    FirstIsFirst(turns);
    RunFails(START, turns, 0, FirstUnfillable(turns, 0), TurnStep(turns, agent), TurnEar(turns, agent));
    RunPasses(START, turns, 0, FirstUnfillable(turns, 0), TurnStep(turns, agent));
  }

  lemma {:induction false} RunReaches(s: State, turns: seq<Turn>, i: nat, k: nat, step: Step)
    requires i <= k && IsFirst(turns, k) && s.capturedVars.Keys == CapturedBefore(turns, i)
    requires Underway(s, i) && EveryTurnFine(turns, step) && EveryTurnFills(turns, step)
    ensures var c := RunFrom(s, i, |turns|, step);
      FailedToFill(c) <==> k < |turns| && k < |c.results| && CompletedUpTo(c.results, k)
    decreases |turns| - i
  {
    if i < |turns| {
      assert TurnFills(turns, i, step(s, i));
      var shape :| Fine(step(s, i), turns, shape, i);
      match step(s, i)
      case Ends(c) => EndShape(c, turns, shape, i);
      case Goes(t) => RunReaches(t, turns, i + 1, k, step);
    }
  }

  lemma EndShape(c: Conversation, turns: seq<Turn>, shape: Shape, i: nat)
    requires i < |turns| && WellShaped(c, turns, shape, i)
    ensures i < |c.results| && CompletedUpTo(c.results, i) && c.results[i].status != TurnCompleted
  {
  }

  /** It does fail there in every conversation that completes all the turns before, and
      goes on. */
  lemma FailsExactlyThere(turns: seq<Turn>, agent: Agent)
    ensures var c, k := Converse(turns, Some(agent)), FirstUnfillable(turns, 0);
      FailedToFill(c) <==> k < |turns| && k < |c.results| && CompletedUpTo(c.results, k)
  {
    TurnsFine(turns, agent);
    TurnsFill(turns, agent);
    FirstIsFirst(turns);
    RunReaches(START, turns, 0, FirstUnfillable(turns, 0), TurnStep(turns, agent));
  }

  // An agent that gets a case stuck.

  /** Replies with these responses, each as a session of its own that cost one token. The
      first shows one message; `count` is what the sessions say of their turns. */
  function Scripted(responses: seq<string>, count: int): Agent {
    (i: nat, content: string, id: string) =>
      Replied(Some(Session("", if i == 1 then [Message(User, "", 0, "")] else [],
                           if 1 <= i <= |responses| then responses[i - 1] else "", 1, 1, 1, count)))
  }

  ghost predicate AllPass(turns: seq<Turn>, responses: seq<string>) {
    |responses| <= |turns| && forall i :: 0 <= i < |responses| ==> Passes(turns[i], responses[i])
  }

  lemma {:induction false} PassingResponses(turns: seq<Turn>, k: nat) returns (responses: seq<string>)
    requires k <= |turns| && forall i :: 0 <= i < k ==> Passable(turns[i])
    ensures |responses| == k && AllPass(turns, responses)
  {
    responses := [];
    if k > 0 {
      var before := PassingResponses(turns, k - 1);
      var response :| Passes(turns[k - 1], response);
      responses := before + [response];
    }
  }

  /** What the result says is the response, whatever session came before. */
  lemma ScriptedResponse(responses: seq<string>, count: int, i: nat, content: string, id: string,
                         previous: seq<Message>)
    requires i < |responses| && (i == 0 ==> previous == [])
    ensures var reply := Scripted(responses, count)(i + 1, content, id);
      NewResult(i, content, reply.session, previous).response == responses[i]
  {
    var session := Scripted(responses, count)(i + 1, content, id).session.value;
    assert session.transcript == if i == 0 then [Message(User, "", 0, "")] else [];
    var own := OwnMessages(session.transcript, previous, i + 1);
    if own != [] {
      assert |own| == 1 && own[0].role == User && own[..0] == [];
      assert FinalAssistantMessage(own[..0]) == "" && FinalAssistantMessage(own) == "";
    }
  }

  lemma ScriptedGoes(s: State, turns: seq<Turn>, i: nat, responses: seq<string>, count: int)
    requires i < |responses| && AllPass(turns, responses) && (i == 0 ==> s == START)
    requires s.capturedVars.Keys == CapturedBefore(turns, i) && Fills(turns, i)
    ensures TakeTurn(s, turns, i, Scripted(responses, count)).Goes?
  {
    SubstitutesExactly(turns[i].content, s.capturedVars);
    var content := SubstituteTemplate(turns[i].content, s.capturedVars).value;
    ScriptedResponse(responses, count, i, content, s.sessionId, s.account.sessionTranscript);
    var session := Scripted(responses, count)(i + 1, content, s.sessionId).session;
    ConcludePasses(Absorbed(s, session, i), turns, i, NewResult(i, content, session, s.account.sessionTranscript));
  }

  /** The steps go on from every state that has the variables captured so far. */
  ghost predicate GoesOn(turns: seq<Turn>, step: Step, k: nat)
    requires k <= |turns|
  {
    forall s: State, i: nat {:trigger step(s, i)} ::
      i < k && s.capturedVars.Keys == CapturedBefore(turns, i) && (i == 0 ==> s == START) ==> step(s, i).Goes?
  }

  lemma ScriptGoesOn(turns: seq<Turn>, responses: seq<string>, count: int)
    requires AllPass(turns, responses) && |responses| == FirstUnfillable(turns, 0)
    ensures GoesOn(turns, TurnStep(turns, Scripted(responses, count)), |responses|)
  {
    var step := TurnStep(turns, Scripted(responses, count));
    forall s: State, i: nat | i < |responses| && s.capturedVars.Keys == CapturedBefore(turns, i)
                              && (i == 0 ==> s == START)
      ensures step(s, i).Goes?
    {
      ScriptedGoes(s, turns, i, responses, count);
    }
  }

  lemma {:induction false} RunGetsStuck(s: State, turns: seq<Turn>, i: nat, k: nat, step: Step)
    requires i <= k < |turns| && IsFirst(turns, k) && s.capturedVars.Keys == CapturedBefore(turns, i)
    requires EveryTurnFills(turns, step) && GoesOn(turns, step, k) && (i == 0 ==> s == START)
    ensures FailedToFill(RunFrom(s, i, |turns|, step))
    decreases |turns| - i
  {
    assert TurnFills(turns, i, step(s, i));
    if i < k {
      RunGetsStuck(step(s, i).state, turns, i + 1, k, step);
    }
  }

  ghost predicate ScriptedSession(session: Option<Session>, i: nat, count: int) {
    match session
    case None => false
    case Some(s) =>
      && s.turns == count && s.inputTokens == 1
      && s.transcript == if i == 0 then [Message(User, "", 0, "")] else []
  }

  ghost predicate EarIsScripted(ear: Ear, n: nat, count: int) {
    forall s: State, i: nat {:trigger ear(s, i)} ::
      i < n && ear(s, i).Some? ==> ScriptedSession(ear(s, i).value, i, count)
  }

  /** The sessions heard from the i-th turn on. */
  ghost predicate ScriptedFrom(heard: seq<Option<Session>>, i: nat, count: int) {
    forall j: nat {:trigger heard[j]} :: j < |heard| ==> ScriptedSession(heard[j], i + j, count)
  }

  lemma OneMoreScripted(first: Option<Session>, heard: seq<Option<Session>>, i: nat, count: int)
    requires ScriptedSession(first, i, count) && ScriptedFrom(heard, i + 1, count)
    ensures ScriptedFrom([first] + heard, i, count)
  {
    forall j: nat | j < 1 + |heard|
      ensures ScriptedSession(([first] + heard)[j], i + j, count)
    {
      if j > 0 {
        assert ScriptedSession(heard[j - 1], i + 1 + (j - 1), count);
      }
    }
  }

  lemma {:induction false} HeardAreScripted(s: State, i: nat, n: nat, step: Step, ear: Ear, count: int)
    requires i <= n && EarIsScripted(ear, n, count)
    ensures ScriptedFrom(HeardFrom(s, i, n, step, ear), i, count)
    decreases n - i
  {
    if i < n && ear(s, i).Some? {
      match step(s, i)
      case Ends(_) =>
        OneMoreScripted(ear(s, i).value, [], i, count);
        assert [ear(s, i).value] + [] == [ear(s, i).value];
      case Goes(t) =>
        HeardAreScripted(t, i + 1, n, step, ear, count);
        OneMoreScripted(ear(s, i).value, HeardFrom(t, i + 1, n, step, ear), i, count);
    }
  }

  lemma ScriptedEar(turns: seq<Turn>, responses: seq<string>, count: int)
    ensures EarIsScripted(TurnEar(turns, Scripted(responses, count)), |turns|, count)
  {
  }

  lemma ScriptIsHeard(turns: seq<Turn>, responses: seq<string>, count: int)
    ensures ScriptedFrom(SessionsHeard(turns, Scripted(responses, count)), 0, count)
  {
    var agent := Scripted(responses, count);
    ScriptedEar(turns, responses, count);
    HeardAreScripted(START, 0, |turns|, TurnStep(turns, agent), TurnEar(turns, agent), count);
  }

  lemma ScriptGetsStuck(turns: seq<Turn>, responses: seq<string>, count: int)
    requires AllPass(turns, responses) && |responses| == FirstUnfillable(turns, 0) < |turns|
    ensures FailedToFill(Converse(turns, Some(Scripted(responses, count))))
  {
    var agent := Scripted(responses, count);
    TurnsFill(turns, agent);
    ScriptGoesOn(turns, responses, count);
    FirstIsFirst(turns);
    RunGetsStuck(START, turns, 0, FirstUnfillable(turns, 0), TurnStep(turns, agent));
  }

  lemma StuckResponses(turns: seq<Turn>) returns (responses: seq<string>)
    requires CanGetStuck(turns)
    ensures AllPass(turns, responses) && |responses| == FirstUnfillable(turns, 0) < |turns|
  {
    responses := PassingResponses(turns, FirstUnfillable(turns, 0));
  }

  // What the case decides.

  ghost predicate IsAccounted(turns: seq<Turn>, agent: Agent) {
    Reports(Converse(turns, Some(agent)), AbsorbAll(SessionsHeard(turns, agent)))
  }

  lemma {:induction false} CountReachedAtMost(results: seq<TurnResult>)
    ensures CountReached(results) <= |results|
  {
    if results != [] {
      CountReachedAtMost(results[..|results| - 1]);
    }
  }

  lemma StuckIsNotAccounted(turns: seq<Turn>) returns (agent: Agent)
    requires CanGetStuck(turns)
    ensures !IsAccounted(turns, agent)
  {
    var responses := StuckResponses(turns);
    agent := Scripted(responses, |turns| + 1);
    ScriptGetsStuck(turns, responses, |turns| + 1);
    ScriptIsHeard(turns, responses, |turns| + 1);
    EveryConversationAccounted(turns, agent);
    var heard := SessionsHeard(turns, agent);
    if heard != [] {
      assert ScriptedSession(heard[|heard| - 1], |heard| - 1, |turns| + 1);
    }
    var shape, k := ConversationShape(turns, agent);
    CountReachedAtMost(Converse(turns, Some(agent)).results);
  }

  /** The sessions are accounted for with every agent exactly if every placeholder is
      captured by an earlier turn, or some turn before the first that is not filled in
      accepts no response. */
  lemma AccountedExactly(turns: seq<Turn>)
    ensures (forall agent: Agent :: IsAccounted(turns, agent))
            <==> Fillable(turns) || exists i :: 0 <= i < FirstUnfillable(turns, 0) && !Passable(turns[i])
  {
    if CanGetStuck(turns) {
      var agent := StuckIsNotAccounted(turns);
    } else {
      forall agent: Agent
        ensures IsAccounted(turns, agent)
      {
        EveryConversationAccounted(turns, agent);
        if FailedToFill(Converse(turns, Some(agent))) {
          FailsOnlyThere(turns, agent);
        }
      }
    }
  }

  // What is lost.

  /** The tokens that the caller gets to see are not those of the sessions heard. */
  predicate LosesTokens(c: Conversation, a: Account) {
    match c.aggregate
    case None => a.inputTokens != 0 || a.outputTokens != 0
    case Some(session) => session.inputTokens != a.inputTokens || session.outputTokens != a.outputTokens
  }

  predicate LosesMessages(c: Conversation, a: Account) {
    !SameWords(TranscriptOf(c.aggregate), a.transcript)
  }

  lemma NothingOrOneIsKept(c: Conversation, heard: seq<Option<Session>>)
    requires |heard| <= 1 && c.aggregate == LastOf(heard)
    ensures !LosesTokens(c, AbsorbAll(heard)) && !LosesMessages(c, AbsorbAll(heard))
  {
    if |heard| == 1 {
      assert heard[..0] == [];
      assert AbsorbAll(heard) == Absorb(NOTHING, heard[0], 1);
      OneIsKept(heard[0]);
    }
  }

  lemma OneIsKept(session: Option<Session>)
    ensures var a := Absorb(NOTHING, session, 1);
      && SameWords(TranscriptOf(session), a.transcript)
      && (session.Some? ==> a.inputTokens == session.value.inputTokens && a.outputTokens == session.value.outputTokens)
      && (session.None? ==> a.inputTokens == 0 && a.outputTokens == 0)
  {
    if session.Some? {
      var own := OwnMessages(session.value.transcript, [], 1);
      assert [] + own == own;
    }
  }

  /** Neither tokens nor messages are lost unless a turn after the second cannot be filled in. */
  lemma LossNeedsTwo(turns: seq<Turn>, agent: Agent)
    requires var c, a := Converse(turns, Some(agent)), AbsorbAll(SessionsHeard(turns, agent));
      LosesTokens(c, a) || LosesMessages(c, a)
    ensures CanGetStuck(turns) && FirstUnfillable(turns, 0) >= 2
  {
    var c, heard := Converse(turns, Some(agent)), SessionsHeard(turns, agent);
    EveryConversationAccounted(turns, agent);
    if FailedToFill(c) {
      FailsOnlyThere(turns, agent);
      if |heard| <= 1 {
        NothingOrOneIsKept(c, heard);
      }
    }
  }

  lemma {:induction false} OneTokenEach(heard: seq<Option<Session>>, count: int)
    requires ScriptedFrom(heard, 0, count)
    ensures SumInput(heard) == |heard|
  {
    if heard != [] {
      var n := |heard| - 1;
      assert ScriptedSession(heard[n], n, count);
      OneTokenEach(heard[..n], count);
    }
  }

  lemma ScriptedAccount(heard: seq<Option<Session>>, count: int)
    requires |heard| > 0
    requires ScriptedFrom(heard, 0, count)
    ensures AbsorbAll(heard).inputTokens == |heard| && AbsorbAll(heard).transcript != []
  {
    forall i | 0 < i < |heard|
      ensures !ReReads(heard, i)
    {
      assert ScriptedSession(heard[i], i, count);
      if i == 1 {
        assert ScriptedSession(heard[0], 0, count);
      }
    }
    PerTurnTotals(heard);
    OneTokenEach(heard, count);
    assert ScriptedSession(heard[0], 0, count);
    MessagesOfTurn(heard, 1);
    assert |Added(heard, 1)| == 1;
  }

  lemma StuckLoses(turns: seq<Turn>) returns (agent: Agent)
    requires CanGetStuck(turns) && FirstUnfillable(turns, 0) >= 2
    ensures var c, a := Converse(turns, Some(agent)), AbsorbAll(SessionsHeard(turns, agent));
      LosesTokens(c, a) && LosesMessages(c, a)
  {
    var responses := StuckResponses(turns);
    agent := Scripted(responses, |turns| + 1);
    ScriptGetsStuck(turns, responses, |turns| + 1);
    ScriptIsHeard(turns, responses, |turns| + 1);
    var heard := SessionsHeard(turns, agent);
    EveryConversationAccounted(turns, agent);
    FailsOnlyThere(turns, agent);
    ScriptedAccount(heard, |turns| + 1);
    assert ScriptedSession(heard[|heard| - 1], |heard| - 1, |turns| + 1);
  }

  ghost predicate Loses(turns: seq<Turn>, agent: Agent, messages: bool) {
    var c, a := Converse(turns, Some(agent)), AbsorbAll(SessionsHeard(turns, agent));
    if messages then LosesMessages(c, a) else LosesTokens(c, a)
  }

  /** Some agent loses tokens, and some agent loses messages, exactly if the case can get
      stuck at its third turn or a later one. */
  lemma LostExactly(turns: seq<Turn>, messages: bool)
    ensures (exists agent: Agent :: Loses(turns, agent, messages))
            <==> CanGetStuck(turns) && FirstUnfillable(turns, 0) >= 2
  {
    if agent: Agent :| Loses(turns, agent, messages) {
      LossNeedsTwo(turns, agent);
    }
    if CanGetStuck(turns) && FirstUnfillable(turns, 0) >= 2 {
      var agent := StuckLoses(turns);
      assert Loses(turns, agent, messages);
    }
  }

  lemma SameWordsBack(a: seq<Message>, b: seq<Message>)
    requires SameWords(a, b)
    ensures SameWords(b, a)
  {
  }

  /** The last session has all the words. */
  lemma LastHasTheWords(c: Conversation, a: Account)
    requires InStep(a) && TranscriptOf(c.aggregate) == a.sessionTranscript
    ensures !LosesMessages(c, a)
  {
    SameWordsBack(a.transcript, a.sessionTranscript);
  }

  /** An agent whose sessions are re-read loses no messages, wherever the case gets stuck. */
  lemma ReReadLosesNoMessages(turns: seq<Turn>, agent: Agent)
    requires AllReRead(SessionsHeard(turns, agent))
    ensures !LosesMessages(Converse(turns, Some(agent)), AbsorbAll(SessionsHeard(turns, agent)))
  {
    var heard := SessionsHeard(turns, agent);
    var c := Converse(turns, Some(agent));
    EveryConversationAccounted(turns, agent);
    if FailedToFill(c) {
      ReReadWords(heard);
      SessionTranscriptIs(heard);
      LastHasTheWords(c, AbsorbAll(heard));
    }
  }

  // An example.

  /** Two turns, and a third that refers to a variable which nothing captures. */
  const LATE := [Turn("one", None, []), Turn("two", None, []), Turn("{{x}}", None, [])]

  lemma NoBraceNoPlaceholder(s: string)
    requires '{' !in s
    ensures Placeholders(s) == {}
  {
    forall name
      ensures name !in Placeholders(s)
    {
      PlaceholdersAre(s, name);
      if IsWord(name) && ContainsText(s, Braced(name)) {
        var i: nat :| i <= |s| && OccursAt(s, Braced(name), i);
        OccurrenceOpens(s, name, i);
      }
    }
  }

  lemma XIsPlaceholder()
    ensures "x" in Placeholders("{{x}}")
  {
    assert OccursAt("{{x}}", Braced("x"), 0);
    PlaceholdersAre("{{x}}", "x");
  }

  lemma NothingCaptured(turns: seq<Turn>, i: nat)
    requires i <= |turns| && forall j :: 0 <= j < i ==> |turns[j].capture| == 0
    ensures CapturedBefore(turns, i) == {}
  {
    if i > 0 {
      NothingCaptured(turns, i - 1);
    }
  }

  lemma LateFills()
    ensures Fills(LATE, 0) && Fills(LATE, 1)
  {
    NoBraceNoPlaceholder("one");
    NoBraceNoPlaceholder("two");
  }

  lemma LateDoesNotFill()
    ensures !Fills(LATE, 2)
  {
    XIsPlaceholder();
    NothingCaptured(LATE, 2);
  }

  lemma LateCase()
    ensures IsFirst(LATE, 2) && forall i :: 0 <= i < 2 ==> Passes(LATE[i], "")
  {
    LateFills();
    LateDoesNotFill();
  }

  function TwoReplies(first: Session, second: Session): Agent {
    (i: nat, content: string, id: string) => Replied(Some(if i == 1 then first else second))
  }

  lemma LateTurn(s: State, i: nat, first: Session, second: Session)
    requires i < 2 && IsFirst(LATE, 2) && s.capturedVars.Keys == CapturedBefore(LATE, i) && Passes(LATE[i], "")
    ensures var session := Some(if i == 0 then first else second);
      ReplyIn(s, LATE, i, TwoReplies(first, second)) == Some(session)
      && TakeTurn(s, LATE, i, TwoReplies(first, second)).Goes?
  {
    assert Fills(LATE, i);
    SubstitutesExactly(LATE[i].content, s.capturedVars);
  }

  lemma TwoTotals(first: Session, second: Session)
    requires first.transcript == []
    ensures AbsorbAll([Some(first), Some(second)]).inputTokens == first.inputTokens + second.inputTokens
  {
    var both := [Some(first), Some(second)];
    PerTurnTotals(both);
    assert both[..1] == [Some(first)] && both[..1][..0] == [];
    assert SumInput(both[..1]) == first.inputTokens;
  }

  lemma SecondIsLast(s: State, t: State, c: Conversation, first: Option<Session>, second: Option<Session>,
                     step: Step, ear: Ear)
    requires step(START, 0) == Goes(s) && ear(START, 0) == Some(first)
    requires step(s, 1) == Goes(t) && ear(s, 1) == Some(second)
    requires step(t, 2) == Ends(c) && ear(t, 2) == None
    ensures RunFrom(START, 0, 3, step) == c && HeardFrom(START, 0, 3, step, ear) == [first, second]
  {
    RunEnds(t, 2, 3, c, step, ear);
    assert HeardFrom(s, 1, 3, step, ear) == [second];
  }

  /** Two turns reply, and the template of the third refers to a variable that nothing has
      captured: the session returned is the second one, and the tokens of the first are lost. */
  lemma LateFailureLosesTurns(first: Session, second: Session)
    requires first.transcript == [] && first.inputTokens != 0
    ensures var c, heard := Converse(LATE, Some(TwoReplies(first, second))),
                            SessionsHeard(LATE, TwoReplies(first, second));
      heard == [Some(first), Some(second)] && c.aggregate == Some(second) && LosesTokens(c, AbsorbAll(heard))
  {
    var agent := TwoReplies(first, second);
    var step, ear := TurnStep(LATE, agent), TurnEar(LATE, agent);
    LateCase();
    TurnsFill(LATE, agent);
    TurnsHear(LATE, agent);
    LateTurn(START, 0, first, second);
    assert TurnFills(LATE, 0, step(START, 0));
    var s := step(START, 0).state;
    LateTurn(s, 1, first, second);
    assert TurnFills(LATE, 1, step(s, 1));
    var t := step(s, 1).state;
    assert TurnFills(LATE, 2, step(t, 2));
    SecondIsLast(s, t, step(t, 2).conversation, Some(first), Some(second), step, ear);
    EveryConversationAccounted(LATE, agent);
    TwoTotals(first, second);
  }
}
