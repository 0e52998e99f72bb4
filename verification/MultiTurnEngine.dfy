/** The multiTurnState object of internal/evaluator/multiturn.go and the loop over
    it, proved to be the function that MultiTurn describes. */
module MultiTurnEngine {
  import opened Wrappers
  import opened GoInt
  import opened GoText
  import opened TurnTemplates
  import opened MultiTurn

  class MultiTurnState {
    var capturedVars: Vars
    var sessionId: string
    var turnResults: seq<TurnResult>
    var transcript: seq<Message>
    var sessionTranscript: seq<Message>
    var inputTokens: int
    var outputTokens: int
    var tokenBaseIn: int
    var tokenBaseOut: int
    var durationMs: int

    constructor ()
      ensures Value(None) == START
    {
      capturedVars, sessionId, turnResults, transcript, sessionTranscript := map[], "", [], [], [];
      inputTokens, outputTokens, tokenBaseIn, tokenBaseOut, durationMs := 0, 0, 0, 0, 0;
    }

    ghost function Totals(): Account
      reads this
    {
      Account(transcript, sessionTranscript, inputTokens, outputTokens, tokenBaseIn, tokenBaseOut, durationMs)
    }

    ghost function Value(last: Option<Session>): State
      reads this
    {
      State(capturedVars, sessionId, turnResults, Totals(), last)
    }

    method AccumulatePerTurnMetrics(session: Session)
      modifies this`inputTokens, this`outputTokens, this`tokenBaseIn, this`tokenBaseOut, this`durationMs
      ensures Totals() == AddUsage(old(Totals()), session, false)
    {
      inputTokens := inputTokens + session.inputTokens;
      outputTokens := outputTokens + session.outputTokens;
      tokenBaseIn := tokenBaseIn + session.inputTokens;
      tokenBaseOut := tokenBaseOut + session.outputTokens;
      durationMs := durationMs + session.durationMs;
    }

    method AccumulateCumulativeMetrics(session: Session)
      modifies this`inputTokens, this`outputTokens, this`tokenBaseIn, this`tokenBaseOut, this`durationMs
      ensures Totals() == AddUsage(old(Totals()), session, true)
    {
      inputTokens := inputTokens + Max(session.inputTokens - tokenBaseIn, 0);
      outputTokens := outputTokens + Max(session.outputTokens - tokenBaseOut, 0);
      tokenBaseIn := Max(tokenBaseIn, session.inputTokens);
      tokenBaseOut := Max(tokenBaseOut, session.outputTokens);
      durationMs := durationMs + session.durationMs;
    }

    /** Everything but the aggregate transcript, which the caller extends. */
    method AbsorbTurnSession(session: Option<Session>, turn: nat) returns (normalized: Option<Session>)
      modifies this`sessionId, this`sessionTranscript, this`inputTokens, this`outputTokens, this`tokenBaseIn,
               this`tokenBaseOut, this`durationMs
      ensures sessionId == if session.Some? && session.value.sessionId != "" then session.value.sessionId
              else old(sessionId)
      ensures Totals().(transcript := Absorb(old(Totals()), session, turn).transcript)
              == Absorb(old(Totals()), session, turn)
      ensures normalized == if session.None? then None
                            else Some(Normalize(session.value, old(sessionTranscript), turn))
    {
      if session.Some? && session.value.sessionId != "" { sessionId := session.value.sessionId; }
      var previous := sessionTranscript;
      if session.None? {
        sessionTranscript := [];
        return None;
      }
      var s := session.value;
      var own, cumulative := TranscriptForLogicalTurn(s.transcript, previous, turn);
      sessionTranscript := s.transcript;
      if cumulative { AccumulateCumulativeMetrics(s); } else { AccumulatePerTurnMetrics(s); }
      normalized := Some(s.(transcript := own));
      if |own| > 0 {
        var final := FinalAssistantMessage(own);
        normalized := Some(s.(transcript := own, turns := 1,
                              finalMessage := if final != "" then final else s.finalMessage));
      }
    }

    /** Whether the conversation ends here. The entries of the remaining turns are
        added if the condition says so. */
    method HandlePostCondition(r: TurnResult, turns: seq<Turn>, i: nat) returns (failed: bool)
      requires i < |turns|
      modifies this`turnResults
      ensures failed <==> turns[i].postCondition.Some? && !Holds(turns[i].postCondition.value, r.response)
      ensures turnResults == if !failed then old(turnResults)
        else if turns[i].postCondition.value.onFail == "skip_remaining"
        then old(turnResults) + [r.(status := TurnFailed, reason := "post_condition")] + Skipped(turns, i + 1)
        else old(turnResults) + [r.(status := TurnFailed, reason := "post_condition")]
    {
      if turns[i].postCondition.None? { return false; }
      var condition := turns[i].postCondition.value;
      var holds := EvaluatePostCondition(condition, r.response);
      if holds { return false; }
      turnResults := turnResults + [r.(status := TurnFailed, reason := "post_condition")];
      if condition.onFail == "skip_remaining" {
        ghost var before := turnResults;
        var j := i + 1;
        while j < |turns|
          invariant i + 1 <= j <= |turns|
          invariant turnResults + Skipped(turns, j) == before + Skipped(turns, i + 1)
        {
          turnResults := turnResults + [TurnResult(j + 1, turns[j].content, "", [], None, TurnSkipped, "skipped",
                                                   map[])];
          j := j + 1;
        }
        assert turnResults + [] == turnResults;
      }
      return true;
    }

    method BuildAggregateResult(last: Option<Session>) returns (session: Session)
      ensures session == Aggregate(Value(last))
    {
      var reached := CountCompletedTurns(turnResults);
      if last.None? {
        return Session("", transcript, "", inputTokens, outputTokens, durationMs, reached);
      }
      session := last.value.(transcript := transcript, inputTokens := inputTokens, outputTokens := outputTokens,
                             durationMs := durationMs, turns := reached);
      var response := FindLastCompletedResponse(turnResults);
      if response != "" { session := session.(finalMessage := response); }
    }
  }

  method CountCompletedTurns(results: seq<TurnResult>) returns (n: nat)
    ensures n == CountReached(results)
  {
    n := 0;
    for i := 0 to |results|
      invariant n == CountReached(results[..i])
    {
      assert results[..i + 1][..i] == results[..i];
      if Reached(results[i]) { n := n + 1; }
    }
    assert results[..|results|] == results;
  }

  method FindLastCompletedResponse(results: seq<TurnResult>) returns (response: string)
    ensures response == LastCompletedResponse(results)
  {
    var i := |results|;
    assert results[..i] == results;
    while i > 0
      invariant 0 <= i <= |results|
      invariant LastCompletedResponse(results) == LastCompletedResponse(results[..i])
    {
      i := i - 1;
      assert results[..i + 1][..i] == results[..i];
      if results[i].status == TurnCompleted { return results[i].response; }
    }
    return "";
  }

  /** evaluatePostCondition. */
  method EvaluatePostCondition(condition: PostCondition, response: string) returns (holds: bool)
    ensures holds <==> Holds(condition, response)
  {
    for i := 0 to |condition.mustContainAll|
      invariant forall k :: 0 <= k < i ==> ContainsText(response, condition.mustContainAll[k])
    {
      if !ContainsText(response, condition.mustContainAll[i]) { return false; }
    }
    if |condition.mustContainAny| > 0 {
      var found := false;
      for i := 0 to |condition.mustContainAny|
        invariant found <==> exists k :: 0 <= k < i && ContainsText(response, condition.mustContainAny[k])
      {
        if ContainsText(response, condition.mustContainAny[i]) { found := true; }
      }
      if !found { return false; }
    }
    for i := 0 to |condition.mustNotContain|
      invariant forall k :: 0 <= k < i ==> !ContainsText(response, condition.mustNotContain[k])
    {
      if ContainsText(response, condition.mustNotContain[i]) { return false; }
    }
    return true;
  }

  /** buildTurnResult. */
  function BuildTurnResult(i: nat, content: string, normalized: Option<Session>): TurnResult {
    if normalized.None? then TurnResult(i + 1, content, "", [], None, TurnCompleted, "", map[])
    else TurnResult(i + 1, content, normalized.value.finalMessage, normalized.value.transcript, normalized,
                    TurnCompleted, "", map[])
  }

  /** One turn of the loop, up to the agent's reply. */
  method OneTurn(state: MultiTurnState, last: Option<Session>, turns: seq<Turn>, i: nat, agent: Agent)
    returns (ended: Option<Conversation>, newLast: Option<Session>)
    requires i < |turns|
    modifies state
    ensures match TakeTurn(old(state.Value(last)), turns, i, agent)
      case Ends(c) => ended == Some(c)
      case Goes(t) => ended.None? && state.Value(newLast) == t
  {
    newLast := last;
    var turn := turns[i];
    var content := SubstituteTemplate(turn.content, state.capturedVars);
    if content.Err? {
      state.turnResults := state.turnResults
        + [TurnResult(i + 1, turn.content, "", [], None, TurnError, "template", map[])];
      return Some(Conversation(state.turnResults, last, Some(TemplateFailed(content.error)))), last;
    }
    var reply := agent(i + 1, content.value, state.sessionId);
    if reply.Broke? {
      state.turnResults := state.turnResults
        + [TurnResult(i + 1, content.value, "", [], reply.session, TurnError, reply.reason, map[])];
      var aggregated := state.BuildAggregateResult(last);
      return Some(Conversation(state.turnResults, Some(aggregated), Some(TurnBroke(reply.reason)))), last;
    }
    newLast := reply.session;
    ended := TakeReply(state, last, turns, i, content.value, reply.session);
  }

  method TakeReply(state: MultiTurnState, ghost last: Option<Session>, turns: seq<Turn>, i: nat, content: string,
                   session: Option<Session>)
    returns (ended: Option<Conversation>)
    requires i < |turns|
    modifies state
    ensures match Conclude(old(Absorbed(state.Value(last), session, i)), turns, i,
                           NewResult(i, content, session, old(state.sessionTranscript)))
      case Ends(c) => ended == Some(c)
      case Goes(t) => ended.None? && state.Value(session) == t
  {
    ghost var before := state.Totals();
    var normalized := state.AbsorbTurnSession(session, i + 1);
    var r := BuildTurnResult(i, content, normalized);
    state.transcript := state.transcript + r.transcript;
    assert before.transcript + [] == before.transcript;
    assert state.Totals() == Absorb(before, session, i + 1);
    ended := FinishTurn(state, session, turns, i, r);
  }

  /** The rest of the turn: its post-condition and its captures. */
  method FinishTurn(state: MultiTurnState, last: Option<Session>, turns: seq<Turn>, i: nat, result: TurnResult)
    returns (ended: Option<Conversation>)
    requires i < |turns|
    modifies state
    ensures match Conclude(old(state.Value(last)), turns, i, result)
      case Ends(c) => ended == Some(c)
      case Goes(t) => ended.None? && state.Value(last) == t
  {
    var turn, r := turns[i], result;
    var failed := state.HandlePostCondition(r, turns, i);
    if failed {
      var aggregated := state.BuildAggregateResult(last);
      return Some(Conversation(state.turnResults, Some(aggregated), None));
    }
    if |turn.capture| > 0 {
      var captured := CaptureVariables(turn.capture, r.response);
      if captured.Err? {
        state.turnResults := state.turnResults + [r.(status := TurnError, reason := captured.error)];
        var aggregated := state.BuildAggregateResult(last);
        return Some(Conversation(state.turnResults, Some(aggregated), Some(CaptureFailed(captured.error))));
      }
      r := r.(capturedVars := captured.value);
      state.capturedVars := state.capturedVars + captured.value;
    }
    state.turnResults := state.turnResults + [r];
    return None;
  }

  method ExecuteMultiTurn(turns: seq<Turn>, agent: Option<Agent>) returns (c: Conversation)
    ensures c == Converse(turns, agent)
  {
    if agent.None? { return Conversation([], None, Some(NoResumer)); }
    var state := new MultiTurnState();
    var last: Option<Session> := None;
    for i := 0 to |turns|
      invariant Converse(turns, agent)
                == RunFrom(state.Value(last), i, |turns|, TurnStep(turns, agent.value))
    {
      var ended;
      ended, last := OneTurn(state, last, turns, i, agent.value);
      if ended.Some? { return ended.value; }
    }
    var aggregated := state.BuildAggregateResult(last);
    return Conversation(state.turnResults, Some(aggregated), None);
  }
}
