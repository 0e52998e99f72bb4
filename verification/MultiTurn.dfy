/** internal/evaluator/multiturn.go: conversations of several turns.

    The agent is an arbitrary function of the turn number, the message and the
    session ID. Token counts are integers. */
module MultiTurn {
  import opened Wrappers
  import opened GoInt
  import opened GoText
  import opened TurnTemplates

  datatype Role = User | AssistantRole | ToolCallRole | ToolResultRole | OtherRole

  /** `rest` stands for the fields that turn isolation ignores. */
  datatype Message = Message(role: Role, content: string, turn: int, rest: string)

  datatype Session = Session(
    sessionId: string, transcript: seq<Message>, finalMessage: string, inputTokens: int, outputTokens: int,
    durationMs: int, turns: int)

  datatype PostCondition = PostCondition(
    mustContainAll: seq<string>, mustContainAny: seq<string>, mustNotContain: seq<string>, onFail: string)

  datatype Turn = Turn(content: string, postCondition: Option<PostCondition>, capture: seq<CaptureRule>)

  datatype Reply = Replied(session: Option<Session>) | Broke(reason: string, session: Option<Session>)

  type Agent = (nat, string, string) -> Reply

  datatype TurnStatus = TurnCompleted | TurnSkipped | TurnFailed | TurnError

  datatype TurnResult = TurnResult(
    turnNumber: nat, content: string, response: string, transcript: seq<Message>, session: Option<Session>,
    status: TurnStatus, reason: string, capturedVars: Vars)

  // Isolating a turn.

  /** transcriptHasPrefix, which compares roles and contents. */
  predicate SameWords(a: seq<Message>, b: seq<Message>) {
    |a| == |b| && forall i :: 0 <= i < |a| ==> a[i].role == b[i].role && a[i].content == b[i].content
  }

  method TranscriptHasPrefix(t: seq<Message>, prefix: seq<Message>) returns (r: bool)
    ensures r <==> |prefix| <= |t| && SameWords(t[..|prefix|], prefix)
  {
    if |prefix| > |t| { return false; }
    for i := 0 to |prefix|
      invariant forall k :: 0 <= k < i ==> t[k].role == prefix[k].role && t[k].content == prefix[k].content
    {
      if t[i].role != prefix[i].role || t[i].content != prefix[i].content {
        assert t[..|prefix|][i] == t[i];
        return false;
      }
    }
    return true;
  }

  function Stamp(t: seq<Message>, turn: int): (r: seq<Message>)
    ensures |r| == |t| && forall i :: 0 <= i < |t| ==> r[i] == t[i].(turn := turn)
  {
    if t == [] then [] else Stamp(t[..|t| - 1], turn) + [t[|t| - 1].(turn := turn)]
  }

  /** The session file was read again, with the new turn appended. */
  predicate IsCumulative(current: seq<Message>, previous: seq<Message>) {
    previous != [] && |current| >= |previous| && SameWords(current[..|previous|], previous)
  }

  /** transcriptForLogicalTurn, without the flag. */
  function OwnMessages(current: seq<Message>, previous: seq<Message>, turn: int): seq<Message> {
    Stamp(if IsCumulative(current, previous) then current[|previous|..] else current, turn)
  }

  method TranscriptForLogicalTurn(current: seq<Message>, previous: seq<Message>, turn: int)
    returns (own: seq<Message>, cumulative: bool)
    ensures own == OwnMessages(current, previous, turn)
    ensures cumulative == IsCumulative(current, previous)
  {
    if |current| == 0 { return [], false; }
    var tail := current;
    cumulative := false;
    var prefixed := TranscriptHasPrefix(current, previous);
    if |previous| > 0 && |current| >= |previous| && prefixed {
      tail, cumulative := current[|previous|..], true;
    }
    own := [];
    for i := 0 to |tail|
      invariant own == Stamp(tail[..i], turn)
    {
      assert tail[..i + 1][..i] == tail[..i];
      own := own + [tail[i].(turn := turn)];
    }
    assert tail[..|tail|] == tail;
  }

  // Accounting.

  /** The running totals of a conversation and its aggregate transcript. */
  datatype Account = Account(
    transcript: seq<Message>, sessionTranscript: seq<Message>, inputTokens: int, outputTokens: int,
    tokenBaseIn: int, tokenBaseOut: int, durationMs: int)

  const NOTHING := Account([], [], 0, 0, 0, 0, 0)

  function TranscriptOf(session: Option<Session>): seq<Message> {
    if session.Some? then session.value.transcript else []
  }

  /** normalizeTurnSessionResult, without the flag. */
  function Normalize(session: Session, previous: seq<Message>, turn: int): Session {
    var own := OwnMessages(session.transcript, previous, turn);
    if own == [] then session.(transcript := own)
    else
      var final := FinalAssistantMessage(own);
      session.(transcript := own, turns := 1, finalMessage := if final != "" then final else session.finalMessage)
  }

  function FinalAssistantMessage(t: seq<Message>): string {
    if t == [] then ""
    else if t[|t| - 1].role == AssistantRole then t[|t| - 1].content
    else FinalAssistantMessage(t[..|t| - 1])
  }

  /** accumulatePerTurnMetrics and accumulateCumulativeMetrics. */
  function AddUsage(a: Account, session: Session, cumulative: bool): Account {
    if cumulative then
      a.(inputTokens := a.inputTokens + Max(session.inputTokens - a.tokenBaseIn, 0),
         outputTokens := a.outputTokens + Max(session.outputTokens - a.tokenBaseOut, 0),
         tokenBaseIn := Max(a.tokenBaseIn, session.inputTokens),
         tokenBaseOut := Max(a.tokenBaseOut, session.outputTokens),
         durationMs := a.durationMs + session.durationMs)
    else
      a.(inputTokens := a.inputTokens + session.inputTokens,
         outputTokens := a.outputTokens + session.outputTokens,
         tokenBaseIn := a.tokenBaseIn + session.inputTokens,
         tokenBaseOut := a.tokenBaseOut + session.outputTokens,
         durationMs := a.durationMs + session.durationMs)
  }

  /** The account after one more turn's session. */
  function Absorb(a: Account, session: Option<Session>, turn: int): Account {
    var next := a.(sessionTranscript := TranscriptOf(session));
    if session.None? then next
    else
      var s := session.value;
      AddUsage(next, s, IsCumulative(s.transcript, a.sessionTranscript)).(
        transcript := a.transcript + OwnMessages(s.transcript, a.sessionTranscript, turn))
  }

  function AbsorbAll(sessions: seq<Option<Session>>): Account {
    if sessions == [] then NOTHING
    else Absorb(AbsorbAll(sessions[..|sessions| - 1]), sessions[|sessions| - 1], |sessions|)
  }

  /** The totals are always what the bases are, so that a later cumulative reading
      adds exactly what is new. */
  lemma {:induction false} TotalsAreBases(sessions: seq<Option<Session>>)
    ensures var a := AbsorbAll(sessions); a.inputTokens == a.tokenBaseIn && a.outputTokens == a.tokenBaseOut
  {
    if sessions != [] {
      TotalsAreBases(sessions[..|sessions| - 1]);
    }
  }

  lemma {:induction false} SessionTranscriptIs(sessions: seq<Option<Session>>)
    ensures AbsorbAll(sessions).sessionTranscript
            == if sessions == [] then [] else TranscriptOf(sessions[|sessions| - 1])
  {
  }

  /** Turn i + 1 re-read the session that turn i returned. */
  predicate ReReads(sessions: seq<Option<Session>>, i: nat)
    requires 0 < i < |sessions|
  {
    sessions[i].Some? && IsCumulative(TranscriptOf(sessions[i]), TranscriptOf(sessions[i - 1]))
  }

  ghost predicate AllReRead(sessions: seq<Option<Session>>) {
    && sessions != [] && sessions[0].Some?
    && forall i :: 0 < i < |sessions| ==> ReReads(sessions, i)
  }

  function LargestInput(sessions: seq<Option<Session>>): int
    requires sessions != [] && forall i :: 0 <= i < |sessions| ==> sessions[i].Some?
  {
    var n := |sessions| - 1;
    if n == 0 then sessions[0].value.inputTokens else Max(LargestInput(sessions[..n]), sessions[n].value.inputTokens)
  }

  function LargestOutput(sessions: seq<Option<Session>>): int
    requires sessions != [] && forall i :: 0 <= i < |sessions| ==> sessions[i].Some?
  {
    var n := |sessions| - 1;
    if n == 0 then sessions[0].value.outputTokens else Max(LargestOutput(sessions[..n]), sessions[n].value.outputTokens)
  }

  lemma AllSome(sessions: seq<Option<Session>>)
    requires AllReRead(sessions)
    ensures forall i :: 0 <= i < |sessions| ==> sessions[i].Some?
    ensures |sessions| > 1 ==> AllReRead(sessions[..|sessions| - 1])
  {
    forall i | 0 <= i < |sessions|
      ensures sessions[i].Some?
    {
      if i > 0 {
        assert ReReads(sessions, i);
      }
    }
    if |sessions| > 1 {
      var before := sessions[..|sessions| - 1];
      forall i | 0 < i < |before|
        ensures ReReads(before, i)
      {
        assert ReReads(sessions, i);
      }
    }
  }

  /** When every later turn re-reads the session, the totals are the largest readings. */
  lemma {:induction false} ReReadTokens(sessions: seq<Option<Session>>)
    requires AllReRead(sessions)
    ensures forall i :: 0 <= i < |sessions| ==> sessions[i].Some?
    ensures AbsorbAll(sessions).inputTokens == LargestInput(sessions)
    ensures AbsorbAll(sessions).outputTokens == LargestOutput(sessions)
  {
    var n := |sessions| - 1;
    AllSome(sessions);
    TotalsAreBases(sessions[..n]);
    SessionTranscriptIs(sessions[..n]);
    if n > 0 {
      ReReadTokens(sessions[..n]);
      assert ReReads(sessions, n);
    } else {
      assert AbsorbAll(sessions[..0]) == NOTHING;
    }
  }

  /** The aggregate transcript has the words of the session transcript. */
  ghost predicate InStep(a: Account) {
    SameWords(a.transcript, a.sessionTranscript)
  }

  lemma ReReadInStep(a: Account, session: Session, turn: int)
    requires InStep(a) && IsCumulative(session.transcript, a.sessionTranscript)
    ensures InStep(Absorb(a, Some(session), turn))
  {
    WordsGrow(a.transcript, a.sessionTranscript, session.transcript, turn);
  }

  lemma FirstInStep(session: Session)
    ensures InStep(Absorb(NOTHING, Some(session), 1))
  {
    var own := OwnMessages(session.transcript, [], 1);
    assert [] + own == own;
  }

  /** And the aggregate transcript has the words of the last session transcript. */
  lemma {:induction false} ReReadWords(sessions: seq<Option<Session>>)
    requires AllReRead(sessions)
    ensures InStep(AbsorbAll(sessions))
  {
    var n := |sessions| - 1;
    AllSome(sessions);
    if n > 0 {
      ReReadWords(sessions[..n]);
      assert ReReads(sessions, n);
      SessionTranscriptIs(sessions[..n]);
      ReReadInStep(AbsorbAll(sessions[..n]), sessions[n].value, |sessions|);
    } else {
      assert AbsorbAll(sessions[..0]) == NOTHING;
      FirstInStep(sessions[0].value);
    }
  }

  lemma WordsGrow(t: seq<Message>, previous: seq<Message>, current: seq<Message>, turn: int)
    requires SameWords(t, previous) && IsCumulative(current, previous)
    ensures SameWords(t + OwnMessages(current, previous, turn), current)
  {
    var p := |previous|;
    assert current == current[..p] + current[p..];
    assert SameWords(t, current[..p]);
    SameWordsTogether(t, current[..p], Stamp(current[p..], turn), current[p..]);
  }

  lemma SameWordsTogether(a: seq<Message>, b: seq<Message>, c: seq<Message>, d: seq<Message>)
    requires SameWords(a, b) && SameWords(c, d)
    ensures SameWords(a + c, b + d)
  {
  }

  function SumInput(sessions: seq<Option<Session>>): int {
    if sessions == [] then 0
    else
      var n := |sessions| - 1;
      SumInput(sessions[..n]) + if sessions[n].Some? then sessions[n].value.inputTokens else 0
  }

  function SumOutput(sessions: seq<Option<Session>>): int {
    if sessions == [] then 0
    else
      var n := |sessions| - 1;
      SumOutput(sessions[..n]) + if sessions[n].Some? then sessions[n].value.outputTokens else 0
  }

  /** When no turn re-reads the session, the totals are the sums. */
  lemma {:induction false} PerTurnTotals(sessions: seq<Option<Session>>)
    requires forall i :: 0 < i < |sessions| ==> !ReReads(sessions, i)
    ensures AbsorbAll(sessions).inputTokens == SumInput(sessions)
    ensures AbsorbAll(sessions).outputTokens == SumOutput(sessions)
  {
    if sessions != [] {
      var before := sessions[..|sessions| - 1];
      forall i | 0 < i < |before|
        ensures !ReReads(before, i)
      {
        assert !ReReads(sessions, i);
      }
      PerTurnTotals(before);
      SessionTranscriptIs(before);
      if |before| > 0 {
        assert !ReReads(sessions, |before|);
      }
    }
  }

  /** The aggregate transcript goes through the turns in order. */
  ghost predicate TurnsInOrder(t: seq<Message>, n: nat) {
    && (forall i :: 0 <= i < |t| ==> 1 <= t[i].turn <= n)
    && (forall i, j :: 0 <= i < j < |t| ==> t[i].turn <= t[j].turn)
  }

  lemma {:induction false} StampsInOrder(sessions: seq<Option<Session>>)
    ensures TurnsInOrder(AbsorbAll(sessions).transcript, |sessions|)
  {
    if sessions != [] {
      StampsInOrder(sessions[..|sessions| - 1]);
    }
  }

  /** The messages of one turn. */
  function MessagesOf(t: seq<Message>, turn: int): seq<Message> {
    if t == [] then []
    else MessagesOf(t[..|t| - 1], turn) + if t[|t| - 1].turn == turn then [t[|t| - 1]] else []
  }

  /** What the k-th session added to the one before it. */
  function Added(sessions: seq<Option<Session>>, k: nat): seq<Message>
    requires 1 <= k <= |sessions|
  {
    if sessions[k - 1].None? then []
    else
      OwnMessages(sessions[k - 1].value.transcript, if k == 1 then [] else TranscriptOf(sessions[k - 2]), k)
  }

  lemma {:induction false} MessagesTogether(a: seq<Message>, b: seq<Message>, turn: int)
    ensures MessagesOf(a + b, turn) == MessagesOf(a, turn) + MessagesOf(b, turn)
  {
    if b == [] {
      assert a + b == a;
    } else {
      LastTogether(a, b);
      MessagesTogether(a, b[..|b| - 1], turn);
      ThreeTogether(MessagesOf(a, turn), MessagesOf(b[..|b| - 1], turn), MessagesOf([b[|b| - 1]], turn));
      OneMore(a + b, turn);
      OneMore(b, turn);
    }
  }

  lemma LastTogether(a: seq<Message>, b: seq<Message>)
    requires b != []
    ensures (a + b)[..|a + b| - 1] == a + b[..|b| - 1] && (a + b)[|a + b| - 1] == b[|b| - 1]
  {
  }

  lemma ThreeTogether(a: seq<Message>, b: seq<Message>, c: seq<Message>)
    ensures (a + b) + c == a + (b + c)
  {
  }

  lemma OneMore(t: seq<Message>, turn: int)
    requires t != []
    ensures MessagesOf(t, turn) == MessagesOf(t[..|t| - 1], turn) + MessagesOf([t[|t| - 1]], turn)
  {
    var last := [t[|t| - 1]];
    assert last[..0] == [] && MessagesOf(last[..0], turn) == [];
  }

  lemma {:induction false} AllMessagesOf(t: seq<Message>, turn: int)
    requires forall i :: 0 <= i < |t| ==> t[i].turn == turn
    ensures MessagesOf(t, turn) == t
  {
    if t != [] {
      AllMessagesOf(t[..|t| - 1], turn);
    }
  }

  lemma {:induction false} NoMessagesOf(t: seq<Message>, turn: int)
    requires forall i :: 0 <= i < |t| ==> t[i].turn != turn
    ensures MessagesOf(t, turn) == []
  {
    if t != [] {
      NoMessagesOf(t[..|t| - 1], turn);
    }
  }

  lemma {:induction false} TranscriptGrows(sessions: seq<Option<Session>>)
    requires sessions != []
    ensures AbsorbAll(sessions).transcript
            == AbsorbAll(sessions[..|sessions| - 1]).transcript + Added(sessions, |sessions|)
  {
    SessionTranscriptIs(sessions[..|sessions| - 1]);
  }

  lemma AddedIsStamped(sessions: seq<Option<Session>>, k: nat)
    requires 1 <= k <= |sessions|
    ensures forall i :: 0 <= i < |Added(sessions, k)| ==> Added(sessions, k)[i].turn == k
  {
  }

  lemma AddedBefore(sessions: seq<Option<Session>>, k: nat)
    requires 1 <= k < |sessions|
    ensures Added(sessions, k) == Added(sessions[..|sessions| - 1], k)
  {
  }

  lemma EarlierStamps(t: seq<Message>, n: nat)
    requires TurnsInOrder(t, n)
    ensures MessagesOf(t, n + 1) == []
  {
    NoMessagesOf(t, n + 1);
  }

  /** The messages stamped k are exactly those that the k-th session added. */
  lemma {:induction false} MessagesOfTurn(sessions: seq<Option<Session>>, k: nat)
    requires 1 <= k <= |sessions|
    ensures MessagesOf(AbsorbAll(sessions).transcript, k) == Added(sessions, k)
  {
    var n := |sessions|;
    var before := sessions[..n - 1];
    TranscriptGrows(sessions);
    MessagesTogether(AbsorbAll(before).transcript, Added(sessions, n), k);
    AddedIsStamped(sessions, n);
    if k == n {
      StampsInOrder(before);
      EarlierStamps(AbsorbAll(before).transcript, n - 1);
      AllMessagesOf(Added(sessions, n), k);
    } else {
      NoMessagesOf(Added(sessions, n), k);
      MessagesOfTurn(before, k);
      AddedBefore(sessions, k);
    }
  }

  // The conversation.

  /** evaluatePostCondition: whether it holds. */
  predicate Holds(p: PostCondition, response: string) {
    && (forall i :: 0 <= i < |p.mustContainAll| ==> ContainsText(response, p.mustContainAll[i]))
    && (p.mustContainAny != []
        ==> exists i :: 0 <= i < |p.mustContainAny| && ContainsText(response, p.mustContainAny[i]))
    && (forall i :: 0 <= i < |p.mustNotContain| ==> !ContainsText(response, p.mustNotContain[i]))
  }

  datatype ConversationError =
    NoResumer | TemplateFailed(unresolved: seq<string>) | TurnBroke(reason: string) | CaptureFailed(reason: string)

  datatype Conversation = Conversation(
      results: seq<TurnResult>, aggregate: Option<Session>, err: Option<ConversationError>)

  /** multiTurnState and the last session result. */
  datatype State = State(
    capturedVars: Vars, sessionId: string, turnResults: seq<TurnResult>, account: Account, last: Option<Session>)

  const START := State(map[], "", [], NOTHING, None)

  predicate Reached(r: TurnResult) {
    r.status == TurnCompleted || r.status == TurnFailed
  }

  function CountReached(results: seq<TurnResult>): nat {
    if results == [] then 0
    else CountReached(results[..|results| - 1]) + if Reached(results[|results| - 1]) then 1 else 0
  }

  function LastCompletedResponse(results: seq<TurnResult>): string {
    if results == [] then ""
    else if results[|results| - 1].status == TurnCompleted then results[|results| - 1].response
    else LastCompletedResponse(results[..|results| - 1])
  }

  /** buildAggregateResult. */
  function Aggregate(s: State): Session {
    var base := if s.last.Some? then s.last.value else Session("", [], "", 0, 0, 0, 0);
    var response := LastCompletedResponse(s.turnResults);
    base.(transcript := s.account.transcript, inputTokens := s.account.inputTokens,
          outputTokens := s.account.outputTokens, durationMs := s.account.durationMs,
          turns := CountReached(s.turnResults),
          finalMessage := if s.last.Some? && response != "" then response else base.finalMessage)
  }

  function Append(s: State, r: TurnResult): State {
    s.(turnResults := s.turnResults + [r])
  }

  /** The entries of the turns from the i-th on, which are not taken. */
  function Skipped(turns: seq<Turn>, i: nat): seq<TurnResult>
    requires i <= |turns|
    decreases |turns| - i
  {
    if i == |turns| then []
    else [TurnResult(i + 1, turns[i].content, "", [], None, TurnSkipped, "skipped", map[])] + Skipped(turns, i + 1)
  }

  datatype Progress = Goes(state: State) | Ends(conversation: Conversation)

  function End(s: State, err: Option<ConversationError>): Progress {
    Ends(Conversation(s.turnResults, Some(Aggregate(s)), err))
  }

  /** What the turn's successful result says before its conditions are looked at. */
  function NewResult(i: nat, content: string, session: Option<Session>, previous: seq<Message>): TurnResult {
    if session.None? then TurnResult(i + 1, content, "", [], None, TurnCompleted, "", map[])
    else
      var normalized := Normalize(session.value, previous, i + 1);
      TurnResult(i + 1, content, normalized.finalMessage, normalized.transcript, Some(normalized), TurnCompleted, "",
                 map[])
  }

  /** One turn of the loop in executeMultiTurn. */
  function TakeTurn(s: State, turns: seq<Turn>, i: nat, agent: Agent): Progress
    requires i < |turns|
  {
    var turn := turns[i];
    match SubstituteTemplate(turn.content, s.capturedVars)
    case Err(unresolved) =>
      var failed := Append(s, TurnResult(i + 1, turn.content, "", [], None, TurnError, "template", map[]));
      Ends(Conversation(failed.turnResults, s.last, Some(TemplateFailed(unresolved))))
    case Ok(content) =>
      match agent(i + 1, content, s.sessionId)
      case Broke(reason, session) =>
        End(Append(s, TurnResult(i + 1, content, "", [], session, TurnError, reason, map[])), Some(TurnBroke(reason)))
      case Replied(session) =>
        Conclude(Absorbed(s, session, i), turns, i, NewResult(i, content, session, s.account.sessionTranscript))
  }

  /** absorbTurnSession, with the aggregate transcript extended. */
  function Absorbed(s: State, session: Option<Session>, i: nat): State {
    State(s.capturedVars,
          if session.Some? && session.value.sessionId != "" then session.value.sessionId else s.sessionId,
          s.turnResults, Absorb(s.account, session, i + 1), session)
  }

  /** The post-condition and the captures of a turn that has a result. */
  function Conclude(s: State, turns: seq<Turn>, i: nat, r: TurnResult): Progress
    requires i < |turns|
  {
    var turn := turns[i];
    if turn.postCondition.Some? && !Holds(turn.postCondition.value, r.response) then
      var failed := Append(s, r.(status := TurnFailed, reason := "post_condition"));
      if turn.postCondition.value.onFail == "skip_remaining"
      then End(failed.(turnResults := failed.turnResults + Skipped(turns, i + 1)), None)
      else End(failed, None)
    else if |turn.capture| == 0 then Goes(Append(s, r))
    else
      match Capture(turn.capture, r.response)
      case Err(reason) =>
        End(Append(s, r.(status := TurnError, reason := reason)), Some(CaptureFailed(reason)))
      case Ok(captured) =>
        Goes(Append(s, r.(capturedVars := captured)).(capturedVars := s.capturedVars + captured))
  }

  type Step = (State, nat) -> Progress

  /** The body of the loop; it is used for the turns there are. */
  function TurnStep(turns: seq<Turn>, agent: Agent): Step {
    (s: State, i: nat) => if i < |turns| then TakeTurn(s, turns, i, agent) else End(s, None)
  }

  /** The loop, for n turns. */
  function RunFrom(s: State, i: nat, n: nat, step: Step): Conversation
    requires i <= n
    decreases n - i
  {
    if i == n then Conversation(s.turnResults, Some(Aggregate(s)), None)
    else
      match step(s, i)
      case Ends(conversation) => conversation
      case Goes(t) => RunFrom(t, i + 1, n, step)
  }

  /** executeMultiTurn as a function. */
  function Converse(turns: seq<Turn>, agent: Option<Agent>): Conversation {
    if agent.None? then Conversation([], None, Some(NoResumer))
    else RunFrom(START, 0, |turns|, TurnStep(turns, agent.value))
  }

  // What every conversation keeps.

  /** The session, if any, that the agent replies with in the i-th turn; None if the
      turn does not get as far as a reply. */
  function ReplyIn(s: State, turns: seq<Turn>, i: nat, agent: Agent): Option<Option<Session>>
    requires i < |turns|
  {
    match SubstituteTemplate(turns[i].content, s.capturedVars)
    case Err(_) => None
    case Ok(content) =>
      match agent(i + 1, content, s.sessionId)
      case Replied(session) => Some(session)
      case Broke(_, _) => None
  }

  type Ear = (State, nat) -> Option<Option<Session>>

  function TurnEar(turns: seq<Turn>, agent: Agent): Ear {
    (s: State, i: nat) => if i < |turns| then ReplyIn(s, turns, i, agent) else None
  }

  /** The sessions of the turns that got a reply, the last turn taken included. */
  function HeardFrom(s: State, i: nat, n: nat, step: Step, ear: Ear): seq<Option<Session>>
    requires i <= n
    decreases n - i
  {
    if i == n || ear(s, i).None? then []
    else
      [ear(s, i).value] + match step(s, i)
                          case Ends(_) => []
                          case Goes(t) => HeardFrom(t, i + 1, n, step, ear)
  }

  function SessionsHeard(turns: seq<Turn>, agent: Agent): seq<Option<Session>> {
    HeardFrom(START, 0, |turns|, TurnStep(turns, agent), TurnEar(turns, agent))
  }

  /** The returned session reports an account. */
  predicate Reports(c: Conversation, a: Account) {
    && c.aggregate.Some?
    && c.aggregate.value.transcript == a.transcript
    && c.aggregate.value.inputTokens == a.inputTokens && c.aggregate.value.outputTokens == a.outputTokens
    && c.aggregate.value.durationMs == a.durationMs
    && c.aggregate.value.turns == CountReached(c.results)
  }

  predicate FailedToFill(c: Conversation) {
    c.err.Some? && c.err.value.TemplateFailed?
  }

  /** What one turn does with the session it hears. */
  ghost predicate TurnKeeps(s: State, i: nat, p: Progress, heard: Option<Option<Session>>) {
    var a := if heard.Some? then Absorb(s.account, heard.value, i + 1) else s.account;
    match p
    case Goes(t) => heard.Some? && t.account == a && t.last == heard.value
    case Ends(c) => if FailedToFill(c) then heard.None? && c.aggregate == s.last else Reports(c, a)
  }

  lemma ConcludeKeeps(s: State, turns: seq<Turn>, i: nat, r: TurnResult)
    requires i < |turns|
    ensures match Conclude(s, turns, i, r)
      case Goes(t) => t.account == s.account && t.last == s.last
      case Ends(c) => !FailedToFill(c) && Reports(c, s.account)
  {
  }

  lemma TakeTurnKeeps(s: State, turns: seq<Turn>, i: nat, agent: Agent)
    requires i < |turns|
    ensures TurnKeeps(s, i, TakeTurn(s, turns, i, agent), ReplyIn(s, turns, i, agent))
  {
    match SubstituteTemplate(turns[i].content, s.capturedVars)
    case Err(_) =>
    case Ok(content) =>
      match agent(i + 1, content, s.sessionId)
      case Broke(_, _) =>
      case Replied(session) =>
        ConcludeKeeps(Absorbed(s, session, i), turns, i, NewResult(i, content, session, s.account.sessionTranscript));
  }

  ghost predicate EveryTurnKeeps(n: nat, step: Step, ear: Ear) {
    forall s: State, i: nat {:trigger step(s, i)} :: i < n ==> TurnKeeps(s, i, step(s, i), ear(s, i))
  }

  lemma TurnAt(s: State, i: nat, n: nat, step: Step, ear: Ear)
    requires i < n && EveryTurnKeeps(n, step, ear)
    ensures TurnKeeps(s, i, step(s, i), ear(s, i))
  {
  }

  lemma TurnsKeep(turns: seq<Turn>, agent: Agent)
    ensures EveryTurnKeeps(|turns|, TurnStep(turns, agent), TurnEar(turns, agent))
  {
    var step := TurnStep(turns, agent);
    forall s: State, i: nat | i < |turns|
      ensures TurnKeeps(s, i, step(s, i), TurnEar(turns, agent)(s, i))
    {
      TakeTurnKeeps(s, turns, i, agent);
    }
  }

  function LastOf(sessions: seq<Option<Session>>): Option<Session> {
    if sessions == [] then None else sessions[|sessions| - 1]
  }

  lemma {:induction false} AbsorbOneMore(sessions: seq<Option<Session>>, session: Option<Session>)
    ensures AbsorbAll(sessions + [session]) == Absorb(AbsorbAll(sessions), session, |sessions| + 1)
    ensures LastOf(sessions + [session]) == session
  {
    assert (sessions + [session])[..|sessions|] == sessions;
  }

  /** What is returned after having heard these sessions. */
  ghost predicate Accounted(c: Conversation, heard: seq<Option<Session>>) {
    if FailedToFill(c) then c.aggregate == LastOf(heard) else Reports(c, AbsorbAll(heard))
  }

  lemma EndAccounted(s: State, before: seq<Option<Session>>, c: Conversation, heard: Option<Option<Session>>)
    requires s.account == AbsorbAll(before) && s.last == LastOf(before)
    requires TurnKeeps(s, |before|, Ends(c), heard)
    ensures Accounted(c, before + if heard.Some? then [heard.value] else [])
  {
    if heard.Some? {
      AbsorbOneMore(before, heard.value);
    } else {
      assert before + [] == before;
    }
  }

  lemma RunEnds(s: State, i: nat, n: nat, c: Conversation, step: Step, ear: Ear)
    requires i < n && step(s, i) == Ends(c)
    ensures RunFrom(s, i, n, step) == c
    ensures HeardFrom(s, i, n, step, ear) == if ear(s, i).Some? then [ear(s, i).value] else []
  {
  }

  lemma RunGoes(
      s: State, before: seq<Option<Session>>, n: nat, t: State, session: Option<Session>, step: Step, ear: Ear)
    requires |before| < n && step(s, |before|) == Goes(t) && ear(s, |before|) == Some(session)
    ensures RunFrom(s, |before|, n, step) == RunFrom(t, |before| + 1, n, step)
    ensures before + HeardFrom(s, |before|, n, step, ear)
            == (before + [session]) + HeardFrom(t, |before| + 1, n, step, ear)
  {
  }

  lemma {:induction false} RunAccounted(
      s: State, before: seq<Option<Session>>, n: nat, step: Step, ear: Ear)
    requires |before| <= n && EveryTurnKeeps(n, step, ear)
    requires s.account == AbsorbAll(before) && s.last == LastOf(before)
    ensures Accounted(RunFrom(s, |before|, n, step), before + HeardFrom(s, |before|, n, step, ear))
    decreases n - |before|
  {
    var i := |before|;
    if i == n {
      assert before + [] == before;
    } else {
      TurnAt(s, i, n, step, ear);
      match step(s, i)
      case Ends(c) =>
        EndAccounted(s, before, c, ear(s, i));
        RunEnds(s, i, n, c, step, ear);
      case Goes(t) =>
        var session := ear(s, i).value;
        AbsorbOneMore(before, session);
        RunGoes(s, before, n, t, session, step, ear);
        RunAccounted(t, before + [session], n, step, ear);
    }
  }

  /** However a conversation ends, what it returns is the account of the sessions heard,
      unless a turn could not be filled in: then it is the last session as it was heard. */
  lemma EveryConversationAccounted(turns: seq<Turn>, agent: Agent)
    ensures Accounted(Converse(turns, Some(agent)), SessionsHeard(turns, agent))
  {
    TurnsKeep(turns, agent);
    var step, ear := TurnStep(turns, agent), TurnEar(turns, agent);
    RunAccounted(START, [], |turns|, step, ear);
    assert [] + SessionsHeard(turns, agent) == SessionsHeard(turns, agent);
  }

  /** The aggregate of a conversation in which every turn after the first re-reads the
      session: the largest readings, and the words of the last session transcript. */
  lemma ReReadConversation(turns: seq<Turn>, agent: Agent)
    requires !FailedToFill(Converse(turns, Some(agent))) && AllReRead(SessionsHeard(turns, agent))
    ensures var c, heard := Converse(turns, Some(agent)), SessionsHeard(turns, agent);
      && c.aggregate.Some? && (forall i :: 0 <= i < |heard| ==> heard[i].Some?)
      && c.aggregate.value.inputTokens == LargestInput(heard)
      && c.aggregate.value.outputTokens == LargestOutput(heard)
      && SameWords(c.aggregate.value.transcript, TranscriptOf(heard[|heard| - 1]))
  {
    var heard := SessionsHeard(turns, agent);
    EveryConversationAccounted(turns, agent);
    ReReadTokens(heard);
    ReReadWords(heard);
    SessionTranscriptIs(heard);
  }

  /** And of one whose turns are all reported by themselves: the sums. */
  lemma PerTurnConversation(turns: seq<Turn>, agent: Agent)
    requires !FailedToFill(Converse(turns, Some(agent)))
    requires var heard := SessionsHeard(turns, agent);
      forall i :: 0 < i < |heard| ==> !ReReads(heard, i)
    ensures var c, heard := Converse(turns, Some(agent)), SessionsHeard(turns, agent);
      && c.aggregate.Some?
      && c.aggregate.value.inputTokens == SumInput(heard)
      && c.aggregate.value.outputTokens == SumOutput(heard)
  {
    EveryConversationAccounted(turns, agent);
    PerTurnTotals(SessionsHeard(turns, agent));
  }

  /** Whatever mix of turns: the aggregate transcript goes through the turns in order, and
      what it has of a turn is what that turn's session added. */
  lemma TranscriptOfConversation(turns: seq<Turn>, agent: Agent)
    requires !FailedToFill(Converse(turns, Some(agent)))
    ensures var c, heard := Converse(turns, Some(agent)), SessionsHeard(turns, agent);
      && c.aggregate.Some? && TurnsInOrder(c.aggregate.value.transcript, |heard|)
      && forall k :: 1 <= k <= |heard| ==> MessagesOf(c.aggregate.value.transcript, k) == Added(heard, k)
  {
    var heard := SessionsHeard(turns, agent);
    EveryConversationAccounted(turns, agent);
    StampsInOrder(heard);
    forall k | 1 <= k <= |heard|
      ensures MessagesOf(AbsorbAll(heard).transcript, k) == Added(heard, k)
    {
      MessagesOfTurn(heard, k);
    }
  }

  // The states in between.

  /** The conversation so far: the states before each turn and after the last one
      taken, and the sessions that the turns returned. */
  datatype Trace = Trace(states: seq<State>, sessions: seq<Option<Session>>)

  ghost predicate Moves(t: Trace, i: nat, step: Step, ear: Ear)
    requires i + 1 < |t.states| && i < |t.sessions|
  {
    step(t.states[i], i) == Goes(t.states[i + 1]) && ear(t.states[i], i) == Some(t.sessions[i])
  }

  ghost predicate IsPath(t: Trace, step: Step, ear: Ear) {
    && |t.states| == |t.sessions| + 1
    && t.states[0] == START
    && forall i: nat {:trigger Moves(t, i, step, ear)} :: i < |t.sessions| ==> Moves(t, i, step, ear)
  }

  ghost predicate IsTrace(t: Trace, turns: seq<Turn>, agent: Agent) {
    |t.sessions| <= |turns| && IsPath(t, TurnStep(turns, agent), TurnEar(turns, agent))
  }

  lemma {:induction false} AccountsAdd(t: Trace, i: nat, n: nat, step: Step, ear: Ear)
    requires IsPath(t, step, ear) && EveryTurnKeeps(n, step, ear) && i <= |t.sessions| <= n
    ensures t.states[i].account == AbsorbAll(t.sessions[..i])
  {
    if i > 0 {
      AccountsAdd(t, i - 1, n, step, ear);
      assert Moves(t, i - 1, step, ear);
      assert TurnKeeps(t.states[i - 1], i - 1, step(t.states[i - 1], i - 1), ear(t.states[i - 1], i - 1));
      assert t.sessions[..i][..i - 1] == t.sessions[..i - 1];
    }
  }

  /** inputTokens == tokenBaseIn, outputTokens == tokenBaseOut, and the transcript is stamped
      with n turns in order. */
  ghost predicate Balanced(a: Account, n: nat) {
    a.inputTokens == a.tokenBaseIn && a.outputTokens == a.tokenBaseOut && TurnsInOrder(a.transcript, n)
  }

  /** In every state between two turns, and in every state after a turn's session has been
      absorbed, whether the conversation goes on from there or ends. */
  lemma ReachableTotalsAreBases(t: Trace, i: nat, turns: seq<Turn>, agent: Agent)
    requires IsTrace(t, turns, agent) && i <= |t.sessions|
    ensures Balanced(t.states[i].account, i)
    ensures i < |turns| && ReplyIn(t.states[i], turns, i, agent).Some? ==>
      Balanced(Absorbed(t.states[i], ReplyIn(t.states[i], turns, i, agent).value, i).account, i + 1)
  {
    TurnsKeep(turns, agent);
    var step, ear := TurnStep(turns, agent), TurnEar(turns, agent);
    AccountsAdd(t, i, |turns|, step, ear);
    BalancedAccount(t.sessions[..i]);
    if i < |turns| && ReplyIn(t.states[i], turns, i, agent).Some? {
      var session := ReplyIn(t.states[i], turns, i, agent).value;
      AbsorbOneMore(t.sessions[..i], session);
      BalancedAccount(t.sessions[..i] + [session]);
    }
  }

  lemma BalancedAccount(sessions: seq<Option<Session>>)
    ensures Balanced(AbsorbAll(sessions), |sessions|)
  {
    TotalsAreBases(sessions);
    StampsInOrder(sessions);
  }

  // The shape of the results.

  ghost predicate Numbered(results: seq<TurnResult>) {
    forall i :: 0 <= i < |results| ==> results[i].turnNumber == i + 1
  }

  /** Some completed turns, and then what `after` says of the next and of the others. */
  ghost predicate CompletedUpTo(results: seq<TurnResult>, k: nat) {
    k <= |results| && forall i :: 0 <= i < k ==> results[i].status == TurnCompleted
  }

  /** Completed*, Completed* Error, Completed* Failed, or Completed* Failed Skipped+. */
  datatype Shape = Whole | ThenError | ThenFailed | ThenSkipped

  ghost predicate HasShape(results: seq<TurnResult>, shape: Shape, k: nat) {
    && CompletedUpTo(results, k)
    && match shape
       case Whole => k == |results|
       case ThenError => k + 1 == |results| && results[k].status == TurnError
       case ThenFailed => k + 1 == |results| && results[k].status == TurnFailed
       case ThenSkipped =>
         && k + 1 < |results| && results[k].status == TurnFailed
         && forall i :: k < i < |results| ==> results[i].status == TurnSkipped
  }

  /** What executeMultiTurn returns has one of the shapes. It ends in an error exactly
      if an error is returned; results that end well or skip cover every turn. */
  ghost predicate WellShaped(c: Conversation, turns: seq<Turn>, shape: Shape, k: nat) {
    && Numbered(c.results) && HasShape(c.results, shape, k) && |c.results| <= |turns|
    && (c.err.Some? <==> shape == ThenError)
    && (shape == Whole || shape == ThenSkipped ==> |c.results| == |turns|)
  }

  lemma {:induction false} SkippedShape(turns: seq<Turn>, i: nat)
    requires i <= |turns|
    ensures |Skipped(turns, i)| == |turns| - i
    ensures forall j :: 0 <= j < |turns| - i ==>
      Skipped(turns, i)[j].turnNumber == i + j + 1 && Skipped(turns, i)[j].status == TurnSkipped
    decreases |turns| - i
  {
    if i < |turns| {
      SkippedShape(turns, i + 1);
      assert forall j :: 0 < j < |turns| - i ==> Skipped(turns, i)[j] == Skipped(turns, i + 1)[j - 1];
    }
  }

  /** Before the i-th turn, i turns have completed. */
  ghost predicate Underway(s: State, i: nat) {
    |s.turnResults| == i && Numbered(s.turnResults) && CompletedUpTo(s.turnResults, i)
  }

  ghost predicate Fine(p: Progress, turns: seq<Turn>, shape: Shape, i: nat) {
    match p
    case Goes(t) => Underway(t, i + 1)
    case Ends(c) => WellShaped(c, turns, shape, i)
  }

  lemma ConcludeShape(s: State, turns: seq<Turn>, i: nat, r: TurnResult) returns (shape: Shape)
    requires i < |turns| && Underway(s, i) && r.turnNumber == i + 1 && r.status == TurnCompleted
    ensures Fine(Conclude(s, turns, i, r), turns, shape, i)
  {
    var turn := turns[i];
    var failed := r.(status := TurnFailed, reason := "post_condition");
    shape := ThenError;
    if turn.postCondition.Some? && !Holds(turn.postCondition.value, r.response) {
      if turn.postCondition.value.onFail == "skip_remaining" {
        shape := SkippingShape(Append(s, failed), turns, i);
      } else {
        shape := ThenFailed;
        EndedShape(s, turns, i, failed, None, shape);
      }
    } else if |turn.capture| == 0 {
      GoneOn(s, i, r, s.capturedVars);
    } else {
      match Capture(turn.capture, r.response)
      case Err(reason) =>
        EndedShape(s, turns, i, r.(status := TurnError, reason := reason), Some(CaptureFailed(reason)), shape);
      case Ok(captured) =>
        GoneOn(s, i, r.(capturedVars := captured), s.capturedVars + captured);
    }
  }

  lemma GoneOn(s: State, i: nat, r: TurnResult, vars: Vars)
    requires Underway(s, i) && r.turnNumber == i + 1 && r.status == TurnCompleted
    ensures Underway(Append(s, r).(capturedVars := vars), i + 1)
  {
  }

  lemma EndedShape(s: State, turns: seq<Turn>, i: nat, r: TurnResult, err: Option<ConversationError>, shape: Shape)
    requires i < |turns| && Underway(s, i) && r.turnNumber == i + 1
    requires if err.Some? then shape == ThenError && r.status == TurnError
             else shape == ThenFailed && r.status == TurnFailed
    ensures Fine(End(Append(s, r), err), turns, shape, i)
  {
  }

  lemma SkippingShape(s: State, turns: seq<Turn>, i: nat) returns (shape: Shape)
    requires i < |turns| && |s.turnResults| == i + 1 && Numbered(s.turnResults) && CompletedUpTo(s.turnResults, i)
    requires s.turnResults[i].status == TurnFailed
    ensures Fine(End(s.(turnResults := s.turnResults + Skipped(turns, i + 1)), None), turns, shape, i)
  {
    SkippedShape(turns, i + 1);
    shape := if i + 1 < |turns| then ThenSkipped else ThenFailed;
  }

  lemma ErrorShape(s: State, turns: seq<Turn>, i: nat, r: TurnResult, aggregate: Option<Session>, e: ConversationError)
    requires i < |turns| && Underway(s, i) && r.turnNumber == i + 1 && r.status == TurnError
    ensures Fine(Ends(Conversation(Append(s, r).turnResults, aggregate, Some(e))), turns, ThenError, i)
  {
  }

  lemma TakeTurnShape(s: State, turns: seq<Turn>, i: nat, agent: Agent) returns (shape: Shape)
    requires i < |turns| && Underway(s, i)
    ensures Fine(TakeTurn(s, turns, i, agent), turns, shape, i)
  {
    shape := ThenError;
    match SubstituteTemplate(turns[i].content, s.capturedVars)
    case Err(unresolved) =>
      ErrorShape(s, turns, i, TurnResult(i + 1, turns[i].content, "", [], None, TurnError, "template", map[]), s.last,
                 TemplateFailed(unresolved));
    case Ok(content) =>
      match agent(i + 1, content, s.sessionId)
      case Broke(reason, session) =>
        var r := TurnResult(i + 1, content, "", [], session, TurnError, reason, map[]);
        ErrorShape(s, turns, i, r, Some(Aggregate(Append(s, r))), TurnBroke(reason));
      case Replied(session) =>
        shape := ConcludeShape(Absorbed(s, session, i), turns, i,
                               NewResult(i, content, session, s.account.sessionTranscript));
  }

  ghost predicate EveryTurnFine(turns: seq<Turn>, step: Step) {
    forall s: State, i: nat {:trigger step(s, i)} ::
      i < |turns| && Underway(s, i) ==> exists shape :: Fine(step(s, i), turns, shape, i)
  }

  lemma TurnsFine(turns: seq<Turn>, agent: Agent)
    ensures EveryTurnFine(turns, TurnStep(turns, agent))
  {
    var step := TurnStep(turns, agent);
    forall s: State, i: nat | i < |turns| && Underway(s, i)
      ensures exists shape :: Fine(step(s, i), turns, shape, i)
    {
      var shape := TakeTurnShape(s, turns, i, agent);
      assert Fine(step(s, i), turns, shape, i);
    }
  }

  lemma {:induction false} RunShapes(s: State, turns: seq<Turn>, i: nat, step: Step) returns (shape: Shape, k: nat)
    requires i <= |turns| && Underway(s, i) && EveryTurnFine(turns, step)
    ensures WellShaped(RunFrom(s, i, |turns|, step), turns, shape, k)
    decreases |turns| - i
  {
    shape, k := Whole, i;
    if i < |turns| {
      shape :| Fine(step(s, i), turns, shape, i);
      match step(s, i)
      case Ends(_) =>
      case Goes(t) => shape, k := RunShapes(t, turns, i + 1, step);
    }
  }

  /** Whatever the agent, substitution and captures do. */
  lemma ConversationShape(turns: seq<Turn>, agent: Agent) returns (shape: Shape, k: nat)
    ensures WellShaped(Converse(turns, Some(agent)), turns, shape, k)
  {
    TurnsFine(turns, agent);
    shape, k := RunShapes(START, turns, 0, TurnStep(turns, agent));
  }

  /** A conversation has one of the shapes exactly if the agent can resume sessions. */
  lemma ShapedExactly(turns: seq<Turn>, agent: Option<Agent>)
    ensures (exists shape, k :: WellShaped(Converse(turns, agent), turns, shape, k)) <==> agent.Some?
  {
    if agent.Some? {
      var shape, k := ConversationShape(turns, agent.value);
    }
  }

  // The status of a case.

  datatype CaseStatus = Proceed | StatusFail | StatusError | StatusSkip

  predicate AnySkipped(results: seq<TurnResult>) {
    exists j :: 0 <= j < |results| && results[j].status == TurnSkipped
  }

  /** The first turn that ended in an error or failed decides. */
  function Decision(results: seq<TurnResult>): Option<CaseStatus> {
    if results == [] then None
    else if results[0].status == TurnError then Some(StatusError)
    else if results[0].status == TurnFailed then Some(if AnySkipped(results[1..]) then Proceed else StatusFail)
    else Decision(results[1..])
  }

  /** multiTurnStatus as a function. */
  function Status(results: seq<TurnResult>): CaseStatus {
    if Decision(results).Some? then Decision(results).value
    else if forall i :: 0 <= i < |results| ==> results[i].status == TurnSkipped then StatusSkip
    else if exists i :: 0 <= i < |results| && results[i].status == TurnCompleted then Proceed
    else StatusError
  }

  method MultiTurnStatus(results: seq<TurnResult>) returns (status: CaseStatus)
    ensures status == Status(results)
  {
    assert results[0..] == results;
    for i := 0 to |results|
      invariant Decision(results) == Decision(results[i..])
    {
      assert results[i..][1..] == results[i + 1..];
      if results[i].status == TurnError { return StatusError; }
      if results[i].status == TurnFailed {
        var hasSkippedAfter := false;
        for j := i + 1 to |results|
          invariant !hasSkippedAfter
          invariant forall k :: i < k < j ==> results[k].status != TurnSkipped
        {
          if results[j].status == TurnSkipped {
            assert results[i + 1..][j - i - 1] == results[j];
            return Proceed;
          }
        }
        var later := results[i + 1..];
        assert forall k :: 0 <= k < |later| ==> later[k] == results[i + 1 + k];
        return StatusFail;
      }
    }
    var hasCompleted, allSkipped := false, true;
    for i := 0 to |results|
      invariant hasCompleted <==> exists k :: 0 <= k < i && results[k].status == TurnCompleted
      invariant allSkipped <==> forall k :: 0 <= k < i ==> results[k].status == TurnSkipped
    {
      if results[i].status == TurnCompleted { hasCompleted, allSkipped := true, false; }
      if results[i].status != TurnSkipped { allSkipped := false; }
    }
    return if allSkipped then StatusSkip else if hasCompleted then Proceed else StatusError;
  }

  lemma {:induction false} DecisionOfShape(results: seq<TurnResult>, shape: Shape, k: nat)
    requires HasShape(results, shape, k)
    ensures Decision(results) == match shape
      case Whole => None
      case ThenError => Some(StatusError)
      case ThenFailed => Some(StatusFail)
      case ThenSkipped => Some(Proceed)
  {
    if k > 0 {
      var rest := results[1..];
      assert forall i :: 0 <= i < |rest| ==> rest[i] == results[i + 1];
      DecisionOfShape(rest, shape, k - 1);
    } else if shape == ThenSkipped {
      assert results[1..][0].status == TurnSkipped;
    }
  }

  lemma StatusOfShape(c: Conversation, turns: seq<Turn>, shape: Shape, k: nat)
    requires turns != [] && c.err.None? && WellShaped(c, turns, shape, k)
    ensures c.results != []
    ensures Status(c.results) == Proceed || Status(c.results) == StatusFail
    ensures Status(c.results) == StatusFail <==> c.results[|c.results| - 1].status == TurnFailed
  {
    DecisionOfShape(c.results, shape, k);
    if shape == Whole {
      assert c.results[0].status == TurnCompleted;
    }
  }

  /** Without an error, a case that has turns is never given an error or skip status,
      and it fails exactly if its last result is a failed turn. */
  lemma StatusOfConversation(turns: seq<Turn>, agent: Agent)
    requires turns != [] && Converse(turns, Some(agent)).err.None?
    ensures var results := Converse(turns, Some(agent)).results;
      && results != []
      && (Status(results) == Proceed || Status(results) == StatusFail)
      && (Status(results) == StatusFail <==> results[|results| - 1].status == TurnFailed)
  {
    var shape, k := ConversationShape(turns, agent);
    StatusOfShape(Converse(turns, Some(agent)), turns, shape, k);
  }
}
