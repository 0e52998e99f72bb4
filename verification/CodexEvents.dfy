/** The Codex event machine of internal/agent/codex.go: it turns a stream of events
    into a transcript, pairing each tool result with the call it answers. */
module CodexEvents {
  import opened Wrappers
  import opened GoInt

  /** The item kinds the machine knows; the last stands for all others. */
  datatype ItemKind = AgentMessage | CommandExecution | McpToolCall | OtherItem

  /** `arguments` and `result` are JSON texts; `succeeded` is what the MCP status means. */
  datatype Item = Item(
    id: string, kind: ItemKind, text: string, command: string, server: string, tool: string, arguments: string,
    result: string, aggregatedOutput: string, exitCode: Option<int>, succeeded: bool)

  datatype Usage = Usage(inputTokens: int, cachedInputTokens: int, outputTokens: int, cacheCreationTokens: int)

  datatype Event =
    | ThreadStarted(threadId: string)
    | TurnStarted
    | TurnCompleted(usage: Option<Usage>)
    | ItemStarted(item: Option<Item>)
    | ItemCompleted(item: Option<Item>)
    | OtherEvent

  datatype ToolStatus = Success | Error

  datatype Message =
    | Assistant(content: string, turn: int)
    | ToolCall(id: string, name: string, arguments: string, turn: int)
    | ToolResult(callId: string, status: ToolStatus, content: string, turn: int)

  const COMMAND_EXECUTION := "command_execution"

  datatype CommandState = CommandState(command: string, turn: int)

  /** codexParseState as a value. */
  datatype State = State(
    currentTurn: int, threadId: string, finalMsg: string, messages: seq<Message>, inputTokens: int, outputTokens: int,
    commandExecutions: map<string, CommandState>, mcpToolCalls: map<string, int>)

  const START := State(0, "", "", [], 0, 0, map[], map[])

  function Turn(s: State): int { Max(s.currentTurn, 1) }

  function Append(s: State, m: Message): State {
    s.(messages := s.messages + [m])
  }

  function ToolName(item: Item): string {
    if item.server == "" then item.tool else "mcp__" + item.server + "__" + item.tool
  }

  function CommandCall(item: Item, turn: int): Message {
    ToolCall(item.id, COMMAND_EXECUTION, item.command, turn)
  }

  /** appendCodexMCPToolCall. A call without an ID is not remembered. */
  function AppendMcpCall(s: State, item: Item, turn: int): State {
    var t := if item.id != "" then s.(mcpToolCalls := s.mcpToolCalls[item.id := turn]) else s;
    Append(t, ToolCall(item.id, ToolName(item), item.arguments, turn))
  }

  function ApplyItemStarted(s: State, event: Option<Item>): State {
    if event.None? then s
    else
      var item := event.value;
      match item.kind
      case CommandExecution =>
        Append(s.(commandExecutions := s.commandExecutions[item.id := CommandState(item.command, Turn(s))]),
               CommandCall(item, Turn(s)))
      case McpToolCall => AppendMcpCall(s, item, Turn(s))
      case _ => s
  }

  function CommandStatus(item: Item): ToolStatus {
    if item.exitCode.Some? && item.exitCode.value != 0 then Error else Success
  }

  function ApplyItemCompleted(s: State, event: Option<Item>): State {
    if event.None? then s
    else
      var item := event.value;
      match item.kind
      case AgentMessage => Append(s.(finalMsg := item.text), Assistant(item.text, Turn(s)))
      case CommandExecution =>
        var known := item.id in s.commandExecutions;
        var turn := if known then s.commandExecutions[item.id].turn else Turn(s);
        var t := if known then s else Append(s, CommandCall(item, turn));
        Append(t, ToolResult(item.id, CommandStatus(item), item.aggregatedOutput, turn))
      case McpToolCall =>
        var known := item.id in s.mcpToolCalls;
        var turn := if known then s.mcpToolCalls[item.id] else Turn(s);
        var t := if known then s else AppendMcpCall(s, item, turn);
        Append(t, ToolResult(item.id, if item.succeeded then Success else Error, item.result, turn))
      case OtherItem => s
  }

  /** The tokens one usage report counts as input. */
  function InputOf(usage: Usage): int {
    AddInt(AddInt(usage.inputTokens, usage.cachedInputTokens), usage.cacheCreationTokens)
  }

  /** applyCodexEvent. */
  function Apply(s: State, event: Event): State {
    match event
    case ThreadStarted(threadId) => s.(threadId := threadId)
    case TurnStarted => s.(currentTurn := s.currentTurn + 1)
    case TurnCompleted(usage) =>
      if usage.None? then s
      else s.(inputTokens := Max(s.inputTokens, InputOf(usage.value)),
              outputTokens := Max(s.outputTokens, usage.value.outputTokens))
    case ItemStarted(item) => ApplyItemStarted(s, item)
    case ItemCompleted(item) => ApplyItemCompleted(s, item)
    case OtherEvent => s
  }

  function Run(events: seq<Event>): State {
    if events == [] then START else Apply(Run(events[..|events| - 1]), events[|events| - 1])
  }

  /** The parse state object. */
  class CodexParseState {
    var currentTurn: int
    var threadId: string
    var finalMsg: string
    var messages: seq<Message>
    var inputTokens: int
    var outputTokens: int
    var commandExecutions: map<string, CommandState>
    var mcpToolCalls: map<string, int>

    constructor ()
      ensures Value() == START
    {
      currentTurn, threadId, finalMsg, messages := 0, "", "", [];
      inputTokens, outputTokens, commandExecutions, mcpToolCalls := 0, 0, map[], map[];
    }

    ghost function Value(): State
      reads this
    {
      State(currentTurn, threadId, finalMsg, messages, inputTokens, outputTokens, commandExecutions, mcpToolCalls)
    }

    method AppendToolCall(item: Item, turn: int)
      modifies this
      ensures Value() == AppendMcpCall(old(Value()), item, turn)
    {
      if item.id != "" { mcpToolCalls := mcpToolCalls[item.id := turn]; }
      messages := messages + [ToolCall(item.id, ToolName(item), item.arguments, turn)];
    }

    method ApplyStarted(event: Option<Item>)
      modifies this
      ensures Value() == ApplyItemStarted(old(Value()), event)
    {
      if event.None? { return; }
      var item := event.value;
      var turn := Max(currentTurn, 1);
      if item.kind == CommandExecution {
        commandExecutions := commandExecutions[item.id := CommandState(item.command, turn)];
        messages := messages + [ToolCall(item.id, COMMAND_EXECUTION, item.command, turn)];
      } else if item.kind == McpToolCall {
        AppendToolCall(item, turn);
      }
    }

    method ApplyCompleted(event: Option<Item>)
      modifies this
      ensures Value() == ApplyItemCompleted(old(Value()), event)
    {
      if event.None? { return; }
      var item := event.value;
      var turn := Max(currentTurn, 1);
      match item.kind
      case AgentMessage =>
        finalMsg := item.text;
        messages := messages + [Assistant(item.text, turn)];
      case CommandExecution =>
        if item.id in commandExecutions {
          turn := commandExecutions[item.id].turn;
        } else {
          messages := messages + [ToolCall(item.id, COMMAND_EXECUTION, item.command, turn)];
        }
        var status := Success;
        if item.exitCode.Some? && item.exitCode.value != 0 { status := Error; }
        messages := messages + [ToolResult(item.id, status, item.aggregatedOutput, turn)];
      case McpToolCall =>
        if item.id in mcpToolCalls {
          turn := mcpToolCalls[item.id];
        } else {
          AppendToolCall(item, turn);
        }
        messages := messages + [ToolResult(item.id, if item.succeeded then Success else Error, item.result, turn)];
      case OtherItem =>
    }

    method ApplyEvent(event: Event)
      modifies this
      ensures Value() == Apply(old(Value()), event)
    {
      match event
      case ThreadStarted(id) => threadId := id;
      case TurnStarted => currentTurn := currentTurn + 1;
      case TurnCompleted(usage) =>
        if usage.None? { return; }
        inputTokens := Max(inputTokens, InputOf(usage.value));
        outputTokens := Max(outputTokens, usage.value.outputTokens);
      case ItemStarted(item) => ApplyStarted(item);
      case ItemCompleted(item) => ApplyCompleted(item);
      case OtherEvent =>
    }
  }

  // What every run keeps.

  /** Some message before the n-th is a call with this ID and turn. */
  ghost predicate Called(messages: seq<Message>, n: nat, id: string, turn: int) {
    exists i :: 0 <= i < n <= |messages| && IsCall(messages[i], id, turn)
  }

  predicate IsCall(m: Message, id: string, turn: int) {
    m.ToolCall? && m.id == id && m.turn == turn
  }

  ghost predicate ResultAnswers(messages: seq<Message>, n: nat)
    requires n < |messages|
  {
    messages[n].ToolResult? ==> Called(messages, n, messages[n].callId, messages[n].turn)
  }

  /** Every result answers an earlier call of its ID and turn, and every remembered
      call is in the transcript. */
  ghost predicate Paired(s: State) {
    && (forall n: nat {:trigger ResultAnswers(s.messages, n)} :: n < |s.messages| ==> ResultAnswers(s.messages, n))
    && (forall id {:trigger s.commandExecutions[id]} :: id in s.commandExecutions ==>
          Called(s.messages, |s.messages|, id, s.commandExecutions[id].turn))
    && (forall id {:trigger s.mcpToolCalls[id]} :: id in s.mcpToolCalls ==>
          Called(s.messages, |s.messages|, id, s.mcpToolCalls[id]))
  }

  lemma CalledMore(messages: seq<Message>, more: seq<Message>, n: nat, k: nat, id: string, turn: int)
    requires Called(messages, n, id, turn) && messages <= more && n <= k <= |more|
    ensures Called(more, k, id, turn)
  {
    var i :| 0 <= i < n && IsCall(messages[i], id, turn);
    assert IsCall(more[i], id, turn);
  }

  /** One more message keeps the pairing if it is no result, or answers a call. */
  lemma AppendPaired(s: State, m: Message)
    requires Paired(s)
    requires m.ToolResult? ==> Called(s.messages, |s.messages|, m.callId, m.turn)
    ensures Paired(Append(s, m))
  {
    var t := Append(s, m);
    forall n: nat | n < |t.messages|
      ensures ResultAnswers(t.messages, n)
    {
      if n < |s.messages| {
        assert ResultAnswers(s.messages, n);
        if s.messages[n].ToolResult? {
          CalledMore(s.messages, t.messages, n, n, s.messages[n].callId, s.messages[n].turn);
        }
      } else if m.ToolResult? {
        CalledMore(s.messages, t.messages, n, n, m.callId, m.turn);
      }
    }
    forall id | id in t.commandExecutions
      ensures Called(t.messages, |t.messages|, id, t.commandExecutions[id].turn)
    {
      CalledMore(s.messages, t.messages, |s.messages|, |t.messages|, id, s.commandExecutions[id].turn);
    }
    forall id | id in t.mcpToolCalls
      ensures Called(t.messages, |t.messages|, id, t.mcpToolCalls[id])
    {
      CalledMore(s.messages, t.messages, |s.messages|, |t.messages|, id, s.mcpToolCalls[id]);
    }
  }

  /** A new call keeps the pairing, and may be remembered. */
  lemma CallPaired(s: State, id: string, name: string, arguments: string, turn: int, command: string)
    requires Paired(s)
    ensures var t := Append(s, ToolCall(id, name, arguments, turn));
      && Paired(t)
      && Paired(t.(commandExecutions := t.commandExecutions[id := CommandState(command, turn)]))
      && Paired(t.(mcpToolCalls := t.mcpToolCalls[id := turn]))
      && Called(t.messages, |t.messages|, id, turn)
  {
    var t := Append(s, ToolCall(id, name, arguments, turn));
    AppendPaired(s, ToolCall(id, name, arguments, turn));
    assert IsCall(t.messages[|s.messages|], id, turn);
  }

  lemma McpCallPaired(s: State, item: Item, turn: int)
    requires Paired(s)
    ensures var t := AppendMcpCall(s, item, turn); Paired(t) && Called(t.messages, |t.messages|, item.id, turn)
  {
    CallPaired(s, item.id, ToolName(item), item.arguments, turn, "");
  }

  lemma StartedPaired(s: State, event: Option<Item>)
    requires Paired(s)
    ensures Paired(ApplyItemStarted(s, event))
  {
    if event.Some? {
      var item := event.value;
      if item.kind == CommandExecution {
        CallPaired(s, item.id, COMMAND_EXECUTION, item.command, Turn(s), item.command);
      } else if item.kind == McpToolCall {
        McpCallPaired(s, item, Turn(s));
      }
    }
  }

  lemma CompletedPaired(s: State, event: Option<Item>)
    requires Paired(s)
    ensures Paired(ApplyItemCompleted(s, event))
  {
    if event.Some? {
      var item := event.value;
      match item.kind
      case AgentMessage =>
        AppendPaired(s.(finalMsg := item.text), Assistant(item.text, Turn(s)));
      case CommandExecution =>
        var t, turn := s, Turn(s);
        if item.id in s.commandExecutions {
          turn := s.commandExecutions[item.id].turn;
        } else {
          CallPaired(s, item.id, COMMAND_EXECUTION, item.command, turn, "");
          t := Append(s, CommandCall(item, turn));
        }
        AppendPaired(t, ToolResult(item.id, CommandStatus(item), item.aggregatedOutput, turn));
      case McpToolCall =>
        var t, turn := s, Turn(s);
        if item.id in s.mcpToolCalls {
          turn := s.mcpToolCalls[item.id];
        } else {
          McpCallPaired(s, item, turn);
          t := AppendMcpCall(s, item, turn);
        }
        AppendPaired(t, ToolResult(item.id, if item.succeeded then Success else Error, item.result, turn));
      case OtherItem =>
    }
  }

  lemma {:induction false} RunPaired(events: seq<Event>)
    ensures Paired(Run(events))
  {
    if events != [] {
      var s, event := Run(events[..|events| - 1]), events[|events| - 1];
      RunPaired(events[..|events| - 1]);
      match event
      case ItemStarted(item) => StartedPaired(s, item);
      case ItemCompleted(item) => CompletedPaired(s, item);
      case _ =>
    }
  }

  /** Whatever the events, every tool result comes after a tool call with its ID in
      the same turn: also if the start event was missing, repeated or had no ID. */
  lemma EveryResultAnswersACall(events: seq<Event>, n: nat)
    requires n < |Run(events).messages| && Run(events).messages[n].ToolResult?
    ensures var m := Run(events).messages; exists i :: 0 <= i < n && IsCall(m[i], m[n].callId, m[n].turn)
  {
    RunPaired(events);
    assert ResultAnswers(Run(events).messages, n);
  }

  /** The text of the last agent message, if any. */
  function LastAssistant(messages: seq<Message>): string {
    if messages == [] then ""
    else
      match messages[|messages| - 1]
      case Assistant(content, _) => content
      case _ => LastAssistant(messages[..|messages| - 1])
  }

  ghost predicate FinalIsLast(s: State) {
    s.finalMsg == LastAssistant(s.messages)
  }

  lemma AppendFinal(s: State, m: Message)
    requires m.Assistant? || FinalIsLast(s)
    ensures FinalIsLast(if m.Assistant? then Append(s.(finalMsg := m.content), m) else Append(s, m))
  {
    assert (s.messages + [m])[..|s.messages|] == s.messages;
  }

  lemma StartedFinal(s: State, item: Item)
    requires FinalIsLast(s)
    ensures FinalIsLast(ApplyItemStarted(s, Some(item)))
  {
    AppendFinal(s, CommandCall(item, Turn(s)));
    AppendFinal(s, ToolCall(item.id, ToolName(item), item.arguments, Turn(s)));
  }

  lemma CompletedFinal(s: State, item: Item)
    requires FinalIsLast(s)
    ensures FinalIsLast(ApplyItemCompleted(s, Some(item)))
  {
    match item.kind
    case AgentMessage =>
      AppendFinal(s, Assistant(item.text, Turn(s)));
    case CommandExecution =>
      var known := item.id in s.commandExecutions;
      var turn := if known then s.commandExecutions[item.id].turn else Turn(s);
      AppendFinal(s, CommandCall(item, turn));
      AppendFinal(if known then s else Append(s, CommandCall(item, turn)),
                  ToolResult(item.id, CommandStatus(item), item.aggregatedOutput, turn));
    case McpToolCall =>
      var known := item.id in s.mcpToolCalls;
      var turn := if known then s.mcpToolCalls[item.id] else Turn(s);
      AppendFinal(s, ToolCall(item.id, ToolName(item), item.arguments, turn));
      AppendFinal(if known then s else AppendMcpCall(s, item, turn),
                  ToolResult(item.id, if item.succeeded then Success else Error, item.result, turn));
    case OtherItem =>
  }

  /** finalMsg is the text of the last agent message. */
  lemma {:induction false} FinalMessage(events: seq<Event>)
    ensures Run(events).finalMsg == LastAssistant(Run(events).messages)
  {
    if events != [] {
      var s, event := Run(events[..|events| - 1]), events[|events| - 1];
      FinalMessage(events[..|events| - 1]);
      match event
      case ItemStarted(Some(item)) => StartedFinal(s, item);
      case ItemCompleted(Some(item)) => CompletedFinal(s, item);
      case _ =>
    }
  }

  /** The largest of the reported numbers, or 0. */
  function LargestInput(events: seq<Event>): int {
    if events == [] then 0
    else
      var n := |events| - 1;
      if events[n].TurnCompleted? && events[n].usage.Some?
      then Max(LargestInput(events[..n]), InputOf(events[n].usage.value)) else LargestInput(events[..n])
  }

  function LargestOutput(events: seq<Event>): int {
    if events == [] then 0
    else
      var n := |events| - 1;
      if events[n].TurnCompleted? && events[n].usage.Some?
      then Max(LargestOutput(events[..n]), events[n].usage.value.outputTokens) else LargestOutput(events[..n])
  }

  function TurnsStarted(events: seq<Event>): nat {
    if events == [] then 0
    else
      var n := |events| - 1;
      TurnsStarted(events[..n]) + if events[n].TurnStarted? then 1 else 0
  }

  lemma ItemsLeaveCounters(s: State, item: Option<Item>)
    ensures var t := ApplyItemStarted(s, item);
      t.inputTokens == s.inputTokens && t.outputTokens == s.outputTokens && t.currentTurn == s.currentTurn
    ensures var t := ApplyItemCompleted(s, item);
      t.inputTokens == s.inputTokens && t.outputTokens == s.outputTokens && t.currentTurn == s.currentTurn
  {
  }

  /** Usage reports are cumulative: the largest counts. Turns are counted from 1. */
  lemma {:induction false} Totals(events: seq<Event>)
    ensures Run(events).inputTokens == LargestInput(events)
    ensures Run(events).outputTokens == LargestOutput(events)
    ensures Run(events).currentTurn == TurnsStarted(events)
  {
    if events != [] {
      var s := Run(events[..|events| - 1]);
      Totals(events[..|events| - 1]);
      match events[|events| - 1]
      case ItemStarted(item) => ItemsLeaveCounters(s, item);
      case ItemCompleted(item) => ItemsLeaveCounters(s, item);
      case _ =>
    }
  }

  /** Every message has a turn that has begun. */
  ghost predicate TurnsInRange(s: State) {
    && (forall n :: 0 <= n < |s.messages| ==> 1 <= s.messages[n].turn <= Turn(s))
    && (forall id :: id in s.commandExecutions ==> 1 <= s.commandExecutions[id].turn <= Turn(s))
    && (forall id :: id in s.mcpToolCalls ==> 1 <= s.mcpToolCalls[id] <= Turn(s))
  }

  lemma AppendInRange(s: State, m: Message)
    requires TurnsInRange(s) && 1 <= m.turn <= Turn(s)
    ensures TurnsInRange(Append(s, m)) && s.messages <= Append(s, m).messages
  {
  }

  lemma McpCallInRange(s: State, item: Item, turn: int)
    requires TurnsInRange(s) && 1 <= turn <= Turn(s)
    ensures TurnsInRange(AppendMcpCall(s, item, turn)) && s.messages <= AppendMcpCall(s, item, turn).messages
  {
    AppendInRange(s, ToolCall(item.id, ToolName(item), item.arguments, turn));
  }

  lemma StartedGrows(s: State, item: Item)
    requires TurnsInRange(s)
    ensures s.messages <= ApplyItemStarted(s, Some(item)).messages && TurnsInRange(ApplyItemStarted(s, Some(item)))
  {
    AppendInRange(s, CommandCall(item, Turn(s)));
    McpCallInRange(s, item, Turn(s));
  }

  lemma CompletedGrows(s: State, item: Item)
    requires TurnsInRange(s)
    ensures s.messages <= ApplyItemCompleted(s, Some(item)).messages && TurnsInRange(ApplyItemCompleted(s, Some(item)))
  {
    match item.kind
    case AgentMessage =>
      AppendInRange(s, Assistant(item.text, Turn(s)));
    case CommandExecution =>
      var t, turn := s, Turn(s);
      if item.id in s.commandExecutions {
        turn := s.commandExecutions[item.id].turn;
      } else {
        AppendInRange(s, CommandCall(item, turn));
        t := Append(s, CommandCall(item, turn));
      }
      AppendInRange(t, ToolResult(item.id, CommandStatus(item), item.aggregatedOutput, turn));
    case McpToolCall =>
      var t, turn := s, Turn(s);
      if item.id in s.mcpToolCalls {
        turn := s.mcpToolCalls[item.id];
      } else {
        McpCallInRange(s, item, turn);
        t := AppendMcpCall(s, item, turn);
      }
      AppendInRange(t, ToolResult(item.id, if item.succeeded then Success else Error, item.result, turn));
    case OtherItem =>
  }

  /** The transcript only grows. */
  lemma ApplyGrows(s: State, event: Event)
    requires TurnsInRange(s)
    ensures s.messages <= Apply(s, event).messages && TurnsInRange(Apply(s, event))
  {
    match event
    case ItemStarted(Some(item)) => StartedGrows(s, item);
    case ItemCompleted(Some(item)) => CompletedGrows(s, item);
    case _ =>
  }

  lemma {:induction false} RunTurns(events: seq<Event>)
    ensures TurnsInRange(Run(events))
  {
    if events != [] {
      RunTurns(events[..|events| - 1]);
      ApplyGrows(Run(events[..|events| - 1]), events[|events| - 1]);
    }
  }
}
