/** Provider-neutral turns (src/enterprise_agent_platform/llm/models.py).

    The Pydantic validators become predicates: building a value is legal exactly
    when its predicate holds, so "no validator can fail" is a provable statement. */
module Messages {
  import opened Json

  datatype Role = User | Assistant

  datatype StopReason = EndTurn | MaxTokens | StopSequence | Refusal | ToolUse

  datatype ToolCall = ToolCall(id: string, name: string, arguments: map<string, Json>)

  datatype ToolResult = ToolResult(callId: string, content: string, isError: bool)

  datatype TokenUsage = TokenUsage(inputTokens: nat, outputTokens: nat) {
    function Plus(other: TokenUsage): TokenUsage {
      TokenUsage(inputTokens + other.inputTokens, outputTokens + other.outputTokens)
    }
  }

  const NO_USAGE := TokenUsage(0, 0)

  datatype Message = Message(role: Role, content: string, toolCalls: seq<ToolCall>, toolResults: seq<ToolResult>) {
    static function FromCompletion(completion: Completion): Message {
      Message(Assistant, completion.text, completion.toolCalls, [])
    }

    static function WithToolResults(results: seq<ToolResult>): Message {
      Message(User, "", [], results)
    }

    // Message._check_blocks, together with the field rules of the nested models.
    predicate Valid() {
      && (toolCalls != [] ==> role == Assistant)
      && (toolResults != [] ==> role == User)
      && (content != "" || toolCalls != [] || toolResults != [])
      && (forall i | 0 <= i < |toolCalls| :: toolCalls[i].id != "")
      && (forall i | 0 <= i < |toolResults| :: toolResults[i].callId != "")
    }
  }

  datatype Completion = Completion(text: string, stopReason: StopReason, usage: TokenUsage, toolCalls: seq<ToolCall>) {
    // Completion._check_tool_calls, together with the field rules of ToolCall.
    predicate Valid() {
      && (stopReason == ToolUse ==> toolCalls != [])
      && (forall i | 0 <= i < |toolCalls| :: toolCalls[i].id != "")
      && (forall i, j | 0 <= i < j < |toolCalls| :: toolCalls[i].id != toolCalls[j].id)
    }
  }

  // CompletionRequest: its `messages` rules. Tool names are unique because the
  // registry is keyed by name; `max_tokens` is fixed per runner.
  predicate ValidRequest(messages: seq<Message>) {
    && messages != []
    && messages[0].role == User
    && forall i | 0 <= i < |messages| :: messages[i].Valid()
  }

  // --- Conversations ---------------------------------------------------------

  // Results answer calls when they are the same in number and in order.
  predicate Answers(calls: seq<ToolCall>, results: seq<ToolResult>) {
    |results| == |calls| && forall i | 0 <= i < |calls| :: results[i].callId == calls[i].id
  }

  predicate IsOpening(m: Message) {
    m.role == User && m.toolCalls == [] && m.toolResults == [] && m.Valid()
  }

  predicate IsToolTurn(m: Message) {
    m.role == Assistant && m.toolCalls != [] && m.Valid()
  }

  predicate IsAnswer(turn: Message, answer: Message) {
    answer.role == User && answer.Valid() && Answers(turn.toolCalls, answer.toolResults)
  }

  // A conversation the model may be asked to continue: an opening user turn,
  // then pairs of a tool-calling turn and the turn that answers it.
  predicate Conversation(ms: seq<Message>) {
    if |ms| <= 1 then
      |ms| == 1 && IsOpening(ms[0])
    else
      && |ms| >= 3
      && IsToolTurn(ms[|ms| - 2])
      && IsAnswer(ms[|ms| - 2], ms[|ms| - 1])
      && Conversation(ms[..|ms| - 2])
  }

  // A conversation stopped on a tool-calling turn nobody has answered yet.
  predicate PausedConversation(ms: seq<Message>) {
    |ms| >= 2 && IsToolTurn(ms[|ms| - 1]) && Conversation(ms[..|ms| - 1])
  }

  // How many tool calls the conversation has already answered.
  function AnsweredCalls(ms: seq<Message>): nat {
    if |ms| < 3 then 0 else |ms[|ms| - 1].toolResults| + AnsweredCalls(ms[..|ms| - 2])
  }

  // The same shape, turn by turn, for readers of the theorems.
  ghost predicate WellFormedTurns(ms: seq<Message>) {
    && |ms| % 2 == 1
    && (forall i | 0 <= i < |ms| :: ms[i].Valid())
    && (forall i | 0 <= i < |ms| :: ms[i].role == if i % 2 == 0 then User else Assistant)
    && (forall i | 0 < i < |ms| && i % 2 == 0 :: Answers(ms[i - 1].toolCalls, ms[i].toolResults))
    && (forall i | 0 <= i < |ms| && i % 2 == 1 :: ms[i].toolCalls != [])
  }

  lemma TwoMoreTurns(front: seq<Message>, turn: Message, answer: Message)
    requires WellFormedTurns(front) && IsToolTurn(turn) && IsAnswer(turn, answer)
    ensures WellFormedTurns(front + [turn, answer])
  {
    hide Message.Valid, Answers;
    var ms := front + [turn, answer];
    forall i | 0 <= i < |ms|
      ensures ms[i] == if i < |front| then front[i] else if i == |front| then turn else answer
    {}
  }

  lemma {:induction false} ConversationTurns(ms: seq<Message>)
    requires Conversation(ms)
    ensures WellFormedTurns(ms)
    ensures ValidRequest(ms)
  {
    if |ms| > 1 {
      var front := ms[..|ms| - 2];
      ConversationTurns(front);
      TwoMoreTurns(front, ms[|ms| - 2], ms[|ms| - 1]);
      assert ms == front + [ms[|ms| - 2], ms[|ms| - 1]];
    }
  }

  // Answering a paused conversation position by position makes it continuable
  // again, and adds exactly its answered calls to the count.
  lemma {:induction false} AnsweringAPause(ms: seq<Message>, results: seq<ToolResult>)
    requires PausedConversation(ms)
    requires Answers(ms[|ms| - 1].toolCalls, results)
    ensures Message.WithToolResults(results).Valid()
    ensures Conversation(ms + [Message.WithToolResults(results)])
    ensures AnsweredCalls(ms + [Message.WithToolResults(results)]) == AnsweredCalls(ms[..|ms| - 1]) + |results|
  {
    var answer := Message.WithToolResults(results);
    var all := ms + [answer];
    assert all[..|all| - 2] == ms[..|ms| - 1];
    forall i | 0 <= i < |results|
      ensures results[i].callId != ""
    {
      assert results[i].callId == ms[|ms| - 1].toolCalls[i].id;
    }
  }
}
