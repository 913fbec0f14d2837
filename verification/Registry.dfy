/** The tool registry (tools/registry.py) and tool risk (tools/models.py). */
module Registry {
  import opened Json
  import opened Messages

  datatype RiskLevel = Read | Write | Critical {
    function Rank(): nat {
      match this
      case Read => 0
      case Write => 1
      case Critical => 2
    }
  }

  // `accepts` is the tool's argument validator.
  datatype Tool = Tool(name: string, risk: RiskLevel, accepts: map<string, Json> -> bool)

  // How a handler ends: with text, with an error of its own domain, at the
  // deadline, or with any other exception.
  datatype HandlerOutcome = Output(text: string) | ToolError(message: string) | TimedOut | Broke

  function ResultOf(tools: map<string, Tool>, call: ToolCall, outcome: HandlerOutcome): ToolResult {
    if call.name !in tools then
      ToolResult(call.id, "No tool named '" + call.name + "'.", true)
    else if !tools[call.name].accepts(call.arguments) then
      ToolResult(call.id, "Invalid arguments for '" + call.name + "'.", true)
    else
      match outcome
      case Output(text) => ToolResult(call.id, text, false)
      case ToolError(message) =>
        ToolResult(call.id, if message != "" then message else "Tool '" + call.name + "' reported a failure.", true)
      case TimedOut => ToolResult(call.id, "Tool '" + call.name + "' timed out.", true)
      case Broke => ToolResult(call.id, "Tool '" + call.name + "' failed to run.", true)
  }

  function ResultsOf(tools: map<string, Tool>, calls: seq<ToolCall>, outcomes: nat -> HandlerOutcome): seq<ToolResult> {
    seq(|calls|, i requires 0 <= i < |calls| => ResultOf(tools, calls[i], outcomes(i)))
  }

  class ToolRegistry {
    var tools: map<string, Tool>

    ghost predicate Valid()
      reads this
    {
      forall name | name in tools :: tools[name].name == name
    }

    constructor ()
      ensures Valid() && tools == map[]
    {
      tools := map[];
    }

    method Register(tool: Tool) returns (added: bool)
      requires Valid()
      modifies this
      ensures Valid()
      ensures added <==> tool.name !in old(tools)
      ensures tools == if added then old(tools)[tool.name := tool] else old(tools)
    {
      added := tool.name !in tools;
      if added {
        tools := tools[tool.name := tool];
      }
    }

    // Every way a call can go wrong comes back as data, under the call's own id;
    // a result is not an error exactly when the handler ran on accepted arguments
    // and returned text.
    method Execute(call: ToolCall, outcome: HandlerOutcome) returns (r: ToolResult)
      ensures r == ResultOf(tools, call, outcome)
      ensures r.callId == call.id
      ensures !r.isError <==> call.name in tools && tools[call.name].accepts(call.arguments) && outcome.Output?
      ensures call.name in tools && tools[call.name].accepts(call.arguments) ==>
                && (outcome.Output? ==> r.content == outcome.text)
                && (outcome.ToolError? && outcome.message != "" ==> r.content == outcome.message)
      ensures r.isError ==> r.content != ""
    {
      r := ResultOf(tools, call, outcome);
    }

    // One result per call, in the order of the calls, each with what its own
    // handler said.
    method ExecuteAll(calls: seq<ToolCall>, outcomes: nat -> HandlerOutcome) returns (results: seq<ToolResult>)
      ensures Answers(calls, results)
      ensures results == ResultsOf(tools, calls, outcomes)
      ensures forall i | 0 <= i < |calls| ::
                var ran := calls[i].name in tools && tools[calls[i].name].accepts(calls[i].arguments);
                && (!results[i].isError <==> ran && outcomes(i).Output?)
                && (ran && outcomes(i).Output? ==> results[i].content == outcomes(i).text)
                && (ran && outcomes(i).ToolError? && outcomes(i).message != "" ==>
                      results[i].content == outcomes(i).message)
    {
      results := [];
      for i := 0 to |calls|
        invariant |results| == i
        invariant forall k | 0 <= k < i :: results[k] == ResultOf(tools, calls[k], outcomes(k))
        invariant forall k | 0 <= k < i :: results[k].callId == calls[k].id
      {
        var result := Execute(calls[i], outcomes(i));
        results := results + [result];
      }
    }
  }

  lemma ResultsAnswerTheirCalls(tools: map<string, Tool>, calls: seq<ToolCall>, outcomes: nat -> HandlerOutcome)
    ensures Answers(calls, ResultsOf(tools, calls, outcomes))
  {
    forall i | 0 <= i < |calls|
      ensures ResultsOf(tools, calls, outcomes)[i].callId == calls[i].id
    {
      assert ResultOf(tools, calls[i], outcomes(i)).callId == calls[i].id;
    }
  }
}
