/** The refactored tool hook (`agent_tools_hook.py`): one `ToolCaller`
    parameterised by a log strategy replaces the two copied invokers, and a
    `ToolOrchestrator` holding one caller per style replaces the loop. */
module Hook {
  import opened PyValues
  import opened LogStyles
  import opened ToolResults
  import opened Reference

  /** A caller bound to one log strategy. */
  datatype ToolCaller = ToolCaller(logStrategy: Style) {

    /** `ToolCaller.call`: starts from an "ok" record with the start line,
        then records either the exception text and the error line or the
        output and the end line. */
    method Call(tool: Tool, name: string, args: Args, repr: Repr) returns (result: ToolResult)
      ensures result == Invoked(logStrategy, name, args, tool(args), repr)
    {
      result := ToolResult(name, "ok", args := Some(args));
      result := result.(logs := result.logs + [logStrategy.LogStart(name, repr(args))]);
      match tool(args)
      case Raised(message) =>
        result := result.(status := "error");
        result := result.(error := Some(message));
        result := result.(logs := result.logs + [logStrategy.LogError(message)]);
      case Returned(output) =>
        result := result.(output := output);
        result := result.(logs := result.logs + [logStrategy.LogEnd()]);
    }
  }

  /** `call_tool_a`: the baseline's dictionary for style "a". */
  method CallToolA(tool: Tool, name: string, args: Args, repr: Repr) returns (d: map<string, Value>)
    ensures d == ToDict(Invoked(A, name, args, tool(args), repr))
  {
    var caller := ToolCaller(A);
    var result := caller.Call(tool, name, args, repr);
    d := ToDict(result);
  }

  /** `call_tool_b`: the baseline's dictionary for style "b". */
  method CallToolB(tool: Tool, name: string, args: Args, repr: Repr) returns (d: map<string, Value>)
    ensures d == ToDict(Invoked(B, name, args, tool(args), repr))
  {
    var caller := ToolCaller(B);
    var result := caller.Call(tool, name, args, repr);
    d := ToDict(result);
  }

  /** The callers an orchestrator is built with: strategy A under "a",
      strategy B under "b". */
  const DefaultCallers: map<string, ToolCaller> := map["a" := ToolCaller(A), "b" := ToolCaller(B)]

  class ToolOrchestrator {
    var callers: map<string, ToolCaller>

    constructor ()
      ensures callers == DefaultCallers
    {
      callers := DefaultCallers;
    }

    /** `run_all_alternating`: zips the three lists and calls the "a" caller
        at even positions and the "b" caller at odd ones, collecting each
        result's dictionary in order. */
    method RunAllAlternating(tools: seq<Tool>, names: seq<string>, payloads: seq<Args>, repr: Repr)
      returns (results: seq<map<string, Value>>)
      requires callers == DefaultCallers
      ensures results == ToDicts(RunSpec(Zip3(tools, names, payloads), repr))
    {
      var requests := Zip3(tools, names, payloads);
      results := [];
      var index := 0;
      while index < |requests|
        invariant 0 <= index <= |requests|
        invariant results == ToDicts(RunSpec(requests, repr)[..index])
      {
        var request := requests[index];
        var caller := if index % 2 == 0 then callers["a"] else callers["b"];
        assert caller.logStrategy == StyleAt(index);
        var result := caller.Call(request.tool, request.name, request.args, repr);
        results := results + [ToDict(result)];
        RunSpecPrefix(requests, index, repr);
        ToDictsAppend(RunSpec(requests, repr)[..index], result);
        index := index + 1;
      }
      assert RunSpec(requests, repr)[..index] == RunSpec(requests, repr);
    }
  }

  /** `run_all`: a fresh orchestrator's alternating run, which returns the
      baseline's list of dictionaries. */
  method RunAll(tools: seq<Tool>, names: seq<string>, payloads: seq<Args>, repr: Repr)
    returns (results: seq<map<string, Value>>)
    ensures results == ToDicts(RunSpec(Zip3(tools, names, payloads), repr))
  {
    var orchestrator := new ToolOrchestrator();
    results := orchestrator.RunAllAlternating(tools, names, payloads, repr);
  }
}
