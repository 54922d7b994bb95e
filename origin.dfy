/** The baseline tool hook (`agent_tools_hook_origin.py`): two copy-pasted
    invokers that build a result dictionary and update it in place, and a
    loop that alternates between them. */
module Origin {
  import opened PyValues
  import opened LogStyles
  import opened ToolResults
  import opened Reference

  /** `result["logs"].append(line)`: the list under "logs" grows by one
      string; every other entry stays as it was. */
  function AppendLog(d: map<string, Value>, line: string): (e: map<string, Value>)
    requires "logs" in d && d["logs"].ListVal?
    ensures e.Keys == d.Keys
    ensures e["logs"] == ListVal(d["logs"].items + [StrVal(line)])
    ensures forall k :: k in d && k != "logs" ==> e[k] == d[k]
  {
    d["logs" := ListVal(d["logs"].items + [StrVal(line)])]
  }

  /** The dictionary every call starts from: status "ok", no error, no
      output, no logs. */
  function InitialResult(name: string, args: Args): (d: map<string, Value>)
    ensures d.Keys == FieldNames
    ensures d["logs"] == ListVal([])
  {
    map[
      "tool_name" := StrVal(name),
      "status" := StrVal("ok"),
      "error" := NoneVal,
      "args" := DictVal(args),
      "output" := NoneVal,
      "logs" := ListVal([])]
  }

  /** `call_tool_a`: the dictionary of the style-"a" call of `tool`. */
  method CallToolA(tool: Tool, name: string, args: Args, repr: Repr) returns (result: map<string, Value>)
    ensures result == ToDict(Invoked(A, name, args, tool(args), repr))
  {
    result := InitialResult(name, args);
    result := AppendLog(result, "calling " + name + " with " + repr(args));
    match tool(args)
    case Raised(message) =>
      result := result["status" := StrVal("error")];
      result := result["error" := StrVal(message)];
      result := AppendLog(result, "error: " + message);
      assert result["logs"] == ListVal(StrValues(Invoked(A, name, args, tool(args), repr).logs));
    case Returned(output) =>
      result := result["output" := output];
      result := AppendLog(result, "done");
      assert result["logs"] == ListVal(StrValues(Invoked(A, name, args, tool(args), repr).logs));
  }

  /** `call_tool_b`: the same with the style-"b" messages. */
  method CallToolB(tool: Tool, name: string, args: Args, repr: Repr) returns (result: map<string, Value>)
    ensures result == ToDict(Invoked(B, name, args, tool(args), repr))
  {
    result := InitialResult(name, args);
    result := AppendLog(result, "tool " + name + " start " + repr(args));
    match tool(args)
    case Raised(message) =>
      result := result["status" := StrVal("error")];
      result := result["error" := StrVal(message)];
      result := AppendLog(result, "failed: " + message);
      assert result["logs"] == ListVal(StrValues(Invoked(B, name, args, tool(args), repr).logs));
    case Returned(output) =>
      result := result["output" := output];
      result := AppendLog(result, "ok");
      assert result["logs"] == ListVal(StrValues(Invoked(B, name, args, tool(args), repr).logs));
  }

  /** `run_all`: zips the three lists and calls `call_tool_a` at even
      positions and `call_tool_b` at odd ones, collecting every result in
      order. */
  method RunAll(tools: seq<Tool>, names: seq<string>, payloads: seq<Args>, repr: Repr)
    returns (results: seq<map<string, Value>>)
    ensures results == ToDicts(RunSpec(Zip3(tools, names, payloads), repr))
  {
    var requests := Zip3(tools, names, payloads);
    results := [];
    var index := 0;
    while index < |requests|
      invariant 0 <= index <= |requests|
      invariant results == ToDicts(RunSpec(requests, repr)[..index])
    {
      var request := requests[index];
      var result;
      if index % 2 == 0 {
        result := CallToolA(request.tool, request.name, request.args, repr);
        assert StyleAt(index) == A;
      } else {
        result := CallToolB(request.tool, request.name, request.args, repr);
        assert StyleAt(index) == B;
      }
      assert result == ToDict(InvokedAt(requests, index, repr));
      RunSpecPrefix(requests, index, repr);
      ToDictsAppend(RunSpec(requests, repr)[..index], InvokedAt(requests, index, repr));
      results := results + [result];
      index := index + 1;
    }
    assert RunSpec(requests, repr)[..index] == RunSpec(requests, repr);
  }
}
