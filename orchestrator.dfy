/** The `agent_hooks.orchestrator` variant: runs a list of requests through
    `invoke_tool`, alternating the log style by position. */
module Orchestrator {
  import opened PyValues
  import opened LogStyles
  import opened ToolResults
  import opened Reference
  import opened Core

  /** `invoke_all`: one record per triple of the zipped lists, in order,
      with style "a" at even positions and "b" at odd ones; a tool that
      raises does not stop the run. */
  method InvokeAll(tools: seq<Tool>, names: seq<string>, payloads: seq<Args>, repr: Repr)
    returns (results: seq<ToolResult>)
    ensures results == RunSpec(Zip3(tools, names, payloads), repr)
  {
    var requests := Zip3(tools, names, payloads);
    results := [];
    var index := 0;
    while index < |requests|
      invariant 0 <= index <= |requests|
      invariant results == RunSpec(requests, repr)[..index]
    {
      var request := requests[index];
      var logStyle := if index % 2 == 0 then "a" else "b";
      var invocation := NewToolInvocation(request.tool, request.name, request.args, logStyle).value;
      var result := InvokeTool(invocation, repr);
      RunSpecPrefix(requests, index, repr);
      results := results + [result];
      index := index + 1;
    }
    assert RunSpec(requests, repr)[..index] == RunSpec(requests, repr);
  }

  /** `invoke_all_as_dicts`: the records of `invoke_all` as dictionaries,
      which are exactly the baseline `run_all`'s. */
  method InvokeAllAsDicts(tools: seq<Tool>, names: seq<string>, payloads: seq<Args>, repr: Repr)
    returns (dicts: seq<map<string, Value>>)
    ensures dicts == ToDicts(RunSpec(Zip3(tools, names, payloads), repr))
  {
    var results := InvokeAll(tools, names, payloads, repr);
    dicts := ToDicts(results);
  }
}
