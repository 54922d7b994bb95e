/** The `agent_hooks.core` variant: a validated invocation request and one
    invoker that picks the messages of its request's log style inline. */
module Core {
  import opened PyValues
  import opened LogStyles
  import opened ToolResults
  import opened Reference

  /** A tool invocation request. Its log style can only be "a" or "b": the
      dataclass checks this when it is built. */
  datatype ToolInvocation = ToolInvocation(tool: Tool, name: string, args: Args, logStyle: StyleName)

  /** The `ValueError` raised for a log style outside "a" and "b"; it names
      the rejected style. */
  datatype InvalidLogStyle = InvalidLogStyle(got: string)

  /** `ToolInvocation(tool, name, args, log_style)` with its `__post_init__`
      check; the style defaults to "a". */
  function NewToolInvocation(tool: Tool, name: string, args: Args, logStyle: string := "a")
    : (r: Result<ToolInvocation, InvalidLogStyle>)
    ensures r.Ok? <==> logStyle == "a" || logStyle == "b"
    ensures r.Ok? ==>
      r.value.tool == tool && r.value.name == name && r.value.args == args && r.value.logStyle == logStyle
    ensures r.Err? ==> r.error.got == logStyle
  {
    if logStyle == "a" || logStyle == "b" then Ok(ToolInvocation(tool, name, args, logStyle))
    else Err(InvalidLogStyle(logStyle))
  }

  /** A request built without a style gets style "a". */
  lemma DefaultStyleIsA(tool: Tool, name: string, args: Args)
    ensures NewToolInvocation(tool, name, args).Ok?
    ensures NewToolInvocation(tool, name, args).value.logStyle == "a"
  {
  }

  /** `invoke_tool`: the record of running the request's tool, with the log
      lines of the request's style written out in place. */
  method InvokeTool(invocation: ToolInvocation, repr: Repr) returns (result: ToolResult)
    ensures result == Invoked(Named(invocation.logStyle), invocation.name, invocation.args,
                              invocation.tool(invocation.args), repr)
  {
    result := ToolResult(invocation.name, "ok", None, Some(invocation.args), NoneVal, []);

    if invocation.logStyle == "a" {
      result := result.(logs := result.logs + ["calling " + invocation.name + " with " + repr(invocation.args)]);
    } else {
      result := result.(logs := result.logs + ["tool " + invocation.name + " start " + repr(invocation.args)]);
    }

    match invocation.tool(invocation.args)
    case Raised(message) =>
      result := result.(status := "error");
      result := result.(error := Some(message));
      if invocation.logStyle == "a" {
        result := result.(logs := result.logs + ["error: " + message]);
      } else {
        result := result.(logs := result.logs + ["failed: " + message]);
      }
    case Returned(output) =>
      result := result.(output := output);
      if invocation.logStyle == "a" {
        result := result.(logs := result.logs + ["done"]);
      } else {
        result := result.(logs := result.logs + ["ok"]);
      }
  }
}
