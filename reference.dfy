/** The behaviour every variant reproduces: what one tool call yields in a
    given log style, and what a run over three parallel lists yields. The
    baseline `call_tool_a`, `call_tool_b` and `run_all` are proved to return
    exactly these values, and so is each refactored variant; this is how the
    variants are shown equal to the baseline. */
module Reference {
  import opened PyValues
  import opened LogStyles
  import opened ToolResults

  /** The invariants a finished call's record keeps: two log lines, a status
      of "ok" or "error", an error text exactly when the status is "error",
      and no output after an error. */
  predicate WellFormed(r: ToolResult)
    ensures WellFormed(r) ==> (r.status == "ok" <==> r.error == None)
    ensures WellFormed(r) ==> (r.output != NoneVal ==> r.status == "ok")
  {
    && |r.logs| == 2
    && (r.status == "ok" || r.status == "error")
    && (r.status == "error" <==> r.error.Some?)
    && (r.status == "error" ==> r.output == NoneVal)
    && r.args.Some?
  }

  /** The result of calling a tool named `name` on `args` in log style
      `style`, when the call has outcome `outcome`. */
  function Invoked(style: Style, name: string, args: Args, outcome: Outcome, repr: Repr): (r: ToolResult)
    ensures WellFormed(r)
    ensures r.toolName == name && r.args == Some(args)
    ensures r.logs[0] == style.LogStart(name, repr(args))
    ensures r.status == "ok" <==> outcome.Returned?
    ensures outcome.Returned? ==>
      r.error == None && r.output == outcome.value && r.logs[1] == style.LogEnd()
    ensures outcome.Raised? ==>
      r.error == Some(outcome.message) && r.output == NoneVal && r.logs[1] == style.LogError(outcome.message)
  {
    var start := style.LogStart(name, repr(args));
    match outcome
    case Returned(v) =>
      ToolResult(name, "ok", None, Some(args), v, [start, style.LogEnd()])
    case Raised(m) =>
      ToolResult(name, "error", Some(m), Some(args), NoneVal, [start, style.LogError(m)])
  }

  /** The record loses nothing: from a result one can tell the style, the
      tool name, the arguments and the outcome that produced it. */
  lemma InvokedDeterminesCall(
    s1: Style, n1: string, a1: Args, o1: Outcome,
    s2: Style, n2: string, a2: Args, o2: Outcome, repr: Repr)
    requires Invoked(s1, n1, a1, o1, repr) == Invoked(s2, n2, a2, o2, repr)
    ensures s1 == s2 && n1 == n2 && a1 == a2 && o1 == o2
  {
  }

  /** A tool that returns `None` leaves a successful record whose output is
      `None`: a null output does not by itself mean the call failed. */
  lemma ReturnedNoneLooksLikeNoOutput(style: Style, name: string, args: Args, repr: Repr)
    ensures Invoked(style, name, args, Returned(NoneVal), repr).status == "ok"
    ensures Invoked(style, name, args, Returned(NoneVal), repr).output == NoneVal
  {
  }

  /** One element of `zip(tools, names, payloads)`. */
  datatype Request = Request(tool: Tool, name: string, args: Args)

  function Min3(x: nat, y: nat, z: nat): nat {
    if x <= y && x <= z then x else if y <= z then y else z
  }

  /** `zip(tools, names, payloads)`: the triples in order, cut to the shortest
      list. */
  function Zip3(tools: seq<Tool>, names: seq<string>, payloads: seq<Args>): (reqs: seq<Request>)
    ensures |reqs| == Min3(|tools|, |names|, |payloads|)
    ensures forall i :: 0 <= i < |reqs| ==>
      reqs[i].tool == tools[i] && reqs[i].name == names[i] && reqs[i].args == payloads[i]
  {
    if tools == [] || names == [] || payloads == [] then []
    else [Request(tools[0], names[0], payloads[0])] + Zip3(tools[1..], names[1..], payloads[1..])
  }

  /** The result of the call at position `index` of a run. */
  function InvokedAt(reqs: seq<Request>, index: nat, repr: Repr): (r: ToolResult)
    requires index < |reqs|
    ensures WellFormed(r)
    ensures r.toolName == reqs[index].name && r.args == Some(reqs[index].args)
    ensures r.logs[0] == StyleAt(index).LogStart(reqs[index].name, repr(reqs[index].args))
    ensures r.status == "error" <==> reqs[index].tool(reqs[index].args).Raised?
  {
    var req := reqs[index];
    Invoked(StyleAt(index), req.name, req.args, req.tool(req.args), repr)
  }

  /** A run over the requests: one call per request, in order, in the style
      of its position. */
  function RunSpec(reqs: seq<Request>, repr: Repr): (rs: seq<ToolResult>)
    ensures |rs| == |reqs|
    ensures forall i :: 0 <= i < |reqs| ==>
      && WellFormed(rs[i])
      && rs[i].toolName == reqs[i].name
      && rs[i].logs[0] == StyleAt(i).LogStart(reqs[i].name, repr(reqs[i].args))
      && (rs[i].status == "error" <==> reqs[i].tool(reqs[i].args).Raised?)
  {
    seq(|reqs|, i requires 0 <= i < |reqs| => InvokedAt(reqs, i, repr))
  }

  /** A run's prefix grows by one call at a time: the loops of the
      orchestrators append exactly the call of the next position. */
  lemma RunSpecPrefix(reqs: seq<Request>, index: nat, repr: Repr)
    requires index < |reqs|
    ensures RunSpec(reqs, repr)[..index + 1] == RunSpec(reqs, repr)[..index] + [InvokedAt(reqs, index, repr)]
  {
    var rs := RunSpec(reqs, repr);
    var next := InvokedAt(reqs, index, repr);
    assert rs[index] == next;
    forall j | 0 <= j <= index
      ensures rs[..index + 1][j] == (rs[..index] + [next])[j]
    {
    }
  }

  /** A run over three lists has one result per triple of the shortest
      prefix, in input order; result `i` is the call of the `i`-th triple in
      style "a" when `i` is even and "b" when it is odd. */
  lemma RunShape(tools: seq<Tool>, names: seq<string>, payloads: seq<Args>, repr: Repr)
    ensures |RunSpec(Zip3(tools, names, payloads), repr)| == Min3(|tools|, |names|, |payloads|)
    ensures forall i :: 0 <= i < |RunSpec(Zip3(tools, names, payloads), repr)| ==>
      RunSpec(Zip3(tools, names, payloads), repr)[i]
        == Invoked(StyleAt(i), names[i], payloads[i], tools[i](payloads[i]), repr)
  {
  }

  /** Empty inputs give an empty run. */
  lemma EmptyRun(tools: seq<Tool>, names: seq<string>, payloads: seq<Args>, repr: Repr)
    requires tools == [] || names == [] || payloads == []
    ensures RunSpec(Zip3(tools, names, payloads), repr) == []
  {
  }

  /** A failure does not stop a run: every position is called, and result
      `i` depends only on the `i`-th request's name, arguments and outcome,
      not on what the tools at other positions did. */
  lemma RunIsPositionwise(reqs1: seq<Request>, reqs2: seq<Request>, i: nat, repr: Repr)
    requires |reqs1| == |reqs2| && i < |reqs1|
    requires reqs1[i].name == reqs2[i].name && reqs1[i].args == reqs2[i].args
    requires reqs1[i].tool(reqs1[i].args) == reqs2[i].tool(reqs2[i].args)
    ensures |RunSpec(reqs1, repr)| == |reqs1|
    ensures RunSpec(reqs1, repr)[i] == RunSpec(reqs2, repr)[i]
  {
  }

  /** Every record of a run keeps the record invariants, and its status is
      "error" exactly when that position's tool raised. */
  lemma RunWellFormed(reqs: seq<Request>, repr: Repr)
    ensures forall i :: 0 <= i < |reqs| ==>
      WellFormed(RunSpec(reqs, repr)[i])
      && (RunSpec(reqs, repr)[i].status == "error" <==> reqs[i].tool(reqs[i].args).Raised?)
  {
  }
}
