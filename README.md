# Agent tool hook, modelled in Dafny

The repository wraps the call of a "tool" (any Python callable) with keyword
arguments. The wrapper records the outcome in a six-field result:
`tool_name`, `status`, `error`, `args`, `output` and `logs`. It also writes two
log lines in one of two fixed styles, "a" or "b". An orchestrator runs a
list of tools. It zips three parallel lists, uses style "a" at even positions
and style "b" at odd ones, and collects every result in order. Errors raised
by a tool are absorbed into its result, so a run never stops early.

The same logic exists four times:

- the baseline `agent_tools_hook_origin.py`, with `call_tool_a`, `call_tool_b` and `run_all`;
- the strategy-based `agent_tools_hook.py`, with `ToolCaller`, `LogStrategyA`/`B` and `ToolOrchestrator`;
- the dataclass-based `agent_hooks/core.py`, with `ToolInvocation` and `invoke_tool`;
- `agent_hooks/orchestrator.py`, with `invoke_all` and `invoke_all_as_dicts`.

How it is modelled:

- A tool is a function from its argument map to an `Outcome`: `Returned(v)` or `Raised(message)`.
  The message is the exception's text `str(exc)`.
- `repr(args)` is a parameter `repr: Args -> string`, so every property holds for any rendering.
- Python values form the datatype `PyValues.Value`: `None`, bools, ints, strings, lists and dicts are spelled out.
  Every other object (a float, a tuple, a set, an instance) is `Opaque`, known only by an identity tag.
  The plain result dictionary is a `map<string, Value>`.
- The two log strategies are the enumeration `LogStyles.Style`. Its members give the start, error and end lines.
- `Reference.Invoked` is the result of one call in one style. `Reference.RunSpec` over `Reference.Zip3` is the result of a run.
  These are the baseline's behaviour, written as functions.
- Each variant is modelled in its own form: methods that build the result and update it step by step, and loops that append.
  Every such method is proved to return exactly `Invoked(...)`, `ToDict(Invoked(...))`, `RunSpec(...)` or `ToDicts(RunSpec(...))`.
  The baseline `Origin.CallToolA`/`CallToolB`/`RunAll` carry the same contracts as the refactored variants.
  So each variant returns what the baseline returns, on every input.

The record invariants are stated as `Reference.WellFormed`: exactly two log lines, a status of "ok" or "error",
an error text exactly when the status is "error", and no output after an error. The code does not make a
`None` output mean failure. A tool that returns `None` yields status "ok" with output `None`
(`Reference.ReturnedNoneLooksLikeNoOutput`). So "output is null exactly when the status is error" holds only in
the direction from error to null output, and the model states it only in that direction.

## Model

| member | source | states |
|---|---|---|
| `LogStyles.StyleAt` | agent_tools_hook_origin.py:72-75 | the style at position `i` is A ("a") exactly when `i` is even |
| `LogStyles.StyleAlternates` | agent_hooks/orchestrator.py:35-36 | neighbouring positions use different styles; the style repeats with period two |
| `LogStyles.Named` | agent_hooks/core.py:115-118 | the style selected by the name "a" or "b" carries that name |
| `LogStyles.NameRoundTrip` | agent_hooks/core.py:115-118 | each style's name selects that style again |
| `LogStyles.LogStartIdentifiesStyle` | agent_tools_hook.py:72-95 | the start lines of strategy A ("calling …") and strategy B ("tool …") never coincide |
| `LogStyles.LogStartIdentifiesCall` | agent_tools_hook.py:75-76 | within one style, the start line determines the tool name and the argument text, given the name's length |
| `LogStyles.Style.LogStart` | agent_tools_hook.py:75-89 | the start line is "calling ", the name, " with ", the argument text for A; "tool ", the name, " start ", the argument text for B, each piece at its fixed position |
| `LogStyles.Style.LogError` | agent_tools_hook.py:78-92 | the error line is "error: " (A) or "failed: " (B) followed by the exception text |
| `LogStyles.Style.LogEnd` | agent_tools_hook.py:81-95 | the end line is "done" for A and "ok" for B |
| `LogStyles.LogStartAmbiguousA` | agent_tools_hook.py:75-76 | a name or argument text containing " with " lets two different calls write the same style-A start line |
| `LogStyles.LogStartAmbiguousB` | agent_tools_hook.py:88-89 | a name or argument text containing " start " lets two different calls write the same style-B start line |
| `LogStyles.SecondLogIdentifiesOutcome` | agent_tools_hook.py:78-95 | the end line ("done"/"ok") is never an error line ("error: "/"failed: " + message), and an error line determines its message |
| `PyValues.StrValues` | agent_hooks/core.py:69 | the log list exported as Python strings has the same length and item `i` is the string of log line `i` |
| `PyValues.Strings` | agent_hooks/core.py:88 | a list reads back as strings exactly when every item is a string, item by item |
| `ToolResults.ToDict` | agent_hooks/core.py:56-70 | `to_dict` yields exactly the six keys `tool_name`, `status`, `error`, `args`, `output`, `logs` |
| `ToolResults.ToDicts` | agent_hooks/orchestrator.py:70-71 | the list comprehension gives one dictionary per record, `to_dict` of the record at the same index |
| `ToolResults.FromDict` | agent_hooks/core.py:72-89 | `from_dict` succeeds only when all six keys are present, and copies the name, status and output from them |
| `ToolResults.RoundTrip` | agent_hooks/core.py:56-89 | `from_dict(to_dict(r))` is `r`, field by field |
| `ToolResults.FromDictInverse` | agent_hooks/core.py:72-89 | a dictionary that `from_dict` accepts is, on the six keys, the `to_dict` of the record it reads; other keys are dropped |
| `ToolResults.DefaultsExportNone` | agent_tools_hook.py:37-53 | a `ToolResult` built without error or output exports `error` and `output` as `None` |
| `Reference.Invoked` | agent_tools_hook_origin.py:15-35 | one call keeps the record invariants; it copies name and args; the first log is the style's start line; status is "ok" exactly when the tool returned; on return: no error, output is the value, second log is the end line; on raise: error is the message, output `None`, second log is the error line |
| `Reference.WellFormed` | agent_tools_hook_origin.py:15-35 | a record keeping the invariants has status "ok" exactly when it has no error, and has a non-`None` output only when its status is "ok" |
| `Reference.InvokedAt` | agent_tools_hook_origin.py:71-75 | the call at position `i` keeps the invariants, copies request `i`'s name and args, starts with the log line of the style of `i`, and has status "error" exactly when its tool raised |
| `Reference.RunSpec` | agent_hooks/orchestrator.py:32-48 | a run has one record per request; record `i` keeps the invariants, carries request `i`'s name, starts with the style-of-`i` line, and is "error" exactly when tool `i` raised |
| `Reference.InvokedDeterminesCall` | agent_tools_hook_origin.py:15-35 | the result determines the style, the name, the arguments and the outcome that produced it |
| `Reference.ReturnedNoneLooksLikeNoOutput` | agent_tools_hook_origin.py:31-33 | a tool returning `None` gives status "ok" and output `None` |
| `Reference.Zip3` | agent_tools_hook_origin.py:71 | `zip` has the length of the shortest list, and triple `i` holds the `i`-th tool, name and payload |
| `Reference.RunShape` | agent_tools_hook_origin.py:64-76 | a run has min(len(tools), len(names), len(payloads)) results, and result `i` is the call of triple `i` in the style of `i` |
| `Reference.EmptyRun` | agent_hooks/orchestrator.py:32-48 | an empty input list gives an empty run |
| `Reference.RunIsPositionwise` | agent_hooks/orchestrator.py:34-46 | result `i` depends only on request `i`'s name, arguments and outcome, whatever the other tools did |
| `Reference.RunWellFormed` | agent_hooks/core.py:121-137 | every record of a run keeps the invariants, and its status is "error" exactly when its tool raised |
| `Origin.AppendLog` | agent_tools_hook_origin.py:23 | appending a log line extends the list under "logs" by that string and changes no other entry |
| `Origin.InitialResult` | agent_tools_hook_origin.py:15-22 | the starting dictionary has the six keys and an empty log list |
| `Origin.CallToolA` | agent_tools_hook_origin.py:7-35 | `call_tool_a` returns the dictionary of the style-"a" call |
| `Origin.CallToolB` | agent_tools_hook_origin.py:38-61 | `call_tool_b` returns the dictionary of the style-"b" call |
| `Origin.RunAll` | agent_tools_hook_origin.py:64-76 | `run_all` returns the dictionaries of the run over the zipped lists, in order |
| `Hook.ToolCaller.Call` | agent_tools_hook.py:110-134 | `ToolCaller.call` returns the record of the call in its strategy's style |
| `Hook.CallToolA` | agent_tools_hook.py:137-153 | the refactored `call_tool_a` returns the same dictionary as the baseline `call_tool_a` |
| `Hook.CallToolB` | agent_tools_hook.py:156-172 | the refactored `call_tool_b` returns the same dictionary as the baseline `call_tool_b` |
| `Hook.ToolOrchestrator.constructor` | agent_tools_hook.py:183-188 | the orchestrator holds the strategy-A caller under "a" and the strategy-B caller under "b" |
| `Hook.ToolOrchestrator.RunAllAlternating` | agent_tools_hook.py:190-215 | the alternating run returns the same list of dictionaries as the baseline `run_all` |
| `Hook.RunAll` | agent_tools_hook.py:218-233 | the refactored `run_all` returns the same list as the baseline `run_all` |
| `Core.NewToolInvocation` | agent_hooks/core.py:14-31 | building a request succeeds exactly when the style is "a" or "b" and copies its fields; otherwise it fails naming the rejected style |
| `Core.DefaultStyleIsA` | agent_hooks/core.py:27 | a request built without a style succeeds with style "a" |
| `Core.InvokeTool` | agent_hooks/core.py:92-139 | `invoke_tool` returns the record of the call in the request's style, so its `to_dict` is the baseline `call_tool_a` result for "a" and `call_tool_b` for "b" |
| `Orchestrator.InvokeAll` | agent_hooks/orchestrator.py:13-48 | `invoke_all` returns one record per zipped triple, in order, in the style of its position |
| `Orchestrator.InvokeAllAsDicts` | agent_hooks/orchestrator.py:51-71 | `invoke_all_as_dicts` is `to_dict` over `invoke_all` and equals the baseline `run_all` |

## Left out

- Calling a Python callable with `**args`: keyword binding, `TypeError` on mismatched parameters and the tool's own side effects. A tool is its outcome on the argument map, so the model does not show that the tool is called exactly once.
- Failures of `repr(args)` and `str(exc)` themselves: both are modelled as total functions. In the original, `repr(args)` runs before the `try` and `str(exc)` inside the `except` handler, so an argument whose `__repr__` raises, or an exception whose `__str__` raises, escapes the wrapper; the model cannot express that.
- The text of `repr(args)` and `str(exc)`: both are Python formatting routines. `repr` is a parameter and an exception is its message text. Only the literal text around them is modelled. Python's `repr` also depends on a dict's insertion order, which a `map` does not have.
- Exceptions outside `Exception` (such as `KeyboardInterrupt`): they escape the `except` clause. Only caught exceptions are modelled.
- The key order of the result dictionary: Python keeps insertion order (`tool_name`, `status`, `error`, `args`, `output`, `logs`); a `map` has none, so only the key set is modelled.
- Python objects other than `None`, bools, ints, strings, lists and dicts: they are `Opaque` values, equal only when their tags are equal; their contents and Python's equality on them are not modelled.
- Reference aliasing: `to_dict` shares the `logs` list and `args` is stored by reference. Records and dictionaries are values here.
- `ToolResults.FromDict`: it also fails on a value that is not of its field's type. The original would build a `ToolResult` holding that value, because dataclasses do not check types.
- `Core.NewToolInvocation`: the `ValueError` is modelled by the rejected style only, not by its message text, which uses `repr`.
- `Hook.ToolOrchestrator.RunAllAlternating`: it requires the callers set by the constructor. The original only needs the keys "a" and "b" and uses whatever callers are stored there.
- The abstract base `LogStrategy`, whose methods only raise `NotImplementedError`: the two strategies are the two cases of `LogStyles.Style`.
- The package's re-exports in `agent_hooks/__init__.py` and the test launcher `run_tests.py`: they hold no behaviour of the wrapper.
