/** The structured result of one tool call (the `ToolResult` dataclass) and
    its conversion to and from the plain six-key dictionary that the
    original `call_tool_a` / `call_tool_b` return. */
module ToolResults {
  import opened PyValues

  /** One tool call's result. The defaults are those of the dataclass:
      `error`, `args` and `output` start as `None`, `logs` as `[]`. The
      status is kept as the text the code writes, "ok" or "error". */
  datatype ToolResult = ToolResult(
    toolName: string,
    status: string,
    error: Option<string> := None,
    args: Option<Args> := None,
    output: Value := NoneVal,
    logs: seq<string> := [])

  /** The six keys of the dictionary form (as a set: the order in which the
      dictionary is written is not kept). */
  const FieldNames: set<string> := {"tool_name", "status", "error", "args", "output", "logs"}

  function OptionalStr(o: Option<string>): Value {
    match o
    case None => NoneVal
    case Some(s) => StrVal(s)
  }

  function OptionalArgs(o: Option<Args>): Value {
    match o
    case None => NoneVal
    case Some(a) => DictVal(a)
  }

  /** `to_dict`: the record as a dictionary with exactly the six field names
      as keys. */
  function ToDict(r: ToolResult): (d: map<string, Value>)
    ensures d.Keys == FieldNames
  {
    map[
      "tool_name" := StrVal(r.toolName),
      "status" := StrVal(r.status),
      "error" := OptionalStr(r.error),
      "args" := OptionalArgs(r.args),
      "output" := r.output,
      "logs" := ListVal(StrValues(r.logs))]
  }

  /** `[result.to_dict() for result in results]`. */
  function ToDicts(rs: seq<ToolResult>): (ds: seq<map<string, Value>>)
    ensures |ds| == |rs|
    ensures forall i :: 0 <= i < |rs| ==> ds[i] == ToDict(rs[i])
  {
    seq(|rs|, i requires 0 <= i < |rs| => ToDict(rs[i]))
  }

  /** Converting one more record appends its dictionary. */
  lemma ToDictsAppend(rs: seq<ToolResult>, r: ToolResult)
    ensures ToDicts(rs + [r]) == ToDicts(rs) + [ToDict(r)]
  {
  }

  function ReadOptionalStr(v: Value): Option<Option<string>> {
    match v
    case NoneVal => Some(None)
    case StrVal(s) => Some(Some(s))
    case _ => None
  }

  function ReadOptionalArgs(v: Value): Option<Option<Args>> {
    match v
    case NoneVal => Some(None)
    case DictVal(a) => Some(Some(a))
    case _ => None
  }

  /** `from_dict`: reads the six keys back into a record and ignores any other
      key. It fails (`None`) where the original raises `KeyError`, on a
      missing key, and also where a value is not of its field's type. */
  function FromDict(d: map<string, Value>): (r: Option<ToolResult>)
    ensures r.Some? ==> FieldNames <= d.Keys
    ensures r.Some? ==> d["tool_name"] == StrVal(r.value.toolName) && d["status"] == StrVal(r.value.status)
    ensures r.Some? ==> d["output"] == r.value.output
  {
    if !(FieldNames <= d.Keys) then None
    else if !d["tool_name"].StrVal? || !d["status"].StrVal? || !d["logs"].ListVal? then None
    else
      match (ReadOptionalStr(d["error"]), ReadOptionalArgs(d["args"]), Strings(d["logs"].items))
      case (Some(error), Some(args), Some(logs)) =>
        Some(ToolResult(d["tool_name"].s, d["status"].s, error, args, d["output"], logs))
      case _ => None
  }

  /** Converting a record to a dictionary and back gives the same record,
      field by field. */
  lemma RoundTrip(r: ToolResult)
    ensures FromDict(ToDict(r)) == Some(r)
  {
    StringsOfStrValues(r.logs);
  }

  /** A dictionary that `from_dict` accepts is, on the six field names,
      exactly the dictionary of the record it reads; keys beyond those six are
      dropped. */
  lemma FromDictInverse(d: map<string, Value>)
    requires FromDict(d).Some?
    ensures ToDict(FromDict(d).value) == map k | k in d && k in FieldNames :: d[k]
  {
    var r := FromDict(d).value;
    StrValuesOfStrings(d["logs"].items);
    assert ToDict(r)["logs"] == d["logs"];
    assert ToDict(r)["error"] == d["error"];
    assert ToDict(r)["args"] == d["args"];
  }

  /** A record built without `error` or `output` exports both as `None`. */
  lemma DefaultsExportNone(toolName: string, status: string, args: Option<Args>, logs: seq<string>)
    ensures ToDict(ToolResult(toolName, status, args := args, logs := logs))["error"] == NoneVal
    ensures ToDict(ToolResult(toolName, status, args := args, logs := logs))["output"] == NoneVal
  {
  }
}
