/** Python values as they appear in a tool call: the argument map handed to
    a tool, the value it returns, and the plain dictionaries the result
    records are exported to. A tool is abstracted to the outcome it produces
    on its argument map; `repr` of a dictionary is left uninterpreted and is
    passed around as a parameter. */
module PyValues {

  datatype Option<T> = None | Some(value: T)

  datatype Result<T, E> = Ok(value: T) | Err(error: E)

  /** The Python values the model needs to talk about. `NoneVal` is Python's
      `None`; `Opaque` stands for any other object (a float, a tuple, a set,
      an instance of some class), known only by an identity tag. */
  datatype Value =
    | NoneVal
    | BoolVal(b: bool)
    | IntVal(i: int)
    | StrVal(s: string)
    | ListVal(items: seq<Value>)
    | DictVal(entries: map<string, Value>)
    | Opaque(id: nat)

  /** Keyword arguments of a tool call, `Dict[str, Any]`. */
  type Args = map<string, Value>

  /** What calling a tool with `**args` does: it returns a value or raises an
      exception, of which only the text `str(exc)` is observable. */
  datatype Outcome = Returned(value: Value) | Raised(message: string)

  /** A tool, reduced to its outcome on each argument map. */
  type Tool = Args -> Outcome

  /** The text `repr(args)` of an argument map. */
  type Repr = Args -> string

  /** The Python list of strings `[s0, s1, ...]` as a list of `str` values. */
  function StrValues(ss: seq<string>): (vs: seq<Value>)
    ensures |vs| == |ss|
    ensures forall i :: 0 <= i < |ss| ==> vs[i] == StrVal(ss[i])
  {
    if ss == [] then [] else [StrVal(ss[0])] + StrValues(ss[1..])
  }

  /** Reads a Python list back as a list of strings; `None` when some item is
      not a `str`. */
  function Strings(vs: seq<Value>): (r: Option<seq<string>>)
    ensures r.Some? <==> forall i :: 0 <= i < |vs| ==> vs[i].StrVal?
    ensures r.Some? ==> |r.value| == |vs| && forall i :: 0 <= i < |vs| ==> vs[i] == StrVal(r.value[i])
  {
    if vs == [] then Some([])
    else if !vs[0].StrVal? then None
    else
      match Strings(vs[1..])
      case None => None
      case Some(rest) => Some([vs[0].s] + rest)
  }

  /** Writing a list of strings as Python values and reading it back gives
      the same list. */
  lemma StringsOfStrValues(ss: seq<string>)
    ensures Strings(StrValues(ss)) == Some(ss)
  {
    var r := Strings(StrValues(ss));
    assert r.Some?;
    assert |r.value| == |ss|;
    forall i | 0 <= i < |ss| ensures r.value[i] == ss[i] {
      assert StrVal(r.value[i]) == StrValues(ss)[i] == StrVal(ss[i]);
    }
    assert r.value == ss;
  }

  /** A list that reads back as strings is exactly the Python list of those strings. */
  lemma StrValuesOfStrings(vs: seq<Value>)
    requires Strings(vs).Some?
    ensures StrValues(Strings(vs).value) == vs
  {
  }
}
