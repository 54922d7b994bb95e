/** The two log-message templates, `LogStrategyA` and `LogStrategyB`, written
    here as one enumeration whose members produce the three messages of a
    strategy; and the positional alternation between them. */
module LogStyles {

  /** The names a log style is written with: exactly "a" and "b". */
  type StyleName = s: string | s == "a" || s == "b" witness "a"

  /** `A` is the style of `call_tool_a`, `B` the style of `call_tool_b`. */
  datatype Style = A | B {

    function Name(): StyleName {
      if this == A then "a" else "b"
    }

    /** The first log line, written before the tool is called: for A,
        "calling ", the name, " with ", the argument text; for B, "tool ",
        the name, " start ", the argument text. */
    function LogStart(name: string, argsText: string): (line: string)
      ensures |line| == |name| + |argsText| + (if this == A then 14 else 12)
      ensures this == A ==>
        && line[..8] == "calling "
        && line[8..8 + |name|] == name
        && line[8 + |name|..14 + |name|] == " with "
        && line[14 + |name|..] == argsText
      ensures this == B ==>
        && line[..5] == "tool "
        && line[5..5 + |name|] == name
        && line[5 + |name|..12 + |name|] == " start "
        && line[12 + |name|..] == argsText
    {
      match this
      case A => "calling " + name + " with " + argsText
      case B => "tool " + name + " start " + argsText
    }

    /** The second log line when the tool raised an exception with text
        `message`: the message after "error: " (A) or "failed: " (B). */
    function LogError(message: string): (line: string)
      ensures |line| == |message| + (if this == A then 7 else 8)
      ensures this == A ==> line[..7] == "error: " && line[7..] == message
      ensures this == B ==> line[..8] == "failed: " && line[8..] == message
    {
      match this
      case A => "error: " + message
      case B => "failed: " + message
    }

    /** The second log line when the tool returned: "done" (A) or "ok" (B). */
    function LogEnd(): (line: string)
      ensures this == A ==> line == "done"
      ensures this == B ==> line == "ok"
    {
      match this
      case A => "done"
      case B => "ok"
    }
  }

  /** The style a name selects. */
  function Named(n: StyleName): (s: Style)
    ensures s.Name() == n
  {
    if n == "a" then A else B
  }

  lemma NameRoundTrip(s: Style)
    ensures Named(s.Name()) == s
  {
  }

  /** The style used at a 0-based position of an orchestrated run: "a" at
      even positions, "b" at odd ones. */
  function StyleAt(index: nat): (s: Style)
    ensures s == A <==> index % 2 == 0
    ensures s.Name() == (if index % 2 == 0 then "a" else "b")
  {
    if index % 2 == 0 then A else B
  }

  /** Consecutive positions use different styles, and the style repeats
      with period two. */
  lemma StyleAlternates(index: nat)
    ensures StyleAt(index + 1) != StyleAt(index)
    ensures StyleAt(index + 2) == StyleAt(index)
  {
  }

  /** The start line tells the two styles apart, whatever the name and
      argument text. */
  lemma LogStartIdentifiesStyle(s1: Style, s2: Style, n1: string, n2: string, t1: string, t2: string)
    requires s1.LogStart(n1, t1) == s2.LogStart(n2, t2)
    ensures s1 == s2
  {
    assert s1.LogStart(n1, t1)[0] == (if s1 == A then 'c' else 't');
    assert s2.LogStart(n2, t2)[0] == (if s2 == A then 'c' else 't');
  }

  /** Within one style the start line determines the tool name and the
      argument text it was written from. */
  lemma LogStartIdentifiesCall(s: Style, n1: string, n2: string, t1: string, t2: string)
    requires |n1| == |n2|
    requires s.LogStart(n1, t1) == s.LogStart(n2, t2)
    ensures n1 == n2 && t1 == t2
  {
    var k := if s == A then 8 else 5;
    var l1 := s.LogStart(n1, t1);
    var l2 := s.LogStart(n2, t2);
    assert n1 == l1[k..k + |n1|];
    assert n2 == l2[k..k + |n2|];
    var m := if s == A then 6 else 7;
    assert t1 == l1[k + |n1| + m..];
    assert t2 == l2[k + |n2| + m..];
  }

  /** Without knowing the name's length the start line is ambiguous: when
      the name or the argument text itself contains " with ", two different
      calls write the same style-A line. */
  lemma LogStartAmbiguousA(x: string, y: string, z: string)
    ensures x + " with " + y != x
    ensures A.LogStart(x + " with " + y, z) == A.LogStart(x, y + " with " + z)
  {
    assert A.LogStart(x + " with " + y, z) == "calling " + x + " with " + y + " with " + z;
    assert A.LogStart(x, y + " with " + z) == "calling " + x + " with " + y + " with " + z;
  }

  /** The same for style B with " start ". */
  lemma LogStartAmbiguousB(x: string, y: string, z: string)
    ensures x + " start " + y != x
    ensures B.LogStart(x + " start " + y, z) == B.LogStart(x, y + " start " + z)
  {
    assert B.LogStart(x + " start " + y, z) == "tool " + x + " start " + y + " start " + z;
    assert B.LogStart(x, y + " start " + z) == "tool " + x + " start " + y + " start " + z;
  }

  /** The second line tells success from failure: within one style, the end
      line is never an error line, and an error line determines the message. */
  lemma SecondLogIdentifiesOutcome(s: Style, m1: string, m2: string)
    ensures s.LogEnd() != s.LogError(m1)
    ensures s.LogError(m1) == s.LogError(m2) ==> m1 == m2
  {
    if s.LogError(m1) == s.LogError(m2) {
      var k := if s == A then 7 else 8;
      assert m1 == s.LogError(m1)[k..];
      assert m2 == s.LogError(m2)[k..];
    }
  }
}
