/** Finding the JSON document in a model's reply. */
module Structured {
  import opened Wrappers
  import opened Text

  datatype Pair = Braces | Brackets {
    function Open(): char { if Braces? then '{' else '[' }
    function Close(): char { if Braces? then '}' else ']' }
  }

  datatype Scanner = Scanner(depth: int, inString: bool, escape: bool)

  const START: Scanner := Scanner(0, false, false)

  // ----- Specification -----

  /** One character of the scan; `None` when it closes the outermost bracket. */
  function Feed(p: Pair, st: Scanner, c: char): Option<Scanner> {
    if st.escape then Some(st.(escape := false))
    else if c == '\\' then Some(st.(escape := true))
    else if c == '"' then Some(st.(inString := !st.inString))
    else if st.inString then Some(st)
    else if c == p.Open() then Some(st.(depth := st.depth + 1))
    else if c == p.Close() then if st.depth == 1 then None else Some(st.(depth := st.depth - 1))
    else Some(st)
  }

  /** How many characters of `s` the scan reads until the outermost bracket closes. */
  function Length(p: Pair, st: Scanner, s: string): (r: Option<nat>)
    ensures r.Some? ==> 1 <= r.value <= |s|
    decreases |s|
  {
    if s == "" then None
    else
      var next := Feed(p, st, s[0]);
      if next.None? then Some(1)
      else
        var rest := Length(p, next.value, s[1..]);
        if rest.Some? then Some(rest.value + 1) else None
  }

  /** The span from the first opening bracket to where its scan ends. */
  function Balanced(p: Pair, text: string): (r: Option<string>) {
    var start := Find(text, [p.Open()], 0);
    if start.None? then None
    else
      var n := Length(p, START, text[start.value..]);
      if n.Some? then Some(text[start.value..start.value + n.value]) else None
  }

  const FENCE: string := "```"

  /** Where the content of a fenced block starts, behind a `json` tag and blank space. */
  function Content(text: string, i: nat): (j: nat)
    requires i <= |text|
    ensures i <= j <= |text|
  {
    SkipSpace(text, if StartsAt(text, i, "json") then i + 4 else i)
  }

  /** What the first pair of fences encloses. */
  function Fenced(text: string): Option<string> {
    var k := Find(text, FENCE, 0);
    if k.None? then None
    else
      var from := Content(text, k.value + 3);
      var end := Find(text, FENCE, from);
      if end.Some? then Some(text[from..end.value]) else None
  }

  /** Braces are tried before brackets, wherever they occur. */
  function Body(text: string): string {
    var span := Balanced(Braces, text);
    if span.Some? then span.value
    else
      var list := Balanced(Brackets, text);
      if list.Some? then list.value else Strip(text)
  }

  function Extract(text: string): string {
    var inner := Fenced(text);
    Body(if inner.Some? then Strip(inner.value) else text)
  }

  // ----- The scan as the source runs it -----

  method ScanFrom(text: string, p: Pair, start: nat) returns (r: Option<nat>)
    requires start < |text|
    ensures r == Length(p, START, text[start..])
  {
    var depth, inString, escape := 0, false, false;
    for i := start to |text|
      invariant var rest := Length(p, Scanner(depth, inString, escape), text[i..]);
                Length(p, START, text[start..]) == if rest.Some? then Some(rest.value + (i - start)) else None
    {
      var c := text[i];
      assert text[i..][1..] == text[i + 1..] && text[i..][0] == c;
      if escape {
        escape := false;
        continue;
      }
      if c == '\\' {
        escape := true;
        continue;
      }
      if c == '"' {
        inString := !inString;
        continue;
      }
      if inString {
        continue;
      }
      if c == p.Open() {
        depth := depth + 1;
      } else if c == p.Close() {
        depth := depth - 1;
        if depth == 0 {
          return Some(i + 1 - start);
        }
      }
    }
    r := None;
  }

  method FirstSpan(text: string, p: Pair) returns (r: Option<string>)
    ensures r == Balanced(p, text)
  {
    var start := Find(text, [p.Open()], 0);
    if start.None? {
      return None;
    }
    var n := ScanFrom(text, p, start.value);
    if n.None? {
      return None;
    }
    r := Some(text[start.value..start.value + n.value]);
  }

  method ExtractJson(reply: string) returns (r: string)
    ensures r == Extract(reply)
  {
    var text := reply;
    var inner := Fenced(text);
    if inner.Some? {
      text := Strip(inner.value);
    }
    assert Extract(reply) == Body(text);
    var pairs := [Braces, Brackets];
    for k := 0 to 2
      invariant k >= 1 ==> Balanced(Braces, text).None?
      invariant k >= 2 ==> Balanced(Brackets, text).None?
    {
      var span := FirstSpan(text, pairs[k]);
      if span.Some? {
        return span.value;
      }
    }
    r := Strip(text);
  }
}
