/** JSON texts as concrete syntax: every spelling RFC 8259 allows, with its white space
    (section 2) and its string escapes (section 7) kept. */
module JsonText {
  /** White space of section 2: space, tab, line feed, carriage return. */
  predicate IsBlank(s: string) {
    forall i :: 0 <= i < |s| ==> s[i] == ' ' || s[i] == '\t' || s[i] == '\n' || s[i] == '\r'
  }

  /** Characters of a number or of `true`, `false` and `null`. */
  predicate IsWord(s: string) {
    s != "" && forall i :: 0 <= i < |s| ==>
                 'a' <= s[i] <= 'z' || '0' <= s[i] <= '9' || s[i] == '+' || s[i] == '-' || s[i] == '.' || s[i] == 'E'
  }

  predicate IsHex(c: char) {
    '0' <= c <= '9' || 'a' <= c <= 'f' || 'A' <= c <= 'F'
  }

  /** One character of a string: itself, or escaped in one of the two ways of section 7. */
  datatype Unit = Plain(c: char) | Short(c: char) | Hex(digits: string) {
    predicate Valid() {
      match this
      case Plain(c) => c != '"' && c != '\\' && c >= ' '
      case Short(c) => c in "\"\\/bfnrt"
      case Hex(digits) => |digits| == 4 && forall i :: 0 <= i < 4 ==> IsHex(digits[i])
    }

    function Print(): string {
      match this
      case Plain(c) => [c]
      case Short(c) => ['\\', c]
      case Hex(digits) => ['\\', 'u'] + digits
    }
  }

  datatype Value =
    | Word(text: string)
    | Text(units: seq<Unit>)
    | Array(items: Items)
    | Object(members: Members)

  datatype Items =
    | NoItems(blank: string)
    | LastItem(before: string, value: Value, after: string)
    | Item(before: string, value: Value, after: string, rest: Items)

  datatype Members =
    | NoMembers(blank: string)
    | LastMember(before: string, key: seq<Unit>, b1: string, b2: string, value: Value, after: string)
    | Member(before: string, key: seq<Unit>, b1: string, b2: string, value: Value, after: string, rest: Members)

  ghost predicate ValidUnits(units: seq<Unit>) {
    forall i :: 0 <= i < |units| ==> units[i].Valid()
  }

  ghost predicate Valid(v: Value) {
    match v
    case Word(text) => IsWord(text)
    case Text(units) => ValidUnits(units)
    case Array(items) => ValidItems(items)
    case Object(members) => ValidMembers(members)
  }

  ghost predicate ValidItems(items: Items) {
    match items
    case NoItems(blank) => IsBlank(blank)
    case LastItem(before, value, after) => IsBlank(before) && Valid(value) && IsBlank(after)
    case Item(before, value, after, rest) =>
      IsBlank(before) && Valid(value) && IsBlank(after) && !rest.NoItems? && ValidItems(rest)
  }

  ghost predicate ValidMembers(members: Members) {
    match members
    case NoMembers(blank) => IsBlank(blank)
    case LastMember(before, key, b1, b2, value, after) =>
      IsBlank(before) && ValidUnits(key) && IsBlank(b1) && IsBlank(b2) && Valid(value) && IsBlank(after)
    case Member(before, key, b1, b2, value, after, rest) =>
      && IsBlank(before) && ValidUnits(key) && IsBlank(b1) && IsBlank(b2) && Valid(value) && IsBlank(after)
      && !rest.NoMembers? && ValidMembers(rest)
  }

  function PrintUnits(units: seq<Unit>): string {
    if units == [] then "" else units[0].Print() + PrintUnits(units[1..])
  }

  function Quoted(units: seq<Unit>): string {
    "\"" + PrintUnits(units) + "\""
  }

  function Print(v: Value): string {
    match v
    case Word(text) => text
    case Text(units) => Quoted(units)
    case Array(items) => "[" + PrintItems(items) + "]"
    case Object(members) => "{" + PrintMembers(members) + "}"
  }

  function PrintItems(items: Items): string {
    match items
    case NoItems(blank) => blank
    case LastItem(before, value, after) => before + (Print(value) + after)
    case Item(before, value, after, rest) => before + (Print(value) + (after + ("," + PrintItems(rest))))
  }

  function PrintEntry(key: seq<Unit>, b1: string, b2: string, value: string, after: string): string {
    Quoted(key) + (b1 + (":" + (b2 + (value + after))))
  }

  function PrintMembers(members: Members): string {
    match members
    case NoMembers(blank) => blank
    case LastMember(before, key, b1, b2, value, after) => before + PrintEntry(key, b1, b2, Print(value), after)
    case Member(before, key, b1, b2, value, after, rest) =>
      before + (PrintEntry(key, b1, b2, Print(value), after) + ("," + PrintMembers(rest)))
  }
}
