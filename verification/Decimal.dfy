/** Integers as decimal text: Python's `str(int)` and `int(str)` over ASCII digits. */
module Decimal {
  import opened Wrappers

  predicate IsDigit(c: char) {
    '0' <= c <= '9'
  }

  function PrintNat(n: nat): (s: string)
    ensures s != "" && forall i :: 0 <= i < |s| ==> IsDigit(s[i])
  {
    if n < 10 then ['0' + n as char] else PrintNat(n / 10) + ['0' + (n % 10) as char]
  }

  function Print(n: int): string {
    if n < 0 then "-" + PrintNat(-n) else PrintNat(n)
  }

  /** Digits with single underscores between them. */
  function ParseDigits(s: string, value: nat, afterDigit: bool): Option<nat>
    decreases |s|
  {
    if s == "" then if afterDigit then Some(value) else None
    else if IsDigit(s[0]) then ParseDigits(s[1..], 10 * value + (s[0] - '0') as nat, true)
    else if s[0] == '_' && afterDigit then ParseDigits(s[1..], value, false)
    else None
  }

  /** The blanks `int` skips around ASCII text; they are fewer than `str.strip` removes. */
  predicate IsBlank(c: char) {
    '\t' <= c <= '\r' || c == ' '
  }

  function TrimBlanks(s: string): string {
    if s != "" && IsBlank(s[0]) then TrimBlanks(s[1..])
    else if s != "" && IsBlank(s[|s| - 1]) then TrimBlanks(s[..|s| - 1])
    else s
  }

  /** Python's `int` on ASCII text. */
  function Parse(text: string): Option<int> {
    var s := TrimBlanks(text);
    if s == "" then None
    else
      var signed := s[0] == '-' || s[0] == '+';
      var digits := ParseDigits(if signed then s[1..] else s, 0, false);
      if digits.None? then None
      else
        var n: int := digits.value;
        Some(if s[0] == '-' then -n else n)
  }

  lemma {:induction false} ParseAppend(s: string, value: nat, afterDigit: bool, c: char)
    requires s != "" && IsDigit(c) && (forall i :: 0 <= i < |s| ==> IsDigit(s[i]))
    ensures var r := ParseDigits(s, value, afterDigit);
            r.Some? && ParseDigits(s + [c], value, afterDigit) == Some(10 * r.value + (c - '0') as nat)
    decreases |s|
  {
    var next := 10 * value + (s[0] - '0') as nat;
    assert (s + [c])[1..] == s[1..] + [c];
    if |s| == 1 {
      assert s[1..] == "" && [c][1..] == "";
      assert ParseDigits([c], next, true) == ParseDigits("", 10 * next + (c - '0') as nat, true);
    } else {
      ParseAppend(s[1..], next, true, c);
    }
  }

  lemma {:induction false} ParsePrintNat(n: nat)
    ensures ParseDigits(PrintNat(n), 0, false) == Some(n)
  {
    if n < 10 {
      assert PrintNat(n)[1..] == "";
    } else {
      ParsePrintNat(n / 10);
      ParseAppend(PrintNat(n / 10), 0, false, '0' + (n % 10) as char);
    }
  }

  /** Reading back what was printed gives the same integer. */
  lemma ParsePrint(n: int)
    ensures Parse(Print(n)) == Some(n)
  {
    assert TrimBlanks(Print(n)) == Print(n);
    if n < 0 {
      ParsePrintNat(-n);
      assert Print(n)[1..] == PrintNat(-n);
    } else {
      ParsePrintNat(n);
    }
  }

  lemma PrintChars(n: int)
    ensures forall i :: 0 <= i < |Print(n)| ==> IsDigit(Print(n)[i]) || Print(n)[i] == '-'
  {
  }
}
