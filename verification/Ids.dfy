/** Sortable and derived identifiers in Crockford base 32. */
module Ids {
  import opened Wrappers
  import Text

  const ALPHABET: string := "0123456789ABCDEFGHJKMNPQRSTVWXYZ"

  /** The alphabet by ranges: the digits and the capital letters without I, L, O and U. */
  function Letter(d: nat): (c: char)
    requires d < 32
  {
    if d < 10 then '0' + d as char
    else if d < 18 then 'A' + (d - 10) as char
    else if d < 20 then 'J' + (d - 18) as char
    else if d < 22 then 'M' + (d - 20) as char
    else if d < 27 then 'P' + (d - 22) as char
    else 'V' + (d - 27) as char
  }

  lemma AlphabetByRanges(d: nat)
    requires d < 32
    ensures ALPHABET[d] == Letter(d)
  {
  }

  const TIME_CHARS := 10
  const RANDOM_CHARS := 16
  const ULID_CHARS := 26

  function Pow32(n: nat): (p: nat)
    ensures p >= 1
  {
    if n == 0 then 1 else 32 * Pow32(n - 1)
  }

  // ----- Specification -----

  /** The low `length` base-32 digits of `value`, most significant first. */
  function Encode(value: int, length: nat): (s: string)
    ensures |s| == length
    decreases length
  {
    if length == 0 then "" else Encode(value / 32, length - 1) + [Letter(value % 32)]
  }

  function NewUlid(milliseconds: int, randomness: int): string {
    Encode(milliseconds, TIME_CHARS) + Encode(randomness, RANDOM_CHARS)
  }

  /** The character class of the identifier pattern. */
  predicate InClass(c: char) {
    '0' <= c <= '9' || 'A' <= c <= 'H' || c == 'J' || c == 'K' || c == 'M' || c == 'N'
    || 'P' <= c <= 'T' || 'V' <= c <= 'Z'
  }

  /** The pattern's `$` also matches before a final line feed. */
  predicate IsUlid(s: string) {
    && (|s| == ULID_CHARS || (|s| == ULID_CHARS + 1 && s[ULID_CHARS] == '\n'))
    && forall i :: 0 <= i < ULID_CHARS ==> InClass(s[i])
  }

  const UNIT_SEPARATOR: char := '\U{1F}'

  function Joined(parts: seq<string>): string {
    if parts == [] then "" else if |parts| == 1 then parts[0]
    else parts[0] + [UNIT_SEPARATOR] + Joined(parts[1..])
  }

  /** `digest` is the 128-bit hash, as a big-endian number. */
  function StableId(digest: string -> int, space: string, parts: seq<string>): string {
    Encode(digest(Joined([space] + parts)), ULID_CHARS)
  }

  // ----- The loop as the source runs it -----

  method EncodeInto(value: int, length: nat) returns (r: string)
    ensures r == Encode(value, length)
  {
    var chars := new char[length](_ => ' ');
    var rest := value;
    var index := length;
    while index > 0
      invariant 0 <= index <= length
      invariant Encode(rest, index) + chars[index..] == Encode(value, length)
    {
      index := index - 1;
      AlphabetByRanges(rest % 32);
      chars[index] := ALPHABET[rest % 32];
      assert Encode(rest, index + 1) == Encode(rest / 32, index) + [chars[index]];
      assert chars[index..] == [chars[index]] + chars[index + 1..];
      rest := rest / 32;
    }
    assert chars[0..] == chars[..];
    r := chars[..];
  }

  // ----- Properties -----

  /** The digit a character stands for. */
  function Digit(c: char): Option<nat> {
    if '0' <= c <= '9' then Some((c - '0') as nat)
    else if 'A' <= c <= 'H' then Some((c - 'A') as nat + 10)
    else if c == 'J' || c == 'K' then Some((c - 'J') as nat + 18)
    else if c == 'M' || c == 'N' then Some((c - 'M') as nat + 20)
    else if 'P' <= c <= 'T' then Some((c - 'P') as nat + 22)
    else if 'V' <= c <= 'Z' then Some((c - 'V') as nat + 27)
    else None
  }

  lemma DigitLetter(c: char, d: nat)
    requires d < 32
    ensures Digit(c) == Some(d) <==> c == Letter(d)
    ensures Digit(c).Some? ==> Digit(c).value < 32
    ensures Digit(c).Some? <==> InClass(c)
  {
  }

  function Decode(s: string): Option<nat> {
    if s == "" then Some(0)
    else
      var high := Decode(s[..|s| - 1]);
      var low := Digit(s[|s| - 1]);
      if high.Some? && low.Some? then Some(32 * high.value + low.value) else None
  }

  lemma {:induction false} Horner(value: int, n: nat)
    ensures value % (32 * Pow32(n)) == 32 * ((value / 32) % Pow32(n)) + value % 32
  {
    var p := Pow32(n);
    var q, r := value / 32, value % 32;
    var a, b := q / p, q % p;
    assert value == 32 * (a * p + b) + r;
    assert value == a * (32 * p) + (32 * b + r);
    Unique(value, 32 * p, a, 32 * b + r);
  }

  lemma {:induction false} Unique(x: int, m: nat, q: int, r: int)
    requires m > 0 && x == q * m + r && 0 <= r < m
    ensures x % m == r && x / m == q
  {
    var d := x / m - q;
    assert d * m == r - x % m;
    assert d >= 1 ==> d * m >= m;
    assert d <= -1 ==> d * m + m <= 0;
  }

  lemma DecodeAppend(head: string, d: nat)
    requires d < 32 && Decode(head).Some?
    ensures Decode(head + [Letter(d)]) == Some(32 * Decode(head).value + d)
  {
    DigitLetter(Letter(d), d);
    assert (head + [Letter(d)])[..|head|] == head;
  }

  /** Decoding an encoding gives the value back, reduced to the digits there was room for. */
  lemma {:induction false} DecodeEncode(value: int, length: nat)
    ensures Decode(Encode(value, length)) == Some(value % Pow32(length))
    decreases length
  {
    if length > 0 {
      DecodeEncode(value / 32, length - 1);
      DecodeAppend(Encode(value / 32, length - 1), value % 32);
      Horner(value, length - 1);
    }
  }

  /** Every string over the alphabet is the encoding of the value it decodes to. */
  lemma {:induction false} EncodeDecode(s: string)
    requires Decode(s).Some?
    ensures Encode(Decode(s).value, |s|) == s && Decode(s).value < Pow32(|s|)
  {
    if s != "" {
      var n := |s| - 1;
      EncodeDecode(s[..n]);
      var low := Digit(s[n]).value;
      DigitLetter(s[n], 0);
      DigitLetter(s[n], low);
      Unique(Decode(s).value, 32, Decode(s[..n]).value, low);
      assert s == s[..n] + [s[n]];
    }
  }

  /** Python's order on strings. */
  predicate Before(a: string, b: string) {
    b != "" && (a == "" || a[0] < b[0] || (a[0] == b[0] && Before(a[1..], b[1..])))
  }

  lemma {:induction false} BeforeAppend(a: string, b: string, c: string, d: string)
    requires |a| == |b|
    ensures Before(a + c, b + d) <==> Before(a, b) || (a == b && Before(c, d))
  {
    if a == "" {
      assert a + c == c && b + d == d;
    } else {
      assert (a + c)[1..] == a[1..] + c && (b + d)[1..] == b[1..] + d;
      BeforeAppend(a[1..], b[1..], c, d);
      assert a == b <==> a[0] == b[0] && a[1..] == b[1..] by {
        assert a == [a[0]] + a[1..] && b == [b[0]] + b[1..];
      }
    }
  }

  lemma BeforeOne(v: nat, w: nat)
    requires v < 32 && w < 32
    ensures Before([Letter(v)], [Letter(w)]) <==> v < w
  {
    assert Letter(v) < Letter(w) <==> v < w;
    assert [Letter(v)][1..] == "" && [Letter(w)][1..] == "";
  }

  lemma Injective(v: int, w: int, length: nat)
    requires 0 <= v < Pow32(length) && 0 <= w < Pow32(length)
    ensures Encode(v, length) == Encode(w, length) <==> v == w
  {
    DecodeEncode(v, length);
    DecodeEncode(w, length);
    Unique(v, Pow32(length), 0, v);
    Unique(w, Pow32(length), 0, w);
  }

  /** Encodings of equal length sort as the numbers do. */
  lemma {:induction false} OrderPreserved(v: int, w: int, length: nat)
    requires 0 <= v < Pow32(length) && 0 <= w < Pow32(length)
    ensures Before(Encode(v, length), Encode(w, length)) <==> v < w
    decreases length
  {
    if length > 0 {
      OrderPreserved(v / 32, w / 32, length - 1);
      Injective(v / 32, w / 32, length - 1);
      BeforeOne(v % 32, w % 32);
      BeforeAppend(Encode(v / 32, length - 1), Encode(w / 32, length - 1),
                   [Letter(v % 32)], [Letter(w % 32)]);
    }
  }

  /** Identifiers sort by creation time, and by their random part within a millisecond. */
  lemma {:induction false} UlidsSortByTime(t1: int, r1: int, t2: int, r2: int)
    requires 0 <= t1 < Pow32(TIME_CHARS) && 0 <= t2 < Pow32(TIME_CHARS)
    requires 0 <= r1 < Pow32(RANDOM_CHARS) && 0 <= r2 < Pow32(RANDOM_CHARS)
    ensures Before(NewUlid(t1, r1), NewUlid(t2, r2)) <==> t1 < t2 || (t1 == t2 && r1 < r2)
    ensures NewUlid(t1, r1) == NewUlid(t2, r2) <==> t1 == t2 && r1 == r2
  {
    OrderPreserved(t1, t2, TIME_CHARS);
    OrderPreserved(r1, r2, RANDOM_CHARS);
    Injective(t1, t2, TIME_CHARS);
    Injective(r1, r2, RANDOM_CHARS);
    BeforeAppend(Encode(t1, TIME_CHARS), Encode(t2, TIME_CHARS),
                 Encode(r1, RANDOM_CHARS), Encode(r2, RANDOM_CHARS));
    SplitEqual(Encode(t1, TIME_CHARS), Encode(r1, RANDOM_CHARS), Encode(t2, TIME_CHARS), Encode(r2, RANDOM_CHARS));
  }

  lemma SplitEqual(a: string, b: string, c: string, d: string)
    requires |a| == |c|
    ensures a + b == c + d <==> a == c && b == d
  {
    assert (a + b)[..|a|] == a && (a + b)[|a|..] == b;
    assert (c + d)[..|c|] == c && (c + d)[|c|..] == d;
  }

  lemma {:induction false} DecodesIff(s: string)
    ensures Decode(s).Some? <==> forall i :: 0 <= i < |s| ==> InClass(s[i])
  {
    if s != "" {
      var n := |s| - 1;
      DecodesIff(s[..n]);
      DigitLetter(s[n], 0);
      assert forall i :: 0 <= i < n ==> s[..n][i] == s[i];
    }
  }

  lemma EncodingIsInClass(v: int, n: nat)
    ensures forall i :: 0 <= i < n ==> InClass(Encode(v, n)[i])
  {
    DecodeEncode(v, n);
    DecodesIff(Encode(v, n));
  }

  /** Every identifier that is issued or derived is one: ten digits of time and sixteen of
      randomness, or twenty-six of a digest. */
  lemma IssuedIsUlid(milliseconds: nat, randomness: nat, digest: string -> int, space: string, parts: seq<string>)
    requires digest(Joined([space] + parts)) >= 0
    ensures var id := NewUlid(milliseconds, randomness);
            IsUlid(id) && |id| == 26 && id[..10] == Encode(milliseconds, 10) && id[10..] == Encode(randomness, 16)
    ensures var id := StableId(digest, space, parts);
            IsUlid(id) && |id| == 26 && id == Encode(digest(Joined([space] + parts)), 26)
  {
    EncodingIsInClass(milliseconds, 10);
    EncodingIsInClass(randomness, 16);
    EncodingIsInClass(digest(Joined([space] + parts)), 26);
  }

  /** What the pattern accepts is an encoding of exactly 26 digits, and also such an
      encoding with a line feed behind it. */
  lemma IsUlidIff(s: string)
    ensures IsUlid(s) <==>
            exists v :: 0 <= v < Pow32(26) && (s == Encode(v, 26) || s == Encode(v, 26) + "\n")
  {
    if IsUlid(s) {
      var body := s[..ULID_CHARS];
      DecodesIff(body);
      EncodeDecode(body);
      assert s == body || s == body + "\n";
    }
    forall v | 0 <= v < Pow32(ULID_CHARS)
               && (s == Encode(v, ULID_CHARS) || s == Encode(v, ULID_CHARS) + "\n")
      ensures IsUlid(s)
    {
      var body := Encode(v, ULID_CHARS);
      EncodingIsInClass(v, ULID_CHARS);
      assert forall i :: 0 <= i < ULID_CHARS ==> s[i] == body[i];
    }
  }

  // ----- Derived identifiers -----

  predicate Bare(s: string) {
    UNIT_SEPARATOR !in s
  }

  predicate AllBare(parts: seq<string>) {
    forall x :: x in parts ==> Bare(x)
  }

  /** A text splits at its first separator in one way only. */
  lemma FirstSeparator(sep: char, a: string, x: string, b: string, y: string)
    requires sep !in a && sep !in b && a + [sep] + x == b + [sep] + y
    ensures a == b && x == y
  {
    var s, t := a + [sep] + x, b + [sep] + y;
    assert s[|a|] == sep && t[|b|] == sep;
    assert forall i :: 0 <= i < |a| ==> s[i] == a[i];
    assert forall i :: 0 <= i < |b| ==> t[i] == b[i];
    assert s[..|a|] == a && t[..|b|] == b;
    assert s[|a| + 1..] == x && t[|b| + 1..] == y;
  }

  lemma HasSeparator(xs: seq<string>)
    requires |xs| > 1
    ensures !Bare(Joined(xs))
  {
    assert Joined(xs)[|xs[0]|] == UNIT_SEPARATOR;
  }

  /** Joining loses nothing when no part contains the separator. */
  lemma {:induction false} JoinedInjective(xs: seq<string>, ys: seq<string>)
    requires xs != [] && ys != [] && Joined(xs) == Joined(ys)
    requires AllBare(xs) && AllBare(ys)
    ensures xs == ys
  {
    if |xs| > 1 {
      HasSeparator(xs);
    }
    if |ys| > 1 {
      HasSeparator(ys);
    }
    assert xs[0] in xs && ys[0] in ys;
    if |xs| == 1 {
      assert xs == [xs[0]] && ys == [ys[0]];
    } else {
      FirstSeparator(UNIT_SEPARATOR, xs[0], Joined(xs[1..]), ys[0], Joined(ys[1..]));
      JoinedInjective(xs[1..], ys[1..]);
      assert xs == [xs[0]] + xs[1..] && ys == [ys[0]] + ys[1..];
    }
  }

  /** The encoding keeps all 128 bits: derived identifiers are equal exactly when the
      digests are, and so for separator-free parts, exactly when the digest collides on
      two different lists of parts or the lists are the same. */
  lemma StableIdsEqualIff(digest: string -> int, s1: string, p1: seq<string>, s2: string, p2: seq<string>)
    requires forall x :: 0 <= digest(x) < 0x1_0000_0000_0000_0000_0000_0000_0000_0000
    ensures StableId(digest, s1, p1) == StableId(digest, s2, p2) <==>
            digest(Joined([s1] + p1)) == digest(Joined([s2] + p2))
    ensures AllBare([s1] + p1) && AllBare([s2] + p2) && Joined([s1] + p1) == Joined([s2] + p2) ==>
              s1 == s2 && p1 == p2
  {
    Pow32Values();
    Injective(digest(Joined([s1] + p1)), digest(Joined([s2] + p2)), ULID_CHARS);
    if AllBare([s1] + p1) && AllBare([s2] + p2) && Joined([s1] + p1) == Joined([s2] + p2) {
      JoinedInjective([s1] + p1, [s2] + p2);
      assert ([s1] + p1)[0] == s1 && ([s2] + p2)[0] == s2;
      assert ([s1] + p1)[1..] == p1 && ([s2] + p2)[1..] == p2;
    }
  }

  lemma Pow32Values()
    ensures Pow32(5) == 0x200_0000 && Pow32(10) == 0x4_0000_0000_0000
    ensures Pow32(26) >= 0x1_0000_0000_0000_0000_0000_0000_0000_0000
  {
    assert Pow32(3) == 32768;
    assert Pow32(6) == 32768 * 32768;
    assert Pow32(9) == 32768 * Pow32(6);
    assert Pow32(12) == 32768 * Pow32(9);
    assert Pow32(15) == 32768 * Pow32(12);
    assert Pow32(18) == 32768 * Pow32(15);
    assert Pow32(21) == 32768 * Pow32(18);
    assert Pow32(24) == 32768 * Pow32(21);
    assert Pow32(26) == 1024 * Pow32(24);
  }

  /** A separator inside a part makes two different derivations the same identifier. */
  lemma SeparatorCollides(digest: string -> int)
    ensures StableId(digest, "a", ["b" + [UNIT_SEPARATOR] + "c"]) == StableId(digest, "a", ["b", "c"])
  {
    var u := [UNIT_SEPARATOR];
    var one, two := ["a", "b" + u + "c"], ["a", "b", "c"];
    assert ["a"] + ["b" + u + "c"] == one && ["a"] + ["b", "c"] == two;
    assert two[1..] == ["b", "c"] && ["b", "c"][1..] == ["c"] && one[1..] == ["b" + u + "c"];
    assert Joined(["b", "c"]) == "b" + u + "c" == Joined(one[1..]);
    assert Joined(one) == "a" + u + Joined(one[1..]);
    assert Joined(two) == "a" + u + Joined(two[1..]);
  }

  /** What joining leaves of a list of parts: the texts between separators. */
  function Pieces(parts: seq<string>): seq<string> {
    if parts == [] then [] else Text.Split(parts[0], UNIT_SEPARATOR) + Pieces(parts[1..])
  }

  lemma {:induction false} SplitJoined(parts: seq<string>)
    requires parts != []
    ensures Text.Split(Joined(parts), UNIT_SEPARATOR) == Pieces(parts)
  {
    if |parts| == 1 {
      assert Pieces(parts[1..]) == [];
    } else {
      SplitJoined(parts[1..]);
      Text.SplitConcat(parts[0], UNIT_SEPARATOR, Joined(parts[1..]));
    }
  }

  lemma {:induction false} JoinedSplit(s: string)
    ensures Joined(Text.Split(s, UNIT_SEPARATOR)) == s
  {
    if s != "" {
      var rest := Text.Split(s[1..], UNIT_SEPARATOR);
      JoinedSplit(s[1..]);
      JoinedCons(s[0], rest);
      if s[0] == UNIT_SEPARATOR {
        assert ([""] + rest)[1..] == rest;
      }
      assert [s[0]] + s[1..] == s;
    }
  }

  lemma JoinedCons(c: char, parts: seq<string>)
    requires parts != []
    ensures Joined([[c] + parts[0]] + parts[1..]) == [c] + Joined(parts)
  {
    var longer := [[c] + parts[0]] + parts[1..];
    assert longer[1..] == parts[1..];
    if |parts| > 1 {
      var rest := Joined(parts[1..]);
      assert [c] + parts[0] + [UNIT_SEPARATOR] + rest == [c] + (parts[0] + [UNIT_SEPARATOR] + rest);
    }
  }

  /** Two lists of parts are joined into one text exactly when the same pieces are left of
      them once every part is cut at its separators. */
  lemma JoinedEqualIff(xs: seq<string>, ys: seq<string>)
    requires xs != [] && ys != []
    ensures Joined(xs) == Joined(ys) <==> Pieces(xs) == Pieces(ys)
  {
    SplitJoined(xs);
    SplitJoined(ys);
    JoinedSplit(Joined(xs));
    JoinedSplit(Joined(ys));
  }

  /** For a digest that does not collide, derived identifiers are the same exactly then. */
  lemma StableIdsCollideIff(digest: string -> int, s1: string, p1: seq<string>, s2: string, p2: seq<string>)
    requires forall x :: 0 <= digest(x) < 0x1_0000_0000_0000_0000_0000_0000_0000_0000
    requires digest(Joined([s1] + p1)) == digest(Joined([s2] + p2)) ==> Joined([s1] + p1) == Joined([s2] + p2)
    ensures StableId(digest, s1, p1) == StableId(digest, s2, p2) <==> Pieces([s1] + p1) == Pieces([s2] + p2)
  {
    StableIdsEqualIff(digest, s1, p1, s2, p2);
    JoinedEqualIff([s1] + p1, [s2] + p2);
  }
}
