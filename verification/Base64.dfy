/** URL-safe base 64 without padding (section 5 of RFC 4648, section 3.2 for the padding). */
module Base64 {
  import opened Wrappers

  type Byte = x: int | 0 <= x < 256

  type Bytes = seq<Byte>

  type Sextet = x: int | 0 <= x < 64

  const PAD: char := '='

  function Letter(d: Sextet): char {
    if d < 26 then 'A' + d as char
    else if d < 52 then 'a' + (d - 26) as char
    else if d < 62 then '0' + (d - 52) as char
    else if d == 62 then '-'
    else '_'
  }

  /** The decoder takes both alphabets: the URL-safe letters are mapped to the standard ones. */
  function Digit(c: char): Option<Sextet> {
    if 'A' <= c <= 'Z' then Some((c - 'A') as nat)
    else if 'a' <= c <= 'z' then Some((c - 'a') as nat + 26)
    else if '0' <= c <= '9' then Some((c - '0') as nat + 52)
    else if c == '-' || c == '+' then Some(62)
    else if c == '_' || c == '/' then Some(63)
    else None
  }

  predicate UrlSafe(c: char) {
    'A' <= c <= 'Z' || 'a' <= c <= 'z' || '0' <= c <= '9' || c == '-' || c == '_'
  }

  // ----- Encoding -----

  /** The four six-bit digits of three bytes; a missing byte counts as zero. */
  function D0(x: Byte): Sextet {
    x / 4
  }

  function D1(x: Byte, y: Byte): Sextet {
    x % 4 * 16 + y / 16
  }

  function D2(y: Byte, z: Byte): Sextet {
    y % 16 * 4 + z / 64
  }

  function D3(z: Byte): Sextet {
    z % 64
  }

  lemma FirstByte(x: Byte, y: Byte)
    ensures D0(x) * 4 + D1(x, y) / 16 == x
  {
  }

  lemma SecondByte(x: Byte, y: Byte, z: Byte)
    ensures D1(x, y) % 16 * 16 + D2(y, z) / 4 == y
  {
    assert D1(x, y) % 16 == y / 16;
    assert D2(y, z) / 4 == y % 16;
  }

  lemma ThirdByte(y: Byte, z: Byte)
    ensures D2(y, z) % 4 * 64 + D3(z) == z
  {
    assert D2(y, z) % 4 == z / 64;
  }

  function Sextets(b: Bytes): (d: seq<Sextet>)
    ensures |d| % 4 != 1
  {
    if |b| == 0 then []
    else if |b| == 1 then [D0(b[0]), D1(b[0], 0)]
    else if |b| == 2 then [D0(b[0]), D1(b[0], b[1]), D2(b[1], 0)]
    else [D0(b[0]), D1(b[0], b[1]), D2(b[1], b[2]), D3(b[2])] + Sextets(b[3..])
  }

  function Letters(d: seq<Sextet>): string {
    seq(|d|, i requires 0 <= i < |d| => Letter(d[i]))
  }

  function Pads(n: nat): string {
    seq(n, _ => PAD)
  }

  /** Groups of four characters, the last one filled up with pads. */
  function Padded(b: Bytes): string {
    Letters(Sextets(b)) + Pads((4 - |Sextets(b)| % 4) % 4)
  }

  function StripPads(s: string): string {
    if s != "" && s[|s| - 1] == PAD then StripPads(s[..|s| - 1]) else s
  }

  function Encode(b: Bytes): string {
    StripPads(Padded(b))
  }

  // ----- Decoding -----

  /** The decoder's state: characters of the current group of four, pads seen since the
      last data character, bits left over, and the bytes written. */
  datatype State = State(quad: nat, pads: nat, left: nat, out: Bytes)

  datatype Progress = More(st: State) | Stop(out: Bytes)

  ghost predicate Ok(st: State) {
    && st.quad < 4
    && (st.quad == 0 ==> st.left == 0) && (st.quad == 1 ==> st.left < 64)
    && (st.quad == 2 ==> st.left < 16) && (st.quad == 3 ==> st.left < 4)
  }

  function Data(st: State, d: Sextet): (r: State)
    requires Ok(st)
    ensures Ok(r)
  {
    if st.quad == 0 then State(1, 0, d, st.out)
    else if st.quad == 1 then State(2, 0, d % 16, st.out + [st.left * 4 + d / 16])
    else if st.quad == 2 then State(3, 0, d % 4, st.out + [st.left * 16 + d / 4])
    else State(0, 0, 0, st.out + [st.left * 64 + d])
  }

  /** One character: a pad may end the input, anything outside the alphabets is skipped. */
  function Take(st: State, c: char): (p: Progress)
    requires Ok(st)
    ensures p.More? ==> Ok(p.st)
  {
    if c == PAD then
      if st.quad >= 2 && st.quad + st.pads + 1 >= 4 then Stop(st.out)
      else if st.quad >= 2 then More(st.(pads := st.pads + 1))
      else More(st)
    else if Digit(c).None? then More(st)
    else More(Data(st, Digit(c).value))
  }

  function DecodeFrom(st: State, s: string): Option<Bytes>
    requires Ok(st)
    decreases |s|
  {
    if s == "" then if st.quad == 0 then Some(st.out) else None
    else
      match Take(st, s[0])
      case Stop(out) => Some(out)
      case More(next) => DecodeFrom(next, s[1..])
  }

  predicate IsAscii(s: string) {
    forall i :: 0 <= i < |s| ==> s[i] < '\U{80}'
  }

  function Decode(s: string): Option<Bytes> {
    if !IsAscii(s) then None
    else DecodeFrom(State(0, 0, 0, []), s + Pads((4 - |s| % 4) % 4))
  }

  // ----- Properties -----

  lemma DigitLetter(d: Sextet)
    ensures Digit(Letter(d)) == Some(d) && UrlSafe(Letter(d)) && Letter(d) != PAD
  {
  }

  lemma {:induction false} StripPadsOf(s: string, n: nat)
    requires s == "" || s[|s| - 1] != PAD
    ensures StripPads(s + Pads(n)) == s
  {
    if n == 0 {
      assert s + Pads(0) == s;
    } else {
      StripPadsOf(s, n - 1);
      assert (s + Pads(n))[..|s| + n - 1] == s + Pads(n - 1);
    }
  }

  /** Taking the padding off leaves the letters, and those are all URL-safe. */
  lemma EncodeIsLetters(b: Bytes)
    ensures Encode(b) == Letters(Sextets(b))
    ensures forall i :: 0 <= i < |Encode(b)| ==> UrlSafe(Encode(b)[i])
  {
    var s := Letters(Sextets(b));
    forall i | 0 <= i < |s| ensures UrlSafe(s[i]) && s[i] != PAD {
      DigitLetter(Sextets(b)[i]);
    }
    StripPadsOf(s, (4 - |s| % 4) % 4);
  }

  lemma Step(st: State, d: Sextet, s: string)
    requires Ok(st) && s != "" && s[0] == Letter(d)
    ensures DecodeFrom(st, s) == DecodeFrom(Data(st, d), s[1..])
  {
    DigitLetter(d);
  }

  /** Two letters yield the first byte and keep the rest of the second. */
  lemma {:induction false} TwoSteps(out: Bytes, x: Byte, y: Byte, s: string)
    requires |s| >= 2 && s[0] == Letter(D0(x)) && s[1] == Letter(D1(x, y))
    ensures DecodeFrom(State(0, 0, 0, out), s) == DecodeFrom(State(2, 0, D1(x, y) % 16, out + [x]), s[2..])
  {
    var st := State(1, 0, D0(x), out);
    FirstByte(x, y);
    assert Data(State(0, 0, 0, out), D0(x)) == st;
    assert Data(st, D1(x, y)) == State(2, 0, D1(x, y) % 16, out + [x]);
    var rest := s[1..];
    Step(State(0, 0, 0, out), D0(x), s);
    Step(st, D1(x, y), rest);
    assert rest[1..] == s[2..];
  }

  lemma {:induction false} ThirdStep(out: Bytes, x: Byte, y: Byte, z: Byte, s: string)
    requires |s| >= 1 && s[0] == Letter(D2(y, z))
    ensures DecodeFrom(State(2, 0, D1(x, y) % 16, out), s) == DecodeFrom(State(3, 0, D2(y, z) % 4, out + [y]), s[1..])
  {
    var st := State(2, 0, D1(x, y) % 16, out);
    Step(st, D2(y, z), s);
    SecondByte(x, y, z);
    assert Data(st, D2(y, z)) == State(3, 0, D2(y, z) % 4, out + [y]);
  }

  lemma FourthStep(out: Bytes, y: Byte, z: Byte, s: string)
    requires |s| >= 1 && s[0] == Letter(D3(z))
    ensures DecodeFrom(State(3, 0, D2(y, z) % 4, out), s) == DecodeFrom(State(0, 0, 0, out + [z]), s[1..])
  {
    var st := State(3, 0, D2(y, z) % 4, out);
    Step(st, D3(z), s);
    ThirdByte(y, z);
    assert Data(st, D3(z)) == State(0, 0, 0, out + [z]);
  }

  /** A full group of four letters yields its three bytes. */
  lemma Group(out: Bytes, x: Byte, y: Byte, z: Byte, s: string)
    requires |s| >= 4 && s[0] == Letter(D0(x)) && s[1] == Letter(D1(x, y))
    requires s[2] == Letter(D2(y, z)) && s[3] == Letter(D3(z))
    ensures DecodeFrom(State(0, 0, 0, out), s) == DecodeFrom(State(0, 0, 0, out + [x] + [y] + [z]), s[4..])
  {
    TwoSteps(out, x, y, s);
    ThirdStep(out + [x], x, y, z, s[2..]);
    FourthStep(out + [x] + [y], y, z, s[3..]);
    assert s[2..][1..] == s[3..] && s[3..][1..] == s[4..];
  }

  lemma {:induction false} EndsWithTwo(out: Bytes, x: Byte, y: Byte, s: string)
    requires |s| == 4 && s[0] == Letter(D0(x)) && s[1] == Letter(D1(x, y)) && s[2] == Letter(D2(y, 0)) && s[3] == PAD
    ensures DecodeFrom(State(0, 0, 0, out), s) == Some(out + [x] + [y])
  {
    TwoSteps(out, x, y, s);
    ThirdStep(out + [x], x, y, 0, s[2..]);
    assert s[2..][1..] == s[3..] && s[3..][0] == PAD;
  }

  lemma EndsWithOne(out: Bytes, x: Byte, s: string)
    requires |s| == 4 && s[0] == Letter(D0(x)) && s[1] == Letter(D1(x, 0)) && s[2] == PAD && s[3] == PAD
    ensures DecodeFrom(State(0, 0, 0, out), s) == Some(out + [x])
  {
    TwoSteps(out, x, 0, s);
    assert s[2..][1..] == s[3..] && s[2..][0] == PAD && s[3..][0] == PAD;
  }

  lemma PaddedAt(b: Bytes, i: nat)
    requires i < |Sextets(b)|
    ensures i < |Padded(b)| && Padded(b)[i] == Letter(Sextets(b)[i])
  {
  }

  lemma OneByte(out: Bytes, b: Bytes)
    requires |b| == 1
    ensures DecodeFrom(State(0, 0, 0, out), Padded(b)) == Some(out + b)
  {
    PaddedAt(b, 0);
    PaddedAt(b, 1);
    EndsWithOne(out, b[0], Padded(b));
    assert b == [b[0]];
  }

  lemma TwoBytes(out: Bytes, b: Bytes)
    requires |b| == 2
    ensures DecodeFrom(State(0, 0, 0, out), Padded(b)) == Some(out + b)
  {
    PaddedAt(b, 0);
    PaddedAt(b, 1);
    PaddedAt(b, 2);
    EndsWithTwo(out, b[0], b[1], Padded(b));
    assert out + [b[0]] + [b[1]] == out + b;
  }

  lemma ThreeBytes(out: Bytes, b: Bytes)
    requires |b| >= 3
    ensures DecodeFrom(State(0, 0, 0, out), Padded(b)) == DecodeFrom(State(0, 0, 0, out + b[..3]), Padded(b[3..]))
  {
    PaddedAt(b, 0);
    PaddedAt(b, 1);
    PaddedAt(b, 2);
    PaddedAt(b, 3);
    Group(out, b[0], b[1], b[2], Padded(b));
    PaddedTail(b);
    assert out + [b[0]] + [b[1]] + [b[2]] == out + b[..3];
  }

  lemma {:induction false} DecodePadded(out: Bytes, b: Bytes)
    ensures DecodeFrom(State(0, 0, 0, out), Padded(b)) == Some(out + b)
    decreases |b|
  {
    if |b| == 0 {
      assert out + b == out && Padded(b) == "";
    } else if |b| == 1 {
      OneByte(out, b);
    } else if |b| == 2 {
      TwoBytes(out, b);
    } else {
      ThreeBytes(out, b);
      DecodePadded(out + b[..3], b[3..]);
      assert out + b[..3] + b[3..] == out + b;
    }
  }

  lemma PaddedTail(b: Bytes)
    requires |b| >= 3
    ensures Padded(b)[4..] == Padded(b[3..])
  {
    var d, rest := Sextets(b), Sextets(b[3..]);
    assert d == d[..4] + rest;
    assert |d| % 4 == |rest| % 4;
    assert Letters(d)[4..] == Letters(rest);
    var p := Pads((4 - |d| % 4) % 4);
    assert (Letters(d) + p)[4..] == Letters(d)[4..] + p;
  }

  lemma LettersAreAscii(d: seq<Sextet>)
    ensures IsAscii(Letters(d))
  {
  }

  /** The pads an encoding earns are those that were taken off it. */
  lemma EncodedPads(b: Bytes)
    ensures var s := Encode(b); IsAscii(s) && s + Pads((4 - |s| % 4) % 4) == Padded(b)
  {
    EncodeIsLetters(b);
    LettersAreAscii(Sextets(b));
  }

  /** Decoding inverts encoding on every byte string. */
  lemma DecodeEncode(b: Bytes)
    ensures Decode(Encode(b)) == Some(b)
  {
    var s := Encode(b);
    EncodedPads(b);
    assert Decode(s) == DecodeFrom(State(0, 0, 0, []), s + Pads((4 - |s| % 4) % 4));
    DecodePadded([], b);
    assert [] + b == b;
  }

  // ----- What the decoder makes of any text -----

  /** The digits of a text; what is in neither alphabet is skipped. */
  function Digits(s: string): seq<Sextet> {
    if s == "" then []
    else (if Digit(s[0]).Some? then [Digit(s[0]).value] else []) + Digits(s[1..])
  }

  /** The number that base-64 digits spell, and the number that bytes spell. */
  function Spelt(d: seq<Sextet>): nat {
    if d == [] then 0 else 64 * Spelt(d[..|d| - 1]) + d[|d| - 1]
  }

  function Number(b: Bytes): nat {
    if b == [] then 0 else 256 * Number(b[..|b| - 1]) + b[|b| - 1]
  }

  ghost function Feed(st: State, d: seq<Sextet>): (r: State)
    requires Ok(st) && st.pads == 0
    ensures Ok(r) && r.pads == 0
    decreases |d|
  {
    if d == [] then st else Feed(Data(st, d[0]), d[1..])
  }

  lemma {:induction false} FeedMore(st: State, d: seq<Sextet>, x: Sextet)
    requires Ok(st) && st.pads == 0
    ensures Feed(st, d + [x]) == Data(Feed(st, d), x)
    decreases |d|
  {
    if d == [] {
      assert ([] + [x])[1..] == [];
    } else {
      assert (d + [x])[1..] == d[1..] + [x];
      FeedMore(Data(st, d[0]), d[1..], x);
    }
  }

  const FIRST: State := State(0, 0, 0, [])

  /** What the digits left over are worth. */
  function Rest(n: nat): nat {
    if n % 4 == 0 then 1 else if n % 4 == 1 then 64 else if n % 4 == 2 then 16 else 4
  }

  lemma NumberMore(b: Bytes, y: Byte)
    ensures Number(b + [y]) == 256 * Number(b) + y
  {
    assert (b + [y])[..|b|] == b;
  }

  lemma Grows(n: nat)
    ensures (n + 1) * 3 / 4 == n * 3 / 4 + if n % 4 == 0 then 0 else 1
  {
  }

  /** The state after `n` digits that spell `spelt`. */
  ghost predicate Carries(st: State, n: nat, spelt: nat) {
    && st.quad == n % 4 && |st.out| == n * 3 / 4
    && spelt == Number(st.out) * Rest(n) + st.left && st.left < Rest(n)
  }

  lemma SecondDigit(n: nat, left: nat, x: Sextet)
    ensures 64 * (n * 64 + left) + x == (256 * n + (left * 4 + x / 16)) * 16 + x % 16
  {
  }

  lemma ThirdDigit(n: nat, left: nat, x: Sextet)
    ensures 64 * (n * 16 + left) + x == (256 * n + (left * 16 + x / 4)) * 4 + x % 4
  {
  }

  lemma Rests(n: nat)
    ensures n % 4 == 0 ==> Rest(n) == 1 && Rest(n + 1) == 64
    ensures n % 4 == 1 ==> Rest(n) == 64 && Rest(n + 1) == 16
    ensures n % 4 == 2 ==> Rest(n) == 16 && Rest(n + 1) == 4
    ensures n % 4 == 3 ==> Rest(n) == 4 && Rest(n + 1) == 1
  {
  }

  lemma DataAt(st: State, x: Sextet)
    requires Ok(st) && st.quad > 0
    ensures var byte := if st.quad == 1 then st.left * 4 + x / 16 else if st.quad == 2 then st.left * 16 + x / 4
                        else st.left * 64 + x;
            Number(Data(st, x).out) == 256 * Number(st.out) + byte
  {
    NumberMore(st.out, if st.quad == 1 then st.left * 4 + x / 16 else if st.quad == 2 then st.left * 16 + x / 4
                       else st.left * 64 + x);
  }

  lemma DataCarries(st: State, n: nat, spelt: nat, x: Sextet)
    requires Ok(st) && Carries(st, n, spelt)
    ensures Carries(Data(st, x), n + 1, 64 * spelt + x)
  {
    Grows(n);
    Rests(n);
    SecondDigit(Number(st.out), st.left, x);
    ThirdDigit(Number(st.out), st.left, x);
    if st.quad > 0 {
      DataAt(st, x);
    }
  }

  lemma {:induction false} FeedCarries(d: seq<Sextet>)
    ensures Carries(Feed(FIRST, d), |d|, Spelt(d))
  {
    if d != [] {
      var n := |d| - 1;
      FeedCarries(d[..n]);
      DataCarries(Feed(FIRST, d[..n]), n, Spelt(d[..n]), d[n]);
      FeedMore(FIRST, d[..n], d[n]);
      assert d[..n] + [d[n]] == d;
    }
  }

  lemma {:induction false} TakesDigits(st: State, s: string, pads: string)
    requires PAD !in s && Ok(st) && st.pads == 0
    ensures DecodeFrom(st, s + pads) == DecodeFrom(Feed(st, Digits(s)), pads)
    decreases |s|
  {
    if s == "" {
      assert s + pads == pads;
    } else {
      assert (s + pads)[0] == s[0] && (s + pads)[1..] == s[1..] + pads;
      var x := Digit(s[0]);
      if x.Some? {
        TakesDigits(Data(st, x.value), s[1..], pads);
        assert Digits(s)[0] == x.value && Digits(s)[1..] == Digits(s[1..]);
      } else {
        TakesDigits(st, s[1..], pads);
        assert Digits(s) == Digits(s[1..]);
      }
    }
  }

  lemma PadTaken(st: State, n: nat)
    requires Ok(st) && n > 0
    ensures DecodeFrom(st, Pads(n)) ==
            match Take(st, PAD)
            case Stop(out) => Some(out)
            case More(next) => DecodeFrom(next, Pads(n - 1))
  {
    assert Pads(n)[0] == PAD && Pads(n)[1..] == Pads(n - 1);
  }

  lemma {:induction false} EndsAt(st: State, n: nat)
    requires Ok(st) && st.quad + st.pads < 4 && n < 4
    ensures DecodeFrom(st, Pads(n)) ==
            if st.quad == 0 || (st.quad >= 2 && st.quad + st.pads + n >= 4) then Some(st.out) else None
    decreases n
  {
    if n == 0 {
      assert Pads(0) == "";
    } else {
      PadTaken(st, n);
      if st.quad < 2 {
        EndsAt(st, n - 1);
      } else if st.quad + st.pads + 1 < 4 {
        EndsAt(st.(pads := st.pads + 1), n - 1);
      }
    }
  }

  lemma Leading(a: nat, b: nat, r: nat, left: nat)
    requires r in {1, 4, 16, 64} && a == b * r + left && left < r
    ensures b == a / r
  {
  }

  /** What the decoder makes of any text without pads. It is refused unless it is ASCII and the
      pads its length earns it complete the last group of its digits. Otherwise the bytes
      spell the number its digits spell, less the bits that do not fill a byte. */
  lemma DecodeIs(s: string)
    requires PAD !in s
    ensures var d := Digits(s); var n := |d| % 4; var earned := (4 - |s| % 4) % 4;
            && (Decode(s).Some? <==>
                  IsAscii(s) && (n == 0 || (n >= 2 && n + earned >= 4)))
            && (Decode(s).Some? ==>
                  var b := Decode(s).value; |b| == |d| * 3 / 4 && Number(b) == Spelt(d) / Rest(|d|))
  {
    var d := Digits(s);
    var st := Feed(FIRST, d);
    TakesDigits(FIRST, s, Pads((4 - |s| % 4) % 4));
    EndsAt(st, (4 - |s| % 4) % 4);
    FeedCarries(d);
    Leading(Spelt(d), Number(st.out), Rest(|d|), st.left);
  }

  /** The two alphabets, and nothing else, are read. */
  lemma DigitIff(c: char)
    ensures Digit(c).Some? <==> UrlSafe(c) || c == '+' || c == '/'
    ensures Digit('+') == Digit('-') == Some(62) && Digit('/') == Digit('_') == Some(63)
    ensures UrlSafe(c) ==> Letter(Digit(c).value) == c
  {
  }

  /** A character that is not ASCII is refused, wherever it stands. */
  lemma ForeignIsRefused(s: string, i: nat)
    requires i < |s| && s[i] >= '\U{80}'
    ensures Decode(s).None? && !IsAscii(s)
  {
  }
}
