/** Password hashes and signed session tokens. The hash functions are parameters, of which
    nothing is assumed but that they are functions, and so is the reader of integers. */
module Security {
  import opened Wrappers
  import opened Text
  import Decimal
  import Base64

  type Bytes = Base64.Bytes

  /** `kdf` is `None` where the library raises, which it does for fewer than one iteration.
      `readInt` is Python's `int`, which also takes the digits of other scripts. */
  datatype Crypto = Crypto(
    derive: (string, string) -> Bytes,
    mac: (Bytes, string) -> Bytes,
    kdf: (string, Bytes, int) -> Option<Bytes>,
    readInt: string -> Option<int>)
  {
    /** The reader does on ASCII text what `Decimal.Parse` does. */
    ghost predicate ReadsAscii() {
      forall s :: Base64.IsAscii(s) ==> readInt(s) == Decimal.Parse(s)
    }
  }

  const SCHEME: string := "pbkdf2_sha256"
  const MIN_PASSWORD := 10
  const SESSION_INFO: string := "applyuminati.session.v1"

  datatype Failure = Malformed | BadSignature | Expired

  datatype Verified = Session(issuedAt: int, expiresAt: int, nonce: string) | Rejected(failure: Failure) | VerifyRaises

  datatype Hashed = Encoded(text: string) | WeakPassword | HashRaises

  datatype Verdict = Yes | No | CheckRaises

  // ----- Passwords -----

  function PasswordText(iterations: int, salt: Bytes, digest: Bytes): string {
    SCHEME + "$" + Decimal.Print(iterations) + "$" + Base64.Encode(salt) + "$" + Base64.Encode(digest)
  }

  function HashPassword(c: Crypto, password: string, iterations: int, salt: Bytes): Hashed {
    if |password| < MIN_PASSWORD then WeakPassword
    else
      var digest := c.kdf(password, salt, iterations);
      if digest.None? then HashRaises else Encoded(PasswordText(iterations, salt, digest.value))
  }

  /** The derivation is outside the guarded part: what it raises is not caught. */
  function VerifyPassword(c: Crypto, password: string, encoded: string): Verdict {
    CheckFields(c, password, Split(encoded, '$'))
  }

  function CheckFields(c: Crypto, password: string, parts: seq<string>): Verdict {
    if |parts| != 4 || parts[0] != SCHEME then No
    else
      var iterations := c.readInt(parts[1]);
      var salt := Base64.Decode(parts[2]);
      var expected := Base64.Decode(parts[3]);
      if iterations.None? || salt.None? || expected.None? then No
      else
        var candidate := c.kdf(password, salt.value, iterations.value);
        if candidate.None? then CheckRaises else if candidate == expected then Yes else No
  }

  predicate IsPasswordHash(value: string) {
    StartsAt(value, 0, SCHEME + "$") && |Split(value, '$')| == 4
  }

  function VerifyConfigured(c: Crypto, candidate: string, configured: string): Verdict {
    if IsPasswordHash(configured) then VerifyPassword(c, candidate, configured)
    else if configured == "" then No
    else if candidate == configured then Yes else No
  }

  // ----- Sessions -----

  function Payload(issued: string, expires: string, nonce: string): string {
    issued + "." + expires + "." + nonce
  }

  function Signature(c: Crypto, material: string, payload: string): Bytes {
    c.mac(c.derive(material, SESSION_INFO), payload)
  }

  /** `random` is the entropy drawn for the nonce. */
  function IssueSession(c: Crypto, material: string, now: int, ttl: int, random: Bytes): string {
    var payload := Payload(Decimal.Print(now), Decimal.Print(now + ttl), Base64.Encode(random));
    payload + "." + Base64.Encode(Signature(c, material, payload))
  }

  function VerifySession(c: Crypto, token: string, material: string, now: int): Verified {
    VerifyFields(c, Split(token, '.'), material, now)
  }

  function VerifyFields(c: Crypto, parts: seq<string>, material: string, now: int): Verified {
    if |parts| != 4 then Rejected(Malformed)
    else
      var issued := c.readInt(parts[0]);
      var expires := c.readInt(parts[1]);
      var signature := Base64.Decode(parts[3]);
      if issued.None? || expires.None? || signature.None? then Rejected(Malformed)
      else
        var payload := Payload(parts[0], parts[1], parts[2]);
        if !Base64.IsAscii(payload) then VerifyRaises
        else if signature.value != Signature(c, material, payload) then Rejected(BadSignature)
        else if now >= expires.value then Rejected(Expired)
        else Session(issued.value, expires.value, parts[2])
  }

  // ----- Properties -----

  lemma Regrouped(a: string, b: string, c: string, d: string, s: string)
    ensures a + s + b + s + c + s + d == a + s + (b + s + (c + s + d))
  {
  }

  lemma {:induction false} SplitFour(a: string, b: string, c: string, d: string, sep: char)
    requires sep !in a && sep !in b && sep !in c && sep !in d
    ensures Split(a + [sep] + b + [sep] + c + [sep] + d, sep) == [a, b, c, d]
  {
    Regrouped(a, b, c, d, [sep]);
    SplitHead(a, sep, b + [sep] + (c + [sep] + d));
    SplitHead(b, sep, c + [sep] + d);
    SplitHead(c, sep, d);
    SplitWhole(d, sep);
  }

  lemma NumberText(n: int)
    ensures '.' !in Decimal.Print(n) && '$' !in Decimal.Print(n)
    ensures Base64.IsAscii(Decimal.Print(n)) && Decimal.Parse(Decimal.Print(n)) == Some(n)
  {
    Decimal.ParsePrint(n);
    Decimal.PrintChars(n);
  }

  lemma BytesText(b: Bytes)
    ensures '.' !in Base64.Encode(b) && '$' !in Base64.Encode(b)
    ensures Base64.IsAscii(Base64.Encode(b)) && Base64.Decode(Base64.Encode(b)) == Some(b)
  {
    Base64.EncodeIsLetters(b);
    Base64.DecodeEncode(b);
  }

  /** A token verifies under the material it was issued with to exactly its own fields
      before its expiry, and as expired from then on; under any other material the same
      happens if the two signatures happen to agree, and it is refused if they do not. */
  lemma VerifyIssued(c: Crypto, material: string, other: string, issued: int, ttl: int, random: Bytes, now: int)
    requires c.ReadsAscii()
    ensures var nonce := Base64.Encode(random);
            var payload := Payload(Decimal.Print(issued), Decimal.Print(issued + ttl), nonce);
            VerifySession(c, IssueSession(c, material, issued, ttl, random), other, now) ==
            if Signature(c, material, payload) != Signature(c, other, payload) then Rejected(BadSignature)
            else if now < issued + ttl then Session(issued, issued + ttl, nonce)
            else Rejected(Expired)
  {
    var from, until, nonce := Decimal.Print(issued), Decimal.Print(issued + ttl), Base64.Encode(random);
    var signature := Signature(c, material, Payload(from, until, nonce));
    NumberText(issued);
    NumberText(issued + ttl);
    BytesText(random);
    BytesText(signature);
    SplitFour(from, until, nonce, Base64.Encode(signature), '.');
    AsciiPayload(from, until, nonce);
    FieldsOf(c, from, until, nonce, Base64.Encode(signature), signature, other, now, issued, issued + ttl);
  }

  lemma FieldsOf(c: Crypto, from: string, until: string, nonce: string, signed: string, signature: Bytes,
                 material: string, now: int, issued: int, expires: int)
    requires c.readInt(from) == Some(issued) && c.readInt(until) == Some(expires)
    requires Base64.Decode(signed) == Some(signature) && Base64.IsAscii(Payload(from, until, nonce))
    ensures VerifyFields(c, [from, until, nonce, signed], material, now) ==
            if signature != Signature(c, material, Payload(from, until, nonce)) then Rejected(BadSignature)
            else if now < expires then Session(issued, expires, nonce)
            else Rejected(Expired)
  {
  }

  lemma SessionRoundTrip(c: Crypto, material: string, issued: int, ttl: int, random: Bytes, now: int)
    requires c.ReadsAscii()
    ensures VerifySession(c, IssueSession(c, material, issued, ttl, random), material, now) ==
            if now < issued + ttl then Session(issued, issued + ttl, Base64.Encode(random)) else Rejected(Expired)
  {
    VerifyIssued(c, material, material, issued, ttl, random, now);
  }

  /** Whatever the token, a session is only ever returned before its expiry and with a
      signature over exactly its own three fields. */
  lemma SessionIsSigned(c: Crypto, token: string, material: string, now: int)
    requires VerifySession(c, token, material, now).Session?
    ensures var v := VerifySession(c, token, material, now); var parts := Split(token, '.');
            && now < v.expiresAt && |parts| == 4 && v.nonce == parts[2]
            && Base64.Decode(parts[3]) ==
               Some(c.mac(c.derive(material, "applyuminati.session.v1"),
                          parts[0] + "." + parts[1] + "." + parts[2]))
            && c.readInt(parts[0]) == Some(v.issuedAt) && c.readInt(parts[1]) == Some(v.expiresAt)
  {
  }

  /** The three fields and the signature of a token can all be read. */
  ghost predicate Readable(c: Crypto, parts: seq<string>) {
    |parts| == 4 && c.readInt(parts[0]).Some? && c.readInt(parts[1]).Some? && Base64.Decode(parts[3]).Some?
  }

  /** Why a token is rejected, each reason by its own condition: it cannot be read, or else its
      signature is another, or else its time is up. */
  lemma RejectedIff(c: Crypto, token: string, material: string, now: int)
    ensures var v := VerifySession(c, token, material, now); var parts := Split(token, '.');
            && (v == Rejected(Malformed) <==> !Readable(c, parts))
            && (Readable(c, parts) && !v.VerifyRaises? ==>
                  var signed := Base64.Decode(parts[3]).value ==
                                c.mac(c.derive(material, "applyuminati.session.v1"),
                                      parts[0] + "." + parts[1] + "." + parts[2]);
                  && (v == Rejected(BadSignature) <==> !signed)
                  && (v == Rejected(Expired) <==> signed && c.readInt(parts[1]).value <= now))
  {
  }

  /** Verification is meant to report every bad token as a value. It raises instead exactly
      on tokens of four readable parts in which one of the first three is not ASCII, for every
      reader of integers. */
  lemma VerifyRaisesIff(c: Crypto, token: string, material: string, now: int)
    ensures VerifySession(c, token, material, now).VerifyRaises? <==>
            var parts := Split(token, '.');
            && |parts| == 4 && c.readInt(parts[0]).Some? && c.readInt(parts[1]).Some?
            && Base64.Decode(parts[3]).Some?
            && !(Base64.IsAscii(parts[0]) && Base64.IsAscii(parts[1]) && Base64.IsAscii(parts[2]))
  {
    var parts := Split(token, '.');
    if |parts| == 4 {
      AsciiPayload(parts[0], parts[1], parts[2]);
    }
  }

  lemma AsciiPayload(a: string, b: string, c: string)
    ensures Base64.IsAscii(Payload(a, b, c)) <==> Base64.IsAscii(a) && Base64.IsAscii(b) && Base64.IsAscii(c)
  {
    var p := Payload(a, b, c);
    assert forall i :: 0 <= i < |a| ==> a[i] == p[i];
    assert forall i :: 0 <= i < |b| ==> b[i] == p[|a| + 1 + i];
    assert forall i :: 0 <= i < |c| ==> c[i] == p[|a| + 1 + |b| + 1 + i];
  }

  lemma EmptyReads()
    ensures Base64.Decode("") == Some([])
  {
    Base64.EncodeIsLetters([]);
    assert Base64.Encode([]) == "";
    Base64.DecodeEncode([]);
  }

  lemma RaisesOnAccentedNonce(c: Crypto, material: string, now: int)
    requires c.ReadsAscii()
    ensures VerifySession(c, "1.2.\U{E9}.", material, now).VerifyRaises?
  {
    assert "1.2.\U{E9}." == "1" + ['.'] + "2" + ['.'] + "\U{E9}" + ['.'] + "";
    SplitFour("1", "2", "\U{E9}", "", '.');
    NumberText(1);
    NumberText(2);
    assert Decimal.Print(1) == "1" && Decimal.Print(2) == "2";
    EmptyReads();
    VerifyRaisesIff(c, "1.2.\U{E9}.", material, now);
    assert "\U{E9}"[0] == '\U{E9}';
  }

  /** A reader that takes the fullwidth digit one, as Python's does, lets a token through to
      the raise whose nonce is plain. */
  lemma RaisesOnForeignDigit(c: Crypto, material: string, now: int)
    requires c.ReadsAscii() && c.readInt("\U{FF11}") == Some(1)
    ensures VerifySession(c, "\U{FF11}.2.n.", material, now).VerifyRaises?
  {
    assert "\U{FF11}.2.n." == "\U{FF11}" + ['.'] + "2" + ['.'] + "n" + ['.'] + "";
    SplitFour("\U{FF11}", "2", "n", "", '.');
    NumberText(2);
    assert Decimal.Print(2) == "2";
    EmptyReads();
    VerifyRaisesIff(c, "\U{FF11}.2.n.", material, now);
    assert "\U{FF11}"[0] == '\U{FF11}';
  }

  lemma StartsWithHead(a: string, b: string, c: string, d: string)
    ensures StartsAt(a + "$" + b + "$" + c + "$" + d, 0, a + "$")
  {
    Regrouped(a, b, c, d, "$");
    var rest := b + "$" + (c + "$" + d);
    assert (a + "$" + rest)[0..|a| + 1] == a + "$";
  }

  lemma HashFields(iterations: int, salt: Bytes, digest: Bytes)
    ensures Split(PasswordText(iterations, salt, digest), '$') ==
            [SCHEME, Decimal.Print(iterations), Base64.Encode(salt), Base64.Encode(digest)]
    ensures IsPasswordHash(PasswordText(iterations, salt, digest))
  {
    NumberText(iterations);
    BytesText(salt);
    BytesText(digest);
    SplitFour(SCHEME, Decimal.Print(iterations), Base64.Encode(salt), Base64.Encode(digest), '$');
    StartsWithHead(SCHEME, Decimal.Print(iterations), Base64.Encode(salt), Base64.Encode(digest));
  }

  lemma CheckOf(c: Crypto, password: string, count: string, b1: string, b2: string, iterations: int, salt: Bytes,
                digest: Bytes)
    requires c.readInt(count) == Some(iterations)
    requires Base64.Decode(b1) == Some(salt) && Base64.Decode(b2) == Some(digest)
    ensures CheckFields(c, password, [SCHEME, count, b1, b2]).Yes? <==>
            c.kdf(password, salt, iterations) == Some(digest)
  {
  }

  /** A password is refused as weak if and only if it has fewer than ten characters; any other
      is hashed if the derivation takes it. */
  lemma WeakIff(c: Crypto, password: string, iterations: int, salt: Bytes)
    ensures var r := HashPassword(c, password, iterations, salt);
            && (r.WeakPassword? <==> |password| < 10)
            && (r.HashRaises? <==> |password| >= 10 && c.kdf(password, salt, iterations).None?)
            && (r.Encoded? <==> |password| >= 10 && c.kdf(password, salt, iterations).Some?)
  {
  }

  /** A password is accepted against a stored text if and only if the text is a hash of four
      readable fields and the password derives to the digest in it. */
  lemma AcceptedIff(c: Crypto, password: string, encoded: string)
    ensures VerifyPassword(c, password, encoded).Yes? <==>
            var parts := Split(encoded, '$');
            && |parts| == 4 && parts[0] == "pbkdf2_sha256"
            && c.readInt(parts[1]).Some? && Base64.Decode(parts[2]).Some? && Base64.Decode(parts[3]).Some?
            && c.kdf(password, Base64.Decode(parts[2]).value, c.readInt(parts[1]).value) == Base64.Decode(parts[3])
  {
  }

  /** What is configured counts as a hash if it starts like one and has four fields. Anything
      else is a plain password: it is accepted as itself, and an empty one never. */
  lemma ConfiguredIff(c: Crypto, candidate: string, configured: string)
    ensures var hashed := "pbkdf2_sha256$" <= configured && |Split(configured, '$')| == 4;
            && (hashed ==> VerifyConfigured(c, candidate, configured) == VerifyPassword(c, candidate, configured))
            && (!hashed ==> !VerifyConfigured(c, candidate, configured).CheckRaises?)
            && (!hashed ==>
                  (VerifyConfigured(c, candidate, configured).Yes? <==> candidate == configured && configured != ""))
  {
    assert SCHEME + "$" == "pbkdf2_sha256$";
    assert "pbkdf2_sha256$" <= configured <==> StartsAt(configured, 0, SCHEME + "$");
  }

  /** A stored hash checks exactly as the derivation compares: the password it was made
      from is accepted, and another one only if both derive to the same bytes. */
  lemma PasswordRoundTrip(c: Crypto, password: string, iterations: int, salt: Bytes, candidate: string)
    requires c.ReadsAscii() && HashPassword(c, password, iterations, salt).Encoded?
    ensures var text := HashPassword(c, password, iterations, salt).text;
            && IsPasswordHash(text)
            && VerifyConfigured(c, candidate, text) == VerifyPassword(c, candidate, text)
            && VerifyPassword(c, password, text).Yes?
            && (VerifyPassword(c, candidate, text).Yes? <==>
                  c.kdf(candidate, salt, iterations) == c.kdf(password, salt, iterations))
  {
    var digest := c.kdf(password, salt, iterations).value;
    var count, b1, b2 := Decimal.Print(iterations), Base64.Encode(salt), Base64.Encode(digest);
    HashFields(iterations, salt, digest);
    NumberText(iterations);
    BytesText(salt);
    BytesText(digest);
    CheckOf(c, password, count, b1, b2, iterations, salt, digest);
    CheckOf(c, candidate, count, b1, b2, iterations, salt, digest);
  }

  /** A malformed hash is meant to verify as false. It raises instead exactly when it is
      well formed up to an iteration count the derivation does not take, for every reader
      of integers. */
  lemma CheckRaisesIff(c: Crypto, password: string, encoded: string)
    ensures VerifyPassword(c, password, encoded).CheckRaises? <==>
            var parts := Split(encoded, '$');
            && |parts| == 4 && parts[0] == SCHEME
            && c.readInt(parts[1]).Some? && Base64.Decode(parts[2]).Some? && Base64.Decode(parts[3]).Some?
            && c.kdf(password, Base64.Decode(parts[2]).value, c.readInt(parts[1]).value).None?
  {
  }

  /** A zero count raises whatever script it is written in. */
  lemma RaisesOnZeroCount(c: Crypto, password: string, zero: string)
    requires '$' !in zero && c.readInt(zero) == Some(0) && c.kdf(password, [], 0).None?
    ensures VerifyPassword(c, password, SCHEME + "$" + zero + "$" + "" + "$" + "").CheckRaises?
  {
    SplitFour(SCHEME, zero, "", "", '$');
    EmptyReads();
  }
}
