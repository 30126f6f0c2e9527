/** Turning a site-chosen file name into a path that is safe to write. */
module Downloads {
  import opened Wrappers
  import opened Text
  import Decimal

  const DEFAULT_NAME: string := "download"
  const MAX_CHARS := 120
  const MAX_SUFFIX := 16

  // ----- The last component of a path -----

  /** The last component between separators that is neither empty nor a single dot. */
  function LastPart(s: string, sep: char): string {
    PartsFrom(s, sep, "", "")
  }

  function PartsFrom(s: string, sep: char, part: string, last: string): string
    decreases |s|
  {
    if s == "" then Later(part, last)
    else if s[0] == sep then PartsFrom(s[1..], sep, "", Later(part, last))
    else PartsFrom(s[1..], sep, part + [s[0]], last)
  }

  function Later(part: string, last: string): string {
    if part == "" || part == "." then last else part
  }

  const UNC_PREFIX: string := "\\\\?\\UNC\\"

  function Upper(s: string): string {
    seq(|s|, i requires 0 <= i < |s| => if 'a' <= s[i] <= 'z' then s[i] - 'a' + 'A' else s[i])
  }

  /** What follows the drive and the root of a Windows path without forward slashes. */
  function WindowsTail(s: string): string {
    if s != "" && s[0] == '\\' then
      if |s| > 1 && s[1] == '\\' then
        var start := if |s| >= 8 && Upper(s[..8]) == UNC_PREFIX then 8 else 2;
        var share := Find(s, "\\", start);
        if share.None? then ""
        else
          var root := Find(s, "\\", share.value + 1);
          if root.None? then "" else s[root.value + 1..]
      else s[1..]
    else if |s| > 1 && s[1] == ':' then
      if |s| > 2 && s[2] == '\\' then s[3..] else s[2..]
    else s
  }

  // ----- Scrubbing -----

  predicate Allowed(c: char) {
    'A' <= c <= 'Z' || 'a' <= c <= 'z' || '0' <= c <= '9' || c == '.' || c == '_' || c == '-'
  }

  /** Every run of disallowed characters becomes one underscore. */
  function Scrub(s: string, inRun: bool): string {
    if s == "" then ""
    else if Allowed(s[0]) then [s[0]] + Scrub(s[1..], false)
    else if inRun then Scrub(s[1..], true)
    else "_" + Scrub(s[1..], true)
  }

  /** Every run of dots becomes one dot. */
  function OneDot(s: string, afterDot: bool): string {
    if s == "" then ""
    else if s[0] != '.' then [s[0]] + OneDot(s[1..], false)
    else if afterDot then OneDot(s[1..], true)
    else "." + OneDot(s[1..], true)
  }

  predicate Edge(c: char) {
    c == '.' || c == '_'
  }

  function TrimLeft(s: string): string {
    if s != "" && Edge(s[0]) then TrimLeft(s[1..]) else s
  }

  function TrimEnd(s: string): string {
    if s != "" && Edge(s[|s| - 1]) then TrimEnd(s[..|s| - 1]) else s
  }

  function Trim(s: string): string {
    TrimEnd(TrimLeft(s))
  }

  // ----- The name -----

  /** The position of the last dot. */
  function LastDot(s: string): (r: Option<nat>)
    ensures r.Some? ==> r.value < |s| && s[r.value] == '.' && forall k :: r.value < k < |s| ==> s[k] != '.'
    ensures r.None? ==> '.' !in s
  {
    if s == "" then None
    else if s[|s| - 1] == '.' then Some(|s| - 1)
    else LastDot(s[..|s| - 1])
  }

  function Cleaned(suggested: Option<string>): string {
    var raw := Strip(if suggested.Some? then suggested.value else "");
    var name := LastPart(WindowsTail(LastPart(raw, '/')), '\\');
    Trim(OneDot(Scrub(name, false), false))
  }

  function Shortened(name: string): string {
    if |name| <= MAX_CHARS then name
    else
      var dot := LastDot(name);
      if dot.None? || |name| - dot.value - 1 > MAX_SUFFIX then name[..MAX_CHARS]
      else name[..MAX_CHARS - (|name| - dot.value)] + name[dot.value..]
  }

  function Named(cleaned: string): string {
    if cleaned == "" then DEFAULT_NAME else Shortened(cleaned)
  }

  function SafeName(suggested: Option<string>): string {
    Named(Cleaned(suggested))
  }

  // ----- Properties of the name -----

  predicate AllAllowed(s: string) {
    forall i :: 0 <= i < |s| ==> Allowed(s[i])
  }

  ghost predicate DoubleDot(s: string) {
    exists i :: 0 < i < |s| && s[i - 1] == '.' && s[i] == '.'
  }

  lemma {:induction false} ScrubIs(s: string, inRun: bool)
    ensures AllAllowed(Scrub(s, inRun))
    ensures AllAllowed(s) ==> Scrub(s, inRun) == s
  {
    if s != "" {
      ScrubIs(s[1..], !Allowed(s[0]));
    }
  }

  lemma {:induction false} OneDotIs(s: string, afterDot: bool)
    requires AllAllowed(s)
    ensures var r := OneDot(s, afterDot);
            && AllAllowed(r) && |r| <= |s|
            && !DoubleDot(r) && (afterDot && r != "" ==> r[0] != '.')
            && (r == s <==> !DoubleDot(s) && !(afterDot && s != "" && s[0] == '.'))
  {
    if s != "" {
      var rest := s[1..];
      assert s == [s[0]] + rest;
      OneDotIs(rest, s[0] == '.');
      DoubleDotCons(s[0], rest);
      DoubleDotCons(s[0], OneDot(rest, s[0] == '.'));
    }
  }

  lemma DoubleDotCons(c: char, s: string)
    ensures DoubleDot([c] + s) <==> DoubleDot(s) || (c == '.' && s != "" && s[0] == '.')
  {
    var t := [c] + s;
    if DoubleDot(s) {
      var i :| 0 < i < |s| && s[i - 1] == '.' && s[i] == '.';
      assert t[i] == '.' && t[i + 1] == '.';
    }
    if c == '.' && s != "" && s[0] == '.' {
      assert t[0] == '.' && t[1] == '.';
    }
    if DoubleDot(t) {
      var i :| 0 < i < |t| && t[i - 1] == '.' && t[i] == '.';
      if i > 1 {
        assert s[i - 2] == '.' && s[i - 1] == '.';
      }
    }
  }

  lemma {:induction false} TrimLeftIs(s: string)
    ensures var r := TrimLeft(s);
            && |r| <= |s| && r == s[|s| - |r|..] && (r != "" ==> !Edge(r[0])) && (s != "" && !Edge(s[0]) ==> r == s)
            && (forall k :: 0 <= k < |s| - |r| ==> Edge(s[k]))
  {
    if s != "" && Edge(s[0]) {
      TrimLeftIs(s[1..]);
    }
  }

  lemma {:induction false} TrimEndIs(s: string)
    ensures var r := TrimEnd(s);
            && |r| <= |s| && r == s[..|r|] && (r != "" ==> !Edge(r[|r| - 1]))
            && (s != "" && !Edge(s[|s| - 1]) ==> r == s)
            && (forall k :: |r| <= k < |s| ==> Edge(s[k]))
  {
    if s != "" && Edge(s[|s| - 1]) {
      TrimEndIs(s[..|s| - 1]);
    }
  }

  /** Trimming cuts off both ends: it leaves a stretch of the name without an edge character
      at either side, all of it if there was none. */
  lemma TrimIs(s: string) returns (i: nat, j: nat)
    ensures i <= j <= |s| && Trim(s) == s[i..j]
    ensures forall k :: 0 <= k < i || j <= k < |s| ==> Edge(s[k])
    ensures i < j ==> !Edge(s[i]) && !Edge(s[j - 1])
    ensures Trim(s) == s <==> s == "" || (!Edge(s[0]) && !Edge(s[|s| - 1]))
  {
    var t := TrimLeft(s);
    var r := TrimEnd(t);
    TrimLeftIs(s);
    TrimEndIs(t);
    i := |s| - |t|;
    j := i + |r|;
    assert t[..|r|] == s[i..j];
    assert |r| > 0 ==> r[0] == t[0] && s[i] == r[0] && s[j - 1] == r[|r| - 1];
  }

  lemma SliceKeeps(s: string, i: nat, j: nat)
    requires i <= j <= |s| && AllAllowed(s) && !DoubleDot(s)
    ensures AllAllowed(s[i..j]) && !DoubleDot(s[i..j])
  {
    var r := s[i..j];
    forall k | 0 < k < |r| ensures !(r[k - 1] == '.' && r[k] == '.') {
      assert r[k - 1] == s[i + k - 1] && r[k] == s[i + k];
    }
  }

  lemma CleanedIs(suggested: Option<string>)
    ensures Clean(Cleaned(suggested))
  {
    var raw := Strip(if suggested.Some? then suggested.value else "");
    ScrubbedIs(LastPart(WindowsTail(LastPart(raw, '/')), '\\'));
  }

  lemma ScrubbedIs(name: string)
    ensures Clean(Trim(OneDot(Scrub(name, false), false)))
  {
    var scrubbed := Scrub(name, false);
    ScrubIs(name, false);
    OneDotIs(scrubbed, false);
    TrimmedIs(OneDot(scrubbed, false));
  }

  lemma TrimmedIs(s: string)
    requires AllAllowed(s) && !DoubleDot(s)
    ensures Clean(Trim(s))
  {
    var i, j := TrimIs(s);
    SliceKeeps(s, i, j);
  }

  ghost predicate Clean(name: string) {
    AllAllowed(name) && !DoubleDot(name) && (name != "" ==> !Edge(name[0]) && !Edge(name[|name| - 1]))
  }

  lemma NamedIs(name: string)
    requires Clean(name)
    ensures var r := Named(name);
            1 <= |r| <= MAX_CHARS && AllAllowed(r) && !Edge(r[0]) && (0 < |name| <= MAX_CHARS ==> r == name)
  {
  }

  lemma {:induction false} NamedDots(name: string)
    requires Clean(name)
    ensures var dot := LastDot(name);
            DoubleDot(Named(name)) <==>
            && |name| > MAX_CHARS && dot.Some? && |name| - dot.value - 1 <= MAX_SUFFIX
            && name[MAX_CHARS - (|name| - dot.value) - 1] == '.'
  {
    var dot := LastDot(name);
    if name == "" {
      assert Named(name) == DEFAULT_NAME && '.' !in DEFAULT_NAME;
    } else if |name| > MAX_CHARS {
      if dot.None? || |name| - dot.value - 1 > MAX_SUFFIX {
        assert Named(name) == name[0..MAX_CHARS];
        SliceKeeps(name, 0, MAX_CHARS);
      } else {
        JoinedDots(name, MAX_CHARS - (|name| - dot.value), dot.value);
      }
    }
  }

  /** Whatever a site suggests, the name is one plain path component: not empty, over the
      allowed letters (so without separators), not starting with a dot, at most 120 long. */
  lemma {:induction false} NameIsSafe(suggested: Option<string>)
    ensures var r := SafeName(suggested);
            && 1 <= |r| <= MAX_CHARS && AllAllowed(r)
            && '/' !in r && '\\' !in r
            && !Edge(r[0]) && r != "." && r != ".."
  {
    CleanedIs(suggested);
    NamedIs(Cleaned(suggested));
  }

  /** A name that had to be shortened in its stem ends up with two dots in a row exactly
      when the cut falls right behind a dot; no other name does. */
  lemma {:induction false} DoubleDotIff(suggested: Option<string>)
    ensures var name := Cleaned(suggested); var dot := LastDot(name);
            DoubleDot(SafeName(suggested)) <==>
            && |name| > MAX_CHARS && dot.Some? && |name| - dot.value - 1 <= MAX_SUFFIX
            && name[MAX_CHARS - (|name| - dot.value) - 1] == '.'
  {
    CleanedIs(suggested);
    NamedDots(Cleaned(suggested));
  }

  lemma JoinedDots(name: string, keep: nat, dot: nat)
    requires 0 < keep <= dot < |name| && name[dot] == '.' && !DoubleDot(name)
    ensures DoubleDot(name[..keep] + name[dot..]) <==> name[keep - 1] == '.'
  {
    var r := name[..keep] + name[dot..];
    assert r[keep - 1] == name[keep - 1] && r[keep] == '.';
    forall i | 0 < i < |r| && i != keep ensures !(r[i - 1] == '.' && r[i] == '.') {
      var at := if i < keep then i else i - keep + dot;
      assert r[i] == name[at] && r[i - 1] == name[at - 1];
    }
  }

  // ----- What is kept of a name -----

  /** Allowed characters are kept, and every run of others becomes one underscore. */
  lemma {:induction false} RunBecomesUnderscore(a: string, b: string, c: string)
    requires AllAllowed(a) && b != "" && (forall i :: 0 <= i < |b| ==> !Allowed(b[i]))
    requires c == "" || Allowed(c[0])
    ensures Scrub(a + b + c, false) == a + "_" + Scrub(c, false)
  {
    var s := a + b + c;
    if a != "" {
      assert s[1..] == a[1..] + b + c;
      RunBecomesUnderscore(a[1..], b, c);
      assert a == [a[0]] + a[1..];
    } else {
      assert s[1..] == b[1..] + c;
      InsideRun(b[1..], c);
    }
  }

  lemma {:induction false} InsideRun(b: string, c: string)
    requires (forall i :: 0 <= i < |b| ==> !Allowed(b[i])) && (c == "" || Allowed(c[0]))
    ensures Scrub(b + c, true) == Scrub(c, false)
  {
    if b != "" {
      assert (b + c)[1..] == b[1..] + c;
      InsideRun(b[1..], c);
    } else {
      assert b + c == c;
    }
  }

  /** Characters other than dots are kept, and every run of dots becomes one. */
  lemma {:induction false} RunBecomesDot(a: string, b: string, c: string)
    requires '.' !in a && b != "" && (forall i :: 0 <= i < |b| ==> b[i] == '.')
    requires c == "" || c[0] != '.'
    ensures OneDot(a + b + c, false) == a + "." + OneDot(c, false)
  {
    var s := a + b + c;
    if a != "" {
      assert s[1..] == a[1..] + b + c;
      RunBecomesDot(a[1..], b, c);
      assert a == [a[0]] + a[1..];
    } else {
      assert s[1..] == b[1..] + c;
      InsideDots(b[1..], c);
    }
  }

  lemma {:induction false} InsideDots(b: string, c: string)
    requires (forall i :: 0 <= i < |b| ==> b[i] == '.') && (c == "" || c[0] != '.')
    ensures OneDot(b + c, true) == OneDot(c, false)
  {
    if b != "" {
      assert (b + c)[1..] == b[1..] + c;
      InsideDots(b[1..], c);
    } else {
      assert b + c == c;
    }
  }

  /** A name that needs no cleaning is taken as it is, whatever blanks surround it. */
  lemma GoodNameIsKept(before: string, name: string, after: string)
    requires forall k :: 0 <= k < |before| ==> IsSpace(before[k])
    requires forall k :: 0 <= k < |after| ==> IsSpace(after[k])
    requires Clean(name) && 1 <= |name| <= 120
    ensures SafeName(Some(before + name + after)) == name
    ensures SafeName(None) == "download" == SafeName(Some(before))
  {
    StripPadded(before, name, after);
    PlainTail(name);
    ScrubIs(name, false);
    OneDotIs(name, false);
    var i, j := TrimIs(name);
    OnlyBlanks(before);
  }

  lemma OnlyBlanks(s: string)
    requires forall k :: 0 <= k < |s| ==> IsSpace(s[k])
    ensures Strip(s) == "" && Cleaned(Some(s)) == "" && Cleaned(None) == ""
  {
    assert SkipSpace(s, 0) == |s|;
    assert Trim("") == "";
  }

  /** A name that is too long is cut in its stem and keeps a short extension; without one it
      is cut at the end. */
  lemma ShorteningKeepsExtension(name: string)
    requires |name| > 120
    ensures var r := Shortened(name); var dot := LastDot(name);
            && |r| == 120
            && (dot.Some? && |name| - dot.value <= 17 ==>
                  var e := |name| - dot.value; r[120 - e..] == name[dot.value..] && r[..120 - e] == name[..120 - e])
            && (dot.None? || |name| - dot.value > 17 ==> r == name[..120])
  {
  }

  /** Separators at the end, and components that are a single dot, do not count. */
  lemma {:induction false} EmptyPartsAreSkipped(s: string, sep: char, part: string, last: string)
    requires sep != '.'
    ensures PartsFrom(s + [sep], sep, part, last) == PartsFrom(s, sep, part, last)
    ensures PartsFrom(s + [sep, '.'], sep, part, last) == PartsFrom(s, sep, part, last)
    decreases |s|
  {
    if s == "" {
      assert (s + [sep])[1..] == "" && (s + [sep, '.'])[1..] == "." && "."[1..] == "";
      assert "" + ['.'] == ".";
    } else {
      assert (s + [sep])[1..] == s[1..] + [sep] && (s + [sep, '.'])[1..] == s[1..] + [sep, '.'];
      if s[0] == sep {
        EmptyPartsAreSkipped(s[1..], sep, "", Later(part, last));
      } else {
        EmptyPartsAreSkipped(s[1..], sep, part + [s[0]], last);
      }
    }
  }

  /** A drive and a root are not part of any name. */
  lemma DriveIsDropped(drive: char, rest: string)
    requires drive != '\\'
    ensures WindowsTail([drive, ':', '\\'] + rest) == rest
    ensures rest == "" || rest[0] != '\\' ==> WindowsTail([drive, ':'] + rest) == rest
    ensures rest == "" || rest[0] != '\\' ==> WindowsTail(['\\'] + rest) == rest
  {
  }

  /** What is found behind a server and its share, wherever they start. */
  lemma BehindShare(s: string, start: nat, server: string, share: string, rest: string)
    requires start <= |s| && s[start..] == server + ['\\'] + share + ['\\'] + rest
    requires '\\' !in server && '\\' !in share
    ensures Find(s, "\\", start) == Some(start + |server|)
    ensures Find(s, "\\", start + |server| + 1) == Some(start + |server| + 1 + |share|)
    ensures s[start + |server| + |share| + 2..] == rest
  {
    var t := s[start..];
    assert t[..|server|] == server && t[|server| + 1..|server| + 1 + |share|] == share;
    assert t[|server|] == '\\' && t[|server| + 1 + |share|] == '\\';
    assert s[start..start + |server|] == server;
    assert s[start + |server| + 1..start + |server| + 1 + |share|] == share;
    NextBackslash(s, start, server);
    NextBackslash(s, start + |server| + 1, share);
    assert t[|server| + |share| + 2..] == rest;
  }

  lemma TailBehind(s: string, start: nat, server: string, share: string, rest: string)
    requires |s| >= 2 && s[0] == '\\' && s[1] == '\\' && start <= |s|
    requires start == if |s| >= 8 && Upper(s[..8]) == UNC_PREFIX then 8 else 2
    requires s[start..] == server + ['\\'] + share + ['\\'] + rest && '\\' !in server && '\\' !in share
    ensures WindowsTail(s) == rest
  {
    BehindShare(s, start, server, share, rest);
  }

  /** Nor is a network share: two backslashes, a server and what it shares. */
  lemma ShareIsDropped(server: string, share: string, rest: string)
    requires server != "" && server[0] != '?' && '\\' !in server && '\\' !in share
    ensures WindowsTail(['\\', '\\'] + (server + ['\\'] + share + ['\\'] + rest)) == rest
  {
    var s := ['\\', '\\'] + (server + ['\\'] + share + ['\\'] + rest);
    assert s[2..] == server + ['\\'] + share + ['\\'] + rest && s[2] == server[0];
    NotUnc(s);
    TailBehind(s, 2, server, share, rest);
  }

  /** A share alone leaves no name. */
  lemma ShareHasNoName(server: string, share: string)
    requires server != "" && server[0] != '?' && '\\' !in server && '\\' !in share
    ensures WindowsTail(['\\', '\\'] + server + ['\\'] + share) == ""
  {
    var s := ['\\', '\\'] + server + ['\\'] + share;
    assert s[2..2 + |server|] == server && s[3 + |server|..] == share;
    NotUnc(s);
    NextBackslash(s, 2, server);
    NoBackslash(s, 3 + |server|);
  }

  /** A share behind the long prefix of Windows is dropped too, in either case of its letters. */
  lemma LongShareIsDropped(server: string, share: string, rest: string)
    requires '\\' !in server && '\\' !in share
    ensures WindowsTail("\\\\?\\UNC\\" + (server + ['\\'] + share + ['\\'] + rest)) == rest
    ensures WindowsTail("\\\\?\\unc\\" + (server + ['\\'] + share + ['\\'] + rest)) == rest
    ensures WindowsTail("\\\\?\\UNC\\") == ""
  {
    assert Upper("\\\\?\\UNC\\") == UNC_PREFIX && Upper("\\\\?\\unc\\") == UNC_PREFIX;
    BehindPrefix("\\\\?\\UNC\\", server, share, rest);
    BehindPrefix("\\\\?\\unc\\", server, share, rest);
    assert "\\\\?\\UNC\\"[..8] == UNC_PREFIX;
    NoBackslash("\\\\?\\UNC\\", 8);
  }

  lemma BehindPrefix(prefix: string, server: string, share: string, rest: string)
    requires |prefix| == 8 && Upper(prefix) == UNC_PREFIX && prefix[0] == '\\' && prefix[1] == '\\'
    requires '\\' !in server && '\\' !in share
    ensures WindowsTail(prefix + (server + ['\\'] + share + ['\\'] + rest)) == rest
  {
    var s := prefix + (server + ['\\'] + share + ['\\'] + rest);
    assert s[..8] == prefix && s[8..] == server + ['\\'] + share + ['\\'] + rest;
    TailBehind(s, 8, server, share, rest);
  }

  lemma NotUnc(s: string)
    requires |s| > 2 && s[2] != '?'
    ensures |s| >= 8 ==> Upper(s[..8]) != UNC_PREFIX
  {
    assert |s| >= 8 ==> Upper(s[..8])[2] != '?' == UNC_PREFIX[2];
  }

  lemma NextBackslash(s: string, from: nat, x: string)
    requires from + |x| < |s| && s[from..from + |x|] == x && '\\' !in x && s[from + |x|] == '\\'
    ensures Find(s, "\\", from) == Some(from + |x|)
  {
    assert StartsAt(s, from + |x|, "\\");
    forall k | from <= k < from + |x| ensures !StartsAt(s, k, "\\") {
      assert s[k] == s[from..from + |x|][k - from];
      assert s[k..k + 1][0] == s[k];
    }
  }

  lemma NoBackslash(s: string, from: nat)
    requires forall k :: from <= k < |s| ==> s[k] != '\\'
    ensures Find(s, "\\", from).None?
  {
    forall k | from <= k ensures !StartsAt(s, k, "\\") {
      if k + 1 <= |s| {
        assert s[k..k + 1][0] == s[k];
      }
    }
  }

  // ----- Applying it twice -----

  lemma {:induction false} PlainPart(s: string, sep: char, part: string, last: string)
    requires sep !in s && sep !in part && part + s != "" && part + s != "."
    ensures PartsFrom(s, sep, part, last) == part + s
    decreases |s|
  {
    if s == "" {
      assert part + s == part;
    } else {
      assert part + [s[0]] + s[1..] == part + s;
      PlainPart(s[1..], sep, part + [s[0]], last);
    }
  }

  lemma {:induction false} PartAfter(pre: string, sep: char, base: string, part: string, last: string)
    requires sep !in base && base != "" && base != "."
    ensures PartsFrom(pre + [sep] + base, sep, part, last) == base
    decreases |pre|
  {
    var s := pre + [sep] + base;
    if pre == "" {
      assert s[1..] == base && "" + base == base;
      PlainPart(base, sep, "", Later(part, last));
    } else {
      assert s[1..] == pre[1..] + [sep] + base;
      if pre[0] == sep {
        PartAfter(pre[1..], sep, base, "", Later(part, last));
      } else {
        PartAfter(pre[1..], sep, base, part + [pre[0]], last);
      }
    }
  }

  /** Directories are discarded, not flattened into the name: under the POSIX separator
      always, under the Windows one behind any relative prefix. */
  lemma DirectoriesAreDiscarded(pre: string, base: string)
    requires base != "" && base != "." && '/' !in base && '\\' !in base
    ensures LastPart(pre + ['/'] + base, '/') == base
    ensures pre != "" && pre[0] != '\\' && (|pre| > 1 ==> pre[1] != ':') ==>
              LastPart(WindowsTail(pre + ['\\'] + base), '\\') == base
  {
    PartAfter(pre, '/', base, "", "");
    PartAfter(pre, '\\', base, "", "");
    if pre != "" {
      var s := pre + ['\\'] + base;
      assert s[0] == pre[0] && s[1] == if |pre| > 1 then pre[1] else '\\';
    }
  }

  lemma PlainTail(r: string)
    requires r != "" && AllAllowed(r) && !Edge(r[0])
    ensures LastPart(WindowsTail(LastPart(r, '/')), '\\') == r
  {
    assert '/' !in r && '\\' !in r && ':' !in r && r != ".";
    PlainPart(r, '/', "", "");
    PlainPart(r, '\\', "", "");
    assert "" + r == r;
    assert WindowsTail(r) == r;
  }

  lemma {:induction false} CleanedOfSafe(r: string)
    requires r != "" && AllAllowed(r) && !Edge(r[0])
    ensures Cleaned(Some(r)) == Trim(OneDot(r, false))
  {
    StripUnpadded(r);
    PlainTail(r);
    ScrubIs(r, false);
  }

  lemma TrimOneDot(r: string)
    requires r != "" && AllAllowed(r) && !Edge(r[0])
    ensures var again := Trim(OneDot(r, false));
            |again| <= |r| && (again == r <==> !DoubleDot(r) && !Edge(r[|r| - 1]))
  {
    var d := OneDot(r, false);
    OneDotIs(r, false);
    var i, j := TrimIs(d);
  }

  lemma {:induction false} NamedTwice(r: string)
    requires 1 <= |r| <= MAX_CHARS && AllAllowed(r) && !Edge(r[0])
    ensures SafeName(Some(r)) == r <==> !DoubleDot(r) && !Edge(r[|r| - 1])
  {
    CleanedOfSafe(r);
    TrimOneDot(r);
    CleanedIs(Some(r));
    NamedIs(Cleaned(Some(r)));
    FirstSurvives(r);
  }

  /** Something is left: the first character is never removed. */
  lemma FirstSurvives(r: string)
    requires r != "" && AllAllowed(r) && !Edge(r[0])
    ensures Trim(OneDot(r, false)) != ""
  {
    var d := OneDot(r, false);
    assert d != "" && d[0] == r[0];
    TrimLeftIs(d);
    EndKeepsFirst(d);
  }

  lemma {:induction false} EndKeepsFirst(s: string)
    requires s != "" && !Edge(s[0])
    ensures TrimEnd(s) != ""
  {
    if Edge(s[|s| - 1]) {
      EndKeepsFirst(s[..|s| - 1]);
    }
  }

  lemma NamedAgain(name: string)
    requires Clean(name) && |name| <= MAX_CHARS
    ensures !DoubleDot(Named(name)) && !Edge(Named(name)[|Named(name)| - 1])
  {
    if name == "" {
      assert '.' !in DEFAULT_NAME && !Edge(DEFAULT_NAME[|DEFAULT_NAME| - 1]);
    }
  }

  lemma {:induction false} Stable(name: string, r: string)
    requires Clean(name) && r == Named(name)
    ensures SafeName(Some(r)) == r <==> !DoubleDot(r) && !Edge(r[|r| - 1])
    ensures |name| <= MAX_CHARS ==> SafeName(Some(r)) == r
  {
    NamedIs(name);
    NamedTwice(r);
    if |name| <= MAX_CHARS {
      NamedAgain(name);
    }
  }

  /** Cleaning a name again changes nothing exactly when it has no two dots in a row and
      does not end in a dot or an underscore. Only shortening can produce either. */
  lemma {:induction false} IdempotentIff(suggested: Option<string>)
    ensures var r := SafeName(suggested);
            SafeName(Some(r)) == r <==> !DoubleDot(r) && !Edge(r[|r| - 1])
    ensures |Cleaned(suggested)| <= MAX_CHARS ==> SafeName(Some(SafeName(suggested))) == SafeName(suggested)
  {
    CleanedIs(suggested);
    Stable(Cleaned(suggested), SafeName(suggested));
  }

  // ----- A path nobody uses yet -----

  /** Paths are lists of components. */
  type Path = seq<string>

  datatype Placed = At(path: Path) | Refused

  function SuffixAt(name: string): (at: nat)
    ensures at <= |name|
  {
    var dot := LastDot(name);
    if dot.Some? then dot.value else |name|
  }

  /** The number goes before the last dot, or at the end. */
  function Suffixed(name: string, k: nat): string {
    name[..SuffixAt(name)] + ("-" + Decimal.Print(k) + name[SuffixAt(name)..])
  }

  lemma InsertedDiffer(pre: string, x: string, y: string, post: string)
    requires pre + ("-" + x + post) == pre + ("-" + y + post)
    ensures x == y
  {
    var s, t := "-" + x + post, "-" + y + post;
    assert (pre + s)[|pre|..] == s && (pre + t)[|pre|..] == t;
    assert |x| == |y| && s[1..1 + |x|] == x && t[1..1 + |y|] == y;
  }

  lemma SuffixedDiffer(name: string, j: nat, k: nat)
    ensures |Suffixed(name, k)| > |name|
    ensures Suffixed(name, j) == Suffixed(name, k) ==> j == k
  {
    Decimal.ParsePrint(j);
    Decimal.ParsePrint(k);
    if Suffixed(name, j) == Suffixed(name, k) {
      InsertedDiffer(name[..SuffixAt(name)], Decimal.Print(j), Decimal.Print(k), name[SuffixAt(name)..]);
    }
  }

  /** The name and its numbered forms below `counter`. */
  ghost function Tried(name: string, counter: nat): set<string> {
    if counter <= 2 then {name} else Tried(name, counter - 1) + {Suffixed(name, counter - 1)}
  }

  lemma {:induction false} NotTried(name: string, counter: nat, k: nat)
    requires counter <= k
    ensures Suffixed(name, k) !in Tried(name, counter)
  {
    SuffixedDiffer(name, k, k);
    if counter > 2 {
      NotTried(name, counter - 1, k);
      SuffixedDiffer(name, counter - 1, k);
    }
  }

  ghost predicate Taken(name: string, k: nat, existing: set<string>) {
    name in existing && forall j: nat :: 2 <= j < k ==> Suffixed(name, j) in existing
  }

  lemma Shrinks(existing: set<string>, tried: set<string>, c: string)
    requires c in existing && c !in tried
    ensures |existing - (tried + {c})| < |existing - tried|
  {
    assert existing - (tried + {c}) == (existing - tried) - {c};
  }

  /** The first free name among the safe name and its numbered forms from 2 on. */
  method FreeName(name: string, existing: set<string>) returns (candidate: string)
    ensures candidate !in existing
    ensures candidate == name || exists k: nat :: k >= 2 && candidate == Suffixed(name, k) && Taken(name, k, existing)
  {
    candidate := name;
    if candidate !in existing {
      return;
    }
    candidate := Suffixed(name, 2);
    var counter := 2;
    while candidate in existing
      invariant counter >= 2 && candidate == Suffixed(name, counter) && Taken(name, counter, existing)
      decreases |existing - Tried(name, counter)|
    {
      NotTried(name, counter, counter);
      Shrinks(existing, Tried(name, counter), candidate);
      counter := counter + 1;
      candidate := Suffixed(name, counter);
    }
  }

  /** `existing` are the entries of the target directory. The path is refused exactly when
      the directory is outside the root. Otherwise it is a single new component in it: the
      safe name if that is free, else the safe name with the least free number from 2. */
  method ResolvePath(root: Path, directory: Path, suggested: Option<string>, existing: set<string>)
    returns (r: Placed)
    ensures r.At? <==> root <= directory
    ensures r.At? ==>
              && |r.path| == |directory| + 1 && r.path[..|directory|] == directory && root <= r.path
              && r.path[|directory|] !in existing
    ensures var name := SafeName(suggested);
            r.At? ==> r.path[|directory|] == name
                      || exists k: nat :: k >= 2 && r.path[|directory|] == Suffixed(name, k) && Taken(name, k, existing)
  {
    if !(root <= directory) {
      return Refused;
    }
    var candidate := FreeName(SafeName(suggested), existing);
    r := At(directory + [candidate]);
    if !(root <= r.path) {
      r := Refused;
    }
  }

  /** A numbered name is still one plain component. */
  lemma SuffixedIsSafe(name: string, k: nat)
    requires name != "" && AllAllowed(name) && !Edge(name[0])
    ensures AllAllowed(Suffixed(name, k)) && !Edge(Suffixed(name, k)[0])
    ensures '/' !in Suffixed(name, k) && '\\' !in Suffixed(name, k)
  {
    Decimal.PrintChars(k);
  }
}
