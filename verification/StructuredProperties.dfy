/** The scanner reads past every well-formed JSON value without losing its place, so the
    document found in a reply is the one that was written. */
module StructuredProperties {
  import opened Wrappers
  import opened Text
  import opened Structured
  import J = JsonText

  // ----- Reading several characters -----

  /** The scanner after `s`, if the outermost bracket has not closed by then. */
  function FeedAll(p: Pair, st: Scanner, s: string): Option<Scanner>
    decreases |s|
  {
    if s == "" then Some(st)
    else
      var next := Feed(p, st, s[0]);
      if next.None? then None else FeedAll(p, next.value, s[1..])
  }

  lemma {:induction false} FeedAppend(p: Pair, st: Scanner, a: string, b: string)
    ensures FeedAll(p, st, a + b) ==
            if FeedAll(p, st, a).Some? then FeedAll(p, FeedAll(p, st, a).value, b) else None
    decreases |a|
  {
    if a == "" {
      assert a + b == b;
    } else {
      assert (a + b)[1..] == a[1..] + b;
      var next := Feed(p, st, a[0]);
      if next.Some? {
        FeedAppend(p, next.value, a[1..], b);
      }
    }
  }

  lemma FeedOne(p: Pair, st: Scanner, c: char)
    ensures FeedAll(p, st, [c]) == Feed(p, st, c)
  {
    assert [c][1..] == "";
  }

  /** A scan that is still open after `a` goes on in `b`. */
  lemma {:induction false} LengthAppend(p: Pair, st: Scanner, a: string, b: string)
    requires FeedAll(p, st, a).Some?
    ensures var rest := Length(p, FeedAll(p, st, a).value, b);
            Length(p, st, a + b) == if rest.Some? then Some(|a| + rest.value) else None
    decreases |a|
  {
    if a == "" {
      assert a + b == b;
    } else {
      assert (a + b)[1..] == a[1..] + b;
      LengthAppend(p, Feed(p, st, a[0]).value, a[1..], b);
    }
  }

  // ----- Values keep the scanner where it was -----

  /** Inside brackets and outside strings, at any depth, `s` leaves no trace. */
  ghost predicate Neutral(p: Pair, s: string) {
    forall d :: d >= 1 ==> FeedAll(p, Scanner(d, false, false), s) == Some(Scanner(d, false, false))
  }

  predicate Ordinary(c: char) {
    c != '\\' && c != '"' && c != '{' && c != '}' && c != '[' && c != ']'
  }

  lemma {:induction false} OrdinaryIsNeutral(p: Pair, s: string)
    requires forall i :: 0 <= i < |s| ==> Ordinary(s[i])
    ensures Neutral(p, s)
    decreases |s|
  {
    if s != "" {
      OrdinaryIsNeutral(p, s[1..]);
    }
  }

  lemma NeutralAppend(p: Pair, a: string, b: string)
    requires Neutral(p, a) && Neutral(p, b)
    ensures Neutral(p, a + b)
  {
    forall d | d >= 1 ensures FeedAll(p, Scanner(d, false, false), a + b) == Some(Scanner(d, false, false)) {
      FeedAppend(p, Scanner(d, false, false), a, b);
    }
  }

  lemma UnitInString(p: Pair, u: J.Unit, d: int)
    requires u.Valid()
    ensures FeedAll(p, Scanner(d, true, false), u.Print()) == Some(Scanner(d, true, false))
  {
    var st := Scanner(d, true, false);
    match u
    case Plain(c) =>
      assert FeedAll(p, st, [c]) == FeedAll(p, st, [c][1..]);
    case Short(c) =>
      assert ['\\', c][1..] == [c];
      assert FeedAll(p, st.(escape := true), [c]) == FeedAll(p, st, [c][1..]);
    case Hex(h) =>
      var s := u.Print();
      assert s == ['\\', 'u'] + h && s[1..] == ['u'] + h && s[1..][1..] == h;
      HexInString(p, h, d);
  }

  lemma {:induction false} HexInString(p: Pair, h: string, d: int)
    requires forall i :: 0 <= i < |h| ==> J.IsHex(h[i])
    ensures FeedAll(p, Scanner(d, true, false), h) == Some(Scanner(d, true, false))
    decreases |h|
  {
    if h != "" {
      HexInString(p, h[1..], d);
    }
  }

  lemma {:induction false} UnitsInString(p: Pair, units: seq<J.Unit>, d: int)
    requires J.ValidUnits(units)
    ensures FeedAll(p, Scanner(d, true, false), J.PrintUnits(units)) == Some(Scanner(d, true, false))
  {
    if units != [] {
      UnitInString(p, units[0], d);
      UnitsInString(p, units[1..], d);
      FeedAppend(p, Scanner(d, true, false), units[0].Print(), J.PrintUnits(units[1..]));
    }
  }

  /** Braces, quotes and backslashes inside a string do not count. */
  lemma QuotedIsNeutral(p: Pair, units: seq<J.Unit>)
    requires J.ValidUnits(units)
    ensures Neutral(p, J.Quoted(units))
  {
    var body := J.PrintUnits(units);
    forall d | d >= 1 ensures FeedAll(p, Scanner(d, false, false), J.Quoted(units)) == Some(Scanner(d, false, false)) {
      UnitsInString(p, units, d);
      FeedAppend(p, Scanner(d, true, false), body, "\"");
      assert "\""[1..] == "";
      assert FeedAll(p, Scanner(d, true, false), "\"") == Some(Scanner(d, false, false));
      assert J.Quoted(units) == "\"" + (body + "\"");
      assert J.Quoted(units)[1..] == body + "\"";
    }
  }

  /** The other kind of bracket is an ordinary character. */
  lemma OtherBracketIsNeutral(p: Pair, c: char)
    requires if p.Braces? then c == '[' || c == ']' else c == '{' || c == '}'
    ensures Neutral(p, [c])
  {
    forall d | d >= 1 ensures FeedAll(p, Scanner(d, false, false), [c]) == Some(Scanner(d, false, false)) {
      FeedOne(p, Scanner(d, false, false), c);
    }
  }

  /** A nested pair of the counted kind opens and closes one level. */
  lemma NestedAtDepth(p: Pair, body: string, d: int)
    requires Neutral(p, body) && d >= 1
    ensures FeedAll(p, Scanner(d, false, false), [p.Open()] + body + [p.Close()]) == Some(Scanner(d, false, false))
  {
    var st, inside := Scanner(d, false, false), Scanner(d + 1, false, false);
    FeedOne(p, st, p.Open());
    FeedAppend(p, st, [p.Open()], body);
    assert FeedAll(p, inside, body) == Some(inside);
    FeedOne(p, inside, p.Close());
    FeedAppend(p, st, [p.Open()] + body, [p.Close()]);
  }

  lemma {:induction false} NestedIsNeutral(p: Pair, body: string)
    requires Neutral(p, body)
    ensures Neutral(p, [p.Open()] + body + [p.Close()])
  {
    forall d | d >= 1
      ensures FeedAll(p, Scanner(d, false, false), [p.Open()] + body + [p.Close()]) == Some(Scanner(d, false, false))
    {
      NestedAtDepth(p, body, d);
    }
  }

  lemma {:induction false} WrappedIsNeutral(p: Pair, q: Pair, body: string)
    requires Neutral(p, body)
    ensures Neutral(p, [q.Open()] + body + [q.Close()])
  {
    if p == q {
      NestedIsNeutral(p, body);
    } else {
      OtherBracketIsNeutral(p, q.Open());
      OtherBracketIsNeutral(p, q.Close());
      NeutralAppend(p, [q.Open()], body);
      NeutralAppend(p, [q.Open()] + body, [q.Close()]);
    }
  }

  lemma {:induction false} ValueIsNeutral(p: Pair, v: J.Value)
    requires J.Valid(v)
    ensures Neutral(p, J.Print(v))
    decreases v
  {
    match v
    case Word(text) => OrdinaryIsNeutral(p, text);
    case Text(units) => QuotedIsNeutral(p, units);
    case Array(items) =>
      ItemsAreNeutral(p, items);
      WrappedIsNeutral(p, Brackets, J.PrintItems(items));
    case Object(members) =>
      MembersAreNeutral(p, members);
      WrappedIsNeutral(p, Braces, J.PrintMembers(members));
  }

  lemma {:induction false} ItemsAreNeutral(p: Pair, items: J.Items)
    requires J.ValidItems(items)
    ensures Neutral(p, J.PrintItems(items))
    decreases items
  {
    match items
    case NoItems(blank) => OrdinaryIsNeutral(p, blank);
    case LastItem(before, value, after) =>
      OrdinaryIsNeutral(p, before);
      ValueIsNeutral(p, value);
      OrdinaryIsNeutral(p, after);
      NeutralAppend(p, J.Print(value), after);
      NeutralAppend(p, before, J.Print(value) + after);
    case Item(before, value, after, rest) =>
      OrdinaryIsNeutral(p, before);
      ValueIsNeutral(p, value);
      OrdinaryIsNeutral(p, after);
      OrdinaryIsNeutral(p, ",");
      ItemsAreNeutral(p, rest);
      NeutralAppend(p, ",", J.PrintItems(rest));
      NeutralAppend(p, after, "," + J.PrintItems(rest));
      NeutralAppend(p, J.Print(value), after + ("," + J.PrintItems(rest)));
      NeutralAppend(p, before, J.Print(value) + (after + ("," + J.PrintItems(rest))));
  }

  lemma EntryIsNeutral(p: Pair, key: seq<J.Unit>, b1: string, b2: string, value: string, after: string)
    requires J.ValidUnits(key) && J.IsBlank(b1) && J.IsBlank(b2) && J.IsBlank(after)
    requires Neutral(p, value)
    ensures Neutral(p, J.PrintEntry(key, b1, b2, value, after))
  {
    QuotedIsNeutral(p, key);
    OrdinaryIsNeutral(p, b1);
    OrdinaryIsNeutral(p, b2);
    OrdinaryIsNeutral(p, after);
    OrdinaryIsNeutral(p, ":");
    NeutralAppend(p, value, after);
    NeutralAppend(p, b2, value + after);
    NeutralAppend(p, ":", b2 + (value + after));
    NeutralAppend(p, b1, ":" + (b2 + (value + after)));
    NeutralAppend(p, J.Quoted(key), b1 + (":" + (b2 + (value + after))));
  }

  lemma {:induction false} MembersAreNeutral(p: Pair, members: J.Members)
    requires J.ValidMembers(members)
    ensures Neutral(p, J.PrintMembers(members))
    decreases members
  {
    match members
    case NoMembers(blank) => OrdinaryIsNeutral(p, blank);
    case LastMember(before, key, b1, b2, value, after) =>
      OrdinaryIsNeutral(p, before);
      ValueIsNeutral(p, value);
      EntryIsNeutral(p, key, b1, b2, J.Print(value), after);
      NeutralAppend(p, before, J.PrintEntry(key, b1, b2, J.Print(value), after));
    case Member(before, key, b1, b2, value, after, rest) =>
      OrdinaryIsNeutral(p, before);
      ValueIsNeutral(p, value);
      EntryIsNeutral(p, key, b1, b2, J.Print(value), after);
      OrdinaryIsNeutral(p, ",");
      MembersAreNeutral(p, rest);
      NeutralAppend(p, ",", J.PrintMembers(rest));
      NeutralAppend(p, J.PrintEntry(key, b1, b2, J.Print(value), after), "," + J.PrintMembers(rest));
      NeutralAppend(p, before, J.PrintEntry(key, b1, b2, J.Print(value), after) + ("," + J.PrintMembers(rest)));
  }

  // ----- What is found in a reply -----

  /** The scan of a bracketed value ends at its own closing bracket, whatever follows. */
  lemma ScanEndsAtClose(p: Pair, body: string, post: string)
    requires Neutral(p, body)
    ensures Length(p, START, [p.Open()] + body + [p.Close()] + post) == Some(|body| + 2)
  {
    var tail := [p.Close()] + post;
    var one := Scanner(1, false, false);
    assert FeedAll(p, one, body) == Some(one);
    LengthAppend(p, one, body, tail);
    var s := [p.Open()] + body + [p.Close()] + post;
    assert s[1..] == body + tail;
    assert Length(p, one, tail) == Some(1);
  }

  lemma {:induction false} FindAt(s: string, p: string, from: nat, k: nat)
    requires from <= k && StartsAt(s, k, p)
    requires forall i :: from <= i < k ==> !StartsAt(s, i, p)
    ensures Find(s, p, from) == Some(k)
    decreases k - from
  {
    if from < k {
      assert !StartsAt(s, from, p);
      FindAt(s, p, from + 1, k);
    }
  }

  lemma FirstChar(pre: string, c: char, rest: string)
    requires c !in pre
    ensures Find(pre + [c] + rest, [c], 0) == Some(|pre|)
  {
    var s := pre + [c] + rest;
    forall i | 0 <= i < |pre| ensures !StartsAt(s, i, [c]) {
      assert s[i..i + 1] == [pre[i]];
    }
    assert s[|pre|..|pre| + 1] == [c];
    FindAt(s, [c], 0, |pre|);
  }

  function Inside(v: J.Value): string
    requires v.Object? || v.Array?
  {
    if v.Object? then J.PrintMembers(v.members) else J.PrintItems(v.items)
  }

  lemma WrappedFound(p: Pair, pre: string, inside: string, post: string)
    requires Neutral(p, inside) && p.Open() !in pre
    ensures Balanced(p, pre + [p.Open()] + (inside + [p.Close()] + post)) == Some([p.Open()] + inside + [p.Close()])
  {
    var text := pre + [p.Open()] + (inside + [p.Close()] + post);
    FirstChar(pre, p.Open(), inside + [p.Close()] + post);
    assert text[|pre|..] == [p.Open()] + inside + [p.Close()] + post;
    ScanEndsAtClose(p, inside, post);
    assert text[|pre|..|pre| + |inside| + 2] == [p.Open()] + inside + [p.Close()];
  }

  lemma SpanFound(p: Pair, pre: string, v: J.Value, post: string)
    requires J.Valid(v) && (if p.Braces? then v.Object? else v.Array?)
    requires p.Open() !in pre
    ensures Balanced(p, pre + J.Print(v) + post) == Some(J.Print(v))
  {
    var inside := Inside(v);
    if p.Braces? {
      MembersAreNeutral(p, v.members);
    } else {
      ItemsAreNeutral(p, v.items);
    }
    assert J.Print(v) == [p.Open()] + inside + [p.Close()];
    assert pre + J.Print(v) + post == pre + [p.Open()] + (inside + [p.Close()] + post);
    WrappedFound(p, pre, inside, post);
  }

  /** An object written into a reply is returned exactly, whatever its strings contain and
      whatever follows it, if no fenced block and no brace comes before it. */
  lemma ObjectFound(pre: string, v: J.Value, post: string)
    requires v.Object? && J.Valid(v) && '{' !in pre
    requires Fenced(pre + J.Print(v) + post).None?
    ensures Extract(pre + J.Print(v) + post) == J.Print(v)
  {
    SpanFound(Braces, pre, v, post);
  }

  /** An array is returned exactly if and only if no balanced pair of braces occurs in the
      whole reply, inside the array or after it. */
  lemma ArrayFoundIff(pre: string, v: J.Value, post: string)
    requires v.Array? && J.Valid(v) && '[' !in pre
    requires Fenced(pre + J.Print(v) + post).None?
    ensures Extract(pre + J.Print(v) + post) == J.Print(v) <==> Balanced(Braces, pre + J.Print(v) + post).None?
  {
    var text := pre + J.Print(v) + post;
    SpanFound(Brackets, pre, v, post);
    var span := Balanced(Braces, text);
    if span.Some? {
      assert span.value[0] == '{' && J.Print(v)[0] == '[';
    }
  }

  /** A reply without any bracket is returned whole, without the blanks around it. */
  lemma NothingFound(before: string, body: string, after: string)
    requires forall k :: 0 <= k < |before| ==> IsSpace(before[k])
    requires forall k :: 0 <= k < |after| ==> IsSpace(after[k])
    requires body != "" && !IsSpace(body[0]) && !IsSpace(body[|body| - 1])
    requires var text := before + body + after; '{' !in text && '[' !in text && Fenced(text).None?
    ensures Extract(before + body + after) == body
  {
    var text := before + body + after;
    NoBracket(text, Braces);
    NoBracket(text, Brackets);
    StripPadded(before, body, after);
  }

  lemma NoBracket(text: string, p: Pair)
    requires p.Open() !in text
    ensures Balanced(p, text).None?
  {
    forall i | 0 <= i ensures !StartsAt(text, i, [p.Open()]) {
      if i + 1 <= |text| {
        assert text[i..i + 1] == [text[i]];
      }
    }
  }

  /** A fenced block needs two fence marks: one that opens it and, behind it, one that closes. */
  lemma FenceNeedsTwoMarks(text: string)
    ensures Fenced(text).Some? ==>
              exists i: nat, j: nat :: i + 3 <= j && StartsAt(text, i, "```") && StartsAt(text, j, "```")
  {
    assert FENCE == "```";
    if Fenced(text).Some? {
      var i := Find(text, FENCE, 0).value;
      var j := Find(text, FENCE, Content(text, i + 3)).value;
      assert i + 3 <= j && StartsAt(text, i, "```") && StartsAt(text, j, "```");
    }
  }

  /** So a list whose first element is an object is never returned: its first element is. */
  lemma ListOfObjectsLosesTheList(pre: string, list: J.Value, post: string)
    requires list.Array? && J.Valid(list) && '{' !in pre
    requires list.items.LastItem? || list.items.Item?
    requires list.items.value.Object?
    requires Fenced(pre + J.Print(list) + post).None?
    ensures Extract(pre + J.Print(list) + post) == J.Print(list.items.value)
  {
    var items := list.items;
    var v := items.value;
    var before := pre + "[" + items.before;
    assert forall i :: 0 <= i < |items.before| ==> items.before[i] != '{';
    var after := if items.LastItem? then items.after + "]" + post
                 else items.after + ("," + J.PrintItems(items.rest)) + "]" + post;
    assert pre + J.Print(list) + post == before + J.Print(v) + after;
    SpanFound(Braces, before, v, after);
  }

  lemma SubSlice(s: string, a: nat, b: nat, i: nat, j: nat)
    requires a <= b <= |s| && i <= j <= b - a
    ensures s[a..b][i..j] == s[a + i..a + j]
  {
    forall k | 0 <= k < j - i ensures s[a..b][i..j][k] == s[a + i..a + j][k] {
      assert s[a..b][i..j][k] == s[a..b][i + k];
    }
  }

  lemma Thirds(text: string, a: nat, end: nat, x: string, y: string, z: string)
    requires a <= end <= |text| && text[a..end] == x + y + z
    ensures end == a + |x| + |y| + |z|
    ensures text[a..a + |x|] == x && text[a + |x|..a + |x| + |y|] == y && text[a + |x| + |y|..end] == z
  {
    var t := text[a..end];
    assert |t| == end - a && |t| == |x| + |y| + |z|;
    SubSlice(text, a, end, 0, |x|);
    SubSlice(text, a, end, |x|, |x| + |y|);
    SubSlice(text, a, end, |x| + |y|, end - a);
    assert t[0..|x|] == x && t[|x|..|x| + |y|] == y && t[|x| + |y|..end - a] == z;
  }

  lemma TagSeen(text: string, i: nat, tag: string, next: string)
    requires i + |tag| <= |text| && (tag == "" || tag == "json") && text[i..i + |tag|] == tag
    requires next != "" && next[0] != 'j' && next <= text[i + |tag|..]
    ensures StartsAt(text, i, "json") <==> tag == "json"
  {
    if tag == "" {
      assert text[i] == text[i..][0] == next[0];
      assert i + 4 <= |text| ==> text[i..i + 4][0] == text[i];
    }
  }

  lemma BlankEnds(text: string, from: nat, blank: string, doc: string, end: nat)
    requires from + |blank| <= end <= |text| && text[from..from + |blank|] == blank
    requires text[from + |blank|..end] == doc && J.IsBlank(blank) && doc != "" && doc[0] == '{'
    ensures SkipSpace(text, from) == from + |blank|
  {
    var stop := from + |blank|;
    assert text[stop] == text[stop..end][0];
    forall i | from <= i < stop ensures IsSpace(text[i]) {
      assert text[i] == text[from..stop][i - from];
    }
    SpaceEnds(text, from, stop);
  }

  /** Behind the fence at `i`: the tag is recognised and the blank space ends at the document. */
  lemma HeadRead(text: string, i: nat, end: nat, tag: string, blank: string, doc: string)
    requires i <= end <= |text| && text[i..end] == tag + blank + doc
    requires (tag == "" || tag == "json") && J.IsBlank(blank) && doc != "" && doc[0] == '{'
    ensures i + |tag| + |blank| <= end && text[i + |tag| + |blank|..end] == doc
    ensures Content(text, i) == i + |tag| + |blank|
  {
    var tagged := i + |tag|;
    var from := tagged + |blank|;
    Thirds(text, i, end, tag, blank, doc);
    assert blank + doc <= text[tagged..] by {
      assert text[tagged..from] + text[from..end] == text[tagged..end] <= text[tagged..];
    }
    TagSeen(text, i, tag, blank + doc);
    BlankEnds(text, tagged, blank, doc, end);
  }

  lemma {:induction false} FindLater(s: string, p: string, from: nat, later: nat, k: nat)
    requires Find(s, p, from) == Some(k) && from <= later <= k
    ensures Find(s, p, later) == Some(k)
    decreases later - from
  {
    if from < later {
      FindLater(s, p, from + 1, later, k);
    }
  }

  lemma ExtractFenced(text: string, k: nat, from: nat, end: nat, doc: string)
    requires k + 3 <= |text| && Find(text, FENCE, 0) == Some(k)
    requires Content(text, k + 3) == from && Find(text, FENCE, from) == Some(end)
    requires text[from..end] == doc
    ensures Extract(text) == Body(Strip(doc))
  {
    assert Fenced(text) == Some(text[from..end]);
  }

  lemma StripTail(doc: string, blank: string)
    requires J.IsBlank(blank) && doc != "" && doc[0] == '{' && doc[|doc| - 1] == '}'
    ensures Strip(doc + blank) == doc
  {
    StripPadded("", doc, blank);
    assert "" + doc + blank == doc + blank;
  }

  lemma {:induction false} FencedFound(text: string, k: nat, end: nat, tag: string, b1: string, doc: string, b2: string)
    requires doc != "" && doc[0] == '{' && doc[|doc| - 1] == '}'
    requires J.IsBlank(b1) && J.IsBlank(b2) && (tag == "" || tag == "json")
    requires Find(text, FENCE, 0) == Some(k) && Find(text, FENCE, k + 3) == Some(end)
    requires text[k + 3..end] == tag + b1 + (doc + b2)
    ensures Extract(text) == Body(doc)
  {
    HeadRead(text, k + 3, end, tag, b1, doc + b2);
    var from := k + 3 + |tag| + |b1|;
    FindLater(text, FENCE, k + 3, from, end);
    ExtractFenced(text, k, from, end, doc + b2);
    StripTail(doc, b2);
  }

  /** The same object inside a fenced block, tagged `json` or not, is returned exactly. The
      block is what lies between the first fence of the reply and the next one. */
  lemma {:induction false} FencedObjectFound(text: string, k: nat, end: nat, tag: string, b1: string, v: J.Value,
                                             b2: string)
    requires v.Object? && J.Valid(v) && J.IsBlank(b1) && J.IsBlank(b2) && (tag == "" || tag == "json")
    requires Find(text, FENCE, 0) == Some(k) && Find(text, FENCE, k + 3) == Some(end)
    requires text[k + 3..end] == tag + b1 + (J.Print(v) + b2)
    ensures Extract(text) == J.Print(v)
  {
    FencedFound(text, k, end, tag, b1, J.Print(v), b2);
    SpanFound(Braces, "", v, "");
    assert "" + J.Print(v) + "" == J.Print(v);
  }

  lemma {:induction false} SpaceEnds(s: string, i: nat, j: nat)
    requires i <= j < |s| && !IsSpace(s[j])
    requires forall k :: i <= k < j ==> IsSpace(s[k])
    ensures SkipSpace(s, i) == j
    decreases j - i
  {
    if i < j {
      SpaceEnds(s, i + 1, j);
    }
  }

  // ----- Extracting twice -----

  /** Cutting the text after the closing bracket does not move it. */
  lemma {:induction false} LengthOfPrefix(p: Pair, st: Scanner, s: string)
    requires Length(p, st, s).Some?
    ensures Length(p, st, s[..Length(p, st, s).value]) == Length(p, st, s)
    decreases |s|
  {
    var n := Length(p, st, s).value;
    var next := Feed(p, st, s[0]);
    if next.Some? {
      LengthOfPrefix(p, next.value, s[1..]);
      assert s[..n][1..] == s[1..][..n - 1];
    }
  }

  /** A span that was found is found again in itself. */
  lemma SpanIsStable(p: Pair, text: string)
    requires Balanced(p, text).Some?
    ensures Balanced(p, Balanced(p, text).value) == Balanced(p, text)
    ensures Balanced(p, text).value[0] == p.Open()
  {
    var start := Find(text, [p.Open()], 0).value;
    var s := text[start..];
    var span := Balanced(p, text).value;
    LengthOfPrefix(p, START, s);
    var n := Length(p, START, s).value;
    assert span == s[..n];
    assert span[0..1] == text[start..start + 1];
    FindAt(span, [p.Open()], 0, 0);
    assert span[0..] == span && span[0..n] == span;
  }

  /** Extracting from what was extracted finds the same again, exactly when what was
      extracted is an object or holds no balanced pair of braces. */
  lemma StableSpanIff(text: string, p: Pair)
    requires Balanced(p, text).Some? && Body(text) == Balanced(p, text).value
    ensures Body(Body(text)) == Body(text) <==> p.Braces? || Balanced(Braces, Body(text)).None?
  {
    SpanIsStable(p, text);
    var inner := Balanced(Braces, Body(text));
    if p.Brackets? && inner.Some? {
      SpanIsStable(Braces, Body(text));
      assert inner.value[0] == '{' && Body(text)[0] == '[';
    }
  }
}
