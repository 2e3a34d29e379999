/**
 The If-None-Match evaluation of src/http/conditional.ts.  The scanner is a method over an
 index, as in the source; `Tags` is the list it must return, stated on the unread suffix.
 Grammar and weak comparison are those of sections 8.8.3, 8.8.3.2 and 13.1.2 of RFC 9110.
 */
module Conditional {
  import opened Common

  // ---------- characters ----------

  /** The code points that the regular expression class `\s` matches. */
  predicate IsSpace(c: char) {
    var u := c as int;
    || 9 <= u <= 13
    || u == 0x20
    || u == 0xA0
    || u == 0x1680
    || 0x2000 <= u <= 0x200A
    || u == 0x2028
    || u == 0x2029
    || u == 0x202F
    || u == 0x205F
    || u == 0x3000
    || u == 0xFEFF
  }

  predicate IsGap(c: char) {
    c == ',' || IsSpace(c)
  }

  const QUOTE := '\"'
  const BACKSLASH := '\\'

  // ---------- what the scanner must return ----------

  function DropGap(s: string): (r: string)
    ensures |r| <= |s|
    ensures r != [] ==> !IsGap(r[0])
  {
    if s != [] && IsGap(s[0]) then DropGap(s[1..]) else s
  }

  function DropToComma(s: string): (r: string)
    ensures |r| <= |s|
    ensures r != [] ==> r[0] == ','
    ensures s != [] && s[0] != ',' ==> |r| < |s|
  {
    if s != [] && s[0] != ',' then DropToComma(s[1..]) else s
  }

  /** The length up to and including the closing quote of `s`, the text after an opening quote. */
  function QuotedLength(s: string): (r: Option<nat>)
    ensures r.Some? ==> 1 <= r.value <= |s| && s[r.value - 1] == QUOTE
  {
    if s == [] then None
    else if s[0] == BACKSLASH then
      if |s| == 1 then None else Shift(QuotedLength(s[2..]), 2)
    else if s[0] == QUOTE then Some(1)
    else Shift(QuotedLength(s[1..]), 1)
  }

  function Shift(n: Option<nat>, d: nat): Option<nat> {
    match n
    case None => None
    case Some(k) => Some(k + d)
  }

  function WeakPrefix(s: string): (n: nat)
    ensures n <= |s|
  {
    if |s| >= 2 && s[0] == 'W' && s[1] == '/' then 2 else 0
  }

  /** What one turn over the unread text yields: at most one tag, the text left, whether to go on. */
  datatype Turn = Turn(tag: seq<string>, rest: string, more: bool)

  /** A turn that starts at neither a gap nor a star: a tag, an unclosed tag, or junk up to a comma. */
  function TagTurn(t: string): (r: Turn)
    requires t != [] && !IsGap(t[0])
    ensures r.more ==> |r.rest| < |t|
  {
    var w := WeakPrefix(t);
    if w == |t| || t[w] != QUOTE then Turn([], DropToComma(t[w..]), true)
    else
      match QuotedLength(t[w + 1..])
      case None => Turn([], [], false)
      case Some(n) => Turn([t[..w + 1 + n]], DropToComma(t[w + 1 + n..]), true)
  }

  function NextTurn(s: string): (r: Turn)
    ensures r.more ==> |r.rest| < |s|
  {
    var t := DropGap(s);
    if t == [] then Turn([], [], false)
    else if t[0] == '*' then Turn(["*"], t[1..], true)
    else TagTurn(t)
  }

  /** All tags of `s`, in order, behind those already read. */
  function TagsAfter(tags: seq<string>, s: string): seq<string>
    decreases |s|
  {
    var r := NextTurn(s);
    if r.more then TagsAfter(tags + r.tag, r.rest) else tags + r.tag
  }

  // ---------- the scanner ----------

  lemma DropGapAt(h: string, i: nat)
    requires i < |h| && IsGap(h[i])
    ensures DropGap(h[i..]) == DropGap(h[i + 1..])
  {
    assert h[i..][1..] == h[i + 1..];
  }

  lemma DropToCommaAt(h: string, i: nat)
    requires i < |h| && h[i] != ','
    ensures DropToComma(h[i..]) == DropToComma(h[i + 1..])
  {
    assert h[i..][1..] == h[i + 1..];
  }

  method SkipGap(h: string, from: nat) returns (index: nat)
    requires from <= |h|
    ensures from <= index <= |h| && h[index..] == DropGap(h[from..])
  {
    index := from;
    while index < |h| && IsGap(h[index])
      invariant from <= index <= |h|
      invariant DropGap(h[index..]) == DropGap(h[from..])
    {
      DropGapAt(h, index);
      index := index + 1;
    }
  }

  method SkipToComma(h: string, from: nat) returns (index: nat)
    requires from <= |h|
    ensures from <= index <= |h| && h[index..] == DropToComma(h[from..])
  {
    index := from;
    while index < |h| && h[index] != ','
      invariant from <= index <= |h|
      invariant DropToComma(h[index..]) == DropToComma(h[from..])
    {
      DropToCommaAt(h, index);
      index := index + 1;
    }
  }

  /** The quoted length from `from` on, if the scan has come from there to `index`. */
  function QuotedFrom(h: string, from: nat, index: nat): Option<nat>
    requires from <= index
  {
    if index <= |h| then Shift(QuotedLength(h[index..]), index - from) else None
  }

  lemma QuotedFromStep(h: string, from: nat, index: nat)
    requires from <= index < |h|
    ensures QuotedFrom(h, from, index) ==
            if h[index] == QUOTE then Some(index + 1 - from)
            else QuotedFrom(h, from, if h[index] == BACKSLASH then index + 2 else index + 1)
  {
    var s := h[index..];
    assert s[1..] == h[index + 1..];
    assert index + 2 <= |h| ==> s[2..] == h[index + 2..];
  }

  /** Scans past the closing quote; a backslash skips itself and the next character. */
  method SkipQuoted(h: string, from: nat) returns (index: nat, closed: bool)
    requires from <= |h|
    ensures closed == QuotedLength(h[from..]).Some?
    ensures closed ==> index == from + QuotedLength(h[from..]).value
  {
    index, closed := from, false;
    ghost var all := QuotedFrom(h, from, from);
    assert all == QuotedLength(h[from..]);
    while index < |h|
      invariant from <= index && !closed
      invariant QuotedFrom(h, from, index) == all
    {
      QuotedFromStep(h, from, index);
      if h[index] == BACKSLASH {
        index := index + 2;
        continue;
      }
      if h[index] == QUOTE {
        index := index + 1;
        closed := true;
        break;
      }
      index := index + 1;
    }
  }

  lemma WeakPrefixAt(h: string, i: nat)
    requires i < |h|
    ensures WeakPrefix(h[i..]) == if i + 2 <= |h| && h[i..i + 2] == "W/" then 2 else 0
  {
    if i + 2 <= |h| {
      var two := h[i..i + 2];
      assert two == [h[i], h[i + 1]];
      assert h[i..][0] == h[i] && h[i..][1] == h[i + 1];
    }
  }

  /** Reads the tag, or the junk, that starts at `start`. */
  method ScanTag(header: string, start: nat) returns (index: nat, tag: seq<string>, more: bool)
    requires start < |header| && !IsGap(header[start])
    ensures more ==> start < index <= |header|
    ensures Turn(tag, if more then header[index..] else [], more) == TagTurn(header[start..])
  {
    ghost var t := header[start..];
    WeakPrefixAt(header, start);
    index := start;
    if index + 2 <= |header| && header[index..index + 2] == "W/" {
      index := index + 2;
    }
    ghost var w := index - start;
    assert w == WeakPrefix(t);
    assert t[w..] == header[index..];
    if index >= |header| || header[index] != QUOTE {
      index := SkipToComma(header, index);
      return index, [], true;
    }
    assert t[w + 1..] == header[index + 1..];
    var closed;
    index, closed := SkipQuoted(header, index + 1);
    if !closed {
      return index, [], false;
    }
    assert t[..index - start] == header[start..index];
    assert t[index - start..] == header[index..];
    tag := [header[start..index]];
    index := SkipToComma(header, index);
    more := true;
  }

  /** One turn of the scanner's outer loop. */
  method NextTag(header: string, from: nat) returns (index: nat, tag: seq<string>, more: bool)
    requires from < |header|
    ensures more ==> from < index <= |header|
    ensures Turn(tag, if more then header[index..] else [], more) == NextTurn(header[from..])
  {
    index := SkipGap(header, from);
    if index >= |header| {
      return index, [], false;
    }
    if header[index] == '*' {
      assert header[index..][1..] == header[index + 1..];
      return index + 1, ["*"], true;
    }
    index, tag, more := ScanTag(header, index);
  }

  method ParseEntityTags(header: string) returns (tags: seq<string>)
    ensures tags == TagsAfter([], header)
  {
    tags := [];
    var index, more := 0, true;
    assert header[0..] == header;
    while more && index < |header|
      invariant more ==> index <= |header|
      invariant TagsAfter([], header) == if more then TagsAfter(tags, header[index..]) else tags
      decreases more, |header| - index
    {
      var tag;
      index, tag, more := NextTag(header, index);
      tags := tags + tag;
    }
  }

  // ---------- matching ----------

  /** The request header as Express hands it over: missing, one value, or repeated values. */
  datatype HeaderValue = Missing | Single(value: string) | Repeated(values: seq<string>)

  function JoinWithCommas(values: seq<string>): string {
    if values == [] then ""
    else if |values| == 1 then values[0]
    else values[0] + "," + JoinWithCommas(values[1..])
  }

  function HeaderText(header: HeaderValue): string {
    match header
    case Missing => ""
    case Single(value) => value
    case Repeated(values) => JoinWithCommas(values)
  }

  function WithoutWeakPrefix(tag: string): string {
    tag[WeakPrefix(tag)..]
  }

  predicate Accepts(candidate: string, currentTag: string) {
    candidate == "*" || WithoutWeakPrefix(candidate) == WithoutWeakPrefix(currentTag)
  }

  function Tags(s: string): seq<string> {
    TagsAfter([], s)
  }

  method MatchesIfNoneMatch(header: HeaderValue, currentTag: string) returns (matched: bool)
    ensures matched == exists tag | tag in Tags(HeaderText(header)) :: Accepts(tag, currentTag)
  {
    if header.Missing? || (header.Single? && header.value == "") {
      assert Tags("") == [];
      return false;
    }
    var tags := ParseEntityTags(HeaderText(header));
    matched := false;
    for i := 0 to |tags|
      invariant matched == exists tag | tag in tags[..i] :: Accepts(tag, currentTag)
    {
      assert tags[..i + 1] == tags[..i] + [tags[i]];
      matched := matched || Accepts(tags[i], currentTag);
    }
    assert tags[..|tags|] == tags;
  }

  // ---------- well-formed lists ----------

  /** A member of the field value of section 13.1.2: `*` or an entity tag. */
  datatype Member = Star | Tag(weak: bool, content: string)

  function Render(m: Member): (r: string)
    ensures r != [] && !IsGap(r[0])
  {
    match m
    case Star => "*"
    case Tag(weak, content) => (if weak then "W/" else "") + [QUOTE] + content + [QUOTE]
  }

  function RenderAll(ms: seq<Member>): (r: seq<string>)
    ensures |r| == |ms|
  {
    if ms == [] then [] else [Render(ms[0])] + RenderAll(ms[1..])
  }

  /** An entity tag's content never holds a quote (`etagc` of section 8.8.3). */
  predicate WellFormed(m: Member) {
    m.Tag? ==> QUOTE !in m.content
  }

  function TrailingBackslashes(c: string): nat {
    if c != [] && c[|c| - 1] == BACKSLASH then 1 + TrailingBackslashes(c[..|c| - 1]) else 0
  }

  /** The scanner's backslash rule leaves the closing quote of `m` alone. */
  predicate ClosingQuoteSeen(m: Member) {
    m.Tag? ==> TrailingBackslashes(m.content) % 2 == 0
  }

  /** The white space of ECMAScript's `\s`: the optional white space of RFC 9110, and more. */
  const WHITE_SPACE: set<char> := {
    '\t', '\n', '\U{000B}', '\U{000C}', '\r', ' ', '\U{00A0}', '\U{1680}',
    '\U{2000}', '\U{2001}', '\U{2002}', '\U{2003}', '\U{2004}', '\U{2005}',
    '\U{2006}', '\U{2007}', '\U{2008}', '\U{2009}', '\U{200A}',
    '\U{2028}', '\U{2029}', '\U{202F}', '\U{205F}', '\U{3000}', '\U{FEFF}'}

  predicate CommaOrBlank(c: char) {
    c == ',' || c in WHITE_SPACE
  }

  /** The scanner skips exactly commas and white space. */
  lemma GapExactly(c: char)
    ensures IsGap(c) <==> CommaOrBlank(c)
  {
  }

  predicate OnlyGap(g: string) {
    forall c | c in g :: IsGap(c)
  }

  lemma SeparatedByGaps(l: TagList)
    requires Separates(l)
    ensures forall g | g in l.gaps :: OnlyGap(g)
  {
    forall g, c | g in l.gaps && c in g ensures IsGap(c) {
      GapExactly(c);
    }
  }

  /** A list as it may be written: a gap before each member and one at the end. */
  datatype TagList = TagList(members: seq<Member>, gaps: seq<string>)

  predicate Separates(l: TagList) {
    && |l.gaps| == |l.members| + 1
    && (forall m | m in l.members :: WellFormed(m))
    && (forall g, c | g in l.gaps && c in g :: CommaOrBlank(c))
    && (forall i | 0 < i < |l.members| :: ',' in l.gaps[i])
  }

  function Rest(l: TagList): TagList
    requires l.members != [] && l.gaps != []
  {
    TagList(l.members[1..], l.gaps[1..])
  }

  function Written(l: TagList): string
    requires |l.gaps| == |l.members| + 1
    decreases |l.members|
  {
    if l.members == [] then l.gaps[0]
    else l.gaps[0] + (Render(l.members[0]) + Written(Rest(l)))
  }

  // ---------- the scanner on written lists ----------

  lemma Concat(a: seq<string>, b: seq<string>, c: seq<string>)
    ensures (a + b) + c == a + (b + c)
  {
  }

  lemma {:induction false} TagsAfterPrefix(tags: seq<string>, s: string)
    ensures TagsAfter(tags, s) == tags + Tags(s)
    decreases |s|
  {
    var r := NextTurn(s);
    if r.more {
      TagsAfterPrefix(tags + r.tag, r.rest);
      TagsAfterPrefix([] + r.tag, r.rest);
      assert [] + r.tag == r.tag;
      Concat(tags, r.tag, Tags(r.rest));
    }
  }

  lemma TagsByTurn(s: string)
    ensures var r := NextTurn(s);
            Tags(s) == if r.more then r.tag + Tags(r.rest) else r.tag
  {
    var r := NextTurn(s);
    if r.more {
      TagsAfterPrefix([] + r.tag, r.rest);
      assert [] + r.tag == r.tag;
    }
  }

  lemma {:induction false} DropGapSkips(g: string, s: string)
    requires OnlyGap(g)
    ensures DropGap(g + s) == DropGap(s)
  {
    if g == [] {
      assert g + s == s;
    } else {
      assert (g + s)[1..] == g[1..] + s;
      DropGapSkips(g[1..], s);
    }
  }

  lemma {:induction false} JunkBeforeCommaIsGap(g: string, s: string)
    requires OnlyGap(g)
    requires ',' in g || s == []
    ensures DropGap(DropToComma(g + s)) == DropGap(g + s)
  {
    if g == [] {
    } else if g[0] != ',' {
      assert (g + s)[1..] == g[1..] + s;
      JunkBeforeCommaIsGap(g[1..], s);
    }
  }

  /** Scanning `c` in escape pairs ends exactly at its end. */
  predicate PairsUp(c: string) {
    if c == [] then true
    else if c[0] == BACKSLASH then |c| >= 2 && PairsUp(c[2..])
    else PairsUp(c[1..])
  }

  lemma {:induction false} TrailingSuffix(c: string, i: nat)
    requires i <= |c| && TrailingBackslashes(c) <= |c| - i
    ensures TrailingBackslashes(c[i..]) == TrailingBackslashes(c)
    decreases |c|
  {
    if TrailingBackslashes(c) > 0 {
      TrailingSuffix(c[..|c| - 1], i);
      assert c[i..][..|c[i..]| - 1] == c[..|c| - 1][i..];
    }
  }

  lemma {:induction false} TrailingWhole(c: string)
    ensures TrailingBackslashes(c) <= |c|
    ensures forall i | |c| - TrailingBackslashes(c) <= i < |c| :: c[i] == BACKSLASH
    ensures TrailingBackslashes(c) < |c| ==> c[|c| - 1 - TrailingBackslashes(c)] != BACKSLASH
  {
    if c != [] && c[|c| - 1] == BACKSLASH {
      TrailingWhole(c[..|c| - 1]);
    }
  }

  lemma {:induction false} PairsUpExactly(c: string)
    ensures PairsUp(c) <==> TrailingBackslashes(c) % 2 == 0
  {
    TrailingWhole(c);
    var t := TrailingBackslashes(c);
    if c == [] {
    } else if c[0] == BACKSLASH {
      if |c| >= 2 {
        PairsUpExactly(c[2..]);
        TrailingWhole(c[2..]);
        if t <= |c| - 2 {
          TrailingSuffix(c, 2);
        } else {
          assert forall i | 0 <= i < |c| - 2 :: c[2..][i] == c[i + 2];
        }
      }
    } else {
      TrailingSuffix(c, 1);
      PairsUpExactly(c[1..]);
    }
  }

  /** The scan passes over one character, or over a backslash and the character behind it. */
  lemma QuotedStep(s: string, k: nat)
    requires k <= |s| && s != [] && s[0] != QUOTE
    requires k == if s[0] == BACKSLASH then 2 else 1
    ensures QuotedLength(s) == Shift(QuotedLength(s[k..]), k)
  {
  }

  lemma {:induction false} QuotedContent(c: string, q: string)
    requires QUOTE !in c && q != [] && q[0] == QUOTE
    ensures QuotedLength(c + q) ==
            if PairsUp(c) then Some(|c| + 1) else Shift(QuotedLength(q[1..]), |c| + 1)
    decreases |c|
  {
    var s := c + q;
    var k := if c != [] && c[0] == BACKSLASH then 2 else 1;
    if c == [] {
      assert s == q;
    } else if k > |c| {
      QuotedStep(s, k);
      assert s[k..] == q[1..];
    } else {
      QuotedStep(s, k);
      assert s[k..] == c[k..] + q;
      QuotedContent(c[k..], q);
    }
  }

  lemma TagParts(m: Member, rest: string)
    requires m.Tag?
    ensures var t, w := Render(m) + rest, if m.weak then 2 else 0;
            && WeakPrefix(t) == w < |t| && t[w] == QUOTE && !IsGap(t[0])
            && t[w + 1..] == m.content + ([QUOTE] + rest)
            && |Render(m)| == w + |m.content| + 2
            && t[..|Render(m)|] == Render(m) && t[|Render(m)|..] == rest
  {
    var t, w := Render(m) + rest, if m.weak then 2 else 0;
    assert t[0] == if m.weak then 'W' else QUOTE;
    assert m.weak ==> t[1] == '/';
    assert t[w] == QUOTE;
    var prefix := (if m.weak then "W/" else "") + [QUOTE];
    assert Render(m) == prefix + m.content + [QUOTE];
    assert t == prefix + (m.content + ([QUOTE] + rest));
  }

  lemma TurnAtTag(m: Member, rest: string)
    requires m.Tag? && WellFormed(m)
    ensures var t := TagTurn(Render(m) + rest);
            if ClosingQuoteSeen(m) then t == Turn([Render(m)], DropToComma(rest), true)
            else (t.tag == [] && !t.more) || (|t.tag| == 1 && |t.tag[0]| > |Render(m)|)
  {
    TagParts(m, rest);
    QuotedContent(m.content, [QUOTE] + rest);
    assert ([QUOTE] + rest)[1..] == rest;
    PairsUpExactly(m.content);
  }

  lemma TurnAtMember(l: TagList)
    requires Separates(l) && l.members != []
    ensures NextTurn(Written(l)) ==
            var t := Render(l.members[0]) + Written(Rest(l));
            if l.members[0].Star? then Turn(["*"], Written(Rest(l)), true) else TagTurn(t)
  {
    SeparatedByGaps(l);
    var t := Render(l.members[0]) + Written(Rest(l));
    DropGapSkips(l.gaps[0], t);
    assert t[0] == Render(l.members[0])[0];
    if l.members[0].Star? {
      assert t[1..] == Written(Rest(l));
    }
  }

  lemma RestSeparates(l: TagList)
    requires Separates(l) && l.members != []
    ensures Separates(Rest(l))
  {
    var r := Rest(l);
    forall i | 0 < i < |r.members| ensures ',' in r.gaps[i] {
      assert r.gaps[i] == l.gaps[i + 1];
    }
  }

  lemma TagsAfterComma(l: TagList)
    requires Separates(l) && (',' in l.gaps[0] || l.members == [])
    ensures Tags(DropToComma(Written(l))) == Tags(Written(l))
  {
    SeparatedByGaps(l);
    var s := if l.members == [] then [] else Render(l.members[0]) + Written(Rest(l));
    assert Written(l) == l.gaps[0] + s;
    JunkBeforeCommaIsGap(l.gaps[0], s);
    TagsByTurn(Written(l));
    TagsByTurn(DropToComma(Written(l)));
  }

  lemma {:induction false} TagsOfGap(g: string)
    requires OnlyGap(g)
    ensures Tags(g) == []
  {
    DropGapSkips(g, []);
    assert g + [] == g;
  }

  /** One member read, the rest of the list still to be read. */
  lemma TagsAtMember(l: TagList)
    requires Separates(l) && l.members != []
    ensures ClosingQuoteSeen(l.members[0]) ==> Tags(Written(l)) == [Render(l.members[0])] + Tags(Written(Rest(l)))
    ensures !ClosingQuoteSeen(l.members[0]) ==>
              Tags(Written(l)) == [] || |Tags(Written(l))[0]| > |Render(l.members[0])|
  {
    var m, r := l.members[0], Rest(l);
    TurnAtMember(l);
    RestSeparates(l);
    TagsByTurn(Written(l));
    if m.Tag? {
      TurnAtTag(m, Written(r));
      if ClosingQuoteSeen(m) {
        assert r.members != [] ==> r.gaps[0] == l.gaps[1];
        TagsAfterComma(r);
      }
    }
  }

  /**
   The round trip of a tag list, with its exact limit: the scanner returns the written members
   if and only if no tag's content ends in an odd run of backslashes, which section 8.8.3 allows.
   */
  lemma {:induction false} RoundTrip(l: TagList)
    requires Separates(l)
    ensures Tags(Written(l)) == RenderAll(l.members) <==> forall m | m in l.members :: ClosingQuoteSeen(m)
    decreases |l.members|
  {
    SeparatedByGaps(l);
    if l.members == [] {
      TagsOfGap(l.gaps[0]);
    } else {
      var r := Rest(l);
      RestSeparates(l);
      RoundTrip(r);
      TagsAtMember(l);
      assert l.members == [l.members[0]] + r.members;
      assert RenderAll(l.members)[1..] == RenderAll(r.members);
      if ClosingQuoteSeen(l.members[0]) {
        assert Tags(Written(l))[1..] == Tags(Written(r));
      }
    }
  }

  /** The concrete input where the code departs from RFC 9110: the tag `"a\"` is not seen at all. */
  lemma BackslashHidesTag()
    ensures WellFormed(Tag(false, "a\\")) && Tags(Render(Tag(false, "a\\"))) == []
  {
    var m := Tag(false, "a\\");
    var l := TagList([m], ["", ""]);
    assert Rest(l) == TagList([], [""]);
    assert Written(l) == "" + (Render(m) + "") == Render(m);
    TurnAtMember(l);
    TagsByTurn(Written(l));
    QuotedContent(m.content, [QUOTE] + "");
    var t := Render(m) + "";
    assert WeakPrefix(t) == 0 && t[1..] == m.content + ([QUOTE] + "");
    assert !PairsUp(m.content[1..]) && !PairsUp(m.content);
  }

  // ---------- what a request's header decides ----------

  /** Weak comparison of section 8.8.3.2 with the tag of the selected representation. */
  predicate WeaklyMatches(m: Member, content: string) {
    m.Star? || m.content == content
  }

  function Quoted(content: string): string {
    [QUOTE] + content + [QUOTE]
  }

  lemma WeakPrefixCut(weak: bool, content: string)
    ensures WithoutWeakPrefix(Render(Tag(weak, content))) == Quoted(content)
    ensures Render(Tag(weak, content)) != "*"
  {
    var q := Quoted(content);
    assert Render(Tag(weak, content)) == (if weak then "W/" else "") + q;
    if weak {
      assert ("W/" + q)[2..] == q;
    } else {
      assert "" + q == q;
      assert q[0] == QUOTE;
    }
  }

  lemma QuotedInjective(a: string, b: string)
    requires Quoted(a) == Quoted(b)
    ensures a == b
  {
    assert Quoted(a)[1..|Quoted(a)| - 1] == a;
    assert Quoted(b)[1..|Quoted(b)| - 1] == b;
  }

  lemma AcceptsIsWeakComparison(m: Member, weak: bool, content: string)
    ensures Accepts(Render(m), Render(Tag(weak, content))) <==> WeaklyMatches(m, content)
  {
    WeakPrefixCut(weak, content);
    if m.Tag? {
      WeakPrefixCut(m.weak, m.content);
      if Quoted(m.content) == Quoted(content) {
        QuotedInjective(m.content, content);
      }
    }
  }

  lemma {:induction false} RenderAllHolds(ms: seq<Member>, weak: bool, content: string)
    ensures (exists tag | tag in RenderAll(ms) :: Accepts(tag, Render(Tag(weak, content))))
            <==> (exists m | m in ms :: WeaklyMatches(m, content))
  {
    if ms != [] {
      RenderAllHolds(ms[1..], weak, content);
      AcceptsIsWeakComparison(ms[0], weak, content);
      assert ms == [ms[0]] + ms[1..];
      assert RenderAll(ms) == [Render(ms[0])] + RenderAll(ms[1..]);
    }
  }

  predicate AllSeen(ms: seq<Member>) {
    forall m | m in ms :: ClosingQuoteSeen(m)
  }

  predicate Readable(l: TagList) {
    Separates(l) && AllSeen(l.members)
  }

  type SeparatedList = l: TagList | Separates(l) witness TagList([], [""])

  type ReadableList = l: TagList | Readable(l) witness TagList([], [""])

  ghost predicate Matches(header: HeaderValue, currentTag: string) {
    exists tag | tag in Tags(HeaderText(header)) :: Accepts(tag, currentTag)
  }

  lemma SingleHeaderMatches(l: TagList, weak: bool, content: string)
    requires Readable(l)
    ensures Matches(Single(Written(l)), Render(Tag(weak, content)))
            <==> exists m | m in l.members :: WeaklyMatches(m, content)
  {
    RoundTrip(l);
    RenderAllHolds(l.members, weak, content);
  }

  /** Two lists joined by a comma are again a list. */
  function Append(a: TagList, b: TagList): TagList
    requires Separates(a) && Separates(b)
  {
    var n := |a.members|;
    TagList(a.members + b.members, a.gaps[..n] + [a.gaps[n] + "," + b.gaps[0]] + b.gaps[1..])
  }

  lemma AppendSeparates(a: TagList, b: TagList)
    requires Separates(a) && Separates(b)
    ensures Separates(Append(a, b))
  {
    var l, n := Append(a, b), |a.members|;
    forall i | 0 < i < |l.members| ensures ',' in l.gaps[i] {
      if i < n {
        assert l.gaps[i] == a.gaps[i];
      } else if i > n {
        assert l.gaps[i] == b.gaps[i - n];
      } else {
        assert l.gaps[i][|a.gaps[n]|] == ',';
      }
    }
  }

  lemma AppendRest(a: TagList, b: TagList)
    requires Separates(a) && Separates(b) && a.members != [] && Separates(Rest(a))
    ensures var l := Append(a, b);
            && l.members != [] && l.members[0] == a.members[0] && l.gaps[0] == a.gaps[0]
            && Rest(l) == Append(Rest(a), b)
  {
    var n := |a.members|;
    assert Rest(a).gaps[..n - 1] == a.gaps[..n][1..];
  }

  lemma AppendFirst(a: TagList, b: TagList)
    requires Separates(a) && Separates(b) && a.members == []
    ensures Written(Append(a, b)) == Written(a) + "," + Written(b)
  {
    var l := Append(a, b);
    var g := a.gaps[0] + ",";
    assert l.gaps == [g + b.gaps[0]] + b.gaps[1..];
    assert l.members == b.members;
    if b.members != [] {
      assert Rest(l) == Rest(b);
      var t := Render(b.members[0]) + Written(Rest(b));
      assert (g + b.gaps[0]) + t == g + (b.gaps[0] + t);
    }
  }

  lemma Regroup(g: string, r: string, w: string, x: string)
    ensures g + (r + (w + "," + x)) == (g + (r + w)) + "," + x
  {
  }

  lemma {:induction false} AppendWritten(a: TagList, b: TagList)
    requires Separates(a) && Separates(b)
    ensures Written(Append(a, b)) == Written(a) + "," + Written(b)
    decreases |a.members|
  {
    if a.members == [] {
      AppendFirst(a, b);
    } else {
      RestSeparates(a);
      AppendWritten(Rest(a), b);
      AppendRest(a, b);
      Regroup(a.gaps[0], Render(a.members[0]), Written(Rest(a)), Written(b));
    }
  }

  function WrittenAll(ls: seq<SeparatedList>): (r: seq<string>)
    ensures |r| == |ls|
  {
    if ls == [] then [] else [Written(ls[0])] + WrittenAll(ls[1..])
  }

  lemma AppendLists(a: SeparatedList, b: SeparatedList) returns (all: SeparatedList)
    ensures Written(all) == Written(a) + "," + Written(b)
    ensures all.members == a.members + b.members
  {
    AppendSeparates(a, b);
    AppendWritten(a, b);
    all := Append(a, b);
  }

  function AllMembers(ls: seq<SeparatedList>): seq<Member> {
    if ls == [] then [] else ls[0].members + AllMembers(ls[1..])
  }

  lemma {:induction false} JoinedLists(ls: seq<SeparatedList>) returns (all: SeparatedList)
    requires ls != []
    ensures JoinWithCommas(WrittenAll(ls)) == Written(all)
    ensures all.members == AllMembers(ls)
  {
    if |ls| == 1 {
      all := ls[0];
      assert WrittenAll(ls) == [Written(ls[0])];
    } else {
      var rest := JoinedLists(ls[1..]);
      all := AppendLists(ls[0], rest);
      assert WrittenAll(ls)[1..] == WrittenAll(ls[1..]);
    }
  }

  ghost predicate SomeMatches(ms: seq<Member>, content: string) {
    exists m | m in ms :: WeaklyMatches(m, content)
  }

  lemma {:induction false} AllSeenJoined(ls: seq<SeparatedList>)
    ensures AllSeen(AllMembers(ls)) <==> forall l | l in ls :: AllSeen(l.members)
  {
    if ls != [] {
      AllSeenJoined(ls[1..]);
      assert ls == [ls[0]] + ls[1..];
    }
  }

  // ---------- when the decision is right ----------

  /** The header's decision is the one of section 13.1.2, whatever the current tag. */
  ghost predicate DecidesRightly(header: HeaderValue, ms: seq<Member>) {
    forall weak, content | QUOTE !in content ::
      Matches(header, Render(Tag(weak, content))) <==> SomeMatches(ms, content)
  }

  lemma {:induction false} QuotedPrefix(s: string)
    requires QuotedLength(s).Some?
    ensures QuotedLength(s[..QuotedLength(s).value]) == QuotedLength(s)
    decreases |s|
  {
    var n := QuotedLength(s).value;
    if s[0] != QUOTE {
      var k := if s[0] == BACKSLASH then 2 else 1;
      QuotedStep(s, k);
      QuotedPrefix(s[k..]);
      assert s[..n][k..] == s[k..][..n - k];
      QuotedStep(s[..n], k);
    }
  }

  /** What the scanner returns: `*`, or a text that the scanner itself reads to its end and no further. */
  predicate ReadWhole(tag: string) {
    tag == "*"
    || (var w := WeakPrefix(tag);
        w < |tag| && tag[w] == QUOTE && QuotedLength(tag[w + 1..]) == Some(|tag| - w - 1))
  }

  lemma TurnReadsWhole(s: string)
    ensures forall tag | tag in NextTurn(s).tag :: ReadWhole(tag)
  {
    var t := DropGap(s);
    if t != [] && t[0] != '*' {
      var w := WeakPrefix(t);
      if w < |t| && t[w] == QUOTE && QuotedLength(t[w + 1..]).Some? {
        var n := QuotedLength(t[w + 1..]).value;
        QuotedPrefix(t[w + 1..]);
        assert t[..w + 1 + n][w + 1..] == t[w + 1..][..n];
      }
    }
  }

  lemma {:induction false} TagsReadWhole(s: string)
    ensures forall tag | tag in Tags(s) :: ReadWhole(tag)
    decreases |s|
  {
    TagsByTurn(s);
    TurnReadsWhole(s);
    if NextTurn(s).more {
      TagsReadWhole(NextTurn(s).rest);
    }
  }

  /** A content with an odd trailing run of backslashes is never returned. */
  lemma UnseenNeverRead(tag: string, weak: bool, content: string)
    requires ReadWhole(tag) && tag != "*" && QUOTE !in content
    requires WithoutWeakPrefix(tag) == WithoutWeakPrefix(Render(Tag(weak, content)))
    ensures ClosingQuoteSeen(Tag(weak, content))
  {
    WeakPrefixCut(weak, content);
    var w := WeakPrefix(tag);
    assert Quoted(content)[1..] == content + [QUOTE];
    assert tag[w..][1..] == tag[w + 1..];
    QuotedContent(content, [QUOTE]);
    PairsUpExactly(content);
  }

  /** A content that is longer than `least` and than all of the tags. */
  lemma {:induction false} FreshContent(tags: seq<string>, least: nat) returns (content: string)
    ensures forall c | c in content :: c == 'a'
    ensures least < |content| && forall tag | tag in tags :: |tag| < |content|
  {
    if tags == [] {
      content := seq(least + 1, _ => 'a');
    } else {
      content := FreshContent(tags[1..], least);
      content := content + seq(|tags[0]| + 1, _ => 'a');
      assert tags == [tags[0]] + tags[1..];
    }
  }

  lemma StarMatchesAll(s: string, current: string)
    requires "*" in Tags(s)
    ensures Matches(Single(s), current)
  {
    assert Accepts("*", current);
  }

  /** Without `*` among the tags read, a content longer than all of them is not matched. */
  lemma LongContentUnmatched(s: string, content: string)
    requires "*" !in Tags(s) && forall tag | tag in Tags(s) :: |tag| < |content|
    ensures !Matches(Single(s), Render(Tag(false, content)))
  {
    WeakPrefixCut(false, content);
    forall tag | tag in Tags(s) ensures !Accepts(tag, Render(Tag(false, content))) {
      assert |WithoutWeakPrefix(tag)| < |Quoted(content)|;
    }
  }

  lemma {:induction false} RenderedMembers(ms: seq<Member>)
    ensures forall m | m in ms :: Render(m) in RenderAll(ms)
  {
    if ms != [] {
      RenderedMembers(ms[1..]);
      assert ms == [ms[0]] + ms[1..];
    }
  }

  /** A member with an unseen closing quote is matched only by a `*` that is not there. */
  lemma UnseenDecidesWrongly(s: string, ms: seq<Member>, m: Member)
    requires m in ms && WellFormed(m) && !ClosingQuoteSeen(m) && Star !in ms
    ensures !DecidesRightly(Single(s), ms)
  {
    if "*" in Tags(s) {
      var content := FreshContent(RenderAll(ms), 0);
      RenderedMembers(ms);
      assert forall k | k in ms :: |Render(k)| < |content|;
      assert !SomeMatches(ms, content);
      StarMatchesAll(s, Render(Tag(false, content)));
    } else {
      TagsReadWhole(s);
      forall tag | tag in Tags(s) ensures !Accepts(tag, Render(m)) {
        if Accepts(tag, Render(m)) {
          UnseenNeverRead(tag, m.weak, m.content);
        }
      }
      assert WeaklyMatches(m, m.content);
      assert SomeMatches(ms, m.content) && !Matches(Single(s), Render(Tag(m.weak, m.content)));
    }
  }

  /**
   A list of well-formed tags is decided rightly for every current tag if and only if no content
   ends in an odd run of backslashes.
   */
  lemma HeaderDecidedExactly(l: TagList)
    requires Separates(l) && Star !in l.members
    ensures DecidesRightly(Single(Written(l)), l.members) <==> AllSeen(l.members)
  {
    if AllSeen(l.members) {
      forall weak, content | QUOTE !in content
        ensures Matches(Single(Written(l)), Render(Tag(weak, content))) <==> SomeMatches(l.members, content)
      {
        SingleHeaderMatches(l, weak, content);
      }
    } else {
      var m :| m in l.members && !ClosingQuoteSeen(m);
      UnseenDecidesWrongly(Written(l), l.members, m);
    }
  }

  /** With `*` among its members, a list is decided rightly if and only if a `*` is read. */
  lemma StarDecidedExactly(l: TagList)
    requires Separates(l) && Star in l.members
    ensures DecidesRightly(Single(Written(l)), l.members) <==> "*" in Tags(Written(l))
  {
    assert forall content :: WeaklyMatches(Star, content);
    assert forall content :: SomeMatches(l.members, content);
    if "*" in Tags(Written(l)) {
      forall current ensures Matches(Single(Written(l)), current) {
        StarMatchesAll(Written(l), current);
      }
    } else {
      var content := FreshContent(Tags(Written(l)), 0);
      LongContentUnmatched(Written(l), content);
    }
  }

  /** The same for a repeated header: the values are decided together, rightly under the same condition. */
  lemma RepeatedDecidedExactly(ls: seq<SeparatedList>)
    requires Star !in AllMembers(ls)
    ensures DecidesRightly(Repeated(WrittenAll(ls)), AllMembers(ls)) <==> forall l | l in ls :: AllSeen(l.members)
  {
    AllSeenJoined(ls);
    if ls == [] {
      assert Tags("") == [];
    } else {
      var all := JoinedLists(ls);
      HeaderDecidedExactly(all);
      assert HeaderText(Repeated(WrittenAll(ls))) == HeaderText(Single(Written(all)));
      assert DecidesRightly(Repeated(WrittenAll(ls)), AllMembers(ls)) <==> DecidesRightly(Single(Written(all)), all.members);
    }
  }

  // ---------- malformed members ----------

  /** A star needs no separator. */
  lemma StarReadAtOnce(t: string)
    ensures Tags("*" + t) == ["*"] + Tags(t)
  {
    var s := "*" + t;
    assert s[0] == '*' && DropGap(s) == s && s[1..] == t;
    TagsByTurn(s);
  }

  lemma {:induction false} DropNoComma(junk: string, t: string)
    requires ',' !in junk && (t == [] || t[0] == ',')
    ensures DropToComma(junk + t) == t
  {
    if junk == [] {
      assert junk + t == t;
    } else {
      assert (junk + t)[1..] == junk[1..] + t;
      DropNoComma(junk[1..], t);
    }
  }

  /** Anything but a comma may stand behind a tag, and is lost. */
  lemma JunkBehindTag(m: Member, junk: string, t: string)
    requires m.Tag? && WellFormed(m) && ClosingQuoteSeen(m) && ',' !in junk && (t == [] || t[0] == ',')
    ensures Tags(Render(m) + (junk + t)) == [Render(m)] + Tags(t)
  {
    var s := Render(m) + (junk + t);
    assert s[0] == Render(m)[0];
    assert DropGap(s) == s;
    TagParts(m, junk + t);
    TurnAtTag(m, junk + t);
    DropNoComma(junk, t);
    TagsByTurn(s);
  }

  /** What starts neither a tag nor a star is lost up to the next comma. */
  lemma JunkLost(junk: string, t: string)
    requires junk != [] && ',' !in junk && junk[0] !in WHITE_SPACE && junk[0] != '*' && junk[0] != QUOTE
    requires |junk| >= 3 ==> junk[..3] != ['W', '/', QUOTE]
    requires t == [] || t[0] == ','
    ensures Tags(junk + t) == Tags(t)
  {
    var s := junk + t;
    GapExactly(junk[0]);
    assert s[0] == junk[0] && DropGap(s) == s;
    var w := WeakPrefix(s);
    assert w <= |junk|;
    if w < |junk| {
      assert w == 2 ==> junk[..3] == [junk[0], junk[1], junk[2]];
      assert s[w] == junk[w] != QUOTE;
    }
    CutBefore(junk, t, w);
    DropNoComma(junk[w..], t);
    TagsByTurn(s);
  }

  /** A quote that is never closed ends the list. */
  lemma UnclosedEndsList(weak: bool, rest: string)
    requires QUOTE !in rest
    ensures Tags((if weak then "W/" else "") + ([QUOTE] + rest)) == []
  {
    var s := (if weak then "W/" else "") + ([QUOTE] + rest);
    var w := if weak then 2 else 0;
    assert s[0] == if weak then 'W' else QUOTE;
    assert DropGap(s) == s && WeakPrefix(s) == w && s[w] == QUOTE && s[w + 1..] == rest;
    NeverClosed(rest);
    TagsByTurn(s);
  }

  lemma {:induction false} NeverClosed(s: string)
    requires QUOTE !in s
    ensures QuotedLength(s).None?
    decreases |s|
  {
    if s != [] {
      var k := if s[0] == BACKSLASH then 2 else 1;
      if k <= |s| {
        QuotedStep(s, k);
        NeverClosed(s[k..]);
      }
    }
  }

  // ---------- repeated values, well formed or not ----------

  /** The scanner reads the text to its end and is not left inside a quote. */
  predicate ReadToEnd(s: string)
    decreases |s|
  {
    var r := NextTurn(s);
    if r.more then ReadToEnd(r.rest) else DropGap(s) == []
  }

  lemma {:induction false} DropGapBefore(s: string, x: string)
    ensures DropGap(s) != [] ==> DropGap(s + x) == DropGap(s) + x
    ensures DropGap(s) == [] ==> DropGap(s + x) == DropGap(x)
  {
    if s == [] {
      assert s + x == x;
    } else if IsGap(s[0]) {
      assert (s + x)[1..] == s[1..] + x;
      DropGapBefore(s[1..], x);
    }
  }

  lemma {:induction false} DropToCommaBefore(s: string, x: string)
    requires x != [] && x[0] == ','
    ensures DropToComma(s + x) == DropToComma(s) + x
  {
    if s == [] {
      assert s + x == x;
    } else if s[0] != ',' {
      assert (s + x)[1..] == s[1..] + x;
      DropToCommaBefore(s[1..], x);
    }
  }

  lemma {:induction false} QuotedBefore(s: string, x: string)
    requires QuotedLength(s).Some?
    ensures QuotedLength(s + x) == QuotedLength(s)
    decreases |s|
  {
    if s[0] != QUOTE {
      var k := if s[0] == BACKSLASH then 2 else 1;
      QuotedStep(s, k);
      QuotedBefore(s[k..], x);
      CutBefore(s, x, k);
      QuotedStep(s + x, k);
    }
  }

  lemma CutBefore(t: string, x: string, k: nat)
    requires k <= |t|
    ensures (t + x)[..k] == t[..k] && (t + x)[k..] == t[k..] + x
  {
  }

  lemma WeakPrefixBefore(t: string, x: string)
    requires t != [] && x != [] && x[0] == ','
    ensures WeakPrefix(t + x) == WeakPrefix(t)
    ensures WeakPrefix(t) == |t| || t[WeakPrefix(t)] != QUOTE ==> (t + x)[WeakPrefix(t)] != QUOTE
  {
  }

  lemma JunkTurnBefore(t: string, x: string)
    requires t != [] && !IsGap(t[0]) && x != [] && x[0] == ','
    requires WeakPrefix(t) == |t| || t[WeakPrefix(t)] != QUOTE
    ensures TagTurn(t + x) == Turn(TagTurn(t).tag, TagTurn(t).rest + x, true)
  {
    var w := WeakPrefix(t);
    WeakPrefixBefore(t, x);
    CutBefore(t, x, w);
    DropToCommaBefore(t[w..], x);
  }

  lemma TagTurnBefore(t: string, x: string)
    requires t != [] && !IsGap(t[0]) && x != [] && x[0] == ',' && TagTurn(t).more
    ensures TagTurn(t + x) == Turn(TagTurn(t).tag, TagTurn(t).rest + x, true)
  {
    var w := WeakPrefix(t);
    if w == |t| || t[w] != QUOTE {
      JunkTurnBefore(t, x);
    } else {
      var n := QuotedLength(t[w + 1..]).value;
      WeakPrefixBefore(t, x);
      CutBefore(t, x, w + 1);
      QuotedBefore(t[w + 1..], x);
      CutBefore(t, x, w + 1 + n);
      DropToCommaBefore(t[w + 1 + n..], x);
    }
  }

  /** A turn that goes on does the same with more text behind a comma. */
  lemma TurnBefore(s: string, x: string)
    requires x != [] && x[0] == ',' && NextTurn(s).more
    ensures NextTurn(s + x) == Turn(NextTurn(s).tag, NextTurn(s).rest + x, true)
  {
    var t := DropGap(s);
    DropGapBefore(s, x);
    if t[0] == '*' {
      assert (t + x)[1..] == t[1..] + x;
    } else {
      TagTurnBefore(t, x);
    }
  }

  lemma TagsBehindComma(t: string)
    ensures Tags("," + t) == Tags(t)
  {
    assert ("," + t)[1..] == t;
    TagsByTurn("," + t);
    TagsByTurn(t);
  }

  /** Text that is read to its end is read the same in front of more. */
  lemma {:induction false} TagsJoin(s: string, t: string)
    requires ReadToEnd(s)
    ensures Tags(s + ("," + t)) == Tags(s) + Tags(t)
    decreases |s|
  {
    var x := "," + t;
    TagsByTurn(s);
    TagsByTurn(s + x);
    var r := NextTurn(s);
    if r.more {
      TurnBefore(s, x);
      TagsJoin(r.rest, t);
      Concat(r.tag, Tags(r.rest), Tags(t));
    } else {
      GapJoins(s, x);
      TagsBehindComma(t);
      assert Tags(s) == [];
    }
  }

  lemma GapJoins(s: string, x: string)
    requires DropGap(s) == []
    ensures Tags(s + x) == Tags(x)
  {
    DropGapBefore(s, x);
    assert NextTurn(s + x) == NextTurn(x);
    TagsByTurn(s + x);
    TagsByTurn(x);
  }

  /** A quote left open is closed by the next value's opening quote. */
  lemma {:induction false} OpenQuoteEnds(v: string, y: string)
    requires QuotedLength(v).None?
    ensures QuotedLength(v + ([',', QUOTE] + y)) == Some(|v| + 2)
    decreases |v|
  {
    var z := [',', QUOTE] + y;
    assert z[1..] == [QUOTE] + y;
    if v == [] {
      assert v + z == z;
      QuotedStep(z, 1);
    } else {
      var k := if v[0] == BACKSLASH then 2 else 1;
      QuotedStep(v + z, k);
      if k > |v| {
        assert (v + z)[k..] == z[1..];
      } else {
        QuotedStep(v, k);
        CutBefore(v, z, k);
        OpenQuoteEnds(v[k..], y);
      }
    }
  }

  /** In front of a quoted text, text that ends inside a quote takes its opening quote and hides the rest. */
  lemma {:induction false} OpenTextHides(s: string, content: string)
    requires !ReadToEnd(s) && ',' !in content && QUOTE !in content
    ensures exists last ::
      Tags(s + ("," + Quoted(content))) == Tags(s) + [last] && last != "*" && |last| <= |s| + 2
    decreases |s|
  {
    var x := "," + Quoted(content);
    var r := NextTurn(s);
    TagsByTurn(s);
    TagsByTurn(s + x);
    if r.more {
      TurnBefore(s, x);
      OpenTextHides(r.rest, content);
      var last :| Tags(r.rest + x) == Tags(r.rest) + [last] && last != "*" && |last| <= |r.rest| + 2;
      Concat(r.tag, Tags(r.rest), [last]);
    } else {
      var t := DropGap(s);
      DropGapBefore(s, x);
      OpenTurnHides(t, content);
      assert Tags(s + x) == Tags(s) + [t + [',', QUOTE]];
    }
  }

  lemma {:induction false} NoCommaLeft(s: string)
    requires ',' !in s
    ensures DropToComma(s) == []
  {
    if s != [] {
      NoCommaLeft(s[1..]);
    }
  }

  lemma OpenTurnHides(t: string, content: string)
    requires t != [] && !IsGap(t[0]) && t[0] != '*' && !TagTurn(t).more && ',' !in content
    ensures var u := t + ("," + Quoted(content));
            TagTurn(u) == Turn([t + [',', QUOTE]], [], true) && Tags([]) == []
  {
    var x := "," + Quoted(content);
    var u, w, y := t + x, WeakPrefix(t), content + [QUOTE];
    var front := t + [',', QUOTE];
    assert x == [',', QUOTE] + y;
    assert u == front + y;
    assert WeakPrefix(u) == w;
    CutBefore(t, x, w + 1);
    OpenQuoteEnds(t[w + 1..], y);
    CutBefore(front, y, |front|);
    NoCommaLeft(y);
  }

  /** The two values together match the current tag exactly if one of them does. */
  ghost predicate JoinsWith(s: string, t: string, current: string) {
    Matches(Repeated([s, t]), current) <==> Matches(Single(s), current) || Matches(Single(t), current)
  }

  ghost predicate JoinsWell(s: string) {
    forall t, current :: JoinsWith(s, t, current)
  }

  /**
   Joining a value with any other, well formed or not, matches exactly what one of them does, if and
   only if the value is read to its end or has a `*` to match everything with.
   */
  lemma JoinsWellExactly(s: string)
    ensures JoinsWell(s) <==> ReadToEnd(s) || "*" in Tags(s)
  {
    if ReadToEnd(s) {
      forall t, current ensures JoinsWith(s, t, current) {
        TwoValues(s, t);
        TagsJoin(s, t);
      }
    } else if "*" in Tags(s) {
      forall t, current ensures JoinsWith(s, t, current) {
        TwoValues(s, t);
        StarStays(s, t);
        StarMatchesAll(s, current);
        StarMatchesAll(s + ("," + t), current);
      }
    } else {
      OpenTextJoinsBadly(s);
    }
  }

  lemma TwoValues(s: string, t: string)
    ensures HeaderText(Repeated([s, t])) == s + ("," + t)
  {
    assert [s, t][1..] == [t];
    assert JoinWithCommas([t]) == t;
    assert JoinWithCommas([s, t]) == s + "," + t;
  }

  lemma {:induction false} StarStays(s: string, t: string)
    requires "*" in Tags(s)
    ensures "*" in Tags(s + ("," + t))
    decreases |s|
  {
    var x := "," + t;
    var r := NextTurn(s);
    TagsByTurn(s);
    TagsByTurn(s + x);
    if r.more {
      TurnBefore(s, x);
      if "*" !in r.tag {
        StarStays(r.rest, t);
      }
    }
  }

  lemma QuotedMatchesItself(content: string)
    requires forall c | c in content :: c == 'a'
    ensures Matches(Single(Quoted(content)), Render(Tag(false, content)))
  {
    var m := Tag(false, content);
    var l := TagList([m], ["", ""]);
    assert Rest(l) == TagList([], [""]);
    assert Written(l) == "" + (Render(m) + "") == Quoted(content);
    assert content != [] ==> content[|content| - 1] in content;
    assert TrailingBackslashes(content) == 0;
    SingleHeaderMatches(l, false, content);
    assert m in l.members && WeaklyMatches(m, content);
  }

  lemma HiddenUnmatched(s: string, content: string)
    requires !ReadToEnd(s) && "*" !in Tags(s) && (forall c | c in content :: c == 'a')
    requires |s| + 2 < |content| && forall tag | tag in Tags(s) :: |tag| < |content|
    ensures !Matches(Single(s + ("," + Quoted(content))), Render(Tag(false, content)))
  {
    var joined := s + ("," + Quoted(content));
    OpenTextHides(s, content);
    var last :| Tags(joined) == Tags(s) + [last] && last != "*" && |last| <= |s| + 2;
    assert forall tag | tag in Tags(joined) :: tag in Tags(s) || tag == last;
    LongContentUnmatched(joined, content);
  }

  lemma OpenTextJoinsBadly(s: string)
    requires !ReadToEnd(s) && "*" !in Tags(s)
    ensures !JoinsWell(s)
  {
    var content := FreshContent(Tags(s), |s| + 2);
    var t, current := Quoted(content), Render(Tag(false, content));
    HiddenUnmatched(s, content);
    TwoValues(s, t);
    QuotedMatchesItself(content);
    assert Matches(Single(t), current);
    assert !Matches(Repeated([s, t]), current);
    assert !JoinsWith(s, t, current);
  }

  ghost predicate SomeValueMatches(values: seq<string>, current: string) {
    exists v | v in values :: Matches(Single(v), current)
  }

  lemma SomeFirst(values: seq<string>, current: string)
    requires values != []
    ensures SomeValueMatches(values, current)
            <==> Matches(Single(values[0]), current) || SomeValueMatches(values[1..], current)
  {
    assert values == [values[0]] + values[1..];
  }

  lemma JoinFirst(values: seq<string>, current: string)
    requires |values| >= 2 && ReadToEnd(values[0])
    ensures Matches(Repeated(values), current)
            <==> Matches(Single(values[0]), current) || Matches(Repeated(values[1..]), current)
  {
    var joined := JoinWithCommas(values[1..]);
    assert JoinWithCommas(values) == values[0] + ("," + joined);
    TagsJoin(values[0], joined);
  }

  /** Values of any text, all but the last read to their ends, match together exactly if one of them does. */
  lemma {:induction false} JoinedValuesMatch(values: seq<string>, current: string)
    requires forall i :: 0 <= i < |values| - 1 ==> ReadToEnd(values[i])
    ensures Matches(Repeated(values), current) <==> SomeValueMatches(values, current)
  {
    if values == [] {
      assert Tags("") == [];
    } else {
      SomeFirst(values, current);
      if |values| == 1 {
        assert HeaderText(Repeated(values)) == HeaderText(Single(values[0]));
      } else {
        var rest := values[1..];
        assert forall i :: 0 <= i < |rest| - 1 ==> rest[i] == values[i + 1];
        JoinedValuesMatch(rest, current);
        JoinFirst(values, current);
      }
    }
  }

  lemma {:induction false} ReadableToEnd(l: TagList)
    requires Readable(l)
    ensures ReadToEnd(Written(l))
    decreases |l.members|
  {
    SeparatedByGaps(l);
    if l.members == [] {
      DropGapSkips(l.gaps[0], []);
      assert l.gaps[0] + [] == l.gaps[0];
    } else {
      var m, r := l.members[0], Rest(l);
      TurnAtMember(l);
      RestSeparates(l);
      ReadableToEnd(r);
      if m.Tag? {
        TurnAtTag(m, Written(r));
        assert r.members != [] ==> r.gaps[0] == l.gaps[1];
        EndAfterComma(r);
      }
    }
  }

  lemma EndAfterComma(l: TagList)
    requires Separates(l) && (',' in l.gaps[0] || l.members == [])
    ensures ReadToEnd(DropToComma(Written(l))) == ReadToEnd(Written(l))
  {
    SeparatedByGaps(l);
    var s := if l.members == [] then [] else Render(l.members[0]) + Written(Rest(l));
    assert Written(l) == l.gaps[0] + s;
    JunkBeforeCommaIsGap(l.gaps[0], s);
  }

  /** A repeated header of readable lists matches exactly when one of its values does. */
  lemma RepeatedHeaderMatches(ls: seq<ReadableList>, weak: bool, content: string)
    ensures Matches(Repeated(WrittenAll(ls)), Render(Tag(weak, content)))
            <==> exists l | l in ls :: Matches(Single(Written(l)), Render(Tag(weak, content)))
  {
    var current, values := Render(Tag(weak, content)), WrittenAll(ls);
    WrittenEach(ls);
    forall i | 0 <= i < |ls| ensures ReadToEnd(values[i]) {
      ReadableToEnd(ls[i]);
    }
    JoinedValuesMatch(values, current);
    if v :| v in values && Matches(Single(v), current) {
      var i :| 0 <= i < |ls| && values[i] == v;
      assert ls[i] in ls;
    }
    if l :| l in ls && Matches(Single(Written(l)), current) {
      var i :| 0 <= i < |ls| && ls[i] == l;
      assert values[i] in values;
    }
  }

  lemma {:induction false} WrittenEach(ls: seq<SeparatedList>)
    ensures forall i :: 0 <= i < |ls| ==> WrittenAll(ls)[i] == Written(ls[i])
  {
    if ls != [] {
      WrittenEach(ls[1..]);
    }
  }

  /** The header `"a\","x,*"`: two well-formed tags and no `*`. */
  const HIDDEN_STAR := TagList([Tag(false, "a\\"), Tag(false, "x,*")], ["", ",", ""])

  lemma FirstQuoteEnds(h: string)
    requires h == [QUOTE, 'a', BACKSLASH, QUOTE, ',', QUOTE, 'x', ',', '*', QUOTE]
    ensures QuotedLength(h[1..]) == Some(5)
  {
    QuotedFromStep(h, 1, 1);
    QuotedFromStep(h, 1, 2);
    QuotedFromStep(h, 1, 4);
    QuotedFromStep(h, 1, 5);
  }

  /** The scanner's first turn reads past the first tag, into the second. */
  lemma FirstTurnReadsTooFar(h: string)
    requires h == [QUOTE, 'a', BACKSLASH, QUOTE, ',', QUOTE, 'x', ',', '*', QUOTE]
    ensures NextTurn(h) == Turn([h[..6]], [',', '*', QUOTE], true)
  {
    FirstQuoteEnds(h);
    DropToCommaAt(h, 6);
    assert h[7..] == [',', '*', QUOTE];
    assert DropGap(h) == h && WeakPrefix(h) == 0;
  }

  lemma StarInRest(u: string)
    requires u == [',', '*', QUOTE]
    ensures "*" in Tags(u)
  {
    var t := u[1..];
    assert t[0] == '*' && !IsGap(t[0]);
    assert DropGap(t) == t;
    assert DropGap(u) == t;
    TagsByTurn(u);
  }

  lemma HiddenStarWritten()
    ensures Separates(HIDDEN_STAR)
    ensures Written(HIDDEN_STAR) == [QUOTE, 'a', BACKSLASH, QUOTE, ',', QUOTE, 'x', ',', '*', QUOTE]
  {
    var r := Rest(HIDDEN_STAR);
    assert r == TagList([Tag(false, "x,*")], [",", ""]);
    assert Rest(r) == TagList([], [""]);
    assert Written(r) == "," + (Render(Tag(false, "x,*")) + "");
  }

  /** It then finds the `*` inside the second tag, so that the header matches every current tag. */
  lemma HiddenStarMatchesAll(current: string)
    ensures Separates(HIDDEN_STAR) && Star !in HIDDEN_STAR.members
    ensures Matches(Single(Written(HIDDEN_STAR)), current)
  {
    HiddenStarWritten();
    var h := Written(HIDDEN_STAR);
    FirstTurnReadsTooFar(h);
    TagsByTurn(h);
    StarInRest([',', '*', QUOTE]);
    StarMatchesAll(h, current);
  }
}
