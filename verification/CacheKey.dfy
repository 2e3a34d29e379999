/**
 The cache keys of src/services/newsService.ts: JSON.stringify of a record of eight search
 fields, and the stale key derived from it.  Text is UTF-16 code units, as in JavaScript, so
 that lone surrogates (which JSON.stringify escapes) are covered.
 */
module CacheKey {
  import opened Common

  type CodeUnit = u: nat | u < 0x1_0000
  type Text = seq<CodeUnit>

  /** An optional search field: left out, null, or text.  `??` makes the first two the same. */
  datatype Field = Absent | Null | Present(text: Text)

  datatype Search = Search(
    query: Text, count: int, page: int,
    lang: Field, country: Field, dateFrom: Field, dateTo: Field, sortBy: Field)

  /** Two optional fields say the same: the same text, or nothing. */
  predicate SameField(f: Field, g: Field) {
    f == g || (!f.Present? && !g.Present?)
  }

  predicate SameSearch(s: Search, t: Search) {
    && s.query == t.query && s.count == t.count && s.page == t.page
    && SameField(s.lang, t.lang) && SameField(s.country, t.country)
    && SameField(s.dateFrom, t.dateFrom) && SameField(s.dateTo, t.dateTo) && SameField(s.sortBy, t.sortBy)
  }

  function OrNull(f: Field): Field {
    if f.Present? then f else Null
  }

  function Ascii(s: string): (t: Text)
    ensures |t| == |s|
    ensures forall i :: 0 <= i < |s| && (s[i] as int) < 128 ==> t[i] == s[i] as int
  {
    seq(|s|, i requires 0 <= i < |s| => (s[i] as int) % 0x1_0000)
  }

  // ---------- JSON string escaping ----------

  const QUOTE: CodeUnit := 34
  const BACKSLASH: CodeUnit := 92
  const LETTER_U: CodeUnit := 117

  predicate IsHigh(u: CodeUnit) { 0xD800 <= u < 0xDC00 }

  predicate IsLow(u: CodeUnit) { 0xDC00 <= u < 0xE000 }

  /** The letter behind the backslash for the characters with a two-character escape. */
  function ShortEscape(u: CodeUnit): Option<CodeUnit> {
    match u
    case 8 => Some(98)
    case 9 => Some(116)
    case 10 => Some(110)
    case 12 => Some(102)
    case 13 => Some(114)
    case 34 => Some(34)
    case 92 => Some(92)
    case _ => None
  }

  function HexDigit(n: nat): CodeUnit
    requires n < 16
  {
    if n < 10 then 48 + n else 87 + n
  }

  function UnicodeEscape(u: CodeUnit): Text {
    [BACKSLASH, LETTER_U, HexDigit(u / 4096), HexDigit(u / 256 % 16), HexDigit(u / 16 % 16), HexDigit(u % 16)]
  }

  function EscapeUnit(u: CodeUnit): (r: Text)
    ensures r != []
  {
    if ShortEscape(u).Some? then [BACKSLASH, ShortEscape(u).value]
    else if u < 32 || IsHigh(u) || IsLow(u) then UnicodeEscape(u)
    else [u]
  }

  function Escape(t: Text): Text {
    if t == [] then []
    else if |t| >= 2 && IsHigh(t[0]) && IsLow(t[1]) then t[..2] + Escape(t[2..])
    else EscapeUnit(t[0]) + Escape(t[1..])
  }

  function Quote(t: Text): Text {
    [QUOTE] + Escape(t) + [QUOTE]
  }

  // ---------- decimal printing ----------

  function Digits(n: nat): (r: Text)
    ensures r != [] && forall i :: 0 <= i < |r| ==> 48 <= r[i] <= 57
  {
    if n < 10 then [48 + n] else Digits(n / 10) + [48 + n % 10]
  }

  function Decimal(n: int): Text {
    if n < 0 then [45] + Digits(-n) else Digits(n)
  }

  // ---------- the two keys ----------

  function FieldJson(f: Field): Text {
    match OrNull(f)
    case Present(text) => Quote(text)
    case _ => Ascii("null")
  }

  function SearchCacheKey(s: Search): Text {
    Ascii("{\"query\":") + (Quote(s.query)
    + (Ascii(",\"count\":") + (Decimal(s.count)
    + (Ascii(",\"page\":") + (Decimal(s.page)
    + (Ascii(",\"lang\":") + (FieldJson(s.lang)
    + (Ascii(",\"country\":") + (FieldJson(s.country)
    + (Ascii(",\"from\":") + (FieldJson(s.dateFrom)
    + (Ascii(",\"to\":") + (FieldJson(s.dateTo)
    + (Ascii(",\"sortBy\":") + (FieldJson(s.sortBy)
    + Ascii("}"))))))))))))))))
  }

  function StaleCacheKey(key: Text): Text {
    key + Ascii(":stale")
  }

  // ---------- reading a quoted string back ----------

  function UnescapeLetter(u: CodeUnit): CodeUnit {
    match u
    case 98 => 8
    case 116 => 9
    case 110 => 10
    case 102 => 12
    case 114 => 13
    case _ => u
  }

  function HexValue(u: CodeUnit): nat {
    if u < 58 then (if u < 48 then 0 else u - 48) else if u < 87 || u > 102 then 0 else u - 87
  }

  datatype Read = Read(text: Text, rest: Text)

  /** One escaped or plain unit off the front of `t`: the unit and how many units it took. */
  function ReadUnit(t: Text): Option<(CodeUnit, nat)>
    ensures ReadUnit(t).Some? ==> 0 < ReadUnit(t).value.1 <= |t|
  {
    if t == [] then None
    else if t[0] != BACKSLASH then Some((t[0], 1))
    else if |t| < 2 then None
    else if t[1] != LETTER_U then Some((UnescapeLetter(t[1]), 2))
    else if |t| < 6 then None
    else
      var u := ((HexValue(t[2]) * 16 + HexValue(t[3])) * 16 + HexValue(t[4])) * 16 + HexValue(t[5]);
      if u < 0x1_0000 then Some((u, 6)) else None
  }

  /** The text up to the closing quote, unescaped, and what follows the quote. */
  function ReadQuoted(t: Text): Option<Read> {
    if t == [] then None
    else if t[0] == QUOTE then Some(Read([], t[1..]))
    else
      match ReadUnit(t)
      case None => None
      case Some((u, n)) =>
        match ReadQuoted(t[n..])
        case None => None
        case Some(Read(text, rest)) => Some(Read([u] + text, rest))
  }

  lemma Regroup(a: Text, b: Text, c: Text)
    ensures (a + b) + c == a + (b + c)
  {
  }

  lemma HexRoundTrip(u: CodeUnit)
    ensures ((HexValue(HexDigit(u / 4096)) * 16 + HexValue(HexDigit(u / 256 % 16))) * 16
             + HexValue(HexDigit(u / 16 % 16))) * 16 + HexValue(HexDigit(u % 16)) == u
  {
    assert forall n: nat | n < 16 :: HexValue(HexDigit(n)) == n;
    assert u / 256 == u / 4096 * 16 + u / 256 % 16;
    assert u / 16 == u / 256 * 16 + u / 16 % 16;
  }

  lemma EscapeUnitReads(u: CodeUnit, rest: Text)
    ensures var t := EscapeUnit(u) + rest;
            t[0] != QUOTE && ReadUnit(t) == Some((u, |EscapeUnit(u)|)) && t[|EscapeUnit(u)|..] == rest
  {
    var t := EscapeUnit(u) + rest;
    if ShortEscape(u).None? && (u < 32 || IsHigh(u) || IsLow(u)) {
      HexRoundTrip(u);
    }
  }

  /** Behind one more unit, written as `e`, the reader gives one more unit of text. */
  lemma ReadQuotedStep(e: Text, u: CodeUnit, t: Text, text: Text, rest: Text)
    requires e != [] && (e + t)[0] != QUOTE && ReadUnit(e + t) == Some((u, |e|))
    requires ReadQuoted(t) == Some(Read(text, rest))
    ensures ReadQuoted(e + t) == Some(Read([u] + text, rest))
  {
    assert (e + t)[|e|..] == t;
  }

  lemma PairReads(t: Text, q: Text, rest: Text)
    requires |t| >= 2 && IsHigh(t[0]) && IsLow(t[1])
    requires ReadQuoted(Escape(t[2..]) + q) == Some(Read(t[2..], rest))
    ensures ReadQuoted(Escape(t) + q) == Some(Read(t, rest))
  {
    var s := Escape(t[2..]) + q;
    PlainReads(t[1], s, t[2..], rest);
    PlainReads(t[0], [t[1]] + s, [t[1]] + t[2..], rest);
    PairWritten(t, q);
    assert [t[0]] + ([t[1]] + t[2..]) == t;
  }

  lemma RegroupPair(a: CodeUnit, b: CodeUnit, e: Text, q: Text)
    ensures ([a, b] + e) + q == [a] + ([b] + (e + q))
  {
  }

  lemma PairWritten(t: Text, q: Text)
    requires |t| >= 2 && IsHigh(t[0]) && IsLow(t[1])
    ensures Escape(t) + q == [t[0]] + ([t[1]] + (Escape(t[2..]) + q))
  {
    assert t[..2] == [t[0], t[1]];
    RegroupPair(t[0], t[1], Escape(t[2..]), q);
  }

  lemma PlainReads(u: CodeUnit, t: Text, text: Text, rest: Text)
    requires u != QUOTE && u != BACKSLASH && ReadQuoted(t) == Some(Read(text, rest))
    ensures ReadQuoted([u] + t) == Some(Read([u] + text, rest))
  {
    ReadQuotedStep([u], u, t, text, rest);
  }

  lemma UnitReads(t: Text, q: Text, rest: Text)
    requires t != [] && !(|t| >= 2 && IsHigh(t[0]) && IsLow(t[1]))
    requires ReadQuoted(Escape(t[1..]) + q) == Some(Read(t[1..], rest))
    ensures ReadQuoted(Escape(t) + q) == Some(Read(t, rest))
  {
    var s := Escape(t[1..]) + q;
    EscapeUnitReads(t[0], s);
    ReadQuotedStep(EscapeUnit(t[0]), t[0], s, t[1..], rest);
    Regroup(EscapeUnit(t[0]), Escape(t[1..]), q);
    assert [t[0]] + t[1..] == t;
  }

  /** JSON string escaping loses nothing: the reader gives back the text and what was behind it. */
  lemma {:induction false} EscapeRoundTrip(t: Text, rest: Text)
    ensures ReadQuoted(Escape(t) + ([QUOTE] + rest)) == Some(Read(t, rest))
    decreases |t|
  {
    var q := [QUOTE] + rest;
    if t == [] {
      assert Escape(t) + q == q && q[1..] == rest;
    } else if |t| >= 2 && IsHigh(t[0]) && IsLow(t[1]) {
      EscapeRoundTrip(t[2..], rest);
      PairReads(t, q, rest);
    } else {
      EscapeRoundTrip(t[1..], rest);
      UnitReads(t, q, rest);
    }
  }

  // ---------- cancelling a common front ----------

  lemma CancelText(a: Text, x: Text, y: Text)
    requires a + x == a + y
    ensures x == y
  {
    assert (a + x)[|a|..] == x;
    assert (a + y)[|a|..] == y;
  }

  lemma BehindQuote(s: Text, x: Text)
    ensures (Quote(s) + x)[1..] == Escape(s) + ([QUOTE] + x)
  {
    Regroup([QUOTE], Escape(s), [QUOTE]);
    Regroup([QUOTE], Escape(s) + [QUOTE], x);
    Regroup(Escape(s), [QUOTE], x);
  }

  lemma QuoteCancels(s: Text, t: Text, x: Text, y: Text)
    requires Quote(s) + x == Quote(t) + y
    ensures s == t && x == y
  {
    EscapeRoundTrip(s, x);
    EscapeRoundTrip(t, y);
    BehindQuote(s, x);
    BehindQuote(t, y);
  }

  function DigitCount(t: Text): (n: nat)
    ensures n <= |t|
  {
    if t != [] && 48 <= t[0] <= 57 then 1 + DigitCount(t[1..]) else 0
  }

  lemma {:induction false} DigitCountOf(d: Text, x: Text)
    requires forall i :: 0 <= i < |d| ==> 48 <= d[i] <= 57
    requires x != [] && x[0] == 44
    ensures DigitCount(d + x) == |d|
  {
    if d == [] {
      assert d + x == x;
    } else {
      assert (d + x)[1..] == d[1..] + x;
      DigitCountOf(d[1..], x);
    }
  }

  lemma {:induction false} DigitsInjective(m: nat, n: nat)
    requires Digits(m) == Digits(n)
    ensures m == n
  {
    var d := Digits(m);
    assert m >= 10 ==> |d| == |Digits(m / 10)| + 1;
    assert n >= 10 ==> |d| == |Digits(n / 10)| + 1;
    if m >= 10 && n >= 10 {
      assert d[..|d| - 1] == Digits(m / 10) == Digits(n / 10);
      DigitsInjective(m / 10, n / 10);
      assert d[|d| - 1] == 48 + m % 10 == 48 + n % 10;
    }
  }

  lemma DigitsCancel(m: nat, n: nat, x: Text, y: Text)
    requires x != [] && x[0] == 44 && y != [] && y[0] == 44
    requires Digits(m) + x == Digits(n) + y
    ensures m == n && x == y
  {
    DigitCountOf(Digits(m), x);
    DigitCountOf(Digits(n), y);
    var k := |Digits(m)|;
    assert (Digits(m) + x)[..k] == Digits(m);
    assert (Digits(n) + y)[..k] == Digits(n);
    assert (Digits(m) + x)[k..] == x;
    assert (Digits(n) + y)[k..] == y;
    DigitsInjective(m, n);
  }

  lemma DecimalHead(n: int, x: Text)
    ensures (Decimal(n) + x)[0] == 45 <==> n < 0
    ensures n < 0 ==> (Decimal(n) + x)[1..] == Digits(-n) + x
  {
    assert (Decimal(n) + x)[0] == Decimal(n)[0];
    if n < 0 {
      Regroup([45], Digits(-n), x);
    }
  }

  lemma DecimalCancels(m: int, n: int, x: Text, y: Text)
    requires x != [] && x[0] == 44 && y != [] && y[0] == 44
    requires Decimal(m) + x == Decimal(n) + y
    ensures m == n && x == y
  {
    DecimalHead(m, x);
    DecimalHead(n, y);
    var s := Decimal(m) + x;
    assert m < 0 <==> s[0] == 45;
    assert n < 0 <==> s[0] == 45;
    if m < 0 {
      assert s[1..] == Digits(-m) + x == Digits(-n) + y;
      DigitsCancel(-m, -n, x, y);
    } else {
      DigitsCancel(m, n, x, y);
    }
  }

  lemma FieldCancels(f: Field, g: Field, x: Text, y: Text)
    requires FieldJson(f) + x == FieldJson(g) + y
    ensures SameField(f, g) && x == y
  {
    var s, t := FieldJson(f) + x, FieldJson(g) + y;
    assert s[0] == FieldJson(f)[0] && t[0] == FieldJson(g)[0];
    assert Ascii("null")[0] == 'n' as int;
    if f.Present? {
      assert g.Present?;
      QuoteCancels(f.text, g.text, x, y);
    } else {
      assert !g.Present?;
      CancelText(Ascii("null"), x, y);
    }
  }

  // ---------- injectivity ----------

  /** The part of the key from the optional fields on. */
  function FieldsJson(fs: seq<(string, Field)>): Text {
    if fs == [] then Ascii("}")
    else Ascii(fs[0].0) + (FieldJson(fs[0].1) + FieldsJson(fs[1..]))
  }

  function OptionalFields(s: Search): seq<(string, Field)> {
    [(",\"lang\":", s.lang), (",\"country\":", s.country), (",\"from\":", s.dateFrom),
     (",\"to\":", s.dateTo), (",\"sortBy\":", s.sortBy)]
  }

  lemma {:induction false} FieldsInjective(fs: seq<(string, Field)>, gs: seq<(string, Field)>)
    requires |fs| == |gs| && forall i :: 0 <= i < |fs| ==> fs[i].0 == gs[i].0
    requires FieldsJson(fs) == FieldsJson(gs)
    ensures forall i :: 0 <= i < |fs| ==> SameField(fs[i].1, gs[i].1)
  {
    if fs != [] {
      var x, y := FieldsJson(fs[1..]), FieldsJson(gs[1..]);
      CancelText(Ascii(fs[0].0), FieldJson(fs[0].1) + x, FieldJson(gs[0].1) + y);
      FieldCancels(fs[0].1, gs[0].1, x, y);
      FieldsInjective(fs[1..], gs[1..]);
      forall i | 0 <= i < |fs| ensures SameField(fs[i].1, gs[i].1) {
        assert i > 0 ==> fs[i] == fs[1..][i - 1] && gs[i] == gs[1..][i - 1];
      }
    }
  }

  lemma KeyShape(s: Search)
    ensures SearchCacheKey(s) ==
            Ascii("{\"query\":") + (Quote(s.query) + (Ascii(",\"count\":") + (Decimal(s.count)
            + (Ascii(",\"page\":") + (Decimal(s.page) + FieldsJson(OptionalFields(s)))))))
  {
    var o := OptionalFields(s);
    assert o[1..][0] == o[1] && o[1..][1..] == o[2..];
    assert o[2..][0] == o[2] && o[2..][1..] == o[3..];
    assert o[3..][0] == o[3] && o[3..][1..] == o[4..];
    assert o[4..][0] == o[4] && o[4..][1..] == [];
    assert FieldsJson(o[4..]) == Ascii(o[4].0) + (FieldJson(o[4].1) + Ascii("}"));
    assert FieldsJson(o[3..]) == Ascii(o[3].0) + (FieldJson(o[3].1) + FieldsJson(o[4..]));
    assert FieldsJson(o[2..]) == Ascii(o[2].0) + (FieldJson(o[2].1) + FieldsJson(o[3..]));
    assert FieldsJson(o[1..]) == Ascii(o[1].0) + (FieldJson(o[1].1) + FieldsJson(o[2..]));
  }

  lemma CommaFront(name: string, x: Text)
    requires name != "" && name[0] == ','
    ensures Ascii(name) + x != [] && (Ascii(name) + x)[0] == 44
  {
    assert Ascii(name)[0] == ',' as int;
  }

  /** The key from the count on. */
  function NumbersJson(s: Search): Text {
    Decimal(s.count) + (Ascii(",\"page\":") + (Decimal(s.page) + FieldsJson(OptionalFields(s))))
  }

  lemma NumbersInjective(s: Search, t: Search)
    requires NumbersJson(s) == NumbersJson(t)
    ensures s.count == t.count && s.page == t.page
    ensures FieldsJson(OptionalFields(s)) == FieldsJson(OptionalFields(t))
  {
    var fs, gs := FieldsJson(OptionalFields(s)), FieldsJson(OptionalFields(t));
    var x, y := Decimal(s.page) + fs, Decimal(t.page) + gs;
    CommaFront(",\"page\":", x);
    CommaFront(",\"page\":", y);
    DecimalCancels(s.count, t.count, Ascii(",\"page\":") + x, Ascii(",\"page\":") + y);
    CancelText(Ascii(",\"page\":"), x, y);
    var o, p := OptionalFields(s), OptionalFields(t);
    CommaFront(o[0].0, FieldJson(o[0].1) + FieldsJson(o[1..]));
    CommaFront(p[0].0, FieldJson(p[0].1) + FieldsJson(p[1..]));
    DecimalCancels(s.page, t.page, fs, gs);
  }

  lemma QueryAndNumbers(s: Search, t: Search)
    requires SearchCacheKey(s) == SearchCacheKey(t)
    ensures s.query == t.query && NumbersJson(s) == NumbersJson(t)
  {
    KeyShape(s);
    KeyShape(t);
    var x, y := Ascii(",\"count\":") + NumbersJson(s), Ascii(",\"count\":") + NumbersJson(t);
    CancelText(Ascii("{\"query\":"), Quote(s.query) + x, Quote(t.query) + y);
    QuoteCancels(s.query, t.query, x, y);
    CancelText(Ascii(",\"count\":"), NumbersJson(s), NumbersJson(t));
  }

  lemma EqualKeysAgree(s: Search, t: Search)
    requires SearchCacheKey(s) == SearchCacheKey(t)
    ensures SameSearch(s, t)
  {
    QueryAndNumbers(s, t);
    NumbersInjective(s, t);
    FieldsInjective(OptionalFields(s), OptionalFields(t));
    FieldsAgree(s, t);
  }

  lemma FieldsAgree(s: Search, t: Search)
    requires s.query == t.query && s.count == t.count && s.page == t.page
    requires var fs, gs := OptionalFields(s), OptionalFields(t);
             |fs| == |gs| && forall i :: 0 <= i < |fs| ==> SameField(fs[i].1, gs[i].1)
    ensures SameSearch(s, t)
  {
    var fs, gs := OptionalFields(s), OptionalFields(t);
    assert SameField(fs[0].1, gs[0].1) && SameField(fs[1].1, gs[1].1) && SameField(fs[2].1, gs[2].1)
           && SameField(fs[3].1, gs[3].1) && SameField(fs[4].1, gs[4].1);
  }

  lemma SameFieldPrintsSame(f: Field, g: Field)
    requires SameField(f, g)
    ensures FieldJson(f) == FieldJson(g)
  {
  }

  lemma AgreeingKeysEqual(s: Search, t: Search)
    requires SameSearch(s, t)
    ensures SearchCacheKey(s) == SearchCacheKey(t)
  {
    SameFieldPrintsSame(s.lang, t.lang);
    SameFieldPrintsSame(s.country, t.country);
    SameFieldPrintsSame(s.dateFrom, t.dateFrom);
    SameFieldPrintsSame(s.dateTo, t.dateTo);
    SameFieldPrintsSame(s.sortBy, t.sortBy);
  }

  /** Two searches share a cache key exactly when their eight fields agree, null and left out alike. */
  lemma KeyInjective(s: Search, t: Search)
    ensures SearchCacheKey(s) == SearchCacheKey(t) <==> SameSearch(s, t)
  {
    if SearchCacheKey(s) == SearchCacheKey(t) {
      EqualKeysAgree(s, t);
    }
    if SameSearch(s, t) {
      AgreeingKeysEqual(s, t);
    }
  }

  lemma FreshKeyEnd(s: Search)
    ensures var k := SearchCacheKey(s); k != [] && k[|k| - 1] == '}' as int
  {
    assert Ascii("}")[0] == '}' as int;
  }

  /** No stale key is a fresh key, and stale keys are as distinct as the fresh ones. */
  lemma StaleKeysApart(s: Search, t: Search)
    ensures StaleCacheKey(SearchCacheKey(s)) != SearchCacheKey(t)
    ensures StaleCacheKey(SearchCacheKey(s)) == StaleCacheKey(SearchCacheKey(t)) <==> SameSearch(s, t)
  {
    var k, l := SearchCacheKey(s), SearchCacheKey(t);
    FreshKeyEnd(t);
    assert Ascii(":stale")[5] == 'e' as int;
    assert StaleCacheKey(k)[|k| + 5] == 'e' as int;
    KeyInjective(s, t);
    if StaleCacheKey(k) == StaleCacheKey(l) {
      assert StaleCacheKey(k)[..|k|] == k && StaleCacheKey(l)[..|l|] == l;
    }
  }
}
