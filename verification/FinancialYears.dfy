/** Financial-year normalisation (src/compliance_engine/financial/years.py). Texts are
    ASCII apart from the en dash. */
module FinancialYears {
  import opened Ordering

  /** The value handed in; `Text` carries what `str` makes of anything else. */
  datatype Raw = Absent | Boolean(b: bool) | Text(text: string)

  predicate IsSpace(c: char) {
    c as int in {9, 10, 11, 12, 13, 28, 29, 30, 31, 32}
  }

  predicate IsDigit(c: char) {
    '0' <= c <= '9'
  }

  predicate IsDash(c: char) {
    c == '-' || c == '\U{2013}' || c == '/'
  }

  predicate Blank(s: string) {
    forall i :: 0 <= i < |s| ==> IsSpace(s[i])
  }

  predicate AllDigits(s: string) {
    forall i :: 0 <= i < |s| ==> IsDigit(s[i])
  }

  function LeftStrip(s: string): string {
    if s != "" && IsSpace(s[0]) then LeftStrip(s[1..]) else s
  }

  function RightStrip(s: string): string {
    if s != "" && IsSpace(s[|s| - 1]) then RightStrip(s[..|s| - 1]) else s
  }

  function Strip(s: string): string {
    RightStrip(LeftStrip(s))
  }

  // ----- numerals -----

  function Value(digits: string): (n: nat)
    requires AllDigits(digits)
    ensures n < Power10(|digits|)
  {
    if digits == "" then 0
    else Value(digits[..|digits| - 1]) * 10 + (digits[|digits| - 1] as int - '0' as int)
  }

  function Power10(w: nat): (p: nat)
    ensures p > 0
  {
    if w == 0 then 1 else 10 * Power10(w - 1)
  }

  /** The last `width` decimal digits of `n`, zero-padded. */
  function Numeral(n: nat, width: nat): (s: string)
    ensures |s| == width && AllDigits(s)
  {
    if width == 0 then "" else Numeral(n / 10, width - 1) + [('0' as int + n % 10) as char]
  }

  lemma {:induction false} ValueOfNumeral(n: nat, width: nat)
    requires n < Power10(width)
    ensures Value(Numeral(n, width)) == n
  {
    if width > 0 { ValueOfNumeral(n / 10, width - 1); }
  }

  lemma {:induction false} NumeralOfValue(digits: string)
    requires AllDigits(digits)
    ensures Numeral(Value(digits), |digits|) == digits
  {
    if digits != "" { NumeralOfValue(digits[..|digits| - 1]); }
  }

  // ----- the normaliser -----

  /** Drops a leading FY with its optional separator. */
  function StripPrefix(s: string): string {
    if |s| >= 2 && IsFY(s[0], s[1]) then DropSeparator(LeftStrip(s[2..])) else s
  }

  predicate IsFY(f: char, y: char) {
    (f == 'F' || f == 'f') && (y == 'Y' || y == 'y')
  }

  function DropSeparator(s: string): string {
    if s != "" && (s[0] == '-' || s[0] == '_') then LeftStrip(s[1..]) else s
  }

  /** The start and end digits of a year range. */
  function MatchRange(s: string): Option<(string, string)> {
    if |s| < 4 || !AllDigits(s[..4]) then None
    else
      var rest := LeftStrip(s[4..]);
      if rest == "" || !IsDash(rest[0]) then None
      else
        var end := LeftStrip(rest[1..]);
        if (|end| == 2 || |end| == 4) && AllDigits(end) then Some((s[..4], end)) else None
  }

  function NormalizeText(s: string): Option<string> {
    var text := Strip(s);
    if text == "" then None
    else
      match MatchRange(Strip(StripPrefix(text)))
      case None => None
      case Some((startRaw, endRaw)) =>
        if !AllDigits(startRaw) || !AllDigits(endRaw) then None
        else
          var start, end := Value(startRaw), Value(endRaw);
          if |endRaw| == 2 && end != (start + 1) % 100 then None
          else if |endRaw| != 2 && end != start + 1 then None
          else Some(Numeral(start, 4) + "-" + Numeral(end % 100, 2))
  }

  function NormalizeFinancialYear(value: Raw): Option<string> {
    match value
    case Absent => None
    case Boolean(_) => None
    case Text(s) => NormalizeText(s)
  }

  /** `FinancialYear.start_year` of a canonical text. */
  function StartYear(canonical: string): nat
    requires |canonical| >= 4 && AllDigits(canonical[..4])
  {
    Value(canonical[..4])
  }

  // ----- the spellings of a year -----

  datatype Prefix = Prefix(f: char, y: char, gap: string, separator: string, rest: string)

  /** One way to write the financial year that starts in `year`. */
  datatype Spelling = Spelling(
    before: string, prefix: Option<Prefix>, year: nat, gapLeft: string, dash: char, gapRight: string, long: bool,
        after: string)

  predicate PrefixOk(p: Prefix) {
    IsFY(p.f, p.y) && (p.separator == "" || p.separator == "-" || p.separator == "_") && Blank(p.gap) && Blank(p.rest)
  }

  /** A long end needs a fifth digit after 9999, so that year has short ends only. */
  predicate SpellingOk(sp: Spelling) {
    Blank(sp.before) && Blank(sp.gapLeft) && Blank(sp.gapRight) && Blank(sp.after) && IsDash(sp.dash)
    && (sp.prefix.Some? ==> PrefixOk(sp.prefix.value))
    && sp.year + (if sp.long then 1 else 0) <= 9999
  }

  function Prefixed(p: Option<Prefix>, range: string): string {
    match p
    case None => range
    case Some(q) => [q.f, q.y] + (q.gap + (q.separator + (q.rest + range)))
  }

  function EndText(year: nat, long: bool): string {
    if long then Numeral(year + 1, 4) else Numeral((year + 1) % 100, 2)
  }

  function RangeText(sp: Spelling): string {
    Numeral(sp.year, 4) + (sp.gapLeft + ([sp.dash] + (sp.gapRight + EndText(sp.year, sp.long))))
  }

  function Write(sp: Spelling): string {
    sp.before + (Prefixed(sp.prefix, RangeText(sp)) + sp.after)
  }

  function Canonical(year: nat): string {
    Numeral(year, 4) + "-" + Numeral((year + 1) % 100, 2)
  }

  // ----- stripping -----

  lemma {:induction false} LeftStripOf(gap: string, s: string)
    requires Blank(gap) && (s == "" || !IsSpace(s[0]))
    ensures LeftStrip(gap + s) == s
  {
    if gap == "" {
      assert gap + s == s;
    } else {
      assert (gap + s)[1..] == gap[1..] + s;
      LeftStripOf(gap[1..], s);
    }
  }

  lemma {:induction false} RightStripOf(s: string, gap: string)
    requires Blank(gap) && (s == "" || !IsSpace(s[|s| - 1]))
    ensures RightStrip(s + gap) == s
  {
    if gap == "" {
      assert s + gap == s;
    } else {
      assert (s + gap)[..|s + gap| - 1] == s + gap[..|gap| - 1];
      RightStripOf(s, gap[..|gap| - 1]);
    }
  }

  lemma {:induction false} LeftStripLeaves(s: string) returns (gap: string)
    ensures s == gap + LeftStrip(s) && Blank(gap)
    ensures LeftStrip(s) != "" ==> !IsSpace(LeftStrip(s)[0])
  {
    if s != "" && IsSpace(s[0]) {
      var rest := LeftStripLeaves(s[1..]);
      gap := [s[0]] + rest;
    } else {
      gap := "";
    }
  }

  lemma {:induction false} RightStripLeaves(s: string) returns (gap: string)
    ensures s == RightStrip(s) + gap && Blank(gap)
  {
    if s != "" && IsSpace(s[|s| - 1]) {
      var rest := RightStripLeaves(s[..|s| - 1]);
      gap := rest + [s[|s| - 1]];
    } else {
      gap := "";
    }
  }

  // ----- every spelling is understood -----

  /** The written range starts and ends with a digit. */
  lemma RangeEnds(sp: Spelling)
    ensures var r := RangeText(sp); |r| >= 7 && IsDigit(r[0]) && IsDigit(r[|r| - 1])
    ensures RangeText(sp)[..4] == Numeral(sp.year, 4)
    ensures RangeText(sp)[4..] == sp.gapLeft + ([sp.dash] + (sp.gapRight + EndText(sp.year, sp.long)))
  {
    var r := RangeText(sp);
    var end := EndText(sp.year, sp.long);
    assert r[0] == Numeral(sp.year, 4)[0];
    assert r[|r| - 1] == end[|end| - 1];
  }

  lemma RangeMatched(sp: Spelling)
    requires SpellingOk(sp)
    ensures MatchRange(RangeText(sp)) == Some((Numeral(sp.year, 4), EndText(sp.year, sp.long)))
  {
    hide Numeral, RangeText, LeftStrip;
    RangeEnds(sp);
    var end := EndText(sp.year, sp.long);
    LeftStripOf(sp.gapLeft, [sp.dash] + (sp.gapRight + end));
    LeftStripOf(sp.gapRight, end);
    assert ([sp.dash] + (sp.gapRight + end))[1..] == sp.gapRight + end;
  }

  lemma SeparatorDropped(separator: string, gap: string, range: string)
    requires separator == "" || separator == "-" || separator == "_"
    requires Blank(gap) && range != "" && IsDigit(range[0])
    ensures DropSeparator(if separator == "" then range else separator + (gap + range)) == range
  {
    hide LeftStrip;
    if separator != "" {
      assert (separator + (gap + range))[1..] == gap + range;
      LeftStripOf(gap, range);
    }
  }

  lemma PrefixStripped(p: Option<Prefix>, range: string)
    requires p.Some? ==> PrefixOk(p.value)
    requires range != "" && IsDigit(range[0])
    ensures StripPrefix(Prefixed(p, range)) == range
  {
    hide LeftStrip, DropSeparator;
    if p.Some? {
      var q := p.value;
      var tail := q.separator + (q.rest + range);
      assert Prefixed(p, range)[2..] == q.gap + tail;
      SeparatorDropped(q.separator, q.rest, range);
      if q.separator == "" {
        assert q.gap + tail == (q.gap + q.rest) + range;
        LeftStripOf(q.gap + q.rest, range);
      } else {
        assert tail[0] == q.separator[0];
        LeftStripOf(q.gap, tail);
      }
    }
  }

  lemma StripOf(before: string, s: string, after: string)
    requires Blank(before) && Blank(after)
    requires s != "" && !IsSpace(s[0]) && !IsSpace(s[|s| - 1])
    ensures Strip(before + (s + after)) == s
  {
    LeftStripOf(before, s + after);
    RightStripOf(s, after);
  }

  lemma PrefixedEnds(p: Option<Prefix>, range: string)
    requires p.Some? ==> PrefixOk(p.value)
    requires range != "" && IsDigit(range[0]) && IsDigit(range[|range| - 1])
    ensures var t := Prefixed(p, range); t != "" && !IsSpace(t[0]) && !IsSpace(t[|t| - 1])
  {
    var t := Prefixed(p, range);
    assert t[|t| - 1] == range[|range| - 1];
    if p.Some? {
      assert t[0] == p.value.f;
    }
  }

  lemma SpellingUnwrapped(sp: Spelling)
    requires SpellingOk(sp)
    ensures Strip(Write(sp)) == Prefixed(sp.prefix, RangeText(sp)) != ""
    ensures Strip(StripPrefix(Prefixed(sp.prefix, RangeText(sp)))) == RangeText(sp)
  {
    hide Strip, StripPrefix, RangeText, Prefixed;
    var range := RangeText(sp);
    RangeEnds(sp);
    PrefixedEnds(sp.prefix, range);
    PrefixStripped(sp.prefix, range);
    StripOf(sp.before, Prefixed(sp.prefix, range), sp.after);
    StripOf("", range, "");
    assert "" + (range + "") == range;
  }

  /** Whatever the spelling, the answer is the canonical text of its start year;
      2099 is written 2099-00 and 9999 is written 9999-00. */
  lemma EverySpellingNormalises(sp: Spelling)
    requires SpellingOk(sp)
    ensures NormalizeText(Write(sp)) == Some(Canonical(sp.year))
  {
    hide Strip, StripPrefix, RangeText, Prefixed, Write, MatchRange, Numeral, Value;
    SpellingUnwrapped(sp);
    RangeMatched(sp);
    EndsAgree(sp);
  }

  lemma EndsAgree(sp: Spelling)
    requires SpellingOk(sp)
    ensures Value(Numeral(sp.year, 4)) == sp.year
    ensures Value(EndText(sp.year, sp.long)) == if sp.long then sp.year + 1 else (sp.year + 1) % 100
  {
    hide Numeral, Power10;
    TenThousand();
    ValueOfNumeral(sp.year, 4);
    if sp.long { ValueOfNumeral(sp.year + 1, 4); } else { ValueOfNumeral((sp.year + 1) % 100, 2); }
  }

  lemma TenThousand()
    ensures Power10(2) == 100 && Power10(4) == 10000
  {
    assert Power10(2) == 10 * Power10(1);
    assert Power10(4) == 10 * Power10(3) == 100 * Power10(2);
  }

  // ----- and nothing else is -----

  lemma UnwriteSeparator(text: string) returns (separator: string, gap: string)
    ensures text == separator + (gap + DropSeparator(text))
    ensures (separator == "" || separator == "-" || separator == "_") && Blank(gap)
  {
    hide LeftStrip;
    if text != "" && (text[0] == '-' || text[0] == '_') {
      separator := [text[0]];
      gap := LeftStripLeaves(text[1..]);
      assert text == [text[0]] + text[1..];
    } else {
      separator, gap := "", "";
    }
  }

  lemma UnwritePrefix(text: string) returns (p: Option<Prefix>)
    ensures p.Some? ==> PrefixOk(p.value)
    ensures text == Prefixed(p, StripPrefix(text))
  {
    hide LeftStrip, DropSeparator;
    if |text| >= 2 && IsFY(text[0], text[1]) {
      var gap := LeftStripLeaves(text[2..]);
      var separator, rest := UnwriteSeparator(LeftStrip(text[2..]));
      p := Some(Prefix(text[0], text[1], gap, separator, rest));
      assert text == [text[0], text[1]] + text[2..];
    } else {
      p := None;
    }
  }

  lemma UnwriteRange(text: string) returns (gapLeft: string, dash: char, gapRight: string)
    requires MatchRange(text).Some?
    ensures var (start, end) := MatchRange(text).value;
            text == start + (gapLeft + ([dash] + (gapRight + end))) && Blank(gapLeft) && Blank(gapRight) && IsDash(dash)
            && AllDigits(start) && |start| == 4 && AllDigits(end) && (|end| == 2 || |end| == 4)
  {
    hide LeftStrip;
    var rest := LeftStrip(text[4..]);
    gapLeft := LeftStripLeaves(text[4..]);
    dash := rest[0];
    gapRight := LeftStripLeaves(rest[1..]);
    assert rest == [dash] + rest[1..];
    assert text == text[..4] + text[4..];
  }

  /** Blanks between a prefix, or nothing, and the rest belong to the prefix or to the front. */
  lemma AbsorbGap(before: string, p: Option<Prefix>, gap: string, range: string)
    returns (before': string, p': Option<Prefix>)
    requires Blank(before) && Blank(gap) && (p.Some? ==> PrefixOk(p.value))
    ensures Blank(before') && (p'.Some? ==> PrefixOk(p'.value))
    ensures before' + Prefixed(p', range) == before + Prefixed(p, gap + range)
  {
    match p
    case None =>
      before', p' := before + gap, None;
      assert (before + gap) + range == before + (gap + range);
    case Some(q) =>
      before', p' := before, Some(q.(rest := q.rest + gap));
      assert (q.rest + gap) + range == q.rest + (gap + range);
  }

  lemma PrefixedAppend(p: Option<Prefix>, range: string, after: string)
    ensures Prefixed(p, range) + after == Prefixed(p, range + after)
  {
    if p.Some? {
      var q := p.value;
      assert Prefixed(p, range) + after == [q.f, q.y] + (q.gap + (q.separator + (q.rest + (range + after))));
    }
  }

  lemma StripLeaves(s: string) returns (before: string, after: string)
    ensures s == before + (Strip(s) + after) && Blank(before) && Blank(after)
  {
    hide LeftStrip, RightStrip;
    before := LeftStripLeaves(s);
    after := RightStripLeaves(LeftStrip(s));
  }

  /** A text is blanks, a prefix, the range, and blanks. */
  lemma Unwrap(s: string) returns (before: string, p: Option<Prefix>, after: string)
    ensures s == before + (Prefixed(p, Strip(StripPrefix(Strip(s)))) + after)
    ensures Blank(before) && Blank(after) && (p.Some? ==> PrefixOk(p.value))
  {
    hide Strip, StripPrefix, Prefixed, Blank, PrefixOk;
    var text, rest := Strip(s), StripPrefix(Strip(s));
    var b, a := StripLeaves(s);
    var q := UnwritePrefix(text);
    var gap, a' := StripLeaves(rest);
    var range := Strip(rest);
    before, p := AbsorbGap(b, q, gap, range + (a' + a));
    after := a' + a;
    BlankConcat(a', a);
    PrefixedAppend(p, range, after);
    PrefixedAppend(q, rest, a);
    assert rest + a == gap + (range + (a' + a));
    assert s == b + Prefixed(q, gap + (range + (a' + a)));
  }

  lemma BlankConcat(a: string, b: string)
    requires Blank(a) && Blank(b)
    ensures Blank(a + b)
  {
  }

  /** The digits of an accepted range are those of some year. */
  lemma RangeDigits(start: string, end: string)
    requires AllDigits(start) && AllDigits(end) && |start| == 4
    requires (|end| == 2 && Value(end) == (Value(start) + 1) % 100) || (|end| == 4 && Value(end) == Value(start) + 1)
    ensures Value(start) + (if |end| == 4 then 1 else 0) <= 9999
    ensures start == Numeral(Value(start), 4) && end == EndText(Value(start), |end| == 4)
  {
    hide Numeral;
    TenThousand();
    NumeralOfValue(start);
    NumeralOfValue(end);
  }

  /** Every accepted text is a spelling of some year. */
  lemma AcceptedIsASpelling(s: string) returns (sp: Spelling)
    requires NormalizeText(s).Some?
    ensures SpellingOk(sp) && Write(sp) == s
  {
    hide Strip, StripPrefix, Prefixed, MatchRange, Numeral, Value, EndText, PrefixOk, Blank;
    var before, p, after := Unwrap(s);
    var range := Strip(StripPrefix(Strip(s)));
    var (start, end) := MatchRange(range).value;
    var gapLeft, dash, gapRight := UnwriteRange(range);
    RangeDigits(start, end);
    sp := Spelling(before, p, Value(start), gapLeft, dash, gapRight, |end| == 4, after);
  }

  // ----- the laws -----

  /** Printing and reading a start year are inverse, and the printed text is a spelling. */
  lemma CanonicalRoundTrip(year: nat)
    requires year <= 9999
    ensures |Canonical(year)| == 7 && AllDigits(Canonical(year)[..4]) && StartYear(Canonical(year)) == year
    ensures NormalizeText(Canonical(year)) == Some(Canonical(year))
  {
    hide Canonical, NormalizeText, Write, SpellingOk;
    PlainIsCanonical(year);
    EverySpellingNormalises(PlainSpelling(year));
    CanonicalStart(year);
  }

  /** The shortest spelling of a year. */
  function PlainSpelling(year: nat): Spelling {
    Spelling("", None, year, "", '-', "", false, "")
  }

  lemma PlainIsCanonical(year: nat)
    requires year <= 9999
    ensures SpellingOk(PlainSpelling(year)) && Write(PlainSpelling(year)) == Canonical(year)
  {
    hide Numeral;
    var start, end := Numeral(year, 4), Numeral((year + 1) % 100, 2);
    assert "" + (start + ("" + (['-'] + ("" + end))) + "") == start + "-" + end;
  }

  lemma CanonicalStart(year: nat)
    requires year <= 9999
    ensures |Canonical(year)| == 7 && AllDigits(Canonical(year)[..4]) && StartYear(Canonical(year)) == year
  {
    hide Numeral, Power10;
    TenThousand();
    ValueOfNumeral(year, 4);
    assert Canonical(year)[..4] == Numeral(year, 4);
  }

  /** A text is accepted, with the canonical text of `year`, exactly when it is a
      spelling of `year`. */
  lemma AcceptedIffSpelt(s: string, year: nat)
    requires year <= 9999
    ensures NormalizeText(s) == Some(Canonical(year))
            <==> exists sp :: SpellingOk(sp) && sp.year == year && Write(sp) == s
  {
    hide Canonical, Write, NormalizeText, SpellingOk;
    if NormalizeText(s) == Some(Canonical(year)) {
      var sp := AcceptedIsASpelling(s);
      EverySpellingNormalises(sp);
      SpellingYear(sp);
      CanonicalRoundTrip(year);
      CanonicalRoundTrip(sp.year);
    }
    if sp :| SpellingOk(sp) && sp.year == year && Write(sp) == s {
      EverySpellingNormalises(sp);
    }
  }

  lemma SpellingYear(sp: Spelling)
    requires SpellingOk(sp)
    ensures sp.year <= 9999
  {
  }

  /** Every answer is the canonical text of the start year read from its first four
      digits, and normalising it again changes nothing. */
  lemma AnswersAreCanonical(value: Raw)
    requires NormalizeFinancialYear(value).Some?
    ensures var c := NormalizeFinancialYear(value).value;
            |c| == 7 && AllDigits(c[..4]) && StartYear(c) <= 9999 && c == Canonical(StartYear(c))
            && NormalizeFinancialYear(Text(c)) == Some(c)
  {
    hide NormalizeText, Canonical, SpellingOk, StartYear, Write;
    var sp := AcceptedIsASpelling(value.text);
    EverySpellingNormalises(sp);
    SpellingYear(sp);
    CanonicalRoundTrip(sp.year);
  }

  /** Two accepted values are the same financial year iff they start in the same year. */
  lemma SameYearIffSameStart(a: Raw, b: Raw)
    requires NormalizeFinancialYear(a).Some? && NormalizeFinancialYear(b).Some?
    ensures var x, y := NormalizeFinancialYear(a).value, NormalizeFinancialYear(b).value;
            |x| == |y| == 7 && AllDigits(x[..4]) && AllDigits(y[..4]) && (x == y <==> StartYear(x) == StartYear(y))
  {
    AnswersAreCanonical(a);
    AnswersAreCanonical(b);
    hide NormalizeFinancialYear;
  }

  // ----- documented forms -----

  /** The character classes: a dash is a hyphen, an en dash or a slash, and the prefix is
      FY in either case. */
  lemma CharacterClasses(c: char, d: char)
    ensures IsDash(c) <==> c in {'-', '\U{2013}', '/'}
    ensures IsFY(c, d) <==> c in {'F', 'f'} && d in {'Y', 'y'}
    ensures IsSpace(c) <==> c in {'\t', '\n', '\U{0B}', '\U{0C}', '\r', '\U{1C}', '\U{1D}', '\U{1E}', '\U{1F}', ' '}
    ensures IsDigit(c) <==> c in {'0', '1', '2', '3', '4', '5', '6', '7', '8', '9'}
  {
  }

  lemma YearDigits()
    ensures Numeral(2023, 4) == "2023" && Numeral(24, 2) == "24" && Numeral(2024, 4) == "2024"
  {
    assert Numeral(2, 1) == "2" && Numeral(20, 2) == "20" && Numeral(202, 3) == "202";
  }

  lemma DocumentedPrefix(p: Prefix, text: string)
    requires PrefixOk(p) && p.rest == "" && text == [p.f, p.y] + (p.gap + (p.separator + "2023-24"))
    ensures NormalizeText(text) == Some("2023-24")
  {
    YearDigits();
    hide Numeral, NormalizeText;
    assert p.rest + ("2023" + ("" + (['-'] + ("" + "24")))) == "2023-24";
    assert "" + (text + "") == text;
    Documented(Some(p), "", "", false, text);
  }

  lemma DocumentedRange(left: string, right: string, long: bool, text: string)
    requires Blank(left) && Blank(right)
    requires text == "2023" + (left + (['-'] + (right + if long then "2024" else "24")))
    ensures NormalizeText(text) == Some("2023-24")
  {
    YearDigits();
    hide Numeral, NormalizeText;
    assert "" + (text + "") == text;
    Documented(None, left, right, long, text);
  }

  /** A text is read as `NormalizeText` reads it, and nothing else is a financial year. */
  lemma OnlyTextsAreRead(value: Raw)
    ensures match value
            case Text(s) =>
              && NormalizeFinancialYear(value) == NormalizeText(s)
              && (NormalizeFinancialYear(value).Some? <==> exists sp :: SpellingOk(sp) && s == Write(sp))
            case _ => NormalizeFinancialYear(value).None?
  {
    if value.Text? && NormalizeFinancialYear(value).Some? {
      hide NormalizeText, SpellingOk, Write;
      var sp := AcceptedIsASpelling(value.text);
      assert SpellingOk(sp) && value.text == Write(sp);
    } else if value.Text? {
      forall sp | SpellingOk(sp)
        ensures value.text != Write(sp)
      {
        EverySpellingNormalises(sp);
      }
    }
  }

  /** The forms the documentation lists, and its canonical form for them. */
  lemma DocumentedForms()
    ensures NormalizeText("FY2023-24") == Some("2023-24") && NormalizeText("FY 2023-24") == Some("2023-24")
    ensures NormalizeText("fy2023-24") == Some("2023-24") && NormalizeText("2023-24") == Some("2023-24")
    ensures NormalizeText("2023-2024") == Some("2023-24") && NormalizeText("2023 - 24") == Some("2023-24")
  {
    hide NormalizeText;
    DocumentedPrefix(Prefix('F', 'Y', "", "", ""), "FY2023-24");
    DocumentedPrefix(Prefix('F', 'Y', " ", "", ""), "FY 2023-24");
    DocumentedPrefix(Prefix('f', 'y', "", "", ""), "fy2023-24");
    DocumentedRange("", "", false, "2023-24");
    DocumentedRange("", "", true, "2023-2024");
    DocumentedRange(" ", " ", false, "2023 - 24");
  }

  lemma Documented(p: Option<Prefix>, left: string, right: string, long: bool, text: string)
    requires p.Some? ==> PrefixOk(p.value)
    requires Blank(left) && Blank(right)
    requires text == Write(Spelling("", p, 2023, left, '-', right, long, ""))
    ensures NormalizeText(text) == Some("2023-24")
  {
    YearDigits();
    assert Canonical(2023) == "2023-24" by {
      hide Numeral;
      assert "2023" + "-" + "24" == "2023-24";
    }
    hide NormalizeText, Canonical, Write;
    EverySpellingNormalises(Spelling("", p, 2023, left, '-', right, long, ""));
  }
}
