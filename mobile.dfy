/**
 * Reading the two- or three-digit number the GitHub Mobile verification page
 * shows: among the displayed text nodes that consist of such a number (with
 * surrounding white space), the one rendered in the largest font wins, the
 * earliest one on ties.
 */
module GithubMobile {

  import opened Wrappers
  import opened Text
  import opened Browser

  // ---------------------------------------------------------------------------
  // The pattern ^\s*(\d{2,3})\s*$
  // ---------------------------------------------------------------------------

  /** The number of leading `\s` characters. */
  function LeadingSpaces(t: string): (n: nat)
    ensures n <= |t| && AllRegexSpace(t[..n])
    ensures n < |t| ==> !IsRegexSpace(t[n])
  {
    if t != [] && IsRegexSpace(t[0]) then
      var m := LeadingSpaces(t[1..]);
      assert t[..m + 1] == [t[0]] + t[1..][..m];
      m + 1
    else 0
  }

  /** The number of trailing `\s` characters. */
  function TrailingSpaces(t: string): (n: nat)
    ensures n <= |t| && AllRegexSpace(t[|t| - n..])
    ensures n < |t| ==> !IsRegexSpace(t[|t| - n - 1])
  {
    if t != [] && IsRegexSpace(t[|t| - 1]) then
      var m := TrailingSpaces(t[..|t| - 1]);
      TrailingSpacesGrow(t, m);
      m + 1
    else 0
  }

  /** A trailing `\s` run of the text without its last character, extended by
      that character when it is `\s` too. */
  lemma TrailingSpacesGrow(t: string, m: nat)
    requires t != [] && IsRegexSpace(t[|t| - 1])
    requires m <= |t| - 1 && AllRegexSpace(t[..|t| - 1][|t| - 1 - m..])
    requires m < |t| - 1 ==> !IsRegexSpace(t[..|t| - 1][|t| - 1 - m - 1])
    ensures AllRegexSpace(t[|t| - (m + 1)..])
    ensures m + 1 < |t| ==> !IsRegexSpace(t[|t| - (m + 1) - 1])
  {
    var init, run := t[..|t| - 1], t[|t| - (m + 1)..];
    forall k | 0 <= k < |run|
      ensures IsRegexSpace(run[k])
    {
      if k < m {
        assert run[k] == init[|init| - m..][k];
      }
    }
  }

  /** Pattern.compile("^\\s*(\\d{2,3})\\s*$").matcher(t).matches(), with group 1
      as the result. */
  function MatchApprovalDigits(t: string): Option<string> {
    var rest := t[LeadingSpaces(t)..];
    var core := rest[..|rest| - TrailingSpaces(rest)];
    if 2 <= |core| <= 3 && AllDigits(core) then Some(core) else None
  }

  lemma LeadingSpacesUnique(t: string, n: nat)
    requires n <= |t| && AllRegexSpace(t[..n])
    requires n < |t| ==> !IsRegexSpace(t[n])
    ensures LeadingSpaces(t) == n
  {
    var m := LeadingSpaces(t);
    forall k | 0 <= k < n ensures IsRegexSpace(t[k]) {
      assert t[..n][k] == t[k];
    }
    forall k | 0 <= k < m ensures IsRegexSpace(t[k]) {
      assert t[..m][k] == t[k];
    }
  }

  lemma {:induction false} TrailingSpacesUnique(t: string, n: nat)
    requires n <= |t| && AllRegexSpace(t[|t| - n..])
    requires n < |t| ==> !IsRegexSpace(t[|t| - n - 1])
    ensures TrailingSpaces(t) == n
    decreases |t|
  {
    if t != [] {
      var last := |t| - 1;
      if IsRegexSpace(t[last]) {
        var init := t[..last];
        assert n >= 1;
        assert init[last - (n - 1)..] == t[|t| - n..last];
        assert t[|t| - n..][..n - 1] == t[|t| - n..last];
        TrailingSpacesUnique(init, n - 1);
      }
    }
  }

  /** Every text made of white space, two or three digits and white space matches,
      and the digits are what is read. */
  lemma MatchApprovalDigitsComplete(w1: string, d: string, w2: string)
    requires AllRegexSpace(w1) && AllRegexSpace(w2)
    requires 2 <= |d| <= 3 && AllDigits(d)
    ensures MatchApprovalDigits(w1 + d + w2) == Some(d)
  {
    var t := w1 + d + w2;
    assert t[..|w1|] == w1;
    assert t[|w1|] == d[0];
    LeadingSpacesUnique(t, |w1|);
    var rest := t[|w1|..];
    assert rest == d + w2;
    assert rest[|rest| - |w2|..] == w2;
    if |w2| < |rest| {
      assert rest[|rest| - |w2| - 1] == d[|d| - 1];
    }
    TrailingSpacesUnique(rest, |w2|);
    assert rest[..|rest| - |w2|] == d;
  }

  /** Whatever matches is white space, two or three digits and white space. */
  lemma MatchApprovalDigitsSound(t: string)
    requires MatchApprovalDigits(t).Some?
    ensures var d := MatchApprovalDigits(t).value;
            && 2 <= |d| <= 3 && AllDigits(d)
            && exists i :: OccursAt(t, d, i) && AllRegexSpace(t[..i]) && AllRegexSpace(t[i + |d|..])
  {
    var i := LeadingSpaces(t);
    var rest := t[i..];
    var k := TrailingSpaces(rest);
    var d := rest[..|rest| - k];
    assert t[i..i + |d|] == d;
    assert t[i + |d|..] == rest[|rest| - k..];
    assert OccursAt(t, d, i);
  }

  // ---------------------------------------------------------------------------
  // parsePx and the part of Double.parseDouble it reaches
  // ---------------------------------------------------------------------------

  function Pow10(e: nat): (r: nat)
    ensures r >= 1
  {
    if e == 0 then 1 else 10 * Pow10(e - 1)
  }

  /** 10 to an integer power. */
  function Scale(e: int): real {
    if e >= 0 then Pow10(e) as real else 1.0 / Pow10(-e) as real
  }

  /** The first position holding one of the given characters. */
  function IndexOfAny(s: string, cs: set<char>): (r: Option<nat>)
    ensures r.Some? ==> r.value < |s| && s[r.value] in cs
    ensures r.Some? ==> forall i | 0 <= i < r.value :: s[i] !in cs
    ensures r.None? ==> forall i | 0 <= i < |s| :: s[i] !in cs
  {
    if s == [] then None
    else if s[0] in cs then Some(0)
    else match IndexOfAny(s[1..], cs)
      case None => None
      case Some(k) => Some(k + 1)
  }

  /** Digits, optionally a point and more digits, with at least one digit in all. */
  function ParseMantissa(m: string): Option<real> {
    match IndexOfAny(m, {'.'})
    case None =>
      if |m| >= 1 && AllDigits(m) then Some(DecimalValue(m) as real) else None
    case Some(p) =>
      var whole, fraction := m[..p], m[p + 1..];
      if AllDigits(whole) && AllDigits(fraction) && |whole| + |fraction| >= 1 then
        Some(DecimalValue(whole) as real + DecimalValue(fraction) as real / Pow10(|fraction|) as real)
      else None
  }

  /** An optionally signed, non-empty run of digits. */
  function ParseExponent(x: string): Option<int> {
    if x != [] && (x[0] == '+' || x[0] == '-') then
      var digits := x[1..];
      if |digits| >= 1 && AllDigits(digits) then
        Some(if x[0] == '-' then -(DecimalValue(digits) as int) else DecimalValue(digits) as int)
      else None
    else if |x| >= 1 && AllDigits(x) then Some(DecimalValue(x) as int)
    else None
  }

  /** A mantissa with an optional exponent introduced by 'e' or 'E'. */
  function ParseUnsigned(core: string): Option<real> {
    var e := IndexOfAny(core, {'e', 'E'});
    if e.None? then ParseMantissa(core)
    else
      var m := ParseMantissa(core[..e.value]);
      var x := ParseExponent(core[e.value + 1..]);
      if m.Some? && x.Some? then Some(m.value * Scale(x.value)) else None
  }

  /** Drops a trailing type suffix f, F, d or D. */
  function StripTypeSuffix(body: string): (r: string)
    ensures |r| <= |body| && r == body[..|r|]
  {
    if body != [] && body[|body| - 1] in {'f', 'F', 'd', 'D'} then body[..|body| - 1] else body
  }

  /** Double.parseDouble for decimal notation: surrounding white space, a sign, a
      mantissa, an exponent and a type suffix; None where it throws. The value is
      exact (rounding to the nearest double is not modelled). */
  function ParseDouble(s: string): Option<real> {
    var t := Trim(s);
    if t != [] && (t[0] == '+' || t[0] == '-') then
      match ParseUnsigned(StripTypeSuffix(t[1..]))
      case None => None
      case Some(v) => Some(if t[0] == '-' then -v else v)
    else ParseUnsigned(StripTypeSuffix(t))
  }

  /** A run of digits reads as its decimal value. */
  lemma ParseUnsignedDigits(s: string)
    requires |s| >= 1 && AllDigits(s)
    ensures StripTypeSuffix(s) == s
    ensures ParseUnsigned(s) == Some(DecimalValue(s) as real)
  {
    assert IsDigit(s[|s| - 1]);
    DigitsHoldNone(s, {'e', 'E'});
    DigitsHoldNone(s, {'.'});
  }

  /** A run of digits holds no letter and no point. */
  lemma {:induction false} DigitsHoldNone(s: string, cs: set<char>)
    requires AllDigits(s) && forall c | c in cs :: !IsDigit(c)
    ensures IndexOfAny(s, cs) == None
    decreases |s|
  {
    if s != [] {
      assert IsDigit(s[0]);
      assert AllDigits(s[1..]) by {
        forall i | 0 <= i < |s[1..]| ensures IsDigit(s[1..][i]) {
          assert s[1..][i] == s[i + 1];
        }
      }
      DigitsHoldNone(s[1..], cs);
    }
  }

  /** parsePx: 0 for a missing value or one that does not parse; otherwise the
      number before an optional "px" unit, in any case and with surrounding
      white space allowed. */
  function ParsePx(fontSize: Option<string>): (px: real)
    ensures fontSize.None? ==> px == 0.0
  {
    if fontSize.None? then 0.0
    else
      var s := ToLower(Trim(fontSize.value));
      var number := if EndsWith(s, "px") then s[..|s| - 2] else s;
      ParseDouble(number).GetOr(0.0)
  }

  predicate AllTrimmable(w: string) {
    forall i | 0 <= i < |w| :: IsTrimmable(w[i])
  }

  lemma {:induction false} TrimStartOver(w: string, s: string)
    requires AllTrimmable(w)
    requires s == [] || !IsTrimmable(s[0])
    ensures TrimStart(w + s) == s
    decreases |w|
  {
    if w == [] {
      assert w + s == s;
    } else {
      assert (w + s)[1..] == w[1..] + s;
      TrimStartOver(w[1..], s);
    }
  }

  lemma {:induction false} TrimEndOver(s: string, w: string)
    requires AllTrimmable(w)
    requires s == [] || !IsTrimmable(s[|s| - 1])
    ensures TrimEnd(s + w) == s
    decreases |w|
  {
    if w == [] {
      assert s + w == s;
    } else {
      assert (s + w)[..|s + w| - 1] == s + w[..|w| - 1];
      TrimEndOver(s, w[..|w| - 1]);
    }
  }

  /** Trimming removes exactly the surrounding white space of a text whose ends
      are not white space. */
  lemma TrimSurrounded(w1: string, core: string, w2: string)
    requires AllTrimmable(w1) && AllTrimmable(w2)
    requires core != [] && !IsTrimmable(core[0]) && !IsTrimmable(core[|core| - 1])
    ensures Trim(w1 + core + w2) == core
  {
    assert w1 + core + w2 == w1 + (core + w2);
    TrimStartOver(w1, core + w2);
    TrimEndOver(core, w2);
  }

  lemma TrimUnchanged(s: string)
    requires s != [] && !IsTrimmable(s[0]) && !IsTrimmable(s[|s| - 1])
    ensures Trim(s) == s
  {
    TrimStartOver([], s);
    TrimEndOver(s, []);
    assert [] + s == s && s + [] == s;
  }

  /** Without a sign, the text is the unsigned number with its optional suffix. */
  lemma ParseDoubleUnsigned(s: string)
    requires Trim(s) == s && s != [] && s[0] != '+' && s[0] != '-'
    ensures ParseDouble(s) == ParseUnsigned(StripTypeSuffix(s))
  {
  }

  /** A plain numeral reads as its value. */
  lemma ParseDoubleNumeral(n: nat)
    ensures ParseDouble(NatToDecimal(n)) == Some(n as real)
  {
    var s := NatToDecimal(n);
    assert IsDigit(s[0]) && IsDigit(s[|s| - 1]);
    TrimUnchanged(s);
    ParseDoubleUnsigned(s);
    ParseUnsignedDigits(s);
    DecimalRoundTrip(n);
  }

  /** Lower-casing leaves the digits alone and turns the unit into "px". */
  lemma LowerNumeralWithUnit(digits: string, unit: string)
    requires AllDigits(digits)
    requires unit == [] || EqualsIgnoreCase(unit, "px")
    ensures ToLower(digits + unit) == if unit == [] then digits else digits + "px"
  {
    var s := ToLower(digits + unit);
    assert forall i | 0 <= i < |digits| :: s[i] == digits[i];
    if unit != [] {
      assert s[|digits|] == LowerChar(unit[0]) == 'p';
      assert s[|digits| + 1] == LowerChar(unit[1]) == 'x';
    }
  }

  /** "56px", " 56PX ", "56" and the like read as 56. */
  lemma ParsePxReadsPixels(w1: string, n: nat, unit: string, w2: string)
    requires AllTrimmable(w1) && AllTrimmable(w2)
    requires unit == [] || EqualsIgnoreCase(unit, "px")
    ensures ParsePx(Some(w1 + NatToDecimal(n) + unit + w2)) == n as real
  {
    PxNumberIsNumeral(w1, NatToDecimal(n), unit, w2);
    ParseDoubleNumeral(n);
  }

  /** What parsePx hands to parseDouble, for a numeral with an optional "px" and
      surrounding white space: the numeral itself. */
  lemma PxNumberIsNumeral(w1: string, digits: string, unit: string, w2: string)
    requires AllTrimmable(w1) && AllTrimmable(w2)
    requires |digits| >= 1 && AllDigits(digits)
    requires unit == [] || EqualsIgnoreCase(unit, "px")
    ensures var s := ToLower(Trim(w1 + digits + unit + w2));
            (if EndsWith(s, "px") then s[..|s| - 2] else s) == digits
  {
    var core := digits + unit;
    assert IsDigit(digits[0]) && core[0] == digits[0];
    if unit == [] {
      assert core == digits;
      assert IsDigit(digits[|digits| - 1]);
    } else {
      assert core[|core| - 1] == unit[1];
      assert LowerChar(unit[1]) == 'x';
    }
    var x := w1 + digits + unit + w2;
    assert x == w1 + core + w2;
    TrimSurrounded(w1, core, w2);
    LowerNumeralWithUnit(digits, unit);
    var s := ToLower(Trim(x));
    if unit == [] {
      assert IsDigit(s[|s| - 1]);
      assert !EndsWith(s, "px");
    } else {
      assert s[..|s| - 2] == digits;
    }
  }

  // ---------------------------------------------------------------------------
  // Choosing the number
  // ---------------------------------------------------------------------------

  /** What the loop reads from one node: nothing (hidden, stale, no text, or text
      that is not a two- or three-digit number), or the digits and font size. */
  datatype Reading = Skipped | Number(digits: string, px: real)

  function ReadNode(e: Element): (r: Reading)
    ensures r.Number? <==> !e.stale && e.displayed && e.text.Some? && MatchApprovalDigits(e.text.value).Some?
  {
    if !e.stale && e.displayed && e.text.Some? && MatchApprovalDigits(e.text.value).Some? then
      Number(MatchApprovalDigits(e.text.value).value, ParsePx(e.fontSize))
    else Skipped
  }

  /** The readings of the nodes, in document order. */
  function Readings(nodes: seq<Element>): (rs: seq<Reading>)
    ensures |rs| == |nodes|
    ensures forall i | 0 <= i < |nodes| :: rs[i] == ReadNode(nodes[i])
  {
    seq(|nodes|, i requires 0 <= i < |nodes| => ReadNode(nodes[i]))
  }

  /** The number found so far and the font size it was shown in. */
  datatype Pick = Pick(digits: Option<string>, px: real)

  /** Nothing found yet: no digits, and -1 as the size to beat. */
  const NoPick: Pick := Pick(None, -1.0)

  /** One iteration: a number replaces the pick only with a strictly larger font. */
  function Consider(best: Pick, r: Reading): Pick {
    if r.Number? && r.px > best.px then Pick(Some(r.digits), r.px) else best
  }

  /** The pick after the loop has seen the readings `rs`. */
  function Best(rs: seq<Reading>): Pick {
    if rs == [] then NoPick else Consider(Best(rs[..|rs| - 1]), rs[|rs| - 1])
  }

  /** The pick's font size bounds every number's, and never drops below -1. */
  lemma {:induction false} BestDominates(rs: seq<Reading>)
    ensures Best(rs).px >= -1.0
    ensures forall j | 0 <= j < |rs| && rs[j].Number? :: rs[j].px <= Best(rs).px
    decreases |rs|
  {
    if rs != [] {
      var init := rs[..|rs| - 1];
      BestDominates(init);
      assert forall j | 0 <= j < |rs| - 1 :: rs[j] == init[j];
    }
  }

  /** Digits are found exactly when some number is shown in a font size above -1. */
  lemma {:induction false} BestFindsIff(rs: seq<Reading>)
    ensures Best(rs).digits.None? <==> forall j | 0 <= j < |rs| && rs[j].Number? :: rs[j].px <= -1.0
    ensures Best(rs).digits.None? ==> Best(rs) == NoPick
    decreases |rs|
  {
    if rs != [] {
      var init := rs[..|rs| - 1];
      BestFindsIff(init);
      BestDominates(init);
      assert forall j | 0 <= j < |rs| - 1 :: rs[j] == init[j];
    }
  }

  /** The digits come from the first number shown in the largest font: every
      earlier number is strictly smaller. */
  lemma {:induction false} BestIsFirstLargest(rs: seq<Reading>)
    requires Best(rs).digits.Some?
    ensures exists i | 0 <= i < |rs| ::
              && rs[i].Number?
              && Best(rs) == Pick(Some(rs[i].digits), rs[i].px)
              && forall j | 0 <= j < i && rs[j].Number? :: rs[j].px < rs[i].px
    decreases |rs|
  {
    var init := rs[..|rs| - 1];
    assert forall j | 0 <= j < |rs| - 1 :: rs[j] == init[j];
    if Best(rs) != Best(init) {
      var i := |rs| - 1;
      BestDominates(init);
      assert rs[i].Number? && Best(rs) == Pick(Some(rs[i].digits), rs[i].px);
    } else {
      BestIsFirstLargest(init);
      var i :| 0 <= i < |init| && init[i].Number?
               && Best(init) == Pick(Some(init[i].digits), init[i].px)
               && forall j | 0 <= j < i && init[j].Number? :: init[j].px < init[i].px;
      assert rs[i] == init[i];
    }
  }

  /** The loop of extractMobileApprovalDigit over the nodes found. */
  method SelectDigits(nodes: seq<Element>) returns (digits: Option<string>)
    ensures digits == Best(Readings(nodes)).digits
  {
    var bestDigits: Option<string> := None;
    var bestFontPx := -1.0;
    var i := 0;
    while i < |nodes|
      invariant 0 <= i <= |nodes|
      invariant Pick(bestDigits, bestFontPx) == Best(Readings(nodes[..i]))
    {
      var el := nodes[i];
      assert nodes[..i + 1][..i] == nodes[..i];
      ghost var rs := Readings(nodes[..i + 1]);
      assert rs[..i] == Readings(nodes[..i]) && rs[i] == ReadNode(el);
      if !el.stale && el.displayed && el.text.Some? {
        var m := MatchApprovalDigits(el.text.value);
        if m.Some? {
          var px := ParsePx(el.fontSize);
          if px > bestFontPx {
            bestFontPx := px;
            bestDigits := m;
          }
        }
      }
      i := i + 1;
    }
    assert nodes[..i] == nodes;
    return bestDigits;
  }

  /** extractMobileApprovalDigit: wait half a second, then read the number from the
      heading-like nodes of the page as it is then; None when there is none. */
  method ExtractMobileApprovalDigit(d: Driver) returns (digits: Option<string>)
    modifies d
    ensures d.page == d.world.idle(old(d.page), 500) && d.now == old(d.now) + 500
    ensures digits == Best(Readings(Find(d.page, HeadingNodes))).digits
    ensures d.log == old(d.log) && d.quits == old(d.quits)
  {
    d.Sleep(500);
    digits := SelectDigits(Find(d.page, HeadingNodes));
  }
}
