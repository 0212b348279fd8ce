/**
 * `useSentinelOffsets` of src/Sticky/hooks.js: from the sticky element's
 * computed `margin-top`, `padding-top`, `height` and `padding-bottom` it
 * builds the bottom sentinel's height as one `calc(...)` sum and passes
 * `margin-top` through unchanged; the top sentinel's style negates it with a
 * `-` prefix when rendered (src/Sticky/index.js). A small reading of CSS
 * lengths (`calc` sums of whole-pixel lengths) states what the strings mean.
 */
module Offsets {
  import opened Dom

  /** The four computed-style strings the effect reads. */
  datatype BoxMetrics = BoxMetrics(marginTop: string, paddingTop: string, height: string, paddingBottom: string)

  /** The hook's two state values. */
  datatype SentinelOffsets = SentinelOffsets(bottomSentinelHeight: string, topSentinelMarginTop: string)

  /** Both state values start empty. */
  const InitialOffsets: SentinelOffsets := SentinelOffsets("", "")

  /** What stands between two operands in the template literal: " +", a line
      break and the next line's eight-space indentation. */
  const Separator: string := " +\n        "

  /** The operands of the template literal, in its order, with its separators. */
  function CalcBody(m: BoxMetrics): string {
    m.marginTop + Separator + m.paddingTop + Separator + m.height + Separator + m.paddingBottom
  }

  /** The strings the effect stores. */
  function DeriveOffsets(m: BoxMetrics): (r: SentinelOffsets)
    ensures r.topSentinelMarginTop == m.marginTop
  {
    SentinelOffsets("calc(" + CalcBody(m) + ")", m.marginTop)
  }

  /** The inline styles the two sentinels are rendered with. */
  datatype SentinelStyles = SentinelStyles(topMarginTop: string, bottomHeight: string)

  /** The top sentinel's margin is the stored margin behind one '-', with
      nothing else changed; the bottom sentinel's height is the stored
      string as it is. */
  function Render(o: SentinelOffsets): (r: SentinelStyles)
    ensures |r.topMarginTop| == |o.topSentinelMarginTop| + 1
    ensures r.topMarginTop[0] == '-' && r.topMarginTop[1..] == o.topSentinelMarginTop
    ensures r.bottomHeight == o.bottomSentinelHeight
  {
    SentinelStyles("-" + o.topSentinelMarginTop, o.bottomSentinelHeight)
  }

  // ---------------------------------------------------------------------
  // Reading lengths: decimal whole numbers followed by "px".

  predicate IsDigit(c: char) {
    '0' <= c <= '9'
  }

  predicate AllDigits(s: string) {
    forall i :: 0 <= i < |s| ==> IsDigit(s[i])
  }

  function DigitChar(d: nat): (c: char)
    requires d < 10
    ensures IsDigit(c) && c as int - '0' as int == d
  {
    ('0' as int + d) as char
  }

  /** The value of a string of decimal digits, most significant first. */
  function DigitsValue(s: string): nat
    requires AllDigits(s)
    decreases |s|
  {
    if s == [] then 0 else DigitsValue(s[..|s| - 1]) * 10 + (s[|s| - 1] as int - '0' as int)
  }

  /** The decimal text of a number, as a computed style writes it. */
  function DecimalText(n: nat): (s: string)
    ensures |s| > 0 && AllDigits(s)
  {
    if n < 10 then [DigitChar(n)] else DecimalText(n / 10) + [DigitChar(n % 10)]
  }

  lemma {:induction false} DecimalRoundTrip(n: nat)
    ensures DigitsValue(DecimalText(n)) == n
  {
    var s := DecimalText(n);
    if n < 10 {
      assert s[..|s| - 1] == [];
    } else {
      assert s[..|s| - 1] == DecimalText(n / 10);
      DecimalRoundTrip(n / 10);
    }
  }

  /** A whole-pixel length such as "40px". */
  function PxLength(n: nat): string {
    DecimalText(n) + "px"
  }

  /** The number of pixels a length string denotes, if it is a whole-pixel
      length. */
  function ParsePx(s: string): Option<nat> {
    if |s| >= 3 && s[|s| - 2..] == "px" && AllDigits(s[..|s| - 2]) then Some(DigitsValue(s[..|s| - 2]))
    else None
  }

  lemma PxRoundTrip(n: nat)
    ensures ParsePx(PxLength(n)) == Some(n)
  {
    var s := PxLength(n);
    assert s[..|s| - 2] == DecimalText(n);
    assert s[|s| - 2..] == "px";
    DecimalRoundTrip(n);
  }

  /** A whole-pixel length that may be negative, such as "-5px". */
  function SignedPxLength(n: int): string {
    if n < 0 then "-" + PxLength(-n) else PxLength(n)
  }

  /** A length that may carry a leading minus sign. */
  function ParseSignedPx(s: string): Option<int> {
    if |s| > 0 && s[0] == '-' then
      match ParsePx(s[1..])
      case Some(v) => Some(-(v as int))
      case None => None
    else
      match ParsePx(s)
      case Some(v) => Some(v)
      case None => None
  }

  // ---------------------------------------------------------------------
  // Reading a `calc(a + b + ...)` sum back into its operands.

  predicate IsSpace(c: char) {
    c == ' ' || c == '\n' || c == '\t' || c == '\r' || c == '\U{000C}'
  }

  predicate AllSpace(s: string) {
    forall i :: 0 <= i < |s| ==> IsSpace(s[i])
  }

  /** An operand with no whitespace and no '+': every computed length. */
  predicate Plain(t: string) {
    |t| > 0 && forall i :: 0 <= i < |t| ==> t[i] != '+' && !IsSpace(t[i])
  }

  function TrimStart(s: string): string
    decreases |s|
  {
    if s != [] && IsSpace(s[0]) then TrimStart(s[1..]) else s
  }

  function TrimEnd(s: string): string
    decreases |s|
  {
    if s != [] && IsSpace(s[|s| - 1]) then TrimEnd(s[..|s| - 1]) else s
  }

  function Trim(s: string): string {
    TrimEnd(TrimStart(s))
  }

  /** The pieces of `s` between '+' signs; `piece` is the piece read so far. */
  function SplitPlus(s: string, piece: string): (r: seq<string>)
    ensures |r| > 0
    decreases |s|
  {
    if s == [] then [piece]
    else if s[0] == '+' then [piece] + SplitPlus(s[1..], "")
    else SplitPlus(s[1..], piece + [s[0]])
  }

  function TrimAll(pieces: seq<string>): (r: seq<string>)
    ensures |r| == |pieces|
  {
    if pieces == [] then [] else [Trim(pieces[0])] + TrimAll(pieces[1..])
  }

  /** The operands of a `calc(...)` sum, whitespace around them removed. */
  function ParseCalc(s: string): Option<seq<string>> {
    if |s| >= 6 && s[..5] == "calc(" && s[|s| - 1] == ')' then Some(TrimAll(SplitPlus(s[5..|s| - 1], "")))
    else None
  }

  /** The sum of the operands' pixel values, if each is a whole-pixel
      length, with or without a minus sign. */
  function SumPx(terms: seq<string>): Option<int> {
    if terms == [] then Some(0)
    else match (ParseSignedPx(terms[0]), SumPx(terms[1..]))
      case (Some(a), Some(b)) => Some(a + b)
      case _ => None
  }

  /** The pixel value of a `calc(...)` sum of whole-pixel lengths. */
  function CalcPx(s: string): Option<int> {
    match ParseCalc(s)
    case Some(terms) => SumPx(terms)
    case None => None
  }

  lemma {:induction false} TrimStartSpaces(w: string, x: string)
    requires AllSpace(w)
    requires x == [] || !IsSpace(x[0])
    ensures TrimStart(w + x) == x
    decreases |w|
  {
    if w == [] {
      assert w + x == x;
    } else {
      assert (w + x)[1..] == w[1..] + x;
      TrimStartSpaces(w[1..], x);
    }
  }

  lemma {:induction false} TrimEndSpaces(x: string, w: string)
    requires AllSpace(w)
    requires x == [] || !IsSpace(x[|x| - 1])
    ensures TrimEnd(x + w) == x
    decreases |w|
  {
    if w == [] {
      assert x + w == x;
    } else {
      var w' := w[..|w| - 1];
      assert (x + w)[..|x + w| - 1] == x + w';
      TrimEndSpaces(x, w');
    }
  }

  /** Whitespace on either side of a plain operand is trimmed away. */
  lemma TrimAround(w1: string, t: string, w2: string)
    requires AllSpace(w1) && AllSpace(w2) && Plain(t)
    ensures Trim(w1 + t + w2) == t
  {
    assert w1 + t + w2 == w1 + (t + w2);
    TrimStartSpaces(w1, t + w2);
    TrimEndSpaces(t, w2);
  }

  /** Reading across text without '+' only extends the current piece. */
  lemma {:induction false} SplitPlusPlain(a: string, rest: string, piece: string)
    requires forall i :: 0 <= i < |a| ==> a[i] != '+'
    ensures SplitPlus(a + rest, piece) == SplitPlus(rest, piece + a)
    decreases |a|
  {
    if a == [] {
      assert a + rest == rest;
      assert piece + a == piece;
    } else {
      assert (a + rest)[0] == a[0];
      assert (a + rest)[1..] == a[1..] + rest;
      assert piece + [a[0]] + a[1..] == piece + a;
      SplitPlusPlain(a[1..], rest, piece + [a[0]]);
    }
  }

  /** A piece without '+' followed by a '+' ends there. */
  lemma SplitPlusCons(a: string, rest: string)
    requires forall i :: 0 <= i < |a| ==> a[i] != '+'
    ensures SplitPlus(a + "+" + rest, "") == [a] + SplitPlus(rest, "")
  {
    assert a + "+" + rest == a + ("+" + rest);
    SplitPlusPlain(a, "+" + rest, "");
    assert ("+" + rest)[1..] == rest;
    assert "" + a == a;
  }

  lemma SplitPlusLast(a: string)
    requires forall i :: 0 <= i < |a| ==> a[i] != '+'
    ensures SplitPlus(a, "") == [a]
  {
    SplitPlusPlain(a, "", "");
    assert a + "" == a;
    assert "" + a == a;
  }

  predicate NoPlus(s: string) {
    forall i :: 0 <= i < |s| ==> s[i] != '+'
  }

  lemma NoPlusJoin(a: string, b: string)
    requires NoPlus(a) && NoPlus(b)
    ensures NoPlus(a + b)
  {
    forall i | 0 <= i < |a + b| ensures (a + b)[i] != '+' {
      if i < |a| {
        assert (a + b)[i] == a[i];
      } else {
        assert (a + b)[i] == b[i - |a|];
      }
    }
  }

  /** The line break and indentation that precede every operand after the first. */
  const Gap: string := "\n        "

  /** The '+'-separated pieces of the calc body, before trimming. */
  function CalcPieces(m: BoxMetrics): seq<string> {
    [m.marginTop + " ", Gap + m.paddingTop + " ", Gap + m.height + " ", Gap + m.paddingBottom]
  }

  /** The calc body is its four pieces joined by '+'. */
  lemma CalcBodyJoin(m: BoxMetrics)
    ensures var p := CalcPieces(m);
      CalcBody(m) == p[0] + "+" + (p[1] + "+" + (p[2] + "+" + p[3]))
  {
    assert Separator == " " + "+" + Gap;
  }

  lemma NoPlusPieces(m: BoxMetrics)
    requires Plain(m.marginTop) && Plain(m.paddingTop) && Plain(m.height) && Plain(m.paddingBottom)
    ensures forall i :: 0 <= i < 4 ==> NoPlus(CalcPieces(m)[i])
  {
    assert NoPlus(" ") && NoPlus(Gap);
    assert NoPlus(m.marginTop) && NoPlus(m.paddingTop) && NoPlus(m.height) && NoPlus(m.paddingBottom);
    NoPlusJoin(m.marginTop, " ");
    NoPlusJoin(Gap, m.paddingTop);
    NoPlusJoin(Gap + m.paddingTop, " ");
    NoPlusJoin(Gap, m.height);
    NoPlusJoin(Gap + m.height, " ");
    NoPlusJoin(Gap, m.paddingBottom);
  }

  lemma SplitCalcBody(m: BoxMetrics)
    requires Plain(m.marginTop) && Plain(m.paddingTop) && Plain(m.height) && Plain(m.paddingBottom)
    ensures SplitPlus(CalcBody(m), "") == CalcPieces(m)
  {
    var p := CalcPieces(m);
    var p0, p1, p2, p3 := p[0], p[1], p[2], p[3];
    NoPlusPieces(m);
    CalcBodyJoin(m);
    SplitPlusCons(p0, p1 + "+" + (p2 + "+" + p3));
    SplitPlusCons(p1, p2 + "+" + p3);
    SplitPlusCons(p2, p3);
    SplitPlusLast(p3);
    assert p == [p0] + ([p1] + ([p2] + [p3]));
  }

  lemma TrimCalcPieces(m: BoxMetrics)
    requires Plain(m.marginTop) && Plain(m.paddingTop) && Plain(m.height) && Plain(m.paddingBottom)
    ensures TrimAll(CalcPieces(m)) == [m.marginTop, m.paddingTop, m.height, m.paddingBottom]
  {
    var p := CalcPieces(m);
    assert AllSpace(" ") && AllSpace(Gap) && AllSpace("");
    TrimAround("", m.marginTop, " ");
    assert "" + m.marginTop + " " == p[0];
    TrimAround(Gap, m.paddingTop, " ");
    TrimAround(Gap, m.height, " ");
    TrimAround(Gap, m.paddingBottom, "");
    assert Gap + m.paddingBottom + "" == p[3];
    assert TrimAll(p) == [Trim(p[0])] + TrimAll(p[1..]);
    assert TrimAll(p[1..]) == [Trim(p[1])] + TrimAll(p[2..]);
    assert TrimAll(p[2..]) == [Trim(p[2])] + TrimAll(p[3..]);
    assert TrimAll(p[3..]) == [Trim(p[3])] + TrimAll([]);
  }

  lemma ParseCalcWrapped(body: string)
    ensures ParseCalc("calc(" + body + ")") == Some(TrimAll(SplitPlus(body, "")))
  {
    var s := "calc(" + body + ")";
    assert s[..5] == "calc(";
    assert s[5..|s| - 1] == body;
  }

  /** Reading the derived height back as a `calc` sum yields the four
      operands in the order margin-top, padding-top, height, padding-bottom. */
  lemma CalcRoundTrip(m: BoxMetrics)
    requires Plain(m.marginTop) && Plain(m.paddingTop) && Plain(m.height) && Plain(m.paddingBottom)
    ensures ParseCalc(DeriveOffsets(m).bottomSentinelHeight) == Some([m.marginTop, m.paddingTop, m.height, m.paddingBottom])
  {
    ParseCalcWrapped(CalcBody(m));
    SplitCalcBody(m);
    TrimCalcPieces(m);
  }

  /** The computed style of an element whose four metrics are whole pixels;
      only the margin can be negative. */
  function PxMetrics(marginTop: int, paddingTop: nat, height: nat, paddingBottom: nat): BoxMetrics {
    BoxMetrics(SignedPxLength(marginTop), PxLength(paddingTop), PxLength(height), PxLength(paddingBottom))
  }

  lemma PxLengthPlain(n: nat)
    ensures Plain(PxLength(n))
  {
    var s := PxLength(n);
    forall i | 0 <= i < |s| ensures s[i] != '+' && !IsSpace(s[i]) {
      if i < |DecimalText(n)| {
        assert s[i] == DecimalText(n)[i];
      }
    }
  }

  lemma SignedPxLengthPlain(n: int)
    ensures Plain(SignedPxLength(n))
  {
    if n < 0 {
      var s := SignedPxLength(n);
      PxLengthPlain(-n);
      forall i | 0 <= i < |s| ensures s[i] != '+' && !IsSpace(s[i]) {
        if i > 0 {
          assert s[i] == PxLength(-n)[i - 1];
        }
      }
    } else {
      PxLengthPlain(n);
    }
  }

  /** A non-negative length has no sign to read. */
  lemma UnsignedPxRoundTrip(n: nat)
    ensures ParseSignedPx(PxLength(n)) == Some(n as int)
  {
    assert PxLength(n)[0] == DecimalText(n)[0];
    PxRoundTrip(n);
  }

  lemma SignedPxRoundTrip(n: int)
    ensures ParseSignedPx(SignedPxLength(n)) == Some(n)
  {
    if n < 0 {
      var s := SignedPxLength(n);
      assert s[1..] == PxLength(-n);
      PxRoundTrip(-n);
    } else {
      UnsignedPxRoundTrip(n);
    }
  }

  /** The bottom sentinel's height denotes the sum of the four metrics,
      a negative margin included. */
  lemma BottomHeightIsSum(marginTop: int, paddingTop: nat, height: nat, paddingBottom: nat)
    ensures CalcPx(DeriveOffsets(PxMetrics(marginTop, paddingTop, height, paddingBottom)).bottomSentinelHeight)
         == Some(marginTop + paddingTop + height + paddingBottom)
  {
    var m := PxMetrics(marginTop, paddingTop, height, paddingBottom);
    SignedPxLengthPlain(marginTop);
    PxLengthPlain(paddingTop);
    PxLengthPlain(height);
    PxLengthPlain(paddingBottom);
    CalcRoundTrip(m);
    SignedPxRoundTrip(marginTop);
    UnsignedPxRoundTrip(paddingTop);
    UnsignedPxRoundTrip(height);
    UnsignedPxRoundTrip(paddingBottom);
    var terms := [m.marginTop, m.paddingTop, m.height, m.paddingBottom];
    assert SumPx(terms[4..]) == Some(0);
    assert SumPx(terms[3..]) == Some(paddingBottom);
    assert SumPx(terms[2..]) == Some(height + paddingBottom);
    assert SumPx(terms[1..]) == Some(paddingTop + height + paddingBottom);
  }

  /** For a non-negative margin the rendered top margin denotes its negation. */
  lemma RenderedMarginIsNegated(marginTop: nat, paddingTop: nat, height: nat, paddingBottom: nat)
    ensures ParseSignedPx(Render(DeriveOffsets(PxMetrics(marginTop, paddingTop, height, paddingBottom))).topMarginTop)
         == Some(-(marginTop as int))
  {
    var s := "-" + PxLength(marginTop);
    assert s[1..] == PxLength(marginTop);
    PxRoundTrip(marginTop);
  }

  /** The prefix is textual: a computed margin that is itself negative is
      rendered with a doubled minus sign, which is not a length. */
  lemma NegativeMarginIsNotNegated(n: nat, m: BoxMetrics)
    requires m.marginTop == "-" + PxLength(n)
    ensures Render(DeriveOffsets(m)).topMarginTop == "--" + PxLength(n)
    ensures ParseSignedPx(Render(DeriveOffsets(m)).topMarginTop) == None
  {
    var s := "--" + PxLength(n);
    assert "-" + m.marginTop == s;
    assert s[1..] == "-" + PxLength(n);
    assert !IsDigit(s[1..][0]);
  }

  /** Margin 10px, padding 5px and 5px, height 40px: the bottom sentinel
      is 60px high and the top sentinel's margin is -10px. */
  lemma Example()
    ensures CalcPx(DeriveOffsets(PxMetrics(10, 5, 40, 5)).bottomSentinelHeight) == Some(60)
    ensures ParseSignedPx(Render(DeriveOffsets(PxMetrics(10, 5, 40, 5))).topMarginTop) == Some(-10)
    ensures PxMetrics(10, 5, 40, 5) == BoxMetrics("10px", "5px", "40px", "5px")
  {
    BottomHeightIsSum(10, 5, 40, 5);
    RenderedMarginIsNegated(10, 5, 40, 5);
  }

  /** The same box with margin -5px: the bottom sentinel is 45px high, and
      the top sentinel's margin "--5px" is not a length. */
  lemma NegativeMarginExample()
    ensures CalcPx(DeriveOffsets(PxMetrics(-5, 5, 40, 5)).bottomSentinelHeight) == Some(45)
    ensures ParseSignedPx(Render(DeriveOffsets(PxMetrics(-5, 5, 40, 5))).topMarginTop) == None
  {
    BottomHeightIsSum(-5, 5, 40, 5);
    NegativeMarginIsNotNegated(5, PxMetrics(-5, 5, 40, 5));
  }

  /** Before the effect has run, the sentinels are rendered from the two
      empty initial values: the top margin is a bare "-" and the bottom
      height is "", and neither is a length. */
  lemma InitialRender()
    ensures Render(InitialOffsets) == SentinelStyles("-", "")
    ensures ParseSignedPx(Render(InitialOffsets).topMarginTop) == None
    ensures CalcPx(Render(InitialOffsets).bottomHeight) == None
  {
  }
}
