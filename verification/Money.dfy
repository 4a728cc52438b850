/** Amounts at the boundary: parsing a decimal into smallest units and printing units as a decimal. */
module Money {
  import opened Decimals

  datatype Value = Text(text: string) | Integer(number: int) | Boolean | Float

  datatype AmountError =
    | NotAnAmount | Empty | Scientific | Malformed | NotFinite | Negative | Zero | TooPrecise

  datatype Result = Ok(units: nat) | Err(error: AmountError)

  /** An exact decimal `(-1)**neg * coef * 10**-scale`, an infinity or NaN, or no decimal at all. */
  datatype Reading = Number(neg: bool, coef: nat, scale: nat) | Special | Garbage

  const PRECISION: nat := 80

  // ---- Decimal(text) ----

  predicate IsSpace(ch: char) { ch == ' ' || '\t' <= ch <= '\r' || '\U{1c}' <= ch <= '\U{1f}' }

  function StripLeft(s: string): string
  {
    if s != [] && IsSpace(s[0]) then StripLeft(s[1..]) else s
  }

  function StripRight(s: string): string
  {
    if s != [] && IsSpace(s[|s| - 1]) then StripRight(s[..|s| - 1]) else s
  }

  function Strip(s: string): string { StripRight(StripLeft(s)) }

  function WithoutUnderscores(s: string): string
  {
    if s == [] then [] else WithoutUnderscores(s[..|s| - 1]) + if s[|s| - 1] == '_' then [] else [s[|s| - 1]]
  }

  function Lower(s: string): string
  {
    if s == [] then [] else Lower(s[..|s| - 1]) + [LowerChar(s[|s| - 1])]
  }

  function LowerChar(ch: char): char { if 'A' <= ch <= 'Z' then ch - 'A' + 'a' else ch }

  predicate IsSpecial(s: string)
  {
    var low := Lower(s);
    || low == "inf" || low == "infinity"
    || (|low| >= 3 && low[..3] == "nan" && AllDigits(low[3..]))
    || (|low| >= 4 && low[..4] == "snan" && AllDigits(low[4..]))
  }

  /** Position of the first point, or the length. */
  function PointAt(s: string): (i: nat)
    ensures i <= |s| && (i < |s| ==> s[i] == '.') && forall k :: 0 <= k < i ==> s[k] != '.'
  {
    if s == [] then 0
    else
      var i := PointAt(s[..|s| - 1]);
      if i < |s| - 1 || s[|s| - 1] == '.' then i else |s|
  }

  function ReadUnsigned(neg: bool, s: string): Reading
  {
    var i := PointAt(s);
    var whole := s[..i];
    var frac := if i < |s| then s[i + 1..] else [];
    if AllDigits(whole) && AllDigits(frac) && |whole| + |frac| > 0 then
      NatOfConcat(whole, frac);
      Number(neg, NatOf(whole + frac), |frac|)
    else if IsSpecial(s) then Special
    else Garbage
  }

  function ReadDecimal(s: string): Reading
  {
    if s != [] && s[0] == '-' then ReadUnsigned(true, s[1..])
    else if s != [] && s[0] == '+' then ReadUnsigned(false, s[1..])
    else ReadUnsigned(false, s)
  }

  // ---- parse_amount ----

  function ParseAmount(v: Value, decimals: nat, allowZero: bool): Result
  {
    match v
    case Boolean => Err(NotAnAmount)
    case Float => Err(NotAnAmount)
    case Integer(n) => Accept(Number(n < 0, if n < 0 then -n else n, 0), decimals, allowZero)
    case Text(s) =>
      var text := Strip(s);
      if text == [] then Err(Empty)
      else if 'e' in text || 'E' in text then Err(Scientific)
      else Accept(ReadDecimal(WithoutUnderscores(text)), decimals, allowZero)
  }

  /** Sign and zero checks, then `scaleb` in a context of 80 digits and the integrality test. */
  function Accept(r: Reading, decimals: nat, allowZero: bool): Result
  {
    match r
    case Garbage => Err(Malformed)
    case Special => Err(NotFinite)
    case Number(neg, coef, scale) =>
      if neg && coef > 0 then Err(Negative)
      else if coef == 0 && !allowZero then Err(Zero)
      else ToUnits(Rounded(coef, PRECISION), decimals, scale)
  }

  function ToUnits(coef: nat, decimals: nat, scale: nat): Result
  {
    if decimals >= scale then Ok(Scale(coef, decimals - scale))
    else if ModPow(coef, scale - decimals) == 0 then Ok(DivPow(coef, scale - decimals))
    else Err(TooPrecise)
  }

  // ---- format_amount ----

  function FormatAmount(units: int, decimals: nat): string
  {
    var magnitude := if units < 0 then -units else units;
    (if units < 0 then "-" else "") + FormatMagnitude(magnitude, decimals)
  }

  function FormatMagnitude(magnitude: nat, decimals: nat): string
  {
    if decimals == 0 then Digits(magnitude)
    else Digits(DivPow(magnitude, decimals)) + "." + Padded(ModPow(magnitude, decimals), decimals)
  }

  // ---- what parsing means ----

  predicate Admissible(r: Reading, allowZero: bool)
  {
    r.Number? && !(r.neg && r.coef > 0) && (r.coef > 0 || allowZero)
  }

  /** Units and coefficient denote the same amount: `units / 10**decimals == coef / 10**scale`. */
  predicate SameAmount(units: nat, decimals: nat, coef: nat, scale: nat)
  {
    Scale(units, scale) == Scale(coef, decimals)
  }

  lemma ToUnitsMeans(coef: nat, decimals: nat, scale: nat, u: nat)
    ensures ToUnits(coef, decimals, scale) == Ok(u) <==> SameAmount(u, decimals, coef, scale)
  {
    if decimals >= scale {
      ScaleAdd(coef, decimals - scale, scale);
      ScaleOrder(u, Scale(coef, decimals - scale), scale);
    } else {
      var m := scale - decimals;
      ScaleAdd(u, m, decimals);
      ScaleOrder(Scale(u, m), coef, decimals);
      DivPowExact(u, m);
    }
  }

  /**
    * Parsing succeeds with `u` exactly when the decimal times `10**decimals` is `u`, for every
    * admissible decimal of at most 80 significant digits.
    */
  lemma ParseIsExact(r: Reading, decimals: nat, allowZero: bool, u: nat)
    requires r.Number? && Fits(r.coef, PRECISION)
    ensures Accept(r, decimals, allowZero) == Ok(u) <==>
            Admissible(r, allowZero) && SameAmount(u, decimals, r.coef, r.scale)
  {
    RoundedExactly(r.coef, PRECISION);
    ToUnitsMeans(r.coef, decimals, r.scale, u);
  }

  /** The 80-digit hypothesis is the exact condition: a longer amount that is accepted is accepted as another amount. */
  lemma ExactIffFits(r: Reading, decimals: nat, allowZero: bool)
    requires Accept(r, decimals, allowZero).Ok?
    ensures SameAmount(Accept(r, decimals, allowZero).units, decimals, r.coef, r.scale) <==> Fits(r.coef, PRECISION)
  {
    var u := Accept(r, decimals, allowZero).units;
    var m := Rounded(r.coef, PRECISION);
    RoundedExactly(r.coef, PRECISION);
    ToUnitsMeans(m, decimals, r.scale, u);
    ScaleOrder(m, r.coef, decimals);
  }

  /** The shortest such family: `10**80 + 1` tokens are taken for `10**80`, whatever the asset. */
  lemma LongAmountIsMisread(p: nat, decimals: nat)
    requires p == PRECISION
    ensures var n := Pow10(p) + 1;
            ParseAmount(Integer(n), decimals, false) == Ok(Scale(n - 1, decimals))
            && !SameAmount(Scale(n - 1, decimals), decimals, n, 0)
  {
    var n := Pow10(p) + 1;
    OneTooLong(p);
    ScaleOrder(n - 1, n, decimals);
    ScaleOrder(Scale(n - 1, decimals), Scale(n, decimals), 0);
  }

  lemma OneTooLong(p: nat)
    requires p >= 1
    ensures Rounded(Pow10(p) + 1, p) == Pow10(p)
  {
    var n := Pow10(p) + 1;
    assert Pow10(p + 1) == 10 * Pow10(p) && Pow10(p) == 10 * Pow10(p - 1);
    Pow10Monotone(0, p - 1);
    DigitCountBounds(n);
    DigitCountWithin(n, p + 1);
    if DigitCount(n) <= p {
      Pow10Monotone(DigitCount(n), p);
    }
    DropOneDigit(n, Pow10(p - 1));
  }

  lemma DropOneDigit(n: nat, q: nat)
    requires n == 10 * q + 1
    ensures Scale(HalfEven(n, 1), 1) == n - 1
  {
    assert DivPow(n, 0) == n && DivPow(n, 1) == q;
    assert Scale(q, 1) == 10 * Scale(q, 0);
    assert Pow10(1) == 10;
  }

  /** Whatever was parsed, the result has at most 80 significant digits, and is positive unless zero was allowed. */
  lemma ParsedFits(r: Reading, decimals: nat, allowZero: bool)
    requires Accept(r, decimals, allowZero).Ok?
    ensures var u := Accept(r, decimals, allowZero).units; Fits(u, PRECISION) && (u > 0 || allowZero)
  {
    var u := Accept(r, decimals, allowZero).units;
    var m := Rounded(r.coef, PRECISION);
    RoundedExactly(r.coef, PRECISION);
    ToUnitsMeans(m, decimals, r.scale, u);
    FitsScaled(m, decimals, PRECISION);
    FitsScaled(u, r.scale, PRECISION);
    if r.coef > 0 {
      RoundedPositive(r.coef);
      ScaleGrows(m, decimals);
      ScaleOrder(u, 0, r.scale);
      ScaleOrder(0, u, r.scale);
      ZeroScaled(r.scale);
    }
  }

  lemma {:induction false} ZeroScaled(j: nat)
    ensures Scale(0, j) == 0
  {
    if j > 0 {
      ZeroScaled(j - 1);
    }
  }

  lemma RoundedPositive(c: nat)
    requires c > 0
    ensures Rounded(c, PRECISION) > 0
  {
    var k := Excess(c, PRECISION);
    DigitCountBounds(c);
    RoundingMoves(c, k);
    if DivPow(c, k) == 0 {
      Pow10Monotone(k, DigitCount(c) - 1);
      ZeroScaled(k);
    }
    ScaleGrows(HalfEven(c, k), k);
  }

  // ---- what printing produces ----

  /** Only digits, a point and a sign: nothing the reader strips or refuses. */
  predicate Plain(s: string)
  {
    forall ch :: ch in s ==> IsDigit(ch) || ch == '.' || ch == '-'
  }

  lemma PlainIsKept(s: string)
    requires Plain(s)
    ensures Strip(s) == s && WithoutUnderscores(s) == s && 'e' !in s && 'E' !in s
  {
    NoUnderscores(s);
    if s != [] {
      assert s[0] in s && s[|s| - 1] in s;
      StripKeeps(s);
    }
  }

  lemma StripKeeps(s: string)
    requires s != [] && !IsSpace(s[0]) && !IsSpace(s[|s| - 1])
    ensures Strip(s) == s
  {
  }

  lemma {:induction false} NoUnderscores(s: string)
    requires '_' !in s
    ensures WithoutUnderscores(s) == s
  {
    if s != [] {
      NoUnderscores(s[..|s| - 1]);
    }
  }

  /** Parsing a plain text reads it as it stands. */
  lemma ParsePlain(s: string, decimals: nat, allowZero: bool)
    requires Plain(s) && s != []
    ensures ParseAmount(Text(s), decimals, allowZero) == Accept(ReadDecimal(s), decimals, allowZero)
  {
    PlainIsKept(s);
  }

  lemma PointBetween(whole: string, frac: string)
    requires AllDigits(whole) && AllDigits(frac)
    ensures PointAt(whole + "." + frac) == |whole| && PointAt(whole) == |whole|
  {
    var s := whole + "." + frac;
    assert s[|whole|] == '.';
    forall k | 0 <= k < |whole| ensures whole[k] != '.' && s[k] != '.' {
      assert whole[k] in whole;
    }
  }

  /** Printed magnitudes read back as the magnitude over `10**decimals`. */
  lemma MagnitudeReads(magnitude: nat, decimals: nat, neg: bool)
    ensures ReadUnsigned(neg, FormatMagnitude(magnitude, decimals)) == Number(neg, magnitude, decimals)
    ensures Plain(FormatMagnitude(magnitude, decimals)) && FormatMagnitude(magnitude, decimals) != []
    ensures IsDigit(FormatMagnitude(magnitude, decimals)[0])
  {
    var s := FormatMagnitude(magnitude, decimals);
    if decimals == 0 {
      PointBetween(s, []);
      DigitsRead(magnitude);
      assert s + [] == s && s[..|s|] == s;
    } else {
      FractionReads(magnitude, decimals, neg);
    }
  }

  lemma FractionReads(magnitude: nat, decimals: nat, neg: bool)
    requires decimals > 0
    ensures var s := FormatMagnitude(magnitude, decimals);
            ReadUnsigned(neg, s) == Number(neg, magnitude, decimals) && Plain(s) && s != [] && IsDigit(s[0])
  {
    var whole := Digits(DivPow(magnitude, decimals));
    var frac := Padded(ModPow(magnitude, decimals), decimals);
    var n := Notation(NoSign, whole, true, frac);
    BodyReads(n, neg);
    DigitsRead(DivPow(magnitude, decimals));
    PaddedRead(ModPow(magnitude, decimals), decimals);
    NatOfConcat(whole, frac);
    BodyIsPlain(n);
    assert Body(n)[0] == whole[0] && whole[0] in whole;
  }

  lemma BodyIsPlain(n: Notation)
    requires WellFormed(n)
    ensures Plain(Body(n))
  {
    forall ch | ch in Body(n) ensures IsDigit(ch) || ch == '.' || ch == '-' {
      assert ch in n.whole || ch == '.' || ch in n.frac;
    }
  }

  /** The printed text denotes exactly the signed amount. */
  lemma FormatReads(units: int, decimals: nat)
    ensures var s := FormatAmount(units, decimals);
            && s != [] && Plain(s)
            && ReadDecimal(s) == Number(units < 0, if units < 0 then -units else units, decimals)
  {
    var magnitude := if units < 0 then -units else units;
    var body := FormatMagnitude(magnitude, decimals);
    MagnitudeReads(magnitude, decimals, units < 0);
    if units < 0 {
      assert ("-" + body)[1..] == body;
    } else {
      assert FormatAmount(units, decimals) == body;
    }
  }

  /** Always exactly `decimals` fractional digits. */
  lemma FormatWidth(units: int, decimals: nat)
    requires decimals > 0
    ensures var s := FormatAmount(units, decimals);
            |s| > decimals + 1 && s[|s| - decimals - 1] == '.' && AllDigits(s[|s| - decimals..])
  {
    var magnitude := if units < 0 then -units else units;
    var frac := Padded(ModPow(magnitude, decimals), decimals);
    var s := FormatAmount(units, decimals);
    assert s[|s| - decimals..] == frac;
  }

  // ---- the two undo each other ----

  /**
    * Parsing what was printed gives the units back exactly for positive (or allowed zero) units of at most 80
    * significant digits.
    */
  lemma ParseOfFormat(u: nat, decimals: nat, allowZero: bool)
    ensures ParseAmount(Text(FormatAmount(u, decimals)), decimals, allowZero) == Ok(u) <==>
            (u > 0 || allowZero) && Fits(u, PRECISION)
  {
    var s := FormatAmount(u, decimals);
    FormatReads(u, decimals);
    ParsePlain(s, decimals, allowZero);
    var r := ReadDecimal(s);
    if Fits(u, PRECISION) {
      ParseIsExact(r, decimals, allowZero, u);
    } else if Accept(r, decimals, allowZero) == Ok(u) {
      ExactIffFits(r, decimals, allowZero);
    }
  }

  /**
    * Printing what was parsed normalises: it parses to the same units, so printing and parsing again changes nothing.
    */
  lemma FormatNormalises(v: Value, decimals: nat, allowZero: bool)
    requires ParseAmount(v, decimals, allowZero).Ok?
    ensures var u := ParseAmount(v, decimals, allowZero).units;
            ParseAmount(Text(FormatAmount(u, decimals)), decimals, allowZero) == Ok(u)
  {
    var u := ParseAmount(v, decimals, allowZero).units;
    match v {
      case Integer(n) => ParsedFits(Number(n < 0, if n < 0 then -n else n, 0), decimals, allowZero);
      case Text(s) => ParsedFits(ReadDecimal(WithoutUnderscores(Strip(s))), decimals, allowZero);
    }
    ParseOfFormat(u, decimals, allowZero);
  }

  /** Different units never print alike. */
  lemma FormatIsInjective(u: int, v: int, decimals: nat)
    requires FormatAmount(u, decimals) == FormatAmount(v, decimals)
    ensures u == v
  {
    FormatReads(u, decimals);
    FormatReads(v, decimals);
  }

  // ---- on texts: the decimal notations, and nothing else, are accepted ----

  datatype Sign = NoSign | Plus | Minus

  /** A decimal as it is written: sign, digits, perhaps a point and more digits. */
  datatype Notation = Notation(sign: Sign, whole: string, point: bool, frac: string)

  predicate WellFormed(n: Notation)
  {
    AllDigits(n.whole) && AllDigits(n.frac) && |n.whole| + |n.frac| > 0 && (!n.point ==> n.frac == [])
  }

  function Body(n: Notation): string { if n.point then n.whole + "." + n.frac else n.whole }

  function Spelled(n: Notation): string
  {
    match n.sign
    case NoSign => Body(n)
    case Plus => "+" + Body(n)
    case Minus => "-" + Body(n)
  }

  /** The number written: all digits as one integer, over ten to the digits after the point. */
  function NumberOf(n: Notation): (r: Reading)
    requires WellFormed(n)
    ensures r.Number?
  {
    NatOfConcat(n.whole, n.frac);
    Number(n.sign.Minus?, NatOf(n.whole + n.frac), |n.frac|)
  }

  lemma BodyReads(n: Notation, neg: bool)
    requires WellFormed(n)
    ensures ReadUnsigned(neg, Body(n)) == Number(neg, NumberOf(n).coef, NumberOf(n).scale)
    ensures Body(n) != [] && Body(n)[0] != '-' && Body(n)[0] != '+'
  {
    var s := Body(n);
    PointBetween(n.whole, n.frac);
    NatOfConcat(n.whole, n.frac);
    if n.whole != [] {
      assert n.whole[0] in n.whole && s[0] == n.whole[0];
    }
    if n.point {
      assert s[..|n.whole|] == n.whole && s[|n.whole| + 1..] == n.frac;
    } else {
      assert s[..|s|] == s;
    }
  }

  lemma SpelledReads(n: Notation)
    requires WellFormed(n)
    ensures ReadDecimal(Spelled(n)) == NumberOf(n) && Spelled(n) != []
  {
    BodyReads(n, n.sign.Minus?);
    SignReads(Body(n));
  }

  lemma SignReads(body: string)
    ensures ReadDecimal("+" + body) == ReadUnsigned(false, body)
    ensures ReadDecimal("-" + body) == ReadUnsigned(true, body)
  {
    var plus, minus := "+" + body, "-" + body;
    assert plus[0] == '+' && plus[1..] == body;
    assert minus[0] == '-' && minus[1..] == body;
  }

  lemma SpelledChars(n: Notation)
    requires WellFormed(n)
    ensures forall ch :: ch in Spelled(n) ==> IsDigit(ch) || ch == '.' || ch == '-' || ch == '+'
  {
    forall ch | ch in Spelled(n) ensures IsDigit(ch) || ch == '.' || ch == '-' || ch == '+' {
      assert ch in n.whole || ch == '.' || ch in n.frac || ch == '-' || ch == '+';
    }
  }

  lemma {:induction false} OtherCharsStay(s: string, ch: char)
    requires ch in s && ch != '_'
    ensures ch in WithoutUnderscores(s)
  {
    if s[|s| - 1] != ch {
      assert s == s[..|s| - 1] + [s[|s| - 1]];
      OtherCharsStay(s[..|s| - 1], ch);
    }
  }

  /** A text that spells a decimal, blanks around it and underscores inside it aside, is read as that decimal. */
  lemma TextReads(s: string, n: Notation, decimals: nat, allowZero: bool)
    requires WellFormed(n) && WithoutUnderscores(Strip(s)) == Spelled(n)
    ensures ParseAmount(Text(s), decimals, allowZero) == Accept(NumberOf(n), decimals, allowZero)
  {
    SpelledReads(n);
    SpelledChars(n);
    if 'e' in Strip(s) {
      OtherCharsStay(Strip(s), 'e');
    }
    if 'E' in Strip(s) {
      OtherCharsStay(Strip(s), 'E');
    }
  }

  /**
    * On texts: for a decimal of at most 80 significant digits, parsing yields `u` iff the decimal is
    * admissible and denotes exactly `u` smallest units.
    */
  lemma ParseTextIsExact(s: string, n: Notation, decimals: nat, allowZero: bool, u: nat)
    requires WellFormed(n) && WithoutUnderscores(Strip(s)) == Spelled(n) && Fits(NumberOf(n).coef, PRECISION)
    ensures ParseAmount(Text(s), decimals, allowZero) == Ok(u) <==>
            Admissible(NumberOf(n), allowZero) && SameAmount(u, decimals, NumberOf(n).coef, NumberOf(n).scale)
  {
    TextReads(s, n, decimals, allowZero);
    ParseIsExact(NumberOf(n), decimals, allowZero, u);
  }

  /** On the other kinds of input: integers are exact likewise, booleans and floats are never amounts. */
  lemma ParseIntegerIsExact(n: int, decimals: nat, allowZero: bool, u: nat)
    requires Fits(if n < 0 then -n else n, PRECISION)
    ensures ParseAmount(Integer(n), decimals, allowZero) == Ok(u) <==>
            (n > 0 || (n == 0 && allowZero)) && u == Scale(n, decimals)
    ensures ParseAmount(Boolean, decimals, allowZero).Err? && ParseAmount(Float, decimals, allowZero).Err?
  {
    var r := Number(n < 0, if n < 0 then -n else n, 0);
    IntegerReads(n, r, decimals, allowZero);
    ParseIsExact(r, decimals, allowZero, u);
    SameAtScaleZero(u, decimals, r.coef);
  }

  /** What the parser reads, when the text gets that far. */
  function ReadingOf(v: Value): Reading
    requires v.Text? || v.Integer?
  {
    if v.Text? then ReadDecimal(WithoutUnderscores(Strip(v.text)))
    else Number(v.number < 0, if v.number < 0 then -v.number else v.number, 0)
  }

  /** The ground of a refusal holds of the input. */
  ghost predicate Grounded(v: Value, decimals: nat, allowZero: bool, e: AmountError)
  {
    if e.NotAnAmount? then v.Boolean? || v.Float?
    else
      && (v.Text? || v.Integer?)
      && var r := ReadingOf(v);
         match e
         case Empty => v.Text? && Strip(v.text) == ""
         case Scientific => v.Text? && ('e' in Strip(v.text) || 'E' in Strip(v.text))
         case NotFinite => r.Special?
         case Negative => r.Number? && r.neg && r.coef > 0
         case Zero => r.Number? && r.coef == 0 && !allowZero
         case TooPrecise =>
           && Admissible(r, allowZero)
           && (Fits(r.coef, PRECISION) ==> forall u: nat :: !SameAmount(u, decimals, r.coef, r.scale))
         case _ =>
           v.Text? && r.Garbage? && Strip(v.text) != "" && 'e' !in Strip(v.text) && 'E' !in Strip(v.text)
  }

  /** A refused input is refused for a ground that holds of it. */
  lemma RefusalIsGrounded(v: Value, decimals: nat, allowZero: bool)
    requires ParseAmount(v, decimals, allowZero).Err?
    ensures Grounded(v, decimals, allowZero, ParseAmount(v, decimals, allowZero).error)
  {
    if ParseAmount(v, decimals, allowZero) == Err(TooPrecise) && Fits(ReadingOf(v).coef, PRECISION) {
      PreciseIsAccepted(ReadingOf(v), decimals, allowZero);
    }
  }

  lemma PreciseIsAccepted(r: Reading, decimals: nat, allowZero: bool)
    requires Accept(r, decimals, allowZero) == Err(TooPrecise) && Fits(r.coef, PRECISION)
    ensures forall u: nat :: !SameAmount(u, decimals, r.coef, r.scale)
  {
    forall u: nat ensures !SameAmount(u, decimals, r.coef, r.scale) {
      ParseIsExact(r, decimals, allowZero, u);
    }
  }

  lemma IntegerReads(n: int, r: Reading, decimals: nat, allowZero: bool)
    requires r == Number(n < 0, if n < 0 then -n else n, 0)
    ensures ParseAmount(Integer(n), decimals, allowZero) == Accept(r, decimals, allowZero)
    ensures Admissible(r, allowZero) <==> n > 0 || (n == 0 && allowZero)
    ensures ParseAmount(Boolean, decimals, allowZero).Err? && ParseAmount(Float, decimals, allowZero).Err?
  {
  }

  lemma SameAtScaleZero(u: nat, decimals: nat, coef: nat)
    ensures SameAmount(u, decimals, coef, 0) <==> u == Scale(coef, decimals)
  {
  }

  lemma UnsignedIsNotation(neg: bool, s: string, sign: Sign) returns (n: Notation)
    requires ReadUnsigned(neg, s).Number?
    ensures WellFormed(n) && n.sign == sign && Body(n) == s
  {
    var i := PointAt(s);
    if i < |s| {
      n := Notation(sign, s[..i], true, s[i + 1..]);
      assert s == s[..i] + "." + s[i + 1..];
    } else {
      n := Notation(sign, s, false, []);
      assert s[..i] == s;
    }
  }

  /** Whatever is accepted spells a decimal. */
  lemma AcceptedIsNotation(s: string, decimals: nat, allowZero: bool) returns (n: Notation)
    requires ParseAmount(Text(s), decimals, allowZero).Ok?
    ensures WellFormed(n) && Spelled(n) == WithoutUnderscores(Strip(s))
  {
    n := NumberIsNotation(WithoutUnderscores(Strip(s)));
  }

  lemma NumberIsNotation(t: string) returns (n: Notation)
    requires ReadDecimal(t).Number?
    ensures WellFormed(n) && Spelled(n) == t
  {
    if t != [] && t[0] == '-' {
      n := UnsignedIsNotation(true, t[1..], Minus);
      assert t == "-" + t[1..];
    } else if t != [] && t[0] == '+' {
      n := UnsignedIsNotation(false, t[1..], Plus);
      assert t == "+" + t[1..];
    } else {
      n := UnsignedIsNotation(false, t, NoSign);
    }
  }

  // ---- the API pattern ----

  /** `^\d{1,30}(\.\d{1,18})?$` */
  predicate MatchesPattern(whole: string, frac: string)
  {
    AllDigits(whole) && 1 <= |whole| <= 30 && AllDigits(frac) && |frac| <= 18
  }

  function PatternText(whole: string, frac: string): string
  {
    if frac == [] then whole else whole + "." + frac
  }

  /** Every text the API admits is read as a number of at most 48 digits, and parsed exactly. */
  lemma ApiAmountsAreExact(whole: string, frac: string, decimals: nat, u: nat)
    requires MatchesPattern(whole, frac)
    ensures var r := ReadDecimal(PatternText(whole, frac));
            && r.Number? && !r.neg && r.scale == |frac| && DigitCount(r.coef) <= |whole| + |frac| <= 48
            && (ParseAmount(Text(PatternText(whole, frac)), decimals, false) == Ok(u) <==>
                r.coef > 0 && SameAmount(u, decimals, r.coef, r.scale))
  {
    var s := PatternText(whole, frac);
    var n := |whole| + |frac|;
    PatternReads(whole, frac, n);
    ParsePlain(s, decimals, false);
    SmallIsExact(ReadDecimal(s), decimals, u, n);
  }

  lemma SmallIsExact(r: Reading, decimals: nat, u: nat, n: nat)
    requires r.Number? && !r.neg && 1 <= n <= PRECISION && r.coef < Pow10(n)
    ensures DigitCount(r.coef) <= n
    ensures Accept(r, decimals, false) == Ok(u) <==> r.coef > 0 && SameAmount(u, decimals, r.coef, r.scale)
  {
    SmallFits(r.coef, n, PRECISION);
    ParseIsExact(r, decimals, false, u);
  }

  lemma SmallFits(c: nat, n: nat, precision: nat)
    requires c < Pow10(n) && 1 <= n <= precision
    ensures Fits(c, precision) && DigitCount(c) <= n
  {
    DigitCountWithin(c, n);
    Pow10Monotone(n, precision);
    FitsBy(c, 0, precision);
  }

  lemma PatternReads(whole: string, frac: string, n: nat)
    requires AllDigits(whole) && |whole| >= 1 && AllDigits(frac) && n == |whole| + |frac|
    ensures var s := PatternText(whole, frac);
            var r := ReadDecimal(s);
            Plain(s) && s != [] && r.Number? && !r.neg && r.scale == |frac| && r.coef < Pow10(n)
  {
    var notation := Notation(NoSign, whole, frac != [], frac);
    SpelledReads(notation);
    NatOfConcat(whole, frac);
    NatOfBound(whole + frac);
    BodyIsPlain(notation);
  }
}
