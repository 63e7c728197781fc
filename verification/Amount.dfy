// Fixed-point amounts with eight decimals and their decimal strings
// (crates/asset-core/src/amount.rs, crates/server-core/src/lib.rs).

module Amount {
  import opened Prelude

  const SCALE: nat := 100_000_000

  type i64 = x: int | -0x8000_0000_0000_0000 <= x <= 0x7FFF_FFFF_FFFF_FFFF

  datatype AmountError = InvalidFormat | Overflow | TooManyDecimals

  // ------------------------------------------------------------------
  // Digits
  // ------------------------------------------------------------------

  predicate IsDigit(c: char) { '0' <= c <= '9' }

  predicate AllDigits(s: string) { forall i :: 0 <= i < |s| ==> IsDigit(s[i]) }

  function DigitValue(c: char): nat
    requires IsDigit(c)
  {
    (c - '0') as int
  }

  function DigitChar(d: nat): (c: char)
    requires d < 10
    ensures IsDigit(c) && DigitValue(c) == d
  {
    '0' + (d as char)
  }

  /** The number a digit string denotes; the empty string denotes 0. */
  function Value(s: string): nat
    requires AllDigits(s)
  {
    if s == "" then 0 else 10 * Value(s[..|s| - 1]) + DigitValue(s[|s| - 1])
  }

  function Pow10(n: nat): (r: nat)
    ensures r > 0
  {
    if n == 0 then 1 else 10 * Pow10(n - 1)
  }

  function Decimal(n: nat): (s: string)
    ensures s != "" && AllDigits(s)
  {
    if n < 10 then [DigitChar(n)] else Decimal(n / 10) + [DigitChar(n % 10)]
  }

  lemma {:induction false} DecimalValue(n: nat)
    ensures Value(Decimal(n)) == n
  {
    if n >= 10 { DecimalValue(n / 10); }
  }

  lemma {:induction false} DecimalLength(n: nat, k: nat)
    requires k > 0 && n < Pow10(k)
    ensures |Decimal(n)| <= k
    decreases n
  {
    if n >= 10 {
      assert k > 1;
      DecimalLength(n / 10, k - 1);
    }
  }

  function Zeros(n: nat): (s: string)
    ensures |s| == n && AllDigits(s)
  {
    if n == 0 then "" else Zeros(n - 1) + "0"
  }

  lemma {:induction false} LeadingZeros(k: nat, s: string)
    requires AllDigits(s)
    ensures AllDigits(Zeros(k) + s) && Value(Zeros(k) + s) == Value(s)
  {
    var z := Zeros(k);
    if s == "" {
      assert z + s == z;
      ZerosValue(k);
    } else {
      var n := |s| - 1;
      LeadingZeros(k, s[..n]);
      assert (z + s)[..|z + s| - 1] == z + s[..n];
      assert (z + s)[|z + s| - 1] == s[n];
      assert forall i :: 0 <= i < |z + s| ==> IsDigit((z + s)[i]);
    }
  }

  lemma {:induction false} ZerosValue(k: nat)
    ensures Value(Zeros(k)) == 0
  {
    if k > 0 { ZerosValue(k - 1); }
  }

  lemma ZeroAppends(t: string)
    requires AllDigits(t)
    ensures AllDigits(t + "0") && Value(t + "0") == 10 * Value(t)
  {
    assert (t + "0")[..|t|] == t;
  }

  lemma TimesTen(v: nat, p: nat)
    ensures v * (10 * p) == 10 * (v * p)
  {}

  lemma {:induction false} TrailingZeros(s: string, k: nat)
    requires AllDigits(s)
    ensures AllDigits(s + Zeros(k)) && Value(s + Zeros(k)) == Value(s) * Pow10(k)
  {
    if k == 0 {
      assert s + Zeros(0) == s;
    } else {
      TrailingZeros(s, k - 1);
      var t := s + Zeros(k - 1);
      assert s + Zeros(k) == t + "0";
      ZeroAppends(t);
      TimesTen(Value(s), Pow10(k - 1));
    }
  }

  lemma {:induction false} ValueBound(s: string)
    requires AllDigits(s)
    ensures Value(s) < Pow10(|s|)
  {
    if s != "" { ValueBound(s[..|s| - 1]); }
  }

  // ------------------------------------------------------------------
  // Parsing
  // ------------------------------------------------------------------

  /** `str::parse::<i64>`: an optional sign, at least one digit, in range. */
  function ParseI64(s: string): Option<i64> {
    var signed := s != "" && (s[0] == '-' || s[0] == '+');
    var digits := if signed then s[1..] else s;
    if digits == "" || !AllDigits(digits) then None
    else
      var v := if signed && s[0] == '-' then -(Value(digits) as int) else Value(digits);
      if MIN_I64 <= v <= MAX_I64 then Some(v) else None
  }

  /** `str::split('.')`. */
  function Split(s: string): (parts: seq<string>)
    ensures |parts| > 0
  {
    if s == "" then [""]
    else
      var front := Split(s[..|s| - 1]);
      if s[|s| - 1] == '.' then front + [""]
      else front[..|front| - 1] + [front[|front| - 1] + [s[|s| - 1]]]
  }

  function CheckedScale(whole: int, frac: int): Result<i64, AmountError> {
    var w := whole * SCALE;
    if !(MIN_I64 <= w <= MAX_I64) || !(MIN_I64 <= w + frac <= MAX_I64) then Err(Overflow) else Ok(w + frac)
  }

  /** Unary minus on an i64 in a release build. */
  function Negate(w: i64): i64 { if w == MIN_I64 then w else -w }

  function ParseWhole(whole: string): Result<i64, AmountError> {
    var w := ParseI64(whole);
    if w.None? then Err(InvalidFormat) else CheckedScale(w.value, 0)
  }

  function ParseParts(whole: string, frac: string): Result<i64, AmountError> {
    var w := ParseI64(whole);
    if w.None? then Err(InvalidFormat)
    else if |frac| > 8 then Err(TooManyDecimals)
    else
      var f := ParseI64(frac + Zeros(8 - |frac|));
      if f.None? then Err(InvalidFormat) else CheckedScale(w.value, f.value)
  }

  function ParseUnsigned(s: string): Result<i64, AmountError> {
    var parts := Split(s);
    if |parts| == 1 then ParseWhole(parts[0])
    else if |parts| == 2 then ParseParts(parts[0], parts[1])
    else Err(InvalidFormat)
  }

  function ParseAmount(input: string): Result<i64, AmountError> {
    if input != "" && input[0] == '-' then
      var wats :- ParseUnsigned(input[1..]);
      Ok(Negate(wats))
    else
      ParseUnsigned(input)
  }

  predicate NoDot(s: string) { '.' !in s }

  lemma {:induction false} SplitWithoutDot(s: string)
    requires NoDot(s)
    ensures Split(s) == [s]
  {
    if s != "" {
      SplitWithoutDot(s[..|s| - 1]);
      assert s[|s| - 1] in s;
      assert s[..|s| - 1] + [s[|s| - 1]] == s;
    }
  }

  /** One more character either starts a part or extends the last one. */
  lemma SplitSnoc(s: string, c: char)
    ensures Split(s + [c]) ==
      var front := Split(s);
      if c == '.' then front + [""] else front[..|front| - 1] + [front[|front| - 1] + [c]]
  {
    assert (s + [c])[..|s + [c]| - 1] == s;
  }

  lemma {:induction false} SplitWithDot(whole: string, frac: string)
    requires NoDot(whole) && NoDot(frac)
    ensures Split(whole + "." + frac) == [whole, frac]
  {
    if frac == "" {
      assert whole + "." + frac == whole + ['.'];
      SplitWithoutDot(whole);
      SplitSnoc(whole, '.');
    } else {
      var n := |frac| - 1;
      var shorter := whole + "." + frac[..n];
      assert whole + "." + frac == shorter + [frac[n]];
      assert frac[n] in frac;
      SplitWithDot(whole, frac[..n]);
      SplitSnoc(shorter, frac[n]);
      assert frac[..n] + [frac[n]] == frac;
    }
  }

  lemma DigitsHaveNoDot(s: string)
    requires AllDigits(s)
    ensures NoDot(s)
  {}

  /** Up to two parts, joining with the point gives the string back. */
  lemma {:induction false} SplitJoins(s: string)
    ensures var p := Split(s);
      (|p| == 1 ==> s == p[0]) && (|p| == 2 ==> s == p[0] + "." + p[1])
  {
    if s != "" {
      var n := |s| - 1;
      SplitJoins(s[..n]);
      assert s == s[..n] + [s[n]];
      var front, p := Split(s[..n]), Split(s);
      if s[n] == '.' {
        assert |p| == 2 ==> s == p[0] + "." + p[1];
      } else if |front| == 2 {
        assert p[0] + "." + p[1] == front[0] + "." + front[1] + [s[n]];
      }
    }
  }

  lemma ParseDigits(s: string)
    requires AllDigits(s) && s != ""
    ensures ParseI64(s) == if Value(s) <= MAX_I64 then Some(Value(s)) else None
  {}

  // ------------------------------------------------------------------
  // Grammar strings: digits, or digits "." digits
  // ------------------------------------------------------------------

  predicate IsGrammar(whole: string, frac: Option<string>) {
    && whole != "" && AllDigits(whole)
    && (frac.Some? ==> frac.value != "" && AllDigits(frac.value))
  }

  function Written(whole: string, frac: Option<string>): string {
    match frac
    case None => whole
    case Some(f) => whole + "." + f
  }

  /** The number of wats a grammar string with at most eight fraction digits denotes. */
  function WatsOf(whole: string, frac: Option<string>): nat
    requires IsGrammar(whole, frac) && (frac.Some? ==> |frac.value| <= 8)
  {
    Value(whole) * SCALE + if frac.Some? then Value(frac.value) * Pow10(8 - |frac.value|) else 0
  }

  lemma EightDigits(s: string)
    requires AllDigits(s) && |s| == 8
    ensures Value(s) < SCALE
  {
    ValueBound(s);
    Pow10Of8();
  }

  lemma FillsEightDigits(frac: string, k: nat)
    requires AllDigits(frac) && |frac| + k == 8
    ensures AllDigits(frac + Zeros(k)) && Value(frac + Zeros(k)) == Value(frac) * Pow10(k)
    ensures Value(frac) * Pow10(k) < SCALE
  {
    TrailingZeros(frac, k);
    var padded := frac + Zeros(k);
    EightDigits(padded);
  }

  lemma Pow10Of8()
    ensures Pow10(8) == SCALE
  {
    assert Pow10(4) == 10_000;
  }

  lemma ParsesWhole(whole: string)
    requires IsGrammar(whole, None)
    ensures ParseWhole(whole) ==
      if Value(whole) > MAX_I64 then Err(InvalidFormat)
      else if Value(whole) * SCALE > MAX_I64 then Err(Overflow)
      else Ok(Value(whole) * SCALE)
  {
    ParseDigits(whole);
  }

  lemma ParsesFraction(whole: string, frac: string)
    requires IsGrammar(whole, Some(frac))
    ensures ParseParts(whole, frac) ==
      if Value(whole) > MAX_I64 then Err(InvalidFormat)
      else if |frac| > 8 then Err(TooManyDecimals)
      else if WatsOf(whole, Some(frac)) > MAX_I64 then Err(Overflow)
      else Ok(WatsOf(whole, Some(frac)))
  {
    ParseDigits(whole);
    if |frac| <= 8 {
      FillsEightDigits(frac, 8 - |frac|);
      ParseDigits(frac + Zeros(8 - |frac|));
    }
  }

  lemma UnsignedParse(whole: string, frac: Option<string>)
    requires IsGrammar(whole, frac)
    ensures ParseUnsigned(Written(whole, frac)) ==
      match frac { case None => ParseWhole(whole) case Some(f) => ParseParts(whole, f) }
    ensures Written(whole, frac) != "" && IsDigit(Written(whole, frac)[0])
  {
    DigitsHaveNoDot(whole);
    match frac
    case None => SplitWithoutDot(whole);
    case Some(f) => DigitsHaveNoDot(f); SplitWithDot(whole, f); assert (whole + "." + f)[0] == whole[0];
  }

  /** Parsing a grammar string succeeds exactly with at most eight fraction digits and a value that fits an i64. */
  lemma ParsesExactlyWhatFits(whole: string, frac: Option<string>)
    requires IsGrammar(whole, frac)
    ensures var r := ParseAmount(Written(whole, frac));
      && (r.Ok? <==> (frac.Some? ==> |frac.value| <= 8) && WatsOf(whole, frac) <= MAX_I64)
      && (r.Ok? ==> r.value == WatsOf(whole, frac))
      && (r == Err(TooManyDecimals) <==> Value(whole) <= MAX_I64 && frac.Some? && |frac.value| > 8)
  {
    UnsignedParse(whole, frac);
    match frac
    case None => ParsesWhole(whole);
    case Some(f) => ParsesFraction(whole, f);
  }

  // ------------------------------------------------------------------
  // All strings: what else is read as an amount
  // ------------------------------------------------------------------

  predicate HasSign(s: string) { s != "" && (s[0] == '-' || s[0] == '+') }

  function Unsigned(s: string): string { if HasSign(s) then s[1..] else s }

  /** A digit string with at most one sign in front. */
  function SignedValue(s: string): int
    requires AllDigits(Unsigned(s))
  {
    if HasSign(s) && s[0] == '-' then -(Value(Unsigned(s)) as int) else Value(Unsigned(s))
  }

  /** Signs may stand before the whole part and after the point, and the fraction may have no digits. */
  predicate IsLoose(whole: string, frac: Option<string>) {
    && Unsigned(whole) != "" && AllDigits(Unsigned(whole))
    && (frac.Some? ==> |frac.value| <= 8 && AllDigits(Unsigned(frac.value)))
  }

  /** A sign after the point takes the place of a digit. */
  function LooseWats(whole: string, frac: Option<string>): int
    requires IsLoose(whole, frac)
  {
    SignedValue(whole) * SCALE + if frac.Some? then SignedValue(frac.value) * Pow10(8 - |frac.value|) else 0
  }

  /** The whole part scaled and the sum both fit an i64. */
  predicate FitsI64(whole: string, frac: Option<string>)
    requires IsLoose(whole, frac)
  {
    MIN_I64 <= SignedValue(whole) * SCALE <= MAX_I64 && MIN_I64 <= LooseWats(whole, frac) <= MAX_I64
  }

  lemma SignedHasNoDot(s: string)
    requires AllDigits(Unsigned(s))
    ensures NoDot(s)
  {
    forall c <- s ensures c != '.' {
      var i :| 0 <= i < |s| && s[i] == c;
      if HasSign(s) && i > 0 { assert IsDigit(Unsigned(s)[i - 1]); }
    }
  }

  /** An i64 reads exactly as a digit string after at most one sign, within range. */
  lemma ReadsSigned(s: string)
    ensures ParseI64(s).Some? <==>
      Unsigned(s) != "" && AllDigits(Unsigned(s)) && MIN_I64 <= SignedValue(s) <= MAX_I64
    ensures ParseI64(s).Some? ==> ParseI64(s).value == SignedValue(s)
  {}

  lemma FillingKeepsSign(f: string, k: nat)
    requires |f| + k == 8
    ensures HasSign(f + Zeros(k)) == HasSign(f) && Unsigned(f + Zeros(k)) == Unsigned(f) + Zeros(k)
    ensures HasSign(f) ==> (f + Zeros(k))[0] == f[0]
    ensures AllDigits(Unsigned(f) + Zeros(k)) <==> AllDigits(Unsigned(f))
  {
    var filled, digits := f + Zeros(k), Unsigned(f);
    if f == "" {
      assert filled == Zeros(8) && IsDigit(Zeros(8)[0]);
    } else if HasSign(f) {
      assert filled[1..] == f[1..] + Zeros(k);
    }
    if AllDigits(digits + Zeros(k)) {
      forall i | 0 <= i < |digits| ensures IsDigit(digits[i]) { assert (digits + Zeros(k))[i] == digits[i]; }
    }
  }

  lemma AtMostEightDigits(s: string)
    requires AllDigits(s) && (|s| == 7 || |s| == 8)
    ensures Value(s) < SCALE
  {
    ValueBound(s);
    Pow10Of8();
    assert Pow10(8) == 10 * Pow10(7);
  }

  lemma NegativeTimes(v: nat, p: nat)
    ensures -(v * p) == -(v as int) * p
  {}

  lemma FilledValue(f: string, k: nat)
    requires |f| + k == 8 && AllDigits(Unsigned(f))
    ensures AllDigits(Unsigned(f + Zeros(k))) && SignedValue(f + Zeros(k)) == SignedValue(f) * Pow10(k)
    ensures -(SCALE as int) < SignedValue(f + Zeros(k)) < SCALE
  {
    FillingKeepsSign(f, k);
    TrailingZeros(Unsigned(f), k);
    AtMostEightDigits(Unsigned(f) + Zeros(k));
    NegativeTimes(Value(Unsigned(f)), Pow10(k));
  }

  /** A fraction that is filled up to eight characters reads exactly if it is digits after at most one sign. */
  lemma FilledFraction(f: string)
    requires |f| <= 8
    ensures var r := ParseI64(f + Zeros(8 - |f|));
      && (r.Some? <==> AllDigits(Unsigned(f)))
      && (r.Some? ==> r.value == SignedValue(f) * Pow10(8 - |f|))
  {
    var k := 8 - |f|;
    FillingKeepsSign(f, k);
    ReadsSigned(f + Zeros(k));
    if AllDigits(Unsigned(f)) { FilledValue(f, k); }
  }

  lemma WholeReads(whole: string)
    requires IsLoose(whole, None)
    ensures ParseWhole(whole).Ok? <==> FitsI64(whole, None)
    ensures FitsI64(whole, None) ==> ParseWhole(whole) == Ok(LooseWats(whole, None))
  {
    ReadsSigned(whole);
  }

  lemma PartsRead(whole: string, f: string)
    requires IsLoose(whole, Some(f))
    ensures ParseParts(whole, f).Ok? <==> FitsI64(whole, Some(f))
    ensures FitsI64(whole, Some(f)) ==> ParseParts(whole, f) == Ok(LooseWats(whole, Some(f)))
  {
    ReadsSigned(whole);
    FilledFraction(f);
  }

  /** What is read after an optional leading minus, and as what. */
  lemma UnsignedReads(whole: string, frac: Option<string>)
    requires IsLoose(whole, frac)
    ensures ParseUnsigned(Written(whole, frac)).Ok? <==> FitsI64(whole, frac)
    ensures FitsI64(whole, frac) ==> ParseUnsigned(Written(whole, frac)) == Ok(LooseWats(whole, frac))
  {
    SignedHasNoDot(whole);
    match frac {
      case None =>
        SplitWithoutDot(whole);
        WholeReads(whole);
      case Some(f) =>
        SignedHasNoDot(f);
        SplitWithDot(whole, f);
        PartsRead(whole, f);
    }
  }

  lemma ReadIsLoose(s: string) returns (whole: string, frac: Option<string>)
    requires ParseUnsigned(s).Ok?
    ensures IsLoose(whole, frac) && s == Written(whole, frac)
  {
    SplitJoins(s);
    var p := Split(s);
    whole, frac := p[0], if |p| == 2 then Some(p[1]) else None;
    ReadsSigned(p[0]);
    if |p| == 2 { FilledFraction(p[1]); }
  }

  predicate ReadsAs(s: string, whole: string, frac: Option<string>, w: int) {
    s == Written(whole, frac) && IsLoose(whole, frac) && FitsI64(whole, frac) && w == LooseWats(whole, frac)
  }

  ghost predicate DenotesUnsigned(s: string, w: int) { exists whole, frac :: ReadsAs(s, whole, frac, w) }

  /** The number a string is to the parser: one minus may stand before everything else. */
  ghost predicate Denotes(input: string, v: i64) {
    if input != "" && input[0] == '-' then
      exists w: i64 :: DenotesUnsigned(input[1..], w) && v == Negate(w)
    else
      DenotesUnsigned(input, v)
  }

  lemma UnsignedParsesExactly(s: string, w: i64)
    ensures ParseUnsigned(s) == Ok(w) <==> DenotesUnsigned(s, w)
  {
    if ParseUnsigned(s) == Ok(w) {
      var whole, frac := ReadIsLoose(s);
      UnsignedReads(whole, frac);
      assert ReadsAs(s, whole, frac, w);
    }
    if DenotesUnsigned(s, w) {
      var whole, frac :| ReadsAs(s, whole, frac, w);
      UnsignedReads(whole, frac);
    }
  }

  /** For every string: it parses, and to what, exactly as `Denotes` says. */
  lemma ParsesExactly(input: string, v: i64)
    ensures ParseAmount(input) == Ok(v) <==> Denotes(input, v)
  {
    if input != "" && input[0] == '-' {
      forall w: i64 ensures ParseUnsigned(input[1..]) == Ok(w) <==> DenotesUnsigned(input[1..], w) {
        UnsignedParsesExactly(input[1..], w);
      }
    } else {
      UnsignedParsesExactly(input, v);
    }
  }

  // ------------------------------------------------------------------
  // Printing
  // ------------------------------------------------------------------

  function Abs(w: int): nat { if w < 0 then -w else w }

  function Sign(w: int): string { if w < 0 then "-" else "" }

  /** Zero-padded to eight digits. */
  function Padded(frac: nat): string
    requires frac < SCALE
  {
    DecimalFitsEight(frac);
    Zeros(8 - |Decimal(frac)|) + Decimal(frac)
  }

  lemma DecimalFitsEight(frac: nat)
    requires frac < SCALE
    ensures |Decimal(frac)| <= 8
  {
    Pow10Of8();
    DecimalLength(frac, 8);
  }

  /** `Display`: always eight decimals. */
  function Display(w: i64): string {
    Sign(w) + Decimal(Abs(w) / SCALE) + "." + Padded(Abs(w) % SCALE)
  }

  function TrimZeros(s: string): string {
    if s != "" && s[|s| - 1] == '0' then TrimZeros(s[..|s| - 1]) else s
  }

  /** `wats_to_string`: no trailing zeros, no point for whole amounts. */
  function WatsToString(w: i64): string {
    var whole, frac := Decimal(Abs(w) / SCALE), Abs(w) % SCALE;
    if frac == 0 then Sign(w) + whole else Sign(w) + whole + "." + TrimZeros(Padded(frac))
  }

  lemma PaddedValue(frac: nat)
    requires frac < SCALE
    ensures |Padded(frac)| == 8 && AllDigits(Padded(frac)) && Value(Padded(frac)) == frac
  {
    DecimalFitsEight(frac);
    LeadingZeros(8 - |Decimal(frac)|, Decimal(frac));
    DecimalValue(frac);
  }

  lemma {:induction false} TrimmedValue(s: string)
    requires AllDigits(s)
    ensures |TrimZeros(s)| <= |s| && AllDigits(TrimZeros(s))
    ensures Value(s) == Value(TrimZeros(s)) * Pow10(|s| - |TrimZeros(s)|)
  {
    if s != "" && s[|s| - 1] == '0' {
      TrimmedValue(s[..|s| - 1]);
      var t := TrimZeros(s);
      TimesTen(Value(t), Pow10(|s| - 1 - |t|));
    }
  }

  /** A sign in front of a grammar string negates its value; the bound is that of the positive value. */
  lemma SignedParse(w: int, whole: string, frac: Option<string>)
    requires IsGrammar(whole, frac) && (frac.Some? ==> |frac.value| <= 8)
    requires Abs(w) == WatsOf(whole, frac)
    ensures var r := ParseAmount(Sign(w) + Written(whole, frac));
      if Abs(w) <= MAX_I64 then r == Ok(w) else r.Err?
  {
    ParsesExactlyWhatFits(whole, frac);
    UnsignedParse(whole, frac);
    var s := Written(whole, frac);
    assert Sign(w) + s == if w < 0 then "-" + s else s;
    assert ("-" + s)[1..] == s;
  }

  lemma TrimmedFraction(frac: nat) returns (t: string)
    requires 0 < frac < SCALE
    ensures t == TrimZeros(Padded(frac)) && t != "" && |t| <= 8 && AllDigits(t)
    ensures Value(t) * Pow10(8 - |t|) == frac
  {
    t := TrimZeros(Padded(frac));
    PaddedValue(frac);
    TrimmedValue(Padded(frac));
  }

  lemma WholePrints(w: i64)
    requires Abs(w) % SCALE == 0
    ensures var r := ParseAmount(Sign(w) + Decimal(Abs(w) / SCALE));
      if Abs(w) <= MAX_I64 then r == Ok(w) else r.Err?
  {
    DecimalValue(Abs(w) / SCALE);
    SignedParse(w, Decimal(Abs(w) / SCALE), None);
  }

  lemma WatsOfParts(whole: string, frac: string, q: nat, r: nat)
    requires IsGrammar(whole, Some(frac)) && |frac| <= 8
    requires Value(whole) == q && Value(frac) * Pow10(8 - |frac|) == r
    ensures WatsOf(whole, Some(frac)) == q * SCALE + r
  {}

  lemma DivMod(n: nat)
    ensures n / SCALE * SCALE + n % SCALE == n
  {}

  lemma PartsPrint(w: i64, q: nat, r: nat, frac: string)
    requires AllDigits(frac) && 0 < |frac| <= 8 && Value(frac) * Pow10(8 - |frac|) == r
    requires Abs(w) == q * SCALE + r
    ensures var parsed := ParseAmount(Sign(w) + Decimal(q) + "." + frac);
      if Abs(w) <= MAX_I64 then parsed == Ok(w) else parsed.Err?
  {
    var whole := Decimal(q);
    DecimalValue(q);
    WatsOfParts(whole, frac, q, r);
    SignedParse(w, whole, Some(frac));
    assert Sign(w) + (whole + "." + frac) == Sign(w) + whole + "." + frac;
  }

  lemma FractionPrints(w: i64, frac: string)
    requires AllDigits(frac) && 0 < |frac| <= 8 && Value(frac) * Pow10(8 - |frac|) == Abs(w) % SCALE
    ensures var r := ParseAmount(Sign(w) + Decimal(Abs(w) / SCALE) + "." + frac);
      if Abs(w) <= MAX_I64 then r == Ok(w) else r.Err?
  {
    DivMod(Abs(w));
    PartsPrint(w, Abs(w) / SCALE, Abs(w) % SCALE, frac);
  }

  /** Printing with all decimals and parsing back is the identity on every amount but the smallest i64. */
  lemma DisplayRoundTrips(w: i64)
    ensures ParseAmount(Display(w)) == Ok(w) <==> w != MIN_I64
  {
    PaddedValue(Abs(w) % SCALE);
    assert Pow10(0) == 1;
    FractionPrints(w, Padded(Abs(w) % SCALE));
  }

  /** So is printing without trailing zeros. */
  lemma WatsToStringRoundTrips(w: i64)
    ensures ParseAmount(WatsToString(w)) == Ok(w) <==> w != MIN_I64
  {
    if Abs(w) % SCALE == 0 {
      WholePrints(w);
    } else {
      var t := TrimmedFraction(Abs(w) % SCALE);
      FractionPrints(w, t);
    }
  }

  // ------------------------------------------------------------------
  // What printed amounts look like
  // ------------------------------------------------------------------

  /** Digits without a needless zero in front. */
  predicate IsCanonical(whole: string) {
    whole != "" && AllDigits(whole) && (whole[0] == '0' ==> whole == "0")
  }

  lemma {:induction false} DecimalIsCanonical(n: nat)
    ensures IsCanonical(Decimal(n)) && (n > 0 ==> Decimal(n)[0] != '0')
  {
    if n >= 10 {
      DecimalIsCanonical(n / 10);
      assert Decimal(n)[0] == Decimal(n / 10)[0];
    }
  }

  lemma {:induction false} TrimLeavesNoZero(s: string)
    ensures TrimZeros(s) != "" ==> TrimZeros(s)[|TrimZeros(s)| - 1] != '0'
  {
    if s != "" && s[|s| - 1] == '0' { TrimLeavesNoZero(s[..|s| - 1]); }
  }

  /** A minus for negative amounts, a whole part without needless zeros, and always eight decimals. */
  lemma DisplayShape(w: i64) returns (whole: string, frac: string)
    ensures Display(w) == (if w < 0 then "-" else "") + whole + "." + frac
    ensures IsCanonical(whole) && AllDigits(frac) && |frac| == 8
    ensures Value(whole) * SCALE + Value(frac) == if w < 0 then -(w as int) else w as int
  {
    whole, frac := Decimal(Abs(w) / SCALE), Padded(Abs(w) % SCALE);
    DecimalIsCanonical(Abs(w) / SCALE);
    DecimalValue(Abs(w) / SCALE);
    PaddedValue(Abs(w) % SCALE);
    DivMod(Abs(w));
  }

  /** Whole amounts have no point; others end in a digit other than zero. */
  lemma WatsToStringShape(w: i64) returns (whole: string, frac: string)
    ensures IsCanonical(whole) && AllDigits(frac)
    ensures WatsToString(w) == (if w < 0 then "-" else "") + whole + if frac == "" then "" else "." + frac
    ensures frac == "" <==> w % SCALE == 0
    ensures frac != "" ==> |frac| <= 8 && frac[|frac| - 1] != '0'
  {
    whole, frac := Decimal(Abs(w) / SCALE), "";
    DecimalIsCanonical(Abs(w) / SCALE);
    if Abs(w) % SCALE != 0 {
      frac := TrimmedFraction(Abs(w) % SCALE);
      TrimLeavesNoZero(Padded(Abs(w) % SCALE));
      assert Sign(w) + whole + "." + frac == Sign(w) + whole + ("." + frac);
    }
  }
}
