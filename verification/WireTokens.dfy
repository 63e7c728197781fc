// Token wire formats: parsers and printers of the webcash, RGB20 and RGB21
// flavors, and the key normalisation of health_check (crates/proto/src/parsers.rs,
// crates/asset-webcash/src/token.rs, crates/asset-rgb/src/token.rs, crates/server-core/src/lib.rs).

module WireTokens {
  import opened Prelude
  import opened Amount

  // ------------------------------------------------------------------
  // Building blocks
  // ------------------------------------------------------------------

  datatype CharClass = Digit | Hex | Slug

  predicate In(c: char, class_: CharClass) {
    match class_
    case Digit => IsDigit(c)
    case Hex => IsDigit(c) || 'a' <= c <= 'f' || 'A' <= c <= 'F'
    case Slug => IsDigit(c) || 'a' <= c <= 'z' || 'A' <= c <= 'Z' || c == '-' || c == '_'
  }

  predicate AllIn(s: string, class_: CharClass) { forall i :: 0 <= i < |s| ==> In(s[i], class_) }

  /** The length of the longest prefix in a class. */
  function Span(s: string, class_: CharClass): (n: nat)
    ensures n <= |s| && AllIn(s[..n], class_)
    ensures n < |s| ==> !In(s[n], class_)
  {
    if s != "" && In(s[0], class_) then 1 + Span(s[1..], class_) else 0
  }

  lemma {:induction false} SpanStops(a: string, rest: string, class_: CharClass)
    requires AllIn(a, class_) && (rest == "" || !In(rest[0], class_))
    ensures Span(a + rest, class_) == |a|
  {
    if a == "" {
      assert a + rest == rest;
    } else {
      assert (a + rest)[1..] == a[1..] + rest;
      SpanStops(a[1..], rest, class_);
    }
  }

  function Tag(s: string, lit: string): Option<string> {
    if lit <= s then Some(s[|lit|..]) else None
  }

  lemma TagAt(lit: string, rest: string)
    ensures Tag(lit + rest, lit) == Some(rest)
  {
    assert (lit + rest)[|lit|..] == rest;
  }

  lemma TagMeans(s: string, lit: string)
    ensures Tag(s, lit).Some? ==> s == lit + Tag(s, lit).value
  {}

  /** Exactly `n` characters of a class, whatever follows. */
  function Exactly(s: string, n: nat, class_: CharClass): Option<string> {
    if n <= |s| && AllIn(s[..n], class_) then Some(s[n..]) else None
  }

  lemma ExactlyAt(a: string, rest: string, class_: CharClass)
    requires AllIn(a, class_)
    ensures Exactly(a + rest, |a|, class_) == Some(rest)
    ensures (a + rest)[..|a|] == a
  {
    assert (a + rest)[..|a|] == a && (a + rest)[|a|..] == rest;
  }

  /** `digits[.digits]`; a point without a digit after it is left over. */
  function AmountSpan(s: string): (n: nat)
    ensures n <= |s|
  {
    var whole := Span(s, Digit);
    if whole > 0 && whole < |s| && s[whole] == '.' && Span(s[whole + 1..], Digit) > 0
    then whole + 1 + Span(s[whole + 1..], Digit)
    else whole
  }

  /** The parts of a recognised amount. */
  lemma AmountSpanIsGrammar(s: string) returns (whole: string, frac: Option<string>)
    requires AmountSpan(s) > 0
    ensures IsGrammar(whole, frac) && s[..AmountSpan(s)] == Written(whole, frac)
  {
    var n := Span(s, Digit);
    whole := s[..n];
    frac := None;
    if AmountSpan(s) > n {
      var m := Span(s[n + 1..], Digit);
      frac := Some(s[n + 1..][..m]);
      assert s[..n + 1 + m] == whole + "." + frac.value;
    }
  }

  lemma TwoSpans(s: string, whole: string, tail: string, frac: string, rest: string)
    requires whole != "" && AllIn(whole, Digit) && frac != "" && AllIn(frac, Digit)
    requires rest == "" || !In(rest[0], Digit)
    requires s == whole + tail && tail != "" && tail[0] == '.' && tail[1..] == frac + rest
    ensures AmountSpan(s) == |whole| + 1 + |frac|
  {
    SpanStops(whole, tail, Digit);
    SpanStops(frac, rest, Digit);
    assert s[|whole|] == '.' && s[|whole| + 1..] == tail[1..];
  }

  /** A grammar string followed by a colon is recognised whole. */
  lemma AmountSpanTakesAll(whole: string, frac: Option<string>, rest: string)
    requires IsGrammar(whole, frac) && rest != "" && rest[0] == ':'
    ensures AmountSpan(Written(whole, frac) + rest) == |Written(whole, frac)|
  {
    match frac
    case None => SpanStops(whole, rest, Digit);
    case Some(f) =>
      var tail := "." + (f + rest);
      assert whole + "." + f + rest == whole + tail;
      assert tail[1..] == f + rest;
      TwoSpans(whole + tail, whole, tail, f, rest);
  }

  // ------------------------------------------------------------------
  // Tokens
  // ------------------------------------------------------------------

  datatype Kind = Secret | Public

  function Label(kind: Kind): string { if kind == Secret then "secret:" else "public:" }

  datatype Scope = Scope(contract: string, issuer: string)

  /** webcash: amount, no scope; RGB20: both; RGB21: scope, no amount. */
  datatype Flavor = Webcash | Rgb20 | Rgb21

  datatype Token = Token(flavor: Flavor, kind: Kind, amount: i64, hex: string, scope: Scope)

  const NO_SCOPE := Scope("", "")

  function PrintScope(scope: Scope): string { ":" + scope.contract + ":" + scope.issuer }

  function Print(t: Token): string {
    match t.flavor
    case Webcash => "e" + Display(t.amount) + ":" + (Label(t.kind) + t.hex)
    case Rgb20 => "e" + Display(t.amount) + ":" + (Label(t.kind) + t.hex + PrintScope(t.scope))
    case Rgb21 => Label(t.kind) + t.hex + PrintScope(t.scope)
  }

  function Lower(c: char): char { if 'A' <= c <= 'Z' then c - 'A' + 'a' else c }

  function ToLower(s: string): (r: string)
    ensures |r| == |s|
  {
    seq(|s|, i requires 0 <= i < |s| => Lower(s[i]))
  }

  /** `:{issuer}` to the end of the input. */
  function ParseIssuer(contract: string, s: string): Option<Scope> {
    var tail := Tag(s, ":");
    if tail.None? then None
    else if Exactly(tail.value, 40, Hex) == Some("") then Some(Scope(contract, ToLower(tail.value)))
    else None
  }

  /** `:{contract}:{issuer}` to the end of the input. */
  function ParseScope(s: string): Option<Scope> {
    var rest := Tag(s, ":");
    if rest.None? then None
    else
      var n := Span(rest.value, Slug);
      if n == 0 then None else ParseIssuer(rest.value[..n], rest.value[n..])
  }

  /** `{label}{hex64}` and, for the scoped flavors, the scope. */
  function ParseBody(flavor: Flavor, kind: Kind, amount: i64, s: string): Option<Token> {
    var rest := Tag(s, Label(kind));
    if rest.None? then None
    else
      var tail := Exactly(rest.value, 64, Hex);
      if tail.None? then None
      else if flavor == Webcash then
        if tail.value == "" then Some(Token(flavor, kind, amount, rest.value[..64], NO_SCOPE)) else None
      else
        var scope := ParseScope(tail.value);
        if scope.None? then None else Some(Token(flavor, kind, amount, rest.value[..64], scope.value))
  }

  /** `{amount}:` and the body. */
  function ParseAmounted(flavor: Flavor, kind: Kind, s: string): Option<Token> {
    var n := AmountSpan(s);
    var tail := Tag(s[n..], ":");
    if n == 0 || tail.None? then None
    else
      var amount := ParseAmount(s[..n]);
      if amount.Err? then None else ParseBody(flavor, kind, amount.value, tail.value)
  }

  function Parse(flavor: Flavor, kind: Kind, s: string): Option<Token> {
    if flavor == Rgb21 then ParseBody(flavor, kind, 0, s)
    else
      var rest := Tag(s, "e");
      if rest.None? then None else ParseAmounted(flavor, kind, rest.value)
  }

  // ------------------------------------------------------------------
  // Round trips
  // ------------------------------------------------------------------

  predicate WellFormedScope(scope: Scope) {
    && scope.contract != "" && AllIn(scope.contract, Slug)
    && |scope.issuer| == 40 && AllIn(scope.issuer, Hex) && ToLower(scope.issuer) == scope.issuer
  }

  predicate WellFormed(t: Token) {
    && |t.hex| == 64 && AllIn(t.hex, Hex)
    && t.amount >= 0 && (t.flavor == Rgb21 ==> t.amount == 0)
    && (if t.flavor == Webcash then t.scope == NO_SCOPE else WellFormedScope(t.scope))
  }

  lemma IssuerRoundTrip(scope: Scope)
    requires WellFormedScope(scope)
    ensures ParseIssuer(scope.contract, ":" + scope.issuer) == Some(scope)
  {
    TagAt(":", scope.issuer);
    ExactlyAt(scope.issuer, "", Hex);
    assert scope.issuer + "" == scope.issuer;
  }

  lemma ScopeRoundTrip(scope: Scope)
    requires WellFormedScope(scope)
    ensures ParseScope(PrintScope(scope)) == Some(scope)
  {
    var tail := ":" + scope.issuer;
    var rest := scope.contract + tail;
    assert PrintScope(scope) == ":" + rest;
    TagAt(":", rest);
    SpanStops(scope.contract, tail, Slug);
    assert rest[..|scope.contract|] == scope.contract && rest[|scope.contract|..] == tail;
    IssuerRoundTrip(scope);
  }

  function ScopePart(t: Token): string { if t.flavor == Webcash then "" else PrintScope(t.scope) }

  function Body(t: Token): string { Label(t.kind) + (t.hex + ScopePart(t)) }

  lemma BodyRoundTrip(t: Token)
    requires WellFormed(t)
    ensures ParseBody(t.flavor, t.kind, t.amount, Body(t)) == Some(t)
  {
    TagAt(Label(t.kind), t.hex + ScopePart(t));
    ExactlyAt(t.hex, ScopePart(t), Hex);
    if t.flavor != Webcash { ScopeRoundTrip(t.scope); }
  }

  lemma DisplayIsGrammar(w: i64) returns (whole: string, frac: string)
    requires w >= 0
    ensures IsGrammar(whole, Some(frac)) && Display(w) == Written(whole, Some(frac))
  {
    whole, frac := Decimal(w / SCALE), Padded(w % SCALE);
    PaddedValue(w % SCALE);
    assert Abs(w) == w;
    assert Sign(w) + whole == whole;
  }

  /** A grammar amount in front of a body is cut off where it should be. */
  lemma AmountedParse(flavor: Flavor, kind: Kind, whole: string, frac: Option<string>, body: string)
    requires IsGrammar(whole, frac)
    ensures ParseAmounted(flavor, kind, Written(whole, frac) + (":" + body)) ==
      var amount := ParseAmount(Written(whole, frac));
      if amount.Err? then None else ParseBody(flavor, kind, amount.value, body)
  {
    var a := Written(whole, frac);
    var s := a + (":" + body);
    AmountSpanTakesAll(whole, frac, ":" + body);
    assert s[..|a|] == a && s[|a|..] == ":" + body;
    assert (":" + body)[1..] == body;
  }

  lemma PrintParts(t: Token)
    ensures t.flavor == Rgb21 ==> Print(t) == Body(t)
    ensures t.flavor != Rgb21 ==> Print(t) == "e" + (Display(t.amount) + (":" + Body(t)))
  {
    assert Body(t) == Label(t.kind) + t.hex + ScopePart(t);
    assert t.flavor == Webcash ==> Body(t) == Label(t.kind) + t.hex;
  }

  /** Printing a well-formed token and parsing it back gives the token. */
  lemma TokenRoundTrip(t: Token)
    requires WellFormed(t)
    ensures Parse(t.flavor, t.kind, Print(t)) == Some(t)
  {
    BodyRoundTrip(t);
    PrintParts(t);
    if t.flavor != Rgb21 {
      var rest := Display(t.amount) + (":" + Body(t));
      assert ("e" + rest)[1..] == rest;
      var whole, frac := DisplayIsGrammar(t.amount);
      AmountedParse(t.flavor, t.kind, whole, Some(frac), Body(t));
      DisplayRoundTrips(t.amount);
    }
  }

  lemma ParsedScopeIsWellFormed(s: string)
    ensures ParseScope(s).Some? ==> WellFormedScope(ParseScope(s).value)
  {
    if ParseScope(s).Some? {
      var rest := Tag(s, ":").value;
      var issuer := Tag(rest[Span(rest, Slug)..], ":").value;
      assert issuer[..40] == issuer;
      assert forall i :: 0 <= i < 40 ==> In(Lower(issuer[i]), Hex);
      assert ToLower(ToLower(issuer)) == ToLower(issuer);
    }
  }

  lemma ParsedBodyIsWellFormed(flavor: Flavor, kind: Kind, amount: i64, s: string)
    requires amount >= 0 && (flavor == Rgb21 ==> amount == 0)
    ensures var r := ParseBody(flavor, kind, amount, s);
      r.Some? ==> WellFormed(r.value) && r.value.flavor == flavor && r.value.kind == kind
  {
    if ParseBody(flavor, kind, amount, s).Some? && flavor != Webcash {
      ParsedScopeIsWellFormed(s[|Label(kind)|..][64..]);
    }
  }

  lemma TagAfter(s: string, n: nat, head: string)
    requires n <= |s| && s[..n] == head && Tag(s[n..], ":").Some?
    ensures s == head + (":" + Tag(s[n..], ":").value)
  {
    TagMeans(s[n..], ":");
    assert s == s[..n] + s[n..];
  }

  /** What an amounted parse is made of. */
  lemma AmountedParts(flavor: Flavor, kind: Kind, s: string) returns (whole: string, frac: Option<string>, body: string)
    requires ParseAmounted(flavor, kind, s).Some?
    ensures IsGrammar(whole, frac) && s == Written(whole, frac) + (":" + body)
    ensures ParseAmount(Written(whole, frac)).Ok? && ParseAmount(Written(whole, frac)).value >= 0
    ensures ParseAmounted(flavor, kind, s) == ParseBody(flavor, kind, ParseAmount(Written(whole, frac)).value, body)
  {
    var n := AmountSpan(s);
    whole, frac := AmountSpanIsGrammar(s);
    body := Tag(s[n..], ":").value;
    TagAfter(s, n, Written(whole, frac));
    ParsedIsNotNegative(whole, frac);
  }

  lemma ParsedIsNotNegative(whole: string, frac: Option<string>)
    requires IsGrammar(whole, frac) && ParseAmount(Written(whole, frac)).Ok?
    ensures ParseAmount(Written(whole, frac)).value >= 0
  {
    ParsesExactlyWhatFits(whole, frac);
  }

  lemma ParsedIsWellFormed(flavor: Flavor, kind: Kind, s: string)
    ensures var r := Parse(flavor, kind, s);
      r.Some? ==> WellFormed(r.value) && r.value.flavor == flavor && r.value.kind == kind
  {
    if Parse(flavor, kind, s).Some? {
      if flavor == Rgb21 {
        ParsedBodyIsWellFormed(flavor, kind, 0, s);
      } else {
        var whole, frac, body := AmountedParts(flavor, kind, s[1..]);
        ParsedBodyIsWellFormed(flavor, kind, ParseAmount(Written(whole, frac)).value, body);
      }
    }
  }

  /** Printing and parsing back gives the token for well-formed tokens and for no others. */
  lemma RoundTripsExactlyWellFormed(t: Token)
    ensures Parse(t.flavor, t.kind, Print(t)) == Some(t) <==> WellFormed(t)
  {
    if WellFormed(t) { TokenRoundTrip(t); }
    ParsedIsWellFormed(t.flavor, t.kind, Print(t));
  }

  /** A parsed token prints to a string that parses to the same token: the canonical form. */
  lemma PrintIsCanonical(flavor: Flavor, kind: Kind, s: string)
    requires Parse(flavor, kind, s).Some?
    ensures var t := Parse(flavor, kind, s).value; Parse(flavor, kind, Print(t)) == Some(t)
  {
    ParsedIsWellFormed(flavor, kind, s);
    TokenRoundTrip(Parse(flavor, kind, s).value);
  }

  /** Two parsers that share everything up to the scope accept different bodies. */
  lemma BodiesAreApart(flavor: Flavor, kind: Kind, a: i64, flavor': Flavor, kind': Kind, a': i64, s: string)
    requires ParseBody(flavor, kind, a, s).Some? && ParseBody(flavor', kind', a', s).Some?
    ensures kind == kind' && (flavor == Webcash <==> flavor' == Webcash)
  {
    TagMeans(s, Label(kind));
    TagMeans(s, Label(kind'));
    assert s[0] == Label(kind)[0] && s[0] == Label(kind')[0];
  }

  /** No string is a token of two flavors or two kinds. */
  lemma FlavorsAreApart(flavor: Flavor, kind: Kind, flavor': Flavor, kind': Kind, s: string)
    requires Parse(flavor, kind, s).Some? && Parse(flavor', kind', s).Some?
    ensures flavor == flavor' && kind == kind'
  {
    StartsWith(flavor, kind, s);
    StartsWith(flavor', kind', s);
    if flavor == Rgb21 {
      BodiesAreApart(flavor, kind, 0, flavor', kind', 0, s);
    } else {
      var amount := ParseAmount(s[1..][..AmountSpan(s[1..])]).value;
      BodiesAreApart(flavor, kind, amount, flavor', kind', amount, Tag(s[1..][AmountSpan(s[1..])..], ":").value);
    }
  }

  lemma StartsWith(flavor: Flavor, kind: Kind, s: string)
    requires Parse(flavor, kind, s).Some?
    ensures s != "" && (flavor == Rgb21 <==> s[0] != 'e')
  {
    if flavor == Rgb21 {
      TagMeans(s, Label(kind));
      assert s[0] == Label(kind)[0];
    } else {
      TagMeans(s, "e");
    }
  }

  // ------------------------------------------------------------------
  // health_check keys
  // ------------------------------------------------------------------

  /** `split_once(c)`: before and after the first occurrence. */
  function SplitOnce(s: string, c: char): Option<(string, string)> {
    if s == "" then None
    else if s[0] == c then Some(("", s[1..]))
    else
      var r := SplitOnce(s[1..], c);
      if r.None? then None else Some(([s[0]] + r.value.0, r.value.1))
  }

  lemma {:induction false} SplitOnceAt(a: string, c: char, b: string)
    requires c !in a
    ensures SplitOnce(a + [c] + b, c) == Some((a, b))
  {
    var s := a + [c] + b;
    if a != "" {
      assert s[1..] == a[1..] + [c] + b;
      SplitOnceAt(a[1..], c, b);
      assert [a[0]] + a[1..] == a;
    }
  }

  lemma {:induction false} SplitOnceNone(s: string, c: char)
    requires c !in s
    ensures SplitOnce(s, c).None?
  {
    if s != "" { SplitOnceNone(s[1..], c); }
  }

  predicate AllZero(s: string) { forall i :: 0 <= i < |s| ==> s[i] == '0' }

  /** Drops an all-zero fraction. */
  function NormalizeAmount(s: string): string {
    match SplitOnce(s, '.')
    case Some((whole, frac)) => if frac != "" && AllZero(frac) then whole else s
    case None => s
  }

  function NormalizePublic(token: string): string {
    if token != "" && token[0] == 'e' then
      match SplitOnce(token[1..], ':')
      case Some((amount, suffix)) => "e" + NormalizeAmount(amount) + ":" + suffix
      case None => token
    else token
  }

  lemma {:induction false} AllZeroValue(s: string)
    requires AllZero(s)
    ensures AllDigits(s) && Value(s) == 0
  {
    if s != "" { AllZeroValue(s[..|s| - 1]); }
  }

  /** The normalised amount is again a grammar string and parses to the same value. */
  lemma NormalizedAmount(whole: string, frac: Option<string>) returns (whole': string, frac': Option<string>)
    requires IsGrammar(whole, frac) && ParseAmount(Written(whole, frac)).Ok?
    ensures IsGrammar(whole', frac') && NormalizeAmount(Written(whole, frac)) == Written(whole', frac')
    ensures ParseAmount(Written(whole', frac')) == ParseAmount(Written(whole, frac))
  {
    whole', frac' := whole, frac;
    match frac
    case None => SplitOnceNone(whole, '.');
    case Some(f) =>
      SplitOnceAt(whole, '.', f);
      assert whole + ['.'] + f == whole + "." + f;
      if AllZero(f) {
        frac' := None;
        AllZeroValue(f);
        ParsesExactlyWhatFits(whole, frac);
        ParsesExactlyWhatFits(whole, None);
      }
  }

  /** The key health_check answers under parses to the token that was asked about. */
  lemma NormalizedKeyIsSameToken(flavor: Flavor, s: string)
    requires Parse(flavor, Public, s).Some?
    ensures Parse(flavor, Public, NormalizePublic(s)) == Parse(flavor, Public, s)
  {
    if flavor != Rgb21 {
      var whole, frac, body := AmountedParts(flavor, Public, s[1..]);
      var amount := Written(whole, frac);
      GrammarHasNoColon(whole, frac);
      var whole', frac' := NormalizedAmount(whole, frac);
      var rest' := Written(whole', frac') + (":" + body);
      NormalizedParts(s, amount, body);
      assert NormalizePublic(s) == "e" + rest';
      TagAt("e", rest');
      AmountedParse(flavor, Public, whole', frac', body);
    }
  }

  lemma NormalizedParts(s: string, amount: string, body: string)
    requires s != "" && s[0] == 'e' && s[1..] == amount + (":" + body) && ':' !in amount
    ensures NormalizePublic(s) == "e" + (NormalizeAmount(amount) + (":" + body))
  {
    assert amount + (":" + body) == amount + [':'] + body;
    SplitOnceAt(amount, ':', body);
  }

  lemma GrammarHasNoColon(whole: string, frac: Option<string>)
    requires IsGrammar(whole, frac)
    ensures ':' !in Written(whole, frac)
  {}

  lemma LowerHexDigit(c: char)
    requires In(c, Hex) && Lower(c) == c
    ensures '0' <= c <= '9' || 'a' <= c <= 'f'
  {}

  lemma LowerHexString(s: string)
    requires AllIn(s, Hex) && ToLower(s) == s
    ensures forall i :: 0 <= i < |s| ==> '0' <= s[i] <= '9' || 'a' <= s[i] <= 'f'
  {
    forall i | 0 <= i < |s| ensures '0' <= s[i] <= '9' || 'a' <= s[i] <= 'f' {
      assert ToLower(s)[i] == Lower(s[i]);
      LowerHexDigit(s[i]);
    }
  }

  /** Whatever case a fingerprint was written in, a parsed one is forty lower-case hex digits. */
  lemma ParsedIssuerIsLowerHex(flavor: Flavor, kind: Kind, s: string)
    requires flavor != Webcash && Parse(flavor, kind, s).Some?
    ensures var issuer := Parse(flavor, kind, s).value.scope.issuer;
      |issuer| == 40 && forall i :: 0 <= i < 40 ==> '0' <= issuer[i] <= '9' || 'a' <= issuer[i] <= 'f'
  {
    ParsedIsWellFormed(flavor, kind, s);
    LowerHexString(Parse(flavor, kind, s).value.scope.issuer);
  }

  /** The wire forms as the documentation of the three flavors spells them. */
  lemma PrintedForms(t: Token)
    ensures var secret := t.kind == Secret;
      match t.flavor
      case Webcash => Print(t) == "e" + Display(t.amount) + (if secret then ":secret:" else ":public:") + t.hex
      case Rgb20 =>
        Print(t) == "e" + Display(t.amount) + (if secret then ":secret:" else ":public:") + t.hex
                    + ":" + t.scope.contract + ":" + t.scope.issuer
      case Rgb21 =>
        Print(t) == (if secret then "secret:" else "public:") + t.hex + ":" + t.scope.contract + ":" + t.scope.issuer
  {
    var front, kind := "e" + Display(t.amount), Label(t.kind);
    var mark := if t.kind == Secret then ":secret:" else ":public:";
    assert ":" + kind == mark;
    match t.flavor
    case Webcash =>
      assert front + ":" + (kind + t.hex) == front + (":" + kind) + t.hex;
    case Rgb20 =>
      assert front + ":" + (kind + t.hex + PrintScope(t.scope)) == front + (":" + kind) + t.hex + PrintScope(t.scope);
      AppendScope(front + mark + t.hex, t.scope);
    case Rgb21 =>
      AppendScope(kind + t.hex, t.scope);
  }

  lemma AppendScope(s: string, scope: Scope)
    ensures s + PrintScope(scope) == s + ":" + scope.contract + ":" + scope.issuer
  {
    assert s + (":" + scope.contract + ":" + scope.issuer) == s + ":" + scope.contract + ":" + scope.issuer;
  }
}
