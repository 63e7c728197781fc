// How storage keys are shaped, and why no two namespaces share one
// (crates/storage/src/lib.rs, key recovery in crates/storage/src/dynamodb_backend.rs).

module StorageKeys {
  import opened Prelude

  datatype Namespace = Namespace(contract: Option<string>, issuer: Option<string>)

  predicate Plain(s: string) { ':' !in s }

  predicate IsSlugChar(c: char) { '0' <= c <= '9' || 'a' <= c <= 'z' || 'A' <= c <= 'Z' || c == '-' || c == '_' }

  predicate IsLowerHex(c: char) { '0' <= c <= '9' || 'a' <= c <= 'f' }

  /** The two forms handlers build: unscoped, or a slug with a 40-digit fingerprint. */
  predicate ProperNamespace(ns: Namespace) {
    || (ns.contract.None? && ns.issuer.None?)
    || (&& ns.contract.Some? && ns.issuer.Some?
        && ns.contract.value != "" && (forall c <- ns.contract.value :: IsSlugChar(c))
        && |ns.issuer.value| == 40 && (forall c <- ns.issuer.value :: IsLowerHex(c)))
  }

  function Segment(s: Option<string>): string { if s.Some? then s.value else "_" }

  function Prefix(asset: string, ns: Namespace): string {
    asset + ":" + Segment(ns.contract) + ":" + Segment(ns.issuer) + ":"
  }

  // NamespacedKeys.
  function TokenKey(asset: string, ns: Namespace, hash: string): string { Prefix(asset, ns) + "token:" + hash }
  function ReplacementKey(asset: string, ns: Namespace, id: string): string { Prefix(asset, ns) + "audit:replace:" + id }
  function BurnKey(asset: string, ns: Namespace, id: string): string { Prefix(asset, ns) + "audit:burn:" + id }

  /** The webcash flavor keeps its frozen bare keys; the other flavors partition by asset and namespace. */
  datatype KeyStyle = Legacy | Namespaced

  function TokenKeyIn(style: KeyStyle, asset: string, ns: Namespace, hash: string): string {
    if style.Legacy? then "token:" + hash else TokenKey(asset, ns, hash)
  }

  function ReplacementKeyIn(style: KeyStyle, asset: string, ns: Namespace, id: string): string {
    if style.Legacy? then "audit:replace:" + id else ReplacementKey(asset, ns, id)
  }

  /** Keys as other programs that share the store spell them. */
  lemma KeysAsSpelled()
    ensures TokenKeyIn(Legacy, "webcash", Namespace(None, None), "abc") == "token:abc"
    ensures ReplacementKeyIn(Legacy, "webcash", Namespace(None, None), "op1") == "audit:replace:op1"
    ensures TokenKeyIn(Namespaced, "voucher", Namespace(None, None), "h1") == "voucher:_:_:token:h1"
  {
    assert "voucher" + ":" == "voucher:";
    assert "voucher:" + "_" == "voucher:_";
    assert "voucher:_" + ":" == "voucher:_:";
    assert "voucher:_:" + "_" == "voucher:_:_";
    assert "voucher:_:_" + ":" == "voucher:_:_:";
  }

  lemma ScopedKeyAsSpelled(issuer: string)
    ensures TokenKeyIn(Namespaced, "rgb", Namespace(Some("rgb20-usdc"), Some(issuer)), "deadbeef")
      == "rgb:rgb20-usdc:" + issuer + ":token:deadbeef"
  {
    assert "rgb" + ":" == "rgb:";
    assert "rgb:" + "rgb20-usdc" == "rgb:rgb20-usdc";
    assert "rgb:rgb20-usdc" + ":" == "rgb:rgb20-usdc:";
    assert ":" + ("token:" + "deadbeef") == ":token:deadbeef";
    assert "rgb:rgb20-usdc:" + issuer + ":" + ("token:" + "deadbeef") == "rgb:rgb20-usdc:" + issuer + (":" + ("token:" + "deadbeef"));
  }

  /** Legacy keys leave the namespace out; tokens of that flavor are all unscoped. */
  predicate Fits(style: KeyStyle, ns: Namespace) {
    if style.Legacy? then ns == Namespace(None, None) else ProperNamespace(ns)
  }

  function FirstColon(s: string): nat {
    if s == "" || s[0] == ':' then 0 else 1 + FirstColon(s[1..])
  }

  lemma {:induction false} PlainEndsAtColon(a: string, x: string)
    requires Plain(a)
    ensures FirstColon(a + ":" + x) == |a|
  {
    if a != "" {
      assert a[0] in a;
      assert (a + ":" + x)[1..] == a[1..] + ":" + x;
      PlainEndsAtColon(a[1..], x);
    }
  }

  lemma FirstSegment(a: string, x: string, b: string, y: string)
    requires Plain(a) && Plain(b) && a + ":" + x == b + ":" + y
    ensures a == b && x == y
  {
    var s := a + ":" + x;
    PlainEndsAtColon(a, x);
    PlainEndsAtColon(b, y);
    assert a == s[..|a|] && b == s[..|b|];
    assert x == s[|a| + 1..] && y == s[|b| + 1..];
  }

  lemma ThreeSegments(a: string, b: string, c: string, x: string, a': string, b': string, c': string, x': string)
    requires Plain(a) && Plain(b) && Plain(c) && Plain(a') && Plain(b') && Plain(c')
    requires a + ":" + b + ":" + c + ":" + x == a' + ":" + b' + ":" + c' + ":" + x'
    ensures a == a' && b == b' && c == c' && x == x'
  {
    assert a + ":" + (b + ":" + (c + ":" + x)) == a + ":" + b + ":" + c + ":" + x;
    assert a' + ":" + (b' + ":" + (c' + ":" + x')) == a' + ":" + b' + ":" + c' + ":" + x';
    FirstSegment(a, b + ":" + (c + ":" + x), a', b' + ":" + (c' + ":" + x'));
    FirstSegment(b, c + ":" + x, b', c' + ":" + x');
    FirstSegment(c, x, c', x');
  }

  lemma ProperIsPlain(ns: Namespace)
    requires ProperNamespace(ns)
    ensures Plain(Segment(ns.contract)) && Plain(Segment(ns.issuer))
  {}

  /** Equal prefixes mean the same namespace: `_` can be a slug but never a fingerprint. */
  lemma SegmentsDetermineNamespace(ns: Namespace, ns': Namespace)
    requires ProperNamespace(ns) && ProperNamespace(ns')
    requires Segment(ns.contract) == Segment(ns'.contract) && Segment(ns.issuer) == Segment(ns'.issuer)
    ensures ns == ns'
  {}

  /** No two tokens share a key, across assets, contracts and issuers, whatever their hashes contain. */
  lemma TokenKeyInjective(asset: string, ns: Namespace, hash: string, asset': string, ns': Namespace, hash': string)
    requires Plain(asset) && Plain(asset') && ProperNamespace(ns) && ProperNamespace(ns')
    ensures TokenKey(asset, ns, hash) == TokenKey(asset', ns', hash') <==> (asset, ns, hash) == (asset', ns', hash')
  {
    if TokenKey(asset, ns, hash) == TokenKey(asset', ns', hash') {
      ProperIsPlain(ns);
      ProperIsPlain(ns');
      var x, x' := "token:" + hash, "token:" + hash';
      assert TokenKey(asset, ns, hash) == asset + ":" + Segment(ns.contract) + ":" + Segment(ns.issuer) + ":" + x;
      assert TokenKey(asset', ns', hash') == asset' + ":" + Segment(ns'.contract) + ":" + Segment(ns'.issuer) + ":" + x';
      ThreeSegments(asset, Segment(ns.contract), Segment(ns.issuer), x, asset', Segment(ns'.contract), Segment(ns'.issuer), x');
      SegmentsDetermineNamespace(ns, ns');
      assert hash == x[6..] && hash' == x'[6..];
    }
  }

  /** In either style no two tokens of an asset share a key. */
  lemma StyledKeyInjective(style: KeyStyle, asset: string, ns: Namespace, hash: string, ns': Namespace, hash': string)
    requires Plain(asset) && Fits(style, ns) && Fits(style, ns')
    ensures TokenKeyIn(style, asset, ns, hash) == TokenKeyIn(style, asset, ns', hash') <==> (ns, hash) == (ns', hash')
  {
    match style
    case Namespaced => TokenKeyInjective(asset, ns, hash, asset, ns', hash');
    case Legacy =>
      var k, k' := "token:" + hash, "token:" + hash';
      assert hash == k[6..] && hash' == k'[6..];
  }

  /** Without the fingerprint, a contract named `_` would share its keys with the unscoped namespace. */
  lemma UnderscoreContractWouldCollide(asset: string, hash: string)
    ensures var odd, flat := Namespace(Some("_"), None), Namespace(None, None);
      odd != flat && TokenKey(asset, odd, hash) == TokenKey(asset, flat, hash) && !ProperNamespace(odd)
  {}

  /** Token, replacement and burn keys never meet. */
  lemma KindsAreApart(asset: string, ns: Namespace, hash: string, asset': string, ns': Namespace, id: string)
    requires Plain(asset) && Plain(asset') && ProperNamespace(ns) && ProperNamespace(ns')
    ensures TokenKey(asset, ns, hash) != ReplacementKey(asset', ns', id)
    ensures TokenKey(asset, ns, hash) != BurnKey(asset', ns', id)
  {
    ProperIsPlain(ns);
    ProperIsPlain(ns');
    var x := "token:" + hash;
    forall tail | tail == "audit:replace:" + id || tail == "audit:burn:" + id
      ensures TokenKey(asset, ns, hash) != Prefix(asset', ns') + tail
    {
      assert x[0] != tail[0];
      assert TokenKey(asset, ns, hash) == asset + ":" + Segment(ns.contract) + ":" + Segment(ns.issuer) + ":" + x;
      if TokenKey(asset, ns, hash) == Prefix(asset', ns') + tail {
        ThreeSegments(asset, Segment(ns.contract), Segment(ns.issuer), x, asset', Segment(ns'.contract), Segment(ns'.issuer), tail);
      }
    }
    assert ReplacementKey(asset', ns', id) == Prefix(asset', ns') + ("audit:replace:" + id);
    assert BurnKey(asset', ns', id) == Prefix(asset', ns') + ("audit:burn:" + id);
  }

  // ------------------------------------------------------------------
  // Reading the hash back out of a key
  // ------------------------------------------------------------------

  const MARK: string := ":token:"

  predicate MarkAt(key: string, i: nat) {
    i + |MARK| <= |key| && key[i..i + |MARK|] == MARK
  }

  /** `rsplit(":token:").next()`: what follows the last mark, or everything. */
  function AfterLastMark(key: string): string { AfterMarkFrom(key, |key|) }

  function AfterMarkFrom(key: string, i: nat): string {
    if MarkAt(key, i) then key[i + |MARK|..]
    else if i == 0 then key
    else AfterMarkFrom(key, i - 1)
  }

  lemma {:induction false} FindsMark(key: string, i: nat, at: nat)
    requires at <= i && MarkAt(key, at) && forall j :: at < j <= i ==> !MarkAt(key, j)
    ensures AfterMarkFrom(key, i) == key[at + |MARK|..]
  {
    if at < i { FindsMark(key, i - 1, at); }
  }

  lemma MarkEndsInColon(key: string, j: nat)
    requires MarkAt(key, j)
    ensures j + 6 < |key| && key[j + 6] == ':'
  {
    assert key[j..j + |MARK|][6] == ':';
  }

  /** From a namespaced key the hash comes back, as long as it has no colon. */
  lemma HashIsRecovered(asset: string, ns: Namespace, hash: string)
    requires Plain(hash)
    ensures AfterLastMark(TokenKey(asset, ns, hash)) == hash
  {
    var key := TokenKey(asset, ns, hash);
    var before := asset + ":" + Segment(ns.contract) + ":" + Segment(ns.issuer);
    var at := |before|;
    assert key == before + MARK + hash;
    assert key[at..at + |MARK|] == MARK;
    forall j | at < j <= |key| ensures !MarkAt(key, j) {
      // No colon follows the one that ends the real mark.
      assert j + 6 < |key| ==> key[j + 6] == hash[j + 6 - at - |MARK|];
      if MarkAt(key, j) { MarkEndsInColon(key, j); }
    }
    FindsMark(key, |key|, at);
  }

  /** From the legacy key of the webcash flavor it does not. */
  lemma LegacyHashIsLost(hash: string)
    requires Plain(hash)
    ensures var key := TokenKeyIn(Legacy, "webcash", Namespace(None, None), hash);
      AfterLastMark(key) == key && key != hash
  {
    var key := "token:" + hash;
    forall j | 0 <= j <= |key| ensures !MarkAt(key, j) {
      assert j + 6 < |key| ==> key[j + 6] == hash[j];
      if MarkAt(key, j) { MarkEndsInColon(key, j); }
    }
    NoMark(key, |key|);
  }

  lemma {:induction false} NoMark(key: string, i: nat)
    requires forall j :: 0 <= j <= i ==> !MarkAt(key, j)
    ensures AfterMarkFrom(key, i) == key
  {
    if i > 0 { NoMark(key, i - 1); }
  }
}
