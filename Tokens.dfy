/** The session token: how login assembles it and how the auth gate and the
    verify route take it apart. A token is
    `btoa(header) + "." + btoa(claims) + "." + "demo-signature"`, and the key
    the session table is searched by is the first 255 characters of
    `btoa(token)`. */
module Tokens {
  import opened Common
  import opened Strings
  import opened Base64
  import opened Claims

  const Signature: string := "demo-signature"
  const BearerPrefix: string := "Bearer "
  /** Length of `token_hash`: `substring(0, 255)`. */
  const HashLength: nat := 255

  /** The token login hands out; None where `btoa` throws on a character
      above 255 in the serialised claims. */
  function Issue(c: Claims): Option<string>
  {
    var header :- Btoa(HeaderJson);
    var payload :- Btoa(ClaimsJson(c));
    Some(header + "." + payload + "." + Signature)
  }

  /** `btoa(token).substring(0, 255)`, the session key; None where `btoa` throws. */
  function TokenHash(token: string): (h: Option<string>)
    ensures h.Some? <==> IsBinary(token)
    ensures h.Some? ==> |h.value| <= HashLength && |h.value| <= |Btoa(token).value|
                        && h.value == Btoa(token).value[..|h.value|]
  {
    var b :- Btoa(token);
    Some(Prefix(b, HashLength))
  }

  /** The token of an `Authorization` header: the header must be present and
      start with "Bearer ", and what follows must not be empty. */
  function BearerToken(header: Option<string>): (t: Option<string>)
    ensures t.Some? ==> header == Some(BearerPrefix + t.value) && t.value != ""
  {
    if header.None? || !StartsWith(header.value, BearerPrefix) then None
    else
      var token := header.value[|BearerPrefix|..];
      assert header.value == BearerPrefix + token;
      if token == "" then None else Some(token)
  }

  /** `JSON.parse(atob(parts[1]))` after the three-part check; None stands
      for every way that throws or is refused. */
  function DecodeClaims(token: string): (c: Option<Claims>)
    ensures c.Some? ==> |Split(token, '.')| == 3
  {
    var parts := Split(token, '.');
    if |parts| != 3 then None
    else
      var json :- Atob(parts[1]);
      ParseClaims(json)
  }

  /** `payload.exp && payload.exp < Math.floor(Date.now() / 1000)`: an absent
      or zero `exp` never expires, and `exp` equal to the current second is
      still accepted. */
  predicate Expired(exp: Option<nat>, nowMs: nat)
  {
    exp.Some? && exp.value != 0 && exp.value < nowMs / 1000
  }

  // ---------------------------------------------------------------------
  // Properties

  lemma HeaderIsBinary()
    ensures IsBinary(HeaderJson)
  {
    assert forall i | 0 <= i < |HeaderJson| :: HeaderJson[i] as int < 128;
  }

  lemma SignatureChars()
    ensures Free(Signature, '.') && IsBinary(Signature)
  {
    assert forall i | 0 <= i < |Signature| :: Signature[i] as int < 128 && Signature[i] != '.';
  }

  /** Login can issue a token exactly when the serialised claims are a binary
      string. */
  lemma IssueDefined(c: Claims)
    ensures Issue(c).Some? <==> IsBinary(ClaimsJson(c))
  {
    HeaderIsBinary();
  }

  /** An issued token passes the three-part check: base64 output has no '.',
      so the two separators are the only ones. */
  lemma {:induction false} IssuedSplits(c: Claims)
    requires Issue(c).Some?
    ensures Split(Issue(c).value, '.') ==
              [Btoa(HeaderJson).value, Btoa(ClaimsJson(c)).value, Signature]
  {
    HeaderIsBinary();
    var header := Btoa(HeaderJson).value;
    var payload := Btoa(ClaimsJson(c)).value;
    BtoaOutput(HeaderJson);
    BtoaOutput(ClaimsJson(c));
    SignatureChars();
    assert Issue(c).value == header + ['.'] + payload + ['.'] + Signature;
    SplitThree(header, payload, Signature, '.');
  }

  /** Decoding an issued token gives back exactly the claims it was issued
      for. */
  lemma IssuedDecodes(c: Claims)
    requires Issue(c).Some?
    ensures DecodeClaims(Issue(c).value) == Some(c)
  {
    IssuedSplits(c);
    IssueDefined(c);
    AtobBtoa(ClaimsJson(c));
    ParseClaimsJson(c);
  }

  /** An issued token is itself a binary string, so its hash never throws. */
  lemma IssuedHashable(c: Claims)
    requires Issue(c).Some?
    ensures TokenHash(Issue(c).value).Some?
  {
    HeaderIsBinary();
    IssueDefined(c);
    BtoaOutput(HeaderJson);
    BtoaOutput(ClaimsJson(c));
    var header := Btoa(HeaderJson).value;
    var payload := Btoa(ClaimsJson(c)).value;
    SignatureChars();
    assert IsBinary(".");
    BinaryConcat(header, ".");
    BinaryConcat(header + ".", payload);
    BinaryConcat(header + "." + payload, ".");
    BinaryConcat(header + "." + payload + ".", Signature);
    assert Issue(c).value == header + "." + payload + "." + Signature;
  }

  /** The bearer header login's client sends back yields the token itself. */
  lemma BearerOf(t: string)
    ensures BearerToken(Some(BearerPrefix + t)) == if t == "" then None else Some(t)
  {
    var h := BearerPrefix + t;
    assert h[..|BearerPrefix|] == BearerPrefix;
    assert h[|BearerPrefix|..] == t;
  }

  /** Expiry is monotone in time: once expired, a token stays expired. */
  lemma ExpiredLater(exp: Option<nat>, nowMs: nat, laterMs: nat)
    requires nowMs <= laterMs && Expired(exp, nowMs)
    ensures Expired(exp, laterMs)
  {
    assert nowMs / 1000 <= laterMs / 1000;
  }
}
