/** The token signer and verifier (the `jsonwebtoken` package), abstracted.

    A signed token is a string from which the verifier can read back the payload,
    the secret it was signed with and its expiry. The cryptography is not modelled:
    the "signature" is a tag naming the secret. What the model keeps is what the
    controllers rely on: `verify` gives back exactly what `sign` was given, fails
    under the other secret, fails once the expiry has passed, and distinct
    payloads give distinct token strings. */
module Jwt {
  import opened Wrappers
  import opened Text

  /** ACCESS_TOKEN_SECRET and REFRESH_TOKEN_SECRET: two distinct secrets. */
  datatype Secret = AccessTokenSecret | RefreshTokenSecret

  /** ACCESS_TOKEN_EXPIRY and REFRESH_TOKEN_EXPIRY, in seconds. */
  datatype TokenConfig = TokenConfig(accessTokenExpiry: nat, refreshTokenExpiry: nat)

  /** A named claim besides `_id`, such as `email` or `role`. */
  datatype Claim = Claim(key: string, value: string)

  /** A token payload: the account id (`_id`) and the other claims, in order. */
  datatype Payload = Payload(id: nat, claims: seq<Claim>)

  function SecretTag(s: Secret): char
  {
    match s
    case AccessTokenSecret => 'A'
    case RefreshTokenSecret => 'R'
  }

  /** `jwt.sign` sets `iat` to the clock in whole seconds. */
  function IssuedAt(nowMs: nat): nat { nowMs / 1000 }

  function EncodeClaims(cs: seq<Claim>): string
  {
    if cs == [] then "" else "." + (NetString(cs[0].key) + (NetString(cs[0].value) + EncodeClaims(cs[1..])))
  }

  /** `jwt.sign(payload, secret)` for a token that expires at second `exp`. */
  function Sign(p: Payload, secret: Secret, exp: nat): string
  {
    [SecretTag(secret)] + (NatText(exp) + ("." + (NatText(p.id) + EncodeClaims(p.claims))))
  }

  /** `jwt.sign(payload, secret, { expiresIn })` called at `nowMs` milliseconds. */
  function SignAt(p: Payload, secret: Secret, expiresIn: nat, nowMs: nat): string
  {
    Sign(p, secret, IssuedAt(nowMs) + expiresIn)
  }

  function ParseClaims(s: string): Option<seq<Claim>>
    decreases |s|
  {
    if s == [] then Some([])
    else if s[0] != '.' then None
    else match ParseNetString(s[1..])
      case None => None
      case Some((k, r1)) =>
        match ParseNetString(r1)
        case None => None
        case Some((v, r2)) =>
          match ParseClaims(r2)
          case None => None
          case Some(cs) => Some([Claim(k, v)] + cs)
  }

  /** Reads a token back: the secret tag, the expiry and the payload. */
  function Decode(t: string): Option<(char, nat, Payload)>
  {
    if t == [] then None
    else match ParseNat(t[1..])
      case None => None
      case Some((exp, r1)) =>
        if r1 == [] || r1[0] != '.' then None
        else match ParseNat(r1[1..])
          case None => None
          case Some((id, r2)) =>
            match ParseClaims(r2)
            case None => None
            case Some(cs) => Some((t[0], exp, Payload(id, cs)))
  }

  /** `jwt.verify(token, secret)` at second `nowSeconds`: the payload, or the message of
      the error it throws. A missing or empty token, a string that is not a token, a
      token signed with another secret, and an expired token (`exp <= now`) fail. */
  function Verify(token: Option<string>, secret: Secret, nowSeconds: nat): (r: Result<Payload, string>)
    ensures (token.None? || token.value == "") ==> r == Err("jwt must be provided")
    ensures r.Ok? ==>
              && token.Some? && Decode(token.value).Some?
              && Decode(token.value).value.0 == SecretTag(secret)
              && nowSeconds < Decode(token.value).value.1
              && r.value == Decode(token.value).value.2
  {
    if token.None? || token.value == "" then Err("jwt must be provided")
    else match Decode(token.value)
      case None => Err("jwt malformed")
      case Some((tag, exp, p)) =>
        if tag != SecretTag(secret) then Err("invalid signature")
        else if nowSeconds >= exp then Err("jwt expired")
        else Ok(p)
  }

  /** One encoded claim in front of `rest` parses to that claim followed by what `rest`
      parses to. */
  lemma ParseClaimsStep(k: string, v: string, rest: string)
    ensures ParseClaims("." + (NetString(k) + (NetString(v) + rest)))
         == match ParseClaims(rest) case None => None case Some(cs) => Some([Claim(k, v)] + cs)
  {
    var tail := NetString(k) + (NetString(v) + rest);
    var s := "." + tail;
    assert s != [] && s[0] == '.' && s[1..] == tail;
    ParseNetStringOf(k, NetString(v) + rest);
    ParseNetStringOf(v, rest);
  }

  lemma {:induction false} ParseEncodedClaims(cs: seq<Claim>)
    ensures ParseClaims(EncodeClaims(cs)) == Some(cs)
    decreases |cs|
  {
    if cs != [] {
      var c, rest := cs[0], cs[1..];
      assert EncodeClaims(cs) == "." + (NetString(c.key) + (NetString(c.value) + EncodeClaims(rest)));
      ParseClaimsStep(c.key, c.value, EncodeClaims(rest));
      ParseEncodedClaims(rest);
      assert [c] + rest == cs;
    }
  }

  /** Decoding a signed token gives back the tag, the expiry and the payload. */
  lemma DecodeSigned(p: Payload, secret: Secret, exp: nat)
    ensures Decode(Sign(p, secret, exp)) == Some((SecretTag(secret), exp, p))
  {
    var t := Sign(p, secret, exp);
    var claims := EncodeClaims(p.claims);
    var r1 := "." + (NatText(p.id) + claims);
    assert t == [SecretTag(secret)] + (NatText(exp) + r1);
    assert t != [] && t[0] == SecretTag(secret) && t[1..] == NatText(exp) + r1;
    ParseNatText(exp, r1);
    assert ParseNat(t[1..]) == Some((exp, r1));
    assert r1 != [] && r1[0] == '.' && r1[1..] == NatText(p.id) + claims;
    assert claims == [] || claims[0] == '.';
    ParseNatText(p.id, claims);
    assert ParseNat(r1[1..]) == Some((p.id, claims));
    ParseEncodedClaims(p.claims);
  }

  /** Round trip: a token verifies under the secret it was signed with, and gives its
      payload back, exactly until its expiry second. */
  lemma VerifySigned(p: Payload, secret: Secret, exp: nat, nowSeconds: nat)
    ensures Verify(Some(Sign(p, secret, exp)), secret, nowSeconds)
      == if nowSeconds < exp then Ok(p) else Err("jwt expired")
  {
    DecodeSigned(p, secret, exp);
  }

  /** A token never verifies under the other secret: an access token is not a refresh
      token and vice versa. */
  lemma VerifyOtherSecret(p: Payload, secret: Secret, other: Secret, exp: nat, nowSeconds: nat)
    requires other != secret
    ensures Verify(Some(Sign(p, secret, exp)), other, nowSeconds) == Err("invalid signature")
  {
    DecodeSigned(p, secret, exp);
  }

  /** Distinct payloads, secrets or expiries give distinct token strings, so comparing
      token strings compares what was signed. */
  lemma SignInjective(p: Payload, s: Secret, e: nat, q: Payload, u: Secret, f: nat)
    requires Sign(p, s, e) == Sign(q, u, f)
    ensures p == q && s == u && e == f
  {
    DecodeSigned(p, s, e);
    DecodeSigned(q, u, f);
  }

  /** The payload `generateRefreshToken` signs in every schema: `{ _id }` alone. */
  function RefreshPayload(id: nat): Payload
  {
    Payload(id, [])
  }

  /** `generateRefreshToken()` on a document with id `id`, called at `nowMs` milliseconds:
      `jwt.sign({ _id }, REFRESH_TOKEN_SECRET, { expiresIn: REFRESH_TOKEN_EXPIRY })`. The
      admin, student and trainer schemas define it alike. */
  function GenerateRefreshToken(id: nat, cfg: TokenConfig, nowMs: nat): string
  {
    SignAt(RefreshPayload(id), RefreshTokenSecret, cfg.refreshTokenExpiry, nowMs)
  }

  /** The refresh token verifies under the refresh secret, carrying `{ _id }` alone, until
      its expiry, and is refused under the access secret at every second. */
  lemma RefreshTokenClaims(id: nat, cfg: TokenConfig, nowMs: nat, nowSeconds: nat)
    requires nowSeconds < IssuedAt(nowMs) + cfg.refreshTokenExpiry
    ensures Verify(Some(GenerateRefreshToken(id, cfg, nowMs)), RefreshTokenSecret, nowSeconds)
         == Ok(Payload(id, []))
    ensures forall t :: Verify(Some(GenerateRefreshToken(id, cfg, nowMs)), AccessTokenSecret, t).Err?
  {
    var exp := IssuedAt(nowMs) + cfg.refreshTokenExpiry;
    assert GenerateRefreshToken(id, cfg, nowMs) == Sign(RefreshPayload(id), RefreshTokenSecret, exp);
    VerifySigned(RefreshPayload(id), RefreshTokenSecret, exp, nowSeconds);
    forall t: nat ensures Verify(Some(GenerateRefreshToken(id, cfg, nowMs)), AccessTokenSecret, t).Err? {
      VerifyOtherSecret(RefreshPayload(id), RefreshTokenSecret, AccessTokenSecret, exp, t);
    }
  }
}
