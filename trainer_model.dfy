/** The trainer schema: fields and constraints, the email setters, the password check and
    the claims of the two tokens. The schema declares no `otp`, `otpExpires`,
    `isVerified`, `refreshToken` or `avatarPublicId`, and Mongoose's strict mode drops
    such fields from what is stored, so the record has none of them. */
module TrainerModel {
  import opened Wrappers
  import opened Text
  import Bcrypt
  import opened Jwt
  import Api
  import Store

  datatype TrainerRecord = TrainerRecord(
    username: string,
    email: string,
    uniqueCode: string,
    password: Bcrypt.Hash,
    avatar: string,
    subjectname: string)

  /** The `lowercase: true` and `trim: true` setters on `email`, applied in that order to
      what is stored and to query filters alike. */
  function NormalizeEmail(e: string): string
  {
    Trim(ToLowerAscii(e))
  }

  lemma ToLowerAsciiCharIdempotent(c: char)
    ensures ToLowerAsciiChar(ToLowerAsciiChar(c)) == ToLowerAsciiChar(c)
  {
  }

  /** `trim` keeps a contiguous run of its input. */
  lemma TrimIsSlice(y: string) returns (lo: nat)
    ensures lo + |Trim(y)| <= |y| && Trim(y) == y[lo..lo + |Trim(y)|]
  {
    var a := TrimStart(y);
    lo := |y| - |a|;
    assert Trim(y) == a[..|Trim(y)|];
  }

  /** A string no character of which `toLowerCase` changes is its own lower case. */
  lemma ToLowerAsciiFixed(x: string)
    requires forall k :: 0 <= k < |x| ==> ToLowerAsciiChar(x[k]) == x[k]
    ensures ToLowerAscii(x) == x
  {
  }

  /** Normalising a normalised email changes nothing, so a stored email matches a filter
      built from the same input. */
  lemma NormalizeEmailIdempotent(e: string)
    ensures NormalizeEmail(NormalizeEmail(e)) == NormalizeEmail(e)
  {
    var y := ToLowerAscii(e);
    var x := Trim(y);
    var lo := TrimIsSlice(y);
    forall k | 0 <= k < |x| ensures ToLowerAsciiChar(x[k]) == x[k] {
      assert x[k] == y[lo + k];
      ToLowerAsciiCharIdempotent(e[lo + k]);
    }
    ToLowerAsciiFixed(x);
    TrimShape(y);
    TrimOfTrimmed(x);
  }

  /** `new Trainer({...})` followed by the pre-save hash: the email is stored normalised,
      and the `avatarPublicId`, `otp` and `otpExpires` the controller passes are dropped. */
  function NewTrainer(username: string, email: string, password: string, salt: nat,
                      uniqueCode: string, subjectname: string, avatar: string): (t: TrainerRecord)
    ensures t.email == NormalizeEmail(email) && NormalizeEmail(t.email) == t.email
    ensures IsPasswordCorrect(t, password)
    ensures forall p :: IsPasswordCorrect(t, p) ==> p == password
    ensures (t.username, t.uniqueCode, t.subjectname, t.avatar) == (username, uniqueCode, subjectname, avatar)
  {
    NormalizeEmailIdempotent(email);
    TrainerRecord(username, NormalizeEmail(email), uniqueCode, Bcrypt.HashPassword(password, salt),
                  avatar, subjectname)
  }

  /** What `save()` validates: `username`, `email` (after the setters), `uniqueCode`,
      `avatar` and `subjectname` are required. */
  predicate PassesValidation(t: TrainerRecord)
  {
    t.username != "" && t.email != "" && t.uniqueCode != "" && t.avatar != "" && t.subjectname != ""
  }

  /** `Trainer.findOne({ email })`, the filter normalised by the setters. */
  function FindByEmail(rs: seq<TrainerRecord>, email: string): Option<nat>
  {
    Store.FindFirst(rs, (t: TrainerRecord) => t.email == NormalizeEmail(email))
  }

  /** `Trainer.findOne({ $or: [{ email }, { uniqueCode }] })`. */
  function FindByEmailOrCode(rs: seq<TrainerRecord>, email: string, uniqueCode: string): Option<nat>
  {
    Store.FindFirst(rs, (t: TrainerRecord) => t.email == NormalizeEmail(email) || t.uniqueCode == uniqueCode)
  }

  /** A document inserted after the conflict query found nothing is what an email lookup
      with the same input finds, at the end. */
  lemma FindByEmailAfterInsert(rs: seq<TrainerRecord>, t: TrainerRecord, email: string)
    requires FindByEmailOrCode(rs, email, t.uniqueCode).None? && t.email == NormalizeEmail(email)
    ensures FindByEmail(rs + [t], email) == Some(|rs|)
  {
    var n := NormalizeEmail(email);
    var either := (r: TrainerRecord) => r.email == n || r.uniqueCode == t.uniqueCode;
    var byEmail := (r: TrainerRecord) => r.email == n;
    Store.FindFirstNoneNarrower(rs, either, byEmail);
    Store.FindFirstAppended(rs, byEmail, t);
  }

  /** When the conflict query finds nothing, no stored document shares the new document's
      email or its `uniqueCode`. */
  lemma NoConflictAfterEmptyQuery(rs: seq<TrainerRecord>, t: TrainerRecord, email: string)
    requires FindByEmailOrCode(rs, email, t.uniqueCode).None? && t.email == NormalizeEmail(email)
    ensures forall j :: 0 <= j < |rs| ==> rs[j].email != t.email && rs[j].uniqueCode != t.uniqueCode
  {
    var n := NormalizeEmail(email);
    var either := (r: TrainerRecord) => r.email == n || r.uniqueCode == t.uniqueCode;
    Store.FindFirstNoneNarrower(rs, either, either);
  }

  /** Once a document is stored, the conflict query finds a document for its email, and
      for its `uniqueCode`, whatever the other half of the filter is. */
  lemma FindByEmailOrCodeAfterInsert(rs: seq<TrainerRecord>, t: TrainerRecord, email: string, uniqueCode: string)
    requires t.email == NormalizeEmail(email) || t.uniqueCode == uniqueCode
    ensures FindByEmailOrCode(rs + [t], email, uniqueCode).Some?
  {
    var matches := (r: TrainerRecord) => r.email == NormalizeEmail(email) || r.uniqueCode == uniqueCode;
    if Store.FindFirst(rs, matches).Some? {
      Store.FindFirstAppendedFound(rs, matches, t);
    } else {
      Store.FindFirstAppended(rs, matches, t);
    }
  }

  predicate IsPasswordCorrect(t: TrainerRecord, password: string)
  {
    Bcrypt.Compare(password, t.password)
  }

  /** The payload of `generateAccessToken`: `{ _id, email, subjectname }`. */
  function AccessPayload(id: nat, t: TrainerRecord): Payload
  {
    Payload(id, [Claim("email", t.email), Claim("subjectname", t.subjectname)])
  }

  /** `generateAccessToken` as written: the schema file never imports `jwt`, so the call
      `jwt.sign(...)` throws before anything is signed. */
  function GenerateAccessTokenAsWritten(id: nat, t: TrainerRecord, cfg: TokenConfig, nowMs: nat): Result<string, Api.JsError>
  {
    Err(Api.ReferenceError("jwt is not defined"))
  }

  /** `generateRefreshToken` as written, failing the same way. */
  function GenerateRefreshTokenAsWritten(id: nat, cfg: TokenConfig, nowMs: nat): Result<string, Api.JsError>
  {
    Err(Api.ReferenceError("jwt is not defined"))
  }

  /** As written, `generateAccessToken` never gives the token it is meant to sign: for
      every document and every time it throws instead, while the intended token (the one
      `GenerateAccessToken` signs) verifies to the document's access payload until it
      expires. */
  lemma AccessTokenAsWrittenDiffers(id: nat, t: TrainerRecord, cfg: TokenConfig, nowMs: nat, nowSeconds: nat)
    requires nowSeconds < IssuedAt(nowMs) + cfg.accessTokenExpiry
    ensures GenerateAccessTokenAsWritten(id, t, cfg, nowMs).Err?
    ensures GenerateAccessTokenAsWritten(id, t, cfg, nowMs) != Ok(GenerateAccessToken(id, t, cfg, nowMs))
    ensures Verify(Some(GenerateAccessToken(id, t, cfg, nowMs)), AccessTokenSecret, nowSeconds)
         == Ok(AccessPayload(id, t))
  {
    AccessTokenClaims(id, t, cfg, nowMs, nowSeconds);
  }

  /** The same for `generateRefreshToken`: as written it throws for every id and time, while
      the intended token verifies to `{ _id }` until it expires. */
  lemma RefreshTokenAsWrittenDiffers(id: nat, cfg: TokenConfig, nowMs: nat, nowSeconds: nat)
    requires nowSeconds < IssuedAt(nowMs) + cfg.refreshTokenExpiry
    ensures GenerateRefreshTokenAsWritten(id, cfg, nowMs).Err?
    ensures GenerateRefreshTokenAsWritten(id, cfg, nowMs) != Ok(GenerateRefreshToken(id, cfg, nowMs))
    ensures Verify(Some(GenerateRefreshToken(id, cfg, nowMs)), RefreshTokenSecret, nowSeconds)
         == Ok(RefreshPayload(id))
  {
    RefreshTokenClaims(id, cfg, nowMs, nowSeconds);
  }

  /** `generateAccessToken` with `jwt` imported, as the other schemas do. */
  function GenerateAccessToken(id: nat, t: TrainerRecord, cfg: TokenConfig, nowMs: nat): string
  {
    SignAt(AccessPayload(id, t), AccessTokenSecret, cfg.accessTokenExpiry, nowMs)
  }

  /** With `jwt` imported, the access token carries `{ _id, email, subjectname }` under the
      access secret until its expiry, and is refused under the refresh secret. */
  lemma AccessTokenClaims(id: nat, t: TrainerRecord, cfg: TokenConfig, nowMs: nat, nowSeconds: nat)
    requires nowSeconds < IssuedAt(nowMs) + cfg.accessTokenExpiry
    ensures Verify(Some(GenerateAccessToken(id, t, cfg, nowMs)), AccessTokenSecret, nowSeconds)
         == Ok(Payload(id, [Claim("email", t.email), Claim("subjectname", t.subjectname)]))
    ensures Verify(Some(GenerateAccessToken(id, t, cfg, nowMs)), RefreshTokenSecret, nowSeconds).Err?
  {
    var exp := IssuedAt(nowMs) + cfg.accessTokenExpiry;
    assert GenerateAccessToken(id, t, cfg, nowMs) == Sign(AccessPayload(id, t), AccessTokenSecret, exp);
    VerifySigned(AccessPayload(id, t), AccessTokenSecret, exp, nowSeconds);
    VerifyOtherSecret(AccessPayload(id, t), AccessTokenSecret, RefreshTokenSecret, exp, nowSeconds);
  }

}
