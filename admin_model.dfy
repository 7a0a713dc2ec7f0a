/** The admin schema: fields, defaults and constraints, the password check and the
    claims of the two tokens. */
module AdminModel {
  import opened Wrappers
  import Bcrypt
  import opened Jwt
  import Store

  /** The only value the `role` enum admits, and its default. */
  const AdminRole: string := "admin"

  /** One admin document. A field the schema defaults (`role`, `isActive`, `isVerified`)
      always has a value: an unset `isVerified` reads back as its default `false`. An
      absent `avatarPublicId` is the empty string. */
  datatype AdminRecord = AdminRecord(
    name: string,
    email: string,
    password: Bcrypt.Hash,
    role: string,
    isActive: bool,
    isVerified: bool,
    avatar: string,
    avatarPublicId: string,
    otp: Option<string>,
    otpExpires: Option<int>,
    refreshToken: Option<string>)

  /** `new Admin({...})` followed by the pre-save hash of the new password: the schema
      defaults fill what the caller leaves out. */
  function NewAdmin(name: string, email: string, password: string, salt: nat, role: Option<string>,
                    avatar: string, avatarPublicId: string, otp: string, otpExpires: int): (a: AdminRecord)
    ensures a.role == (if role.Some? then role.value else AdminRole)
    ensures a.isActive && !a.isVerified && a.refreshToken.None?
    ensures IsPasswordCorrect(a, password)
    ensures forall p :: IsPasswordCorrect(a, p) ==> p == password
    ensures a.otp == Some(otp) && a.otpExpires == Some(otpExpires)
    ensures (a.name, a.email, a.avatar, a.avatarPublicId) == (name, email, avatar, avatarPublicId)
  {
    AdminRecord(name, email, Bcrypt.HashPassword(password, salt),
                if role.Some? then role.value else AdminRole,
                true, false, avatar, avatarPublicId, Some(otp), Some(otpExpires), None)
  }

  /** What `save()` validates: the required `name`, `email` and `avatar`, and the `role`
      enum. The hash always satisfies `password: required`. */
  predicate PassesValidation(a: AdminRecord)
  {
    a.name != "" && a.email != "" && a.avatar != "" && a.role == AdminRole
  }

  /** `otp` and `otpExpires` are set together and cleared together. */
  predicate OtpPaired(a: AdminRecord)
  {
    a.otp.Some? <==> a.otpExpires.Some?
  }

  /** `Admin.findOne({ email })`: the email is matched exactly. */
  function FindByEmail(rs: seq<AdminRecord>, email: string): Option<nat>
  {
    Store.FindFirst(rs, (a: AdminRecord) => a.email == email)
  }

  /** Saving a document without changing its email leaves every email lookup as it was. */
  lemma FindByEmailAfterSave(rs: seq<AdminRecord>, i: nat, a: AdminRecord, email: string)
    requires i < |rs| && a.email == rs[i].email
    ensures FindByEmail(rs[i := a], email) == FindByEmail(rs, email)
  {
    Store.FindFirstUpdate(rs, (a: AdminRecord) => a.email == email, i, a, 0);
  }

  /** `Admin.findOne({ role })`. */
  function FindByRole(rs: seq<AdminRecord>, role: string): Option<nat>
  {
    Store.FindFirst(rs, (a: AdminRecord) => a.role == role)
  }

  /** `isPasswordCorrect(password)`: `bcrypt.compare` against the stored hash. */
  predicate IsPasswordCorrect(a: AdminRecord, password: string)
  {
    Bcrypt.Compare(password, a.password)
  }

  /** The payload of `generateAccessToken`: `{ _id, email, role }`. */
  function AccessPayload(id: nat, a: AdminRecord): Payload
  {
    Payload(id, [Claim("email", a.email), Claim("role", a.role)])
  }

  function GenerateAccessToken(id: nat, a: AdminRecord, cfg: TokenConfig, nowMs: nat): string
  {
    SignAt(AccessPayload(id, a), AccessTokenSecret, cfg.accessTokenExpiry, nowMs)
  }

  /** The access token carries `{ _id, email, role }` under the access secret until its expiry,
      and is refused under the refresh secret. */
  lemma AccessTokenClaims(id: nat, a: AdminRecord, cfg: TokenConfig, nowMs: nat, nowSeconds: nat)
    requires nowSeconds < IssuedAt(nowMs) + cfg.accessTokenExpiry
    ensures Verify(Some(GenerateAccessToken(id, a, cfg, nowMs)), AccessTokenSecret, nowSeconds)
         == Ok(Payload(id, [Claim("email", a.email), Claim("role", a.role)]))
    ensures Verify(Some(GenerateAccessToken(id, a, cfg, nowMs)), RefreshTokenSecret, nowSeconds).Err?
  {
    var exp := IssuedAt(nowMs) + cfg.accessTokenExpiry;
    assert GenerateAccessToken(id, a, cfg, nowMs) == Sign(AccessPayload(id, a), AccessTokenSecret, exp);
    VerifySigned(AccessPayload(id, a), AccessTokenSecret, exp, nowSeconds);
    VerifyOtherSecret(AccessPayload(id, a), AccessTokenSecret, RefreshTokenSecret, exp, nowSeconds);
  }

}
