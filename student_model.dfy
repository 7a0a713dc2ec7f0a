/** The student document the student controller and the access-token guard work on.
    The student schema file is not part of this model; the record below is inferred from
    the controller, which reads and writes the same fields as the admin controller, with
    `username` in place of `name` and no `role`. */
module StudentModel {
  import opened Wrappers
  import Bcrypt
  import opened Jwt
  import Store

  /** One student document. `isVerified` defaults to `false`; an absent `avatarPublicId`
      is the empty string; a `refreshToken` set to `null` is `None`. */
  datatype StudentRecord = StudentRecord(
    username: string,
    email: string,
    password: Bcrypt.Hash,
    isVerified: bool,
    avatar: string,
    avatarPublicId: string,
    otp: Option<string>,
    otpExpires: Option<int>,
    refreshToken: Option<string>)

  /** `new Student({...})` followed by the pre-save hash of the new password. */
  function NewStudent(username: string, email: string, password: string, salt: nat,
                      avatar: string, avatarPublicId: string, otp: string, otpExpires: int): (s: StudentRecord)
    ensures !s.isVerified && s.refreshToken.None?
    ensures IsPasswordCorrect(s, password)
    ensures forall p :: IsPasswordCorrect(s, p) ==> p == password
    ensures s.otp == Some(otp) && s.otpExpires == Some(otpExpires)
    ensures (s.username, s.email, s.avatar, s.avatarPublicId) == (username, email, avatar, avatarPublicId)
  {
    StudentRecord(username, email, Bcrypt.HashPassword(password, salt), false,
                  avatar, avatarPublicId, Some(otp), Some(otpExpires), None)
  }

  /** What `save()` validates, taken to be the fields the controller always supplies:
      `username`, `email` and the uploaded `avatar` URL. */
  predicate PassesValidation(s: StudentRecord)
  {
    s.username != "" && s.email != "" && s.avatar != ""
  }

  predicate OtpPaired(s: StudentRecord)
  {
    s.otp.Some? <==> s.otpExpires.Some?
  }

  /** `Student.findOne({ email })`. */
  function FindByEmail(rs: seq<StudentRecord>, email: string): Option<nat>
  {
    Store.FindFirst(rs, (s: StudentRecord) => s.email == email)
  }

  /** Saving a document without changing its email leaves every email lookup as it was. */
  lemma FindByEmailAfterSave(rs: seq<StudentRecord>, i: nat, s: StudentRecord, email: string)
    requires i < |rs| && s.email == rs[i].email
    ensures FindByEmail(rs[i := s], email) == FindByEmail(rs, email)
  {
    Store.FindFirstUpdate(rs, (s: StudentRecord) => s.email == email, i, s, 0);
  }

  /** Inserting a document with a new email makes the lookup find it, at the end. */
  lemma FindByEmailAfterInsert(rs: seq<StudentRecord>, s: StudentRecord)
    requires FindByEmail(rs, s.email).None?
    ensures FindByEmail(rs + [s], s.email) == Some(|rs|)
  {
    Store.FindFirstAppended(rs, (r: StudentRecord) => r.email == s.email, s);
  }

  predicate IsPasswordCorrect(s: StudentRecord, password: string)
  {
    Bcrypt.Compare(password, s.password)
  }

  /** The access-token payload, taken to be `{ _id, email, username }`. */
  function AccessPayload(id: nat, s: StudentRecord): Payload
  {
    Payload(id, [Claim("email", s.email), Claim("username", s.username)])
  }

  function GenerateAccessToken(id: nat, s: StudentRecord, cfg: TokenConfig, nowMs: nat): string
  {
    SignAt(AccessPayload(id, s), AccessTokenSecret, cfg.accessTokenExpiry, nowMs)
  }

  /** The access token verifies under the access secret, carrying the student's id, until
      its expiry, and is refused under the refresh secret. */
  lemma AccessTokenClaims(id: nat, s: StudentRecord, cfg: TokenConfig, nowMs: nat, nowSeconds: nat)
    requires nowSeconds < IssuedAt(nowMs) + cfg.accessTokenExpiry
    ensures Verify(Some(GenerateAccessToken(id, s, cfg, nowMs)), AccessTokenSecret, nowSeconds)
         == Ok(Payload(id, [Claim("email", s.email), Claim("username", s.username)]))
    ensures Verify(Some(GenerateAccessToken(id, s, cfg, nowMs)), RefreshTokenSecret, nowSeconds).Err?
  {
    var exp := IssuedAt(nowMs) + cfg.accessTokenExpiry;
    assert GenerateAccessToken(id, s, cfg, nowMs) == Sign(AccessPayload(id, s), AccessTokenSecret, exp);
    VerifySigned(AccessPayload(id, s), AccessTokenSecret, exp, nowSeconds);
    VerifyOtherSecret(AccessPayload(id, s), AccessTokenSecret, RefreshTokenSecret, exp, nowSeconds);
  }

}
