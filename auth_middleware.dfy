/** `VerifyStudent`, the guard in front of the student routes that need a caller. It takes
    the access token from the `accessToken` cookie, or else from the `Authorization`
    header without its first "Bearer ". It verifies the token under the access secret and
    loads the student the token names. Then it either attaches that student to the request
    and calls `next()`, or calls `next(error)` with an `ApiError`. */
module AuthMiddleware {
  import opened Wrappers
  import opened Text
  import opened Jwt
  import opened Api
  import opened StudentModel
  import opened Effects

  /** What the guard passes on: the student it found, with the fields its query selects
      (`findById(...).select("-password -refreshToken")`), or an error. */
  datatype GuardResult = Next(studentId: nat, student: StudentRecord, projection: Projection) | NextError(error: ApiError)

  /** `req.cookies?.accessToken || req.header("Authorization")?.replace("Bearer ", "")`. */
  function ExtractToken(cookie: Option<string>, authorization: Option<string>): Option<string>
  {
    if cookie.Some? && cookie.value != "" then cookie
    else if authorization.Some? then Some(ReplaceFirst(authorization.value, "Bearer ", ""))
    else None
  }

  /** The outer `catch`: `new ApiError(error.statusCode || 400, error.message || "Invalid
      access token")`. */
  function Rewrap(e: ApiError): (r: ApiError)
    ensures r.statusCode == (if e.statusCode != 0 then e.statusCode else 400)
    ensures r.message == (if e.message != "" then e.message else "Invalid access token")
    ensures !r.success && r.errors == []
  {
    NewApiError(if e.statusCode != 0 then e.statusCode else 400,
                if e.message != "" then e.message else "Invalid access token")
  }

  /** An error the guard throws itself, with a status and a message and no `errors`, comes
      out of the outer `catch` unchanged. */
  lemma RewrapKeepsOwnErrors(statusCode: int, message: string)
    requires statusCode != 0 && message != ""
    ensures Rewrap(NewApiError(statusCode, message)) == NewApiError(statusCode, message)
  {
  }

  /** The guard's decision, in the order of its checks. `now` is the clock in
      milliseconds. */
  function Authenticate(students: seq<StudentRecord>, cookie: Option<string>, authorization: Option<string>,
                        now: nat): (g: GuardResult)
    ensures g.NextError? ==> g.error.statusCode == 400 || g.error.statusCode == 401
    ensures g.Next? ==>
              && g.studentId < |students| && g.student == students[g.studentId]
              && g.projection == NoPasswordNoRefreshToken
              && var v := Verify(ExtractToken(cookie, authorization), AccessTokenSecret, IssuedAt(now));
                 v.Ok? && v.value.id == g.studentId
  {
    var token := ExtractToken(cookie, authorization);
    if token.None? || token.value == "" then
      NextError(Rewrap(NewApiError(401, "Unauthorized request: No token provided")))
    else match Verify(token, AccessTokenSecret, IssuedAt(now))
      case Err(_) => NextError(Rewrap(NewApiError(400, "Invalid access token: Token verification failed")))
      case Ok(p) =>
        if p.id >= |students| then NextError(Rewrap(NewApiError(401, "Invalid access token: Student not found")))
        else Next(p.id, students[p.id], NoPasswordNoRefreshToken)
  }

  /** A cookie that is present and not empty is used, whatever the header says. */
  lemma CookieTakesPrecedence(cookie: string, authorization: Option<string>)
    requires cookie != ""
    ensures ExtractToken(Some(cookie), authorization) == Some(cookie)
  {
  }

  /** `Authorization: Bearer <t>` gives `<t>`. */
  lemma BearerHeader(cookie: Option<string>, t: string)
    requires cookie.None? || cookie.value == ""
    ensures ExtractToken(cookie, Some("Bearer " + t)) == Some(t)
  {
    var h := "Bearer " + t;
    assert h[0..7] == "Bearer ";
    assert IndexOfFrom(h, "Bearer ", 0) == Some(0);
    assert ReplaceFirst(h, "Bearer ", "") == h[..0] + "" + h[7..];
    assert h[..0] + "" + h[7..] == t;
  }

  /** A header with no "Bearer " in it is taken whole, scheme and all. */
  lemma HeaderWithoutBearer(cookie: Option<string>, h: string)
    requires cookie.None? || cookie.value == ""
    requires forall j :: 0 <= j <= |h| ==> !OccursAt(h, "Bearer ", j)
    ensures ExtractToken(cookie, Some(h)) == Some(h)
  {
    assert IndexOfFrom(h, "Bearer ", 0).None?;
  }

  /** Neither a usable cookie nor a header: 401. */
  lemma GuardNoToken(students: seq<StudentRecord>, cookie: Option<string>, now: nat)
    requires cookie.None? || cookie.value == ""
    ensures Authenticate(students, cookie, None, now)
         == NextError(NewApiError(401, "Unauthorized request: No token provided"))
  {
  }

  /** A student's access token, before it expires, lets the request through with that
      student attached, from the cookie or from a Bearer header. */
  lemma GuardAcceptsAccessToken(students: seq<StudentRecord>, id: nat, cfg: TokenConfig, issuedMs: nat,
                                authorization: Option<string>, now: nat)
    requires id < |students|
    requires IssuedAt(now) < IssuedAt(issuedMs) + cfg.accessTokenExpiry
    ensures var t := GenerateAccessToken(id, students[id], cfg, issuedMs);
            && Authenticate(students, Some(t), authorization, now) == Next(id, students[id], NoPasswordNoRefreshToken)
            && Authenticate(students, None, Some("Bearer " + t), now) == Next(id, students[id], NoPasswordNoRefreshToken)
  {
    var t := GenerateAccessToken(id, students[id], cfg, issuedMs);
    AccessTokenClaims(id, students[id], cfg, issuedMs, IssuedAt(now));
    assert t != "";
    BearerHeader(None, t);
  }

  /** A refresh token is not an access token: verification fails, which is a 400. */
  lemma GuardRejectsRefreshToken(students: seq<StudentRecord>, id: nat, cfg: TokenConfig, issuedMs: nat,
                                 authorization: Option<string>, now: nat)
    ensures Authenticate(students, Some(GenerateRefreshToken(id, cfg, issuedMs)), authorization, now)
         == NextError(NewApiError(400, "Invalid access token: Token verification failed"))
  {
    var exp := IssuedAt(issuedMs) + cfg.refreshTokenExpiry;
    assert GenerateRefreshToken(id, cfg, issuedMs) == Sign(RefreshPayload(id), RefreshTokenSecret, exp);
    VerifyOtherSecret(RefreshPayload(id), RefreshTokenSecret, AccessTokenSecret, exp, IssuedAt(now));
  }

  /** An access token past its expiry is refused with 400, not 401. */
  lemma GuardRejectsExpired(students: seq<StudentRecord>, id: nat, s: StudentRecord, cfg: TokenConfig,
                            issuedMs: nat, authorization: Option<string>, now: nat)
    requires IssuedAt(issuedMs) + cfg.accessTokenExpiry <= IssuedAt(now)
    ensures Authenticate(students, Some(GenerateAccessToken(id, s, cfg, issuedMs)), authorization, now)
         == NextError(NewApiError(400, "Invalid access token: Token verification failed"))
  {
    var exp := IssuedAt(issuedMs) + cfg.accessTokenExpiry;
    assert GenerateAccessToken(id, s, cfg, issuedMs) == Sign(AccessPayload(id, s), AccessTokenSecret, exp);
    VerifySigned(AccessPayload(id, s), AccessTokenSecret, exp, IssuedAt(now));
  }

  /** A valid access token naming no stored student: 401. */
  lemma GuardUnknownStudent(students: seq<StudentRecord>, id: nat, s: StudentRecord, cfg: TokenConfig,
                            issuedMs: nat, authorization: Option<string>, now: nat)
    requires id >= |students|
    requires IssuedAt(now) < IssuedAt(issuedMs) + cfg.accessTokenExpiry
    ensures Authenticate(students, Some(GenerateAccessToken(id, s, cfg, issuedMs)), authorization, now)
         == NextError(NewApiError(401, "Invalid access token: Student not found"))
  {
    AccessTokenClaims(id, s, cfg, issuedMs, IssuedAt(now));
    assert GenerateAccessToken(id, s, cfg, issuedMs) != "";
  }

  /** The parts of `req` the guard reads and writes, and the calls it makes to `next`:
      `None` for `next()`, `Some(e)` for `next(e)`. */
  class Request {
    const cookie: Option<string>
    const authorization: Option<string>
    var student: Option<(nat, StudentRecord, Projection)>
    var nextCalls: seq<Option<ApiError>>

    constructor (cookie: Option<string>, authorization: Option<string>)
      ensures this.cookie == cookie && this.authorization == authorization
      ensures student.None? && nextCalls == []
    {
      this.cookie := cookie;
      this.authorization := authorization;
      student := None;
      nextCalls := [];
    }
  }

  /** The middleware itself: `next` is called exactly once, and `req.student` is set
      exactly when it is called without an error, to the student the token names with its
      password and refresh token not selected. */
  method VerifyStudent(req: Request, students: seq<StudentRecord>, now: nat)
    modifies req
    ensures var g := Authenticate(students, req.cookie, req.authorization, now);
            if g.Next? then
              && req.student == Some((g.studentId, g.student, NoPasswordNoRefreshToken))
              && req.nextCalls == old(req.nextCalls) + [None]
            else
              req.student == old(req.student) && req.nextCalls == old(req.nextCalls) + [Some(g.error)]
  {
    var failure: Option<ApiError> := None;
    var token := ExtractToken(req.cookie, req.authorization);
    if token.None? || token.value == "" {
      failure := Some(NewApiError(401, "Unauthorized request: No token provided"));
    } else {
      var verifiedToken := Verify(token, AccessTokenSecret, IssuedAt(now));
      if verifiedToken.Err? {
        failure := Some(NewApiError(400, "Invalid access token: Token verification failed"));
      } else if verifiedToken.value.id >= |students| {
        failure := Some(NewApiError(401, "Invalid access token: Student not found"));
      } else {
        var id := verifiedToken.value.id;
        req.student := Some((id, students[id], NoPasswordNoRefreshToken));
      }
    }
    match failure
    case None =>
      req.nextCalls := req.nextCalls + [None];
    case Some(error) =>
      req.nextCalls := req.nextCalls + [Some(Rewrap(error))];
  }
}

/** A whole student session, from signup to a guarded request. */
module StudentSession {
  import opened Wrappers
  import opened Api
  import opened Otp
  import opened Jwt
  import opened Effects
  import opened StudentModel
  import opened StudentController
  import opened AuthMiddleware

  /** Signing up and confirming the mailed OTP appends one verified document, which an
      email lookup finds and the password opens. */
  method SignUp(s: StudentStore, username: string, email: string, password: string, avatarPath: string,
                upload: Upload, digits: seq<nat>, salt: nat, t0: nat, t1: nat)
    requires s.Valid()
    requires username != "" && email != "" && password != "" && avatarPath != "" && upload.url != ""
    requires FindByEmail(s.records, email).None?
    requires IsDigitSource(digits, DefaultLength)
    requires t1 <= t0 + 900000
    modifies s
    ensures s.Valid()
    ensures |s.records| == |old(s.records)| + 1
    ensures FindByEmail(s.records, email) == Some(|old(s.records)|)
    ensures s.records[|old(s.records)|].isVerified && IsPasswordCorrect(s.records[|old(s.records)|], password)
  {
    var n := |s.records|;
    ghost var r0 := s.records;
    DefaultChallengeNotFalsy(digits, t0);
    var signup, mail := s.RegisterStudent(username, email, password, avatarPath, Some(upload), digits, t0, salt);
    FindByEmailAfterInsert(r0, s.records[n]);
    ghost var r1 := s.records;
    var verified := s.VerifyOtp(email, mail.value.otp, t1);
    FindByEmailAfterSave(r1, n, s.records[n], email);
  }

  /** Logging in with the password and confirming the mailed OTP sets an `accessToken`
      cookie signed for that student, at the time of the confirmation. */
  method LogIn(s: StudentStore, email: string, password: string, digits: seq<nat>, t2: nat, t3: nat)
    returns (accessToken: string)
    requires s.Valid()
    requires email != "" && password != ""
    requires FindByEmail(s.records, email).Some? && IsPasswordCorrect(s.records[FindByEmail(s.records, email).value], password)
    requires IsDigitSource(digits, DefaultLength)
    requires t3 <= t2 + 900000
    modifies s
    ensures s.Valid()
    ensures |s.records| == |old(s.records)| && FindByEmail(s.records, email) == FindByEmail(old(s.records), email)
    ensures var i := FindByEmail(old(s.records), email).value;
            accessToken == GenerateAccessToken(i, s.records[i], s.cfg, t3)
  {
    var i := FindByEmail(s.records, email).value;
    DefaultChallengeNotFalsy(digits, t2);
    ghost var r2 := s.records;
    var login, mail := s.LoginStudent(email, password, digits, t2);
    FindByEmailAfterSave(r2, i, s.records[i], email);
    var session := s.VerifyLoginOtp(email, mail.value.otp, t3);
    accessToken := session.cookies.accessToken;
    FindByEmailAfterSave(r2, i, s.records[i], email);
  }

  /** A request carrying that cookie passes the guard as that student. */
  method LogInAndAuthenticate(s: StudentStore, email: string, password: string, digits: seq<nat>,
                              t2: nat, t3: nat, t4: nat)
    returns (req: Request)
    requires s.Valid()
    requires email != "" && password != ""
    requires FindByEmail(s.records, email).Some? && IsPasswordCorrect(s.records[FindByEmail(s.records, email).value], password)
    requires IsDigitSource(digits, DefaultLength)
    requires t3 <= t2 + 900000
    requires IssuedAt(t4) < IssuedAt(t3) + s.cfg.accessTokenExpiry
    modifies s
    ensures s.Valid()
    ensures fresh(req)
    ensures |s.records| == |old(s.records)| && FindByEmail(s.records, email) == FindByEmail(old(s.records), email)
    ensures var i := FindByEmail(old(s.records), email).value;
            req.nextCalls == [None] && req.student == Some((i, s.records[i], NoPasswordNoRefreshToken))
  {
    var accessToken := LogIn(s, email, password, digits, t2, t3);
    var i := FindByEmail(s.records, email).value;
    GuardAcceptsAccessToken(s.records, i, s.cfg, t3, None, t4);
    req := new Request(Some(accessToken), None);
    VerifyStudent(req, s.records, t4);
  }

  /** A new student: signs up. Confirms the mailed OTP. Logs in with the password. Confirms
      the second mailed OTP. Then sends a request with the `accessToken` cookie that the
      last reply set. The guard lets that request through as the new student, the
      document appended at signup. */
  method SignUpAndAuthenticate(s: StudentStore, username: string, email: string, password: string,
                               avatarPath: string, upload: Upload, signupDigits: seq<nat>, loginDigits: seq<nat>,
                               salt: nat, t0: nat, t1: nat, t2: nat, t3: nat, t4: nat)
    returns (req: Request)
    requires s.Valid()
    requires username != "" && email != "" && password != "" && avatarPath != "" && upload.url != ""
    requires FindByEmail(s.records, email).None?
    requires IsDigitSource(signupDigits, DefaultLength) && IsDigitSource(loginDigits, DefaultLength)
    requires t1 <= t0 + 900000 && t3 <= t2 + 900000
    requires IssuedAt(t4) < IssuedAt(t3) + s.cfg.accessTokenExpiry
    modifies s
    ensures s.Valid()
    ensures fresh(req)
    ensures |s.records| == |old(s.records)| + 1 && s.records[|old(s.records)|].email == email
    ensures req.nextCalls == [None] && req.student == Some((|old(s.records)|, s.records[|old(s.records)|], NoPasswordNoRefreshToken))
  {
    SignUp(s, username, email, password, avatarPath, upload, signupDigits, salt, t0, t1);
    req := LogInAndAuthenticate(s, email, password, loginDigits, t2, t3, t4);
  }
}
