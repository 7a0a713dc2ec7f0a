/** The student controller: the eleven handlers of the OTP-gated student account
    lifecycle, as methods on the student collection. They follow the admin handlers with
    these differences: the conflict check is on `email`; a failed upload is a 400;
    `verifyLoginOtp` does not look at `isVerified`; logout checks that the student exists
    and sets `refreshToken` to `null`. */
module StudentController {
  import opened Wrappers
  import opened Api
  import opened Otp
  import opened Jwt
  import opened Effects
  import Bcrypt
  import opened StudentModel

  /** The `data` of the replies this controller sends. */
  datatype StudentData =
    | EmailOnly(email: string)                                              // `{ email }`
    | StudentDocument(id: nat, student: StudentRecord, projection: Projection) // a document, less what `select` drops
    | TokenPair(accessToken: Option<string>, refreshToken: Option<string>)   // `{ accessToken, refreshToken }`
    | NoData                                                                // `{}`

  /** What every save keeps: each document passes validation and has its OTP fields set
      or cleared together, and no two documents share an email. */
  ghost predicate ValidStudents(rs: seq<StudentRecord>)
  {
    && (forall i :: 0 <= i < |rs| ==> PassesValidation(rs[i]) && OtpPaired(rs[i]))
    && (forall i, j :: 0 <= i < j < |rs| ==> rs[i].email != rs[j].email)
  }

  class StudentStore {
    var records: seq<StudentRecord>
    const cfg: TokenConfig

    ghost predicate Valid()
      reads this
    {
      ValidStudents(records)
    }

    constructor (cfg: TokenConfig)
      ensures Valid() && records == [] && this.cfg == cfg
    {
      records := [];
      this.cfg := cfg;
    }

    /** `generateAccessAndRefreshTokens(studentId)`. */
    method GenerateAccessAndRefreshTokens(id: nat, now: nat) returns (r: Result<(string, string), ApiError>)
      requires Valid()
      modifies this
      ensures Valid()
      ensures id >= |old(records)| ==>
                r == Err(NewApiError(500, "Internal server error while generating access and refresh token"))
                && records == old(records)
      ensures id < |old(records)| ==>
                var access := GenerateAccessToken(id, old(records)[id], cfg, now);
                var refresh := GenerateRefreshToken(id, cfg, now);
                r == Ok((access, refresh))
                && records == old(records)[id := old(records)[id].(refreshToken := Some(refresh))]
    {
      if id >= |records| {
        r := Err(NewApiError(500, "Internal server error while generating access and refresh token"));
        return;
      }
      var student := records[id];
      var accessToken := GenerateAccessToken(id, student, cfg, now);
      var refreshToken := GenerateRefreshToken(id, cfg, now);
      student := student.(refreshToken := Some(refreshToken));
      records := records[id := student];
      r := Ok((accessToken, refreshToken));
    }

    /** `registerStudent`: a new, unverified document holding the mailed OTP. */
    method RegisterStudent(username: string, email: string, password: string,
                           avatarPath: string, upload: Option<Upload>, digits: seq<nat>, now: nat, salt: nat)
      returns (o: Outcome<StudentData>, mail: Option<Mail>)
      requires Valid()
      requires IsDigitSource(digits, DefaultLength)
      modifies this
      ensures Valid()
      ensures o.Respond? ==> o.cookies == NoCookies && o.response.data == EmailOnly(email)
      ensures var rs := old(records);
              var c := GenerateOtp(digits, now);
              if username == "" || email == "" || password == "" then
                o == Fail(400, "All fields are required") && mail.None? && records == rs
              else if FindByEmail(rs, email).Some? then
                o == Fail(409, "Student already exists") && mail.None? && records == rs
              else if avatarPath == "" then
                o == Fail(400, "Avatar image is required") && mail.None? && records == rs
              else if upload.None? then
                o == Fail(400, "Failed to upload avatar image") && mail.None? && records == rs
              else if IsFalsy(c) then
                o == Fail(500, "Internal server error") && mail.None? && records == rs
              else
                var s := NewStudent(username, email, password, salt, upload.value.url,
                                    upload.value.publicId, c.otp, c.otpExpires);
                mail == Some(Mail(email, c.otp))
                && if !PassesValidation(s) then
                     o == Throw(ValidationError("Student validation failed")) && records == rs
                   else
                     o == Reply(201, EmailOnly(email), "OTP sent to your email") && records == rs + [s]
    {
      mail := None;
      if username == "" || email == "" || password == "" {
        o := Fail(400, "All fields are required");
        return;
      }
      if FindByEmail(records, email).Some? {
        o := Fail(409, "Student already exists");
        return;
      }
      if avatarPath == "" {
        o := Fail(400, "Avatar image is required");
        return;
      }
      if upload.None? {
        o := Fail(400, "Failed to upload avatar image");
        return;
      }
      var challenge := GenerateOtp(digits, now);
      if IsFalsy(challenge) {
        o := Fail(500, "Internal server error");
        return;
      }
      mail := Some(Mail(email, challenge.otp));
      var student := NewStudent(username, email, password, salt, upload.value.url,
                                upload.value.publicId, challenge.otp, challenge.otpExpires);
      if !PassesValidation(student) {
        o := Throw(ValidationError("Student validation failed"));
        return;
      }
      records := records + [student];
      o := Reply(201, EmailOnly(email), "OTP sent to your email");
    }

    /** `verifyOtp`: the signup OTP, for an account not yet verified. */
    method VerifyOtp(email: string, otp: string, now: nat) returns (o: Outcome<StudentData>)
      requires Valid()
      modifies this
      ensures Valid()
      ensures var rs := old(records);
              var found := FindByEmail(rs, email);
              if email == "" || otp == "" then
                o == Fail(400, "Email and OTP are required") && records == rs
              else if found.None? || rs[found.value].isVerified then
                o == Fail(400, "Invalid or already verified student") && records == rs
              else if OtpRejected(rs[found.value].otp, rs[found.value].otpExpires, otp, now) then
                o == Fail(400, "Invalid or expired OTP") && records == rs
              else
                var i := found.value;
                var s := rs[i].(isVerified := true, otp := None, otpExpires := None);
                records == rs[i := s]
                && o == Reply(200, StudentDocument(i, s, NoPasswordNoRefreshToken), "Student verified and registered successfully")
    {
      if email == "" || otp == "" {
        o := Fail(400, "Email and OTP are required");
        return;
      }
      var found := FindByEmail(records, email);
      if found.None? || records[found.value].isVerified {
        o := Fail(400, "Invalid or already verified student");
        return;
      }
      var i := found.value;
      var student := records[i];
      if OtpRejected(student.otp, student.otpExpires, otp, now) {
        o := Fail(400, "Invalid or expired OTP");
        return;
      }
      student := student.(isVerified := true);
      student := student.(otp := None);
      student := student.(otpExpires := None);
      records := records[i := student];
      o := Reply(200, StudentDocument(i, records[i], NoPasswordNoRefreshToken), "Student verified and registered successfully");
    }

    /** `loginStudent`: a correct password earns a fresh OTP and clears `isVerified`; an
        unknown email and a wrong password give the same reply. */
    method LoginStudent(email: string, password: string, digits: seq<nat>, now: nat)
      returns (o: Outcome<StudentData>, mail: Option<Mail>)
      requires Valid()
      requires IsDigitSource(digits, DefaultLength)
      modifies this
      ensures Valid()
      ensures o.Respond? ==> o.cookies == NoCookies
      ensures var rs := old(records);
              var found := FindByEmail(rs, email);
              var c := GenerateOtp(digits, now);
              if email == "" || password == "" then
                o == Fail(400, "Email and password are required") && mail.None? && records == rs
              else if found.None? || !IsPasswordCorrect(rs[found.value], password) then
                o == Fail(401, "Invalid email or password") && mail.None? && records == rs
              else if IsFalsy(c) then
                o == Fail(500, "Internal server error") && mail.None? && records == rs
              else
                var i := found.value;
                mail == Some(Mail(email, c.otp))
                && records == rs[i := rs[i].(otp := Some(c.otp), otpExpires := Some(c.otpExpires), isVerified := false)]
                && o == Reply(200, EmailOnly(email), "OTP sent to your email for verification")
    {
      mail := None;
      if email == "" || password == "" {
        o := Fail(400, "Email and password are required");
        return;
      }
      var found := FindByEmail(records, email);
      if found.None? {
        o := Fail(401, "Invalid email or password");
        return;
      }
      var i := found.value;
      var student := records[i];
      if !IsPasswordCorrect(student, password) {
        o := Fail(401, "Invalid email or password");
        return;
      }
      var challenge := GenerateOtp(digits, now);
      if IsFalsy(challenge) {
        o := Fail(500, "Internal server error");
        return;
      }
      mail := Some(Mail(email, challenge.otp));
      student := student.(otp := Some(challenge.otp));
      student := student.(otpExpires := Some(challenge.otpExpires));
      student := student.(isVerified := false);
      records := records[i := student];
      o := Reply(200, EmailOnly(email), "OTP sent to your email for verification");
    }

    /** `verifyLoginOtp`: no `isVerified` check here, only the OTP; on success both tokens
        are issued and the refresh token replaces the stored one. */
    method VerifyLoginOtp(email: string, otp: string, now: nat) returns (o: Outcome<StudentData>)
      requires Valid()
      modifies this
      ensures Valid()
      ensures var rs := old(records);
              var found := FindByEmail(rs, email);
              if email == "" || otp == "" then
                o == Fail(400, "Email and OTP are required") && records == rs
              else if found.None? then
                o == Fail(400, "Invalid student") && records == rs
              else if OtpRejected(rs[found.value].otp, rs[found.value].otpExpires, otp, now) then
                o == Fail(400, "Invalid or expired OTP") && records == rs
              else
                var i := found.value;
                var s := rs[i].(isVerified := true, otp := None, otpExpires := None);
                var access := GenerateAccessToken(i, s, cfg, now);
                var refresh := GenerateRefreshToken(i, cfg, now);
                records == rs[i := s.(refreshToken := Some(refresh))]
                && o == Reply(200, TokenPair(Some(access), Some(refresh)), "Student verified and logged in successfully",
                              SetTokenCookies(access, refresh))
    {
      if email == "" || otp == "" {
        o := Fail(400, "Email and OTP are required");
        return;
      }
      var found := FindByEmail(records, email);
      if found.None? {
        o := Fail(400, "Invalid student");
        return;
      }
      var i := found.value;
      var student := records[i];
      if OtpRejected(student.otp, student.otpExpires, otp, now) {
        o := Fail(400, "Invalid or expired OTP");
        return;
      }
      student := student.(isVerified := true);
      student := student.(otp := None);
      student := student.(otpExpires := None);
      records := records[i := student];
      var tokens := GenerateAccessAndRefreshTokens(i, now);
      match tokens
      case Err(e) =>
        o := Reject(e);
      case Ok((accessToken, refreshToken)) =>
        o := Reply(200, TokenPair(Some(accessToken), Some(refreshToken)), "Student verified and logged in successfully",
                   SetTokenCookies(accessToken, refreshToken));
    }

    /** `logoutStudent` for the caller the guard attached: `refreshToken` becomes `null`
        and `isVerified` false, and nothing else changes. */
    method LogoutStudent(caller: Option<nat>) returns (o: Outcome<StudentData>)
      requires Valid()
      modifies this
      ensures Valid()
      ensures var rs := old(records);
              if caller.None? then
                o == Throw(TypeError(NoCaller)) && records == rs
              else if caller.value >= |rs| then
                o == Fail(400, "Student not found") && records == rs
              else
                var id := caller.value;
                records == rs[id := rs[id].(refreshToken := None, isVerified := false)]
                && o == Reply(200, NoData, "Student logged out successfully", ClearTokenCookies)
    {
      if caller.None? {
        o := Throw(TypeError(NoCaller));
        return;
      }
      var id := caller.value;
      if id >= |records| {
        o := Fail(400, "Student not found");
        return;
      }
      var student := records[id];
      student := student.(refreshToken := None);
      student := student.(isVerified := false);
      records := records[id := student];
      o := Reply(200, NoData, "Student logged out successfully", ClearTokenCookies);
    }

    /** `renewRefreshToken`, with the same un-awaited rotation as the admin handler: the
        stored token is replaced but the reply carries neither token. Every failure is a
        400. */
    method RenewRefreshToken(cookieToken: Option<string>, bodyToken: Option<string>, now: nat)
      returns (o: Outcome<StudentData>)
      requires Valid()
      modifies this
      ensures Valid()
      ensures o.Reject? ==> o.error.statusCode == 400
      ensures var rs := old(records);
              var token := FirstTruthy(cookieToken, bodyToken);
              var v := Verify(token, RefreshTokenSecret, IssuedAt(now));
              if v.Err? then
                o == Fail(400, v.error) && records == rs
              else if v.value.id >= |rs| then
                o == Fail(400, "Inavild refresh Token") && records == rs
              else if token != rs[v.value.id].refreshToken then
                o == Fail(400, "Token doesnot match") && records == rs
              else
                var id := v.value.id;
                records == rs[id := rs[id].(refreshToken := Some(GenerateRefreshToken(id, cfg, now)))]
                && o == Reply(200, TokenPair(None, None), "Refresh token updated", SetTokenCookies("undefined", "undefined"))
    {
      var token := FirstTruthy(cookieToken, bodyToken);
      var decoded := Verify(token, RefreshTokenSecret, IssuedAt(now));
      if decoded.Err? {
        o := Fail(400, decoded.error);
        return;
      }
      var id := decoded.value.id;
      if id >= |records| {
        o := Fail(400, "Inavild refresh Token");
        return;
      }
      if token != records[id].refreshToken {
        o := Fail(400, "Token doesnot match");
        return;
      }
      var _ := GenerateAccessAndRefreshTokens(id, now);
      o := Reply(200, TokenPair(None, None), "Refresh token updated", SetTokenCookies("undefined", "undefined"));
    }

    /** `forgotPassword`: a fresh OTP; `isVerified` is left as it was. */
    method ForgotPassword(email: string, digits: seq<nat>, now: nat) returns (o: Outcome<StudentData>, mail: Option<Mail>)
      requires Valid()
      requires IsDigitSource(digits, DefaultLength)
      modifies this
      ensures Valid()
      ensures var rs := old(records);
              var found := FindByEmail(rs, email);
              var c := GenerateOtp(digits, now);
              if email == "" then
                o == Fail(400, "Please enter the email") && mail.None? && records == rs
              else if found.None? then
                o == Fail(400, "Invalid Email ID") && mail.None? && records == rs
              else if IsFalsy(c) then
                o == Fail(500, "Internal server error") && mail.None? && records == rs
              else
                var i := found.value;
                mail == Some(Mail(email, c.otp))
                && records == rs[i := rs[i].(otp := Some(c.otp), otpExpires := Some(c.otpExpires))]
                && o == Reply(200, EmailOnly(email), "OTP sent to your email for password reset")
    {
      mail := None;
      if email == "" {
        o := Fail(400, "Please enter the email");
        return;
      }
      var found := FindByEmail(records, email);
      if found.None? {
        o := Fail(400, "Invalid Email ID");
        return;
      }
      var i := found.value;
      var challenge := GenerateOtp(digits, now);
      if IsFalsy(challenge) {
        o := Fail(500, "Internal server error");
        return;
      }
      mail := Some(Mail(email, challenge.otp));
      var student := records[i];
      student := student.(otp := Some(challenge.otp));
      student := student.(otpExpires := Some(challenge.otpExpires));
      records := records[i := student];
      o := Reply(200, EmailOnly(email), "OTP sent to your email for password reset");
    }

    /** `verifyForgotPasswordOtp`: an accepted reset OTP marks the account verified,
        whatever it was before. */
    method VerifyForgotPasswordOtp(email: string, otp: string, now: nat) returns (o: Outcome<StudentData>)
      requires Valid()
      modifies this
      ensures Valid()
      ensures var rs := old(records);
              var found := FindByEmail(rs, email);
              if email == "" || otp == "" then
                o == Fail(400, "Email and OTP are required") && records == rs
              else if found.None? then
                o == Fail(400, "Invalid student") && records == rs
              else if OtpRejected(rs[found.value].otp, rs[found.value].otpExpires, otp, now) then
                o == Fail(400, "Invalid or expired OTP") && records == rs
              else
                var i := found.value;
                records == rs[i := rs[i].(isVerified := true, otp := None, otpExpires := None)]
                && o == Reply(200, EmailOnly(email), "OTP verified successfully, you can now reset your password")
    {
      if email == "" || otp == "" {
        o := Fail(400, "Email and OTP are required");
        return;
      }
      var found := FindByEmail(records, email);
      if found.None? {
        o := Fail(400, "Invalid student");
        return;
      }
      var i := found.value;
      var student := records[i];
      if OtpRejected(student.otp, student.otpExpires, otp, now) {
        o := Fail(400, "Invalid or expired OTP");
        return;
      }
      student := student.(isVerified := true);
      student := student.(otp := None);
      student := student.(otpExpires := None);
      records := records[i := student];
      o := Reply(200, EmailOnly(email), "OTP verified successfully, you can now reset your password");
    }

    /** `resetPassword`: succeeds exactly for an existing, verified account. */
    method ResetPassword(email: string, newPassword: string, salt: nat) returns (o: Outcome<StudentData>)
      requires Valid()
      modifies this
      ensures Valid()
      ensures var rs := old(records);
              var found := FindByEmail(rs, email);
              if email == "" || newPassword == "" then
                o == Fail(400, "Email and new password are required") && records == rs
              else if found.None? || !rs[found.value].isVerified then
                o == Fail(400, "Invalid request or OTP not verified") && records == rs
              else
                var i := found.value;
                records == rs[i := rs[i].(password := Bcrypt.HashPassword(newPassword, salt), isVerified := false)]
                && (forall p :: IsPasswordCorrect(records[i], p) <==> p == newPassword)
                && o == Reply(200, NoData, "Password reset successfully")
    {
      if email == "" || newPassword == "" {
        o := Fail(400, "Email and new password are required");
        return;
      }
      var found := FindByEmail(records, email);
      if found.None? || !records[found.value].isVerified {
        o := Fail(400, "Invalid request or OTP not verified");
        return;
      }
      var i := found.value;
      var student := records[i];
      student := student.(password := Bcrypt.HashIfModified(student.password, Some(newPassword), salt));
      student := student.(isVerified := false);
      records := records[i := student];
      o := Reply(200, NoData, "Password reset successfully");
    }

    /** `changeCurrentPassword` for the caller the guard attached. */
    method ChangeCurrentPassword(caller: Option<nat>, oldPassword: string, newPassword: string, salt: nat)
      returns (o: Outcome<StudentData>)
      requires Valid()
      modifies this
      ensures Valid()
      ensures var rs := old(records);
              if oldPassword == "" || newPassword == "" then
                o == Fail(400, "Please provide old and new password") && records == rs
              else if caller.None? then
                o == Throw(TypeError(NoCaller)) && records == rs
              else if caller.value >= |rs| then
                o == Fail(400, "Student not found, please provide password correctly") && records == rs
              else if !IsPasswordCorrect(rs[caller.value], oldPassword) then
                o == Fail(401, "Invalid old password") && records == rs
              else
                var id := caller.value;
                records == rs[id := rs[id].(password := Bcrypt.HashPassword(newPassword, salt))]
                && (forall p :: IsPasswordCorrect(records[id], p) <==> p == newPassword)
                && o == Reply(200, NoData, "Password changed successfully")
    {
      if oldPassword == "" || newPassword == "" {
        o := Fail(400, "Please provide old and new password");
        return;
      }
      if caller.None? {
        o := Throw(TypeError(NoCaller));
        return;
      }
      var id := caller.value;
      if id >= |records| {
        o := Fail(400, "Student not found, please provide password correctly");
        return;
      }
      var student := records[id];
      if !IsPasswordCorrect(student, oldPassword) {
        o := Fail(401, "Invalid old password");
        return;
      }
      student := student.(password := Bcrypt.HashIfModified(student.password, Some(newPassword), salt));
      records := records[id := student];
      o := Reply(200, NoData, "Password changed successfully");
    }

    /** `updateStudentAvatar`; as in the admin controller `cloudinary` is not imported,
        so a document with an `avatarPublicId` cannot have its avatar replaced. */
    method UpdateStudentAvatar(file: Option<string>, caller: Option<nat>, upload: Option<Upload>)
      returns (o: Outcome<StudentData>)
      requires Valid()
      modifies this
      ensures Valid()
      ensures var rs := old(records);
              if file.None? then
                o == Throw(TypeError(NoFile)) && records == rs
              else if file.value == "" then
                o == Fail(400, "Please provide the avatar") && records == rs
              else if caller.None? then
                o == Throw(TypeError(NoCaller)) && records == rs
              else if caller.value >= |rs| then
                o == Fail(400, "Student not found") && records == rs
              else if rs[caller.value].avatarPublicId != "" then
                o == Throw(ReferenceError("cloudinary is not defined")) && records == rs
              else if upload.None? || upload.value.url == "" || upload.value.publicId == "" then
                o == Fail(400, "Error while uploading avatar") && records == rs
              else
                var id := caller.value;
                var s := rs[id].(avatar := upload.value.url, avatarPublicId := upload.value.publicId);
                records == rs[id := s]
                && o == Reply(200, StudentDocument(id, s, AllFields), "Avatar uploaded successfully")
    {
      if file.None? {
        o := Throw(TypeError(NoFile));
        return;
      }
      var avatarLocalPath := file.value;
      if avatarLocalPath == "" {
        o := Fail(400, "Please provide the avatar");
        return;
      }
      if caller.None? {
        o := Throw(TypeError(NoCaller));
        return;
      }
      var id := caller.value;
      if id >= |records| {
        o := Fail(400, "Student not found");
        return;
      }
      var student := records[id];
      if student.avatarPublicId != "" {
        o := Throw(ReferenceError("cloudinary is not defined"));
        return;
      }
      if upload.None? || upload.value.url == "" || upload.value.publicId == "" {
        o := Fail(400, "Error while uploading avatar");
        return;
      }
      student := student.(avatar := upload.value.url);
      student := student.(avatarPublicId := upload.value.publicId);
      records := records[id := student];
      o := Reply(200, StudentDocument(id, student, AllFields), "Avatar uploaded successfully");
    }
  }
}

/** Request sequences against the student collection. */
module StudentFlows {
  import opened Wrappers
  import opened Effects
  import opened Api
  import opened Otp
  import opened Jwt
  import opened StudentModel
  import opened StudentController

  /** Without the `isVerified` check, what stops a replayed login OTP is that the first
      success cleared it. */
  method VerifyLoginOtpTwice(s: StudentStore, email: string, otp: string, now: nat, later: nat)
    returns (first: Outcome<StudentData>, second: Outcome<StudentData>)
    requires s.Valid()
    modifies s
    ensures s.Valid()
    ensures first.Respond? ==> second == Fail(400, "Invalid or expired OTP")
  {
    ghost var before := s.records;
    first := s.VerifyLoginOtp(email, otp, now);
    if first.Respond? {
      var i := FindByEmail(before, email).value;
      FindByEmailAfterSave(before, i, s.records[i], email);
    }
    second := s.VerifyLoginOtp(email, otp, later);
  }

  /** `resetPassword` asks for no OTP of an account that has just logged in: its
      `isVerified` is set, and the email alone replaces the password. */
  method ResetWhileLoggedIn(s: StudentStore, email: string, otp: string, now: nat, newPassword: string, salt: nat)
    returns (login: Outcome<StudentData>, reset: Outcome<StudentData>)
    requires s.Valid()
    requires newPassword != ""
    modifies s
    ensures s.Valid()
    ensures login.Respond? ==> reset == Reply(200, NoData, "Password reset successfully")
    ensures login.Respond? ==>
              && FindByEmail(s.records, email).Some?
              && forall p :: IsPasswordCorrect(s.records[FindByEmail(s.records, email).value], p) <==> p == newPassword
  {
    ghost var before := s.records;
    login := s.VerifyLoginOtp(email, otp, now);
    if login.Respond? {
      var i := FindByEmail(before, email).value;
      FindByEmailAfterSave(before, i, s.records[i], email);
      ghost var middle := s.records;
      reset := s.ResetPassword(email, newPassword, salt);
      FindByEmailAfterSave(middle, i, s.records[i], email);
    } else {
      reset := s.ResetPassword(email, newPassword, salt);
    }
  }

  /** A reset OTP verified while the account is logged in leaves it verified with the
      session still stored: `forgotPassword` keeps `isVerified`, and only a password
      reset or a logout clears it. */
  method ForgotWhileLoggedIn(s: StudentStore, email: string, digits: seq<nat>, now: nat)
    returns (forgot: Outcome<StudentData>, mail: Option<Mail>)
    requires s.Valid()
    requires IsDigitSource(digits, DefaultLength)
    requires FindByEmail(s.records, email).Some? && s.records[FindByEmail(s.records, email).value].isVerified
    modifies s
    ensures s.Valid()
    ensures |s.records| == |old(s.records)|
    ensures forgot.Respond? ==>
              var i := FindByEmail(old(s.records), email).value;
              s.records[i].isVerified && s.records[i].otp.Some?
              && s.records[i].refreshToken == old(s.records)[i].refreshToken
  {
    forgot, mail := s.ForgotPassword(email, digits, now);
  }

  /** Logout revokes the session: the refresh token of the student who logged out is
      refused afterwards. */
  method LogoutThenRenew(s: StudentStore, id: nat, cookieToken: Option<string>, bodyToken: Option<string>, now: nat)
    returns (logout: Outcome<StudentData>, renew: Outcome<StudentData>)
    requires s.Valid()
    requires id < |s.records|
    modifies s
    ensures s.Valid()
    ensures logout == Reply(200, NoData, "Student logged out successfully", ClearTokenCookies)
    ensures var v := Verify(FirstTruthy(cookieToken, bodyToken), RefreshTokenSecret, IssuedAt(now));
            v.Ok? && v.value.id == id ==> renew == Fail(400, "Token doesnot match")
  {
    logout := s.LogoutStudent(Some(id));
    renew := s.RenewRefreshToken(cookieToken, bodyToken, now);
  }
}
