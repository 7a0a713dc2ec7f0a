/** The admin controller: the twelve handlers of the OTP-gated admin account lifecycle,
    as methods on the admin collection. Each method checks the handler's guards in the
    handler's order, each failing with its own status and message, then assigns fields
    of one document and saves it. */
module AdminController {
  import opened Wrappers
  import opened Api
  import opened Otp
  import opened Jwt
  import opened Effects
  import Bcrypt
  import Store
  import opened AdminModel

  /** The `data` of the replies this controller sends. */
  datatype AdminData =
    | EmailOnly(email: string)                                          // `{ email }`
    | AdminDocument(id: nat, admin: AdminRecord, projection: Projection) // a document, less what `select` drops
    | TokenPair(accessToken: Option<string>, refreshToken: Option<string>) // `{ accessToken, refreshToken }`
    | NoData                                                            // `{}`

  /** What every save keeps: each document passes the schema's validation, has its OTP
      fields set or cleared together, and no two share a `role`. As the only role the
      enum admits is "admin", the collection holds at most one admin. */
  ghost predicate ValidAdmins(rs: seq<AdminRecord>)
  {
    && (forall i :: 0 <= i < |rs| ==> PassesValidation(rs[i]) && OtpPaired(rs[i]))
    && (forall i, j :: 0 <= i < j < |rs| ==> rs[i].role != rs[j].role)
  }

  /** The role conflict check and the role enum together allow a single admin. */
  lemma AtMostOneAdmin(rs: seq<AdminRecord>)
    requires ValidAdmins(rs)
    ensures |rs| <= 1
  {
    assert |rs| >= 2 ==> rs[0].role == AdminRole && rs[1].role == AdminRole;
  }

  /** Saving a document that still validates, keeps its OTP fields paired and keeps its
      role keeps the collection valid. */
  lemma SaveKeepsValid(rs: seq<AdminRecord>, i: nat, a: AdminRecord)
    requires ValidAdmins(rs) && i < |rs|
    requires PassesValidation(a) && OtpPaired(a) && a.role == rs[i].role
    ensures ValidAdmins(rs[i := a])
  {
  }

  class AdminStore {
    var records: seq<AdminRecord>
    const cfg: TokenConfig

    ghost predicate Valid()
      reads this
    {
      ValidAdmins(records)
    }

    constructor (cfg: TokenConfig)
      ensures Valid() && records == [] && this.cfg == cfg
    {
      records := [];
      this.cfg := cfg;
    }

    /** `generateAccessAndRefreshTokens(adminId)`: signs both tokens for the document
        found by id and stores the refresh token in its single slot. */
    method GenerateAccessAndRefreshTokens(id: nat, now: nat) returns (r: Result<(string, string), ApiError>)
      requires Valid()
      modifies this
      ensures Valid()
      ensures id >= |old(records)| ==>
                r == Err(NewApiError(500, "Internal server error while generating access and refresh token"))
                && records == old(records)
      ensures id < |old(records)| ==>
                var access := GenerateAccessToken(id, old(records)[id], cfg, now);
                var refresh := GenerateRefreshToken(id, cfg, now);
                r == Ok((access, refresh))
                && records == old(records)[id := old(records)[id].(refreshToken := Some(refresh))]
    {
      if id >= |records| {
        r := Err(NewApiError(500, "Internal server error while generating access and refresh token"));
        return;
      }
      var admin := records[id];
      var accessToken := GenerateAccessToken(id, admin, cfg, now);
      var refreshToken := GenerateRefreshToken(id, cfg, now);
      admin := admin.(refreshToken := Some(refreshToken));
      records := records[id := admin];
      r := Ok((accessToken, refreshToken));
    }

    /** `registerAdmin`. The mail goes out before the document is validated, so a role
        other than "admin" or an upload without a URL fails after the mail is sent. */
    method RegisterAdmin(name: string, email: string, password: string, role: string,
                         avatarPath: string, upload: Option<Upload>, digits: seq<nat>, now: nat, salt: nat)
      returns (o: Outcome<AdminData>, mail: Option<Mail>)
      requires Valid()
      requires IsDigitSource(digits, DefaultLength)
      modifies this
      ensures Valid()
      ensures o.Respond? ==> o.cookies == NoCookies && o.response.data == EmailOnly(email)
      ensures var rs := old(records);
              var c := GenerateOtp(digits, now);
              if name == "" || email == "" || password == "" || role == "" then
                o == Fail(400, "All fields are required") && mail.None? && records == rs
              else if FindByRole(rs, role).Some? then
                o == Fail(409, "Admin already exists") && mail.None? && records == rs
              else if avatarPath == "" then
                o == Fail(400, "Avatar image is required") && mail.None? && records == rs
              else if upload.None? then
                o == Fail(500, "Failed to upload avatar image") && mail.None? && records == rs
              else if IsFalsy(c) then
                o == Fail(500, "Internal server error") && mail.None? && records == rs
              else
                var a := NewAdmin(name, email, password, salt, Some(role), upload.value.url,
                                  upload.value.publicId, c.otp, c.otpExpires);
                mail == Some(Mail(email, c.otp))
                && if !PassesValidation(a) then
                     o == Throw(ValidationError("Admin validation failed")) && records == rs
                   else if FindByEmail(rs, email).Some? then
                     o == Throw(DuplicateKeyError("E11000 duplicate key error")) && records == rs
                   else
                     o == Reply(201, EmailOnly(email), "OTP sent to your email") && records == rs + [a]
    {
      mail := None;
      if name == "" || email == "" || password == "" || role == "" {
        o := Fail(400, "All fields are required");
        return;
      }
      if FindByRole(records, role).Some? {
        o := Fail(409, "Admin already exists");
        return;
      }
      if avatarPath == "" {
        o := Fail(400, "Avatar image is required");
        return;
      }
      if upload.None? {
        o := Fail(500, "Failed to upload avatar image");
        return;
      }
      var challenge := GenerateOtp(digits, now);
      if IsFalsy(challenge) {
        o := Fail(500, "Internal server error");
        return;
      }
      mail := Some(Mail(email, challenge.otp));
      var admin := NewAdmin(name, email, password, salt, Some(role), upload.value.url,
                            upload.value.publicId, challenge.otp, challenge.otpExpires);
      if !PassesValidation(admin) {
        o := Throw(ValidationError("Admin validation failed"));
        return;
      }
      if FindByEmail(records, email).Some? {
        o := Throw(DuplicateKeyError("E11000 duplicate key error"));
        return;
      }
      records := records + [admin];
      o := Reply(201, EmailOnly(email), "OTP sent to your email");
    }

    /** `verifyOtp`: the signup OTP. It is accepted up to and including its expiry
        millisecond, and only for an account not yet verified. */
    method VerifyOtp(email: string, otp: string, now: nat) returns (o: Outcome<AdminData>)
      requires Valid()
      modifies this
      ensures Valid()
      ensures var rs := old(records);
              var found := FindByEmail(rs, email);
              if email == "" || otp == "" then
                o == Fail(400, "Email and OTP are required") && records == rs
              else if found.None? || rs[found.value].isVerified then
                o == Fail(400, "Invalid or already verified admin") && records == rs
              else if OtpRejected(rs[found.value].otp, rs[found.value].otpExpires, otp, now) then
                o == Fail(400, "Invalid or expired OTP") && records == rs
              else
                var i := found.value;
                var a := rs[i].(isVerified := true, otp := None, otpExpires := None);
                records == rs[i := a]
                && o == Reply(200, AdminDocument(i, a, NoPasswordNoRefreshToken), "Admin verified and registered successfully")
    {
      if email == "" || otp == "" {
        o := Fail(400, "Email and OTP are required");
        return;
      }
      var found := FindByEmail(records, email);
      if found.None? || records[found.value].isVerified {
        o := Fail(400, "Invalid or already verified admin");
        return;
      }
      var i := found.value;
      var admin := records[i];
      if OtpRejected(admin.otp, admin.otpExpires, otp, now) {
        o := Fail(400, "Invalid or expired OTP");
        return;
      }
      admin := admin.(isVerified := true);
      admin := admin.(otp := None);
      admin := admin.(otpExpires := None);
      records := records[i := admin];
      o := Reply(200, AdminDocument(i, records[i], NoPasswordNoRefreshToken), "Admin verified and registered successfully");
    }

    /** `loginAdmin`: a correct password earns a fresh OTP, not a token, and clears
        `isVerified`. An unknown email and a wrong password give the same reply. */
    method LoginAdmin(email: string, password: string, digits: seq<nat>, now: nat)
      returns (o: Outcome<AdminData>, mail: Option<Mail>)
      requires Valid()
      requires IsDigitSource(digits, DefaultLength)
      modifies this
      ensures Valid()
      ensures o.Respond? ==> o.cookies == NoCookies
      ensures var rs := old(records);
              var found := FindByEmail(rs, email);
              var c := GenerateOtp(digits, now);
              if email == "" || password == "" then
                o == Fail(400, "Email and password are required") && mail.None? && records == rs
              else if found.None? || !IsPasswordCorrect(rs[found.value], password) then
                o == Fail(401, "Invalid email or password") && mail.None? && records == rs
              else if IsFalsy(c) then
                o == Fail(500, "Internal server error") && mail.None? && records == rs
              else
                var i := found.value;
                mail == Some(Mail(email, c.otp))
                && records == rs[i := rs[i].(otp := Some(c.otp), otpExpires := Some(c.otpExpires), isVerified := false)]
                && o == Reply(200, EmailOnly(email), "OTP sent to your email for verification")
    {
      mail := None;
      if email == "" || password == "" {
        o := Fail(400, "Email and password are required");
        return;
      }
      var found := FindByEmail(records, email);
      if found.None? {
        o := Fail(401, "Invalid email or password");
        return;
      }
      var i := found.value;
      var admin := records[i];
      if !IsPasswordCorrect(admin, password) {
        o := Fail(401, "Invalid email or password");
        return;
      }
      var challenge := GenerateOtp(digits, now);
      if IsFalsy(challenge) {
        o := Fail(500, "Internal server error");
        return;
      }
      mail := Some(Mail(email, challenge.otp));
      admin := admin.(otp := Some(challenge.otp));
      admin := admin.(otpExpires := Some(challenge.otpExpires));
      admin := admin.(isVerified := false);
      records := records[i := admin];
      o := Reply(200, EmailOnly(email), "OTP sent to your email for verification");
    }

    /** `verifyLoginOtp`: the login OTP, refused for an account already verified; on
        success both tokens are issued and the refresh token replaces the stored one. */
    method VerifyLoginOtp(email: string, otp: string, now: nat) returns (o: Outcome<AdminData>)
      requires Valid()
      modifies this
      ensures Valid()
      ensures var rs := old(records);
              var found := FindByEmail(rs, email);
              if email == "" || otp == "" then
                o == Fail(400, "Email and OTP are required") && records == rs
              else if found.None? || rs[found.value].isVerified then
                o == Fail(400, "Invalid or already verified admin") && records == rs
              else if OtpRejected(rs[found.value].otp, rs[found.value].otpExpires, otp, now) then
                o == Fail(400, "Invalid or expired OTP") && records == rs
              else
                var i := found.value;
                var a := rs[i].(isVerified := true, otp := None, otpExpires := None);
                var access := GenerateAccessToken(i, a, cfg, now);
                var refresh := GenerateRefreshToken(i, cfg, now);
                records == rs[i := a.(refreshToken := Some(refresh))]
                && o == Reply(200, TokenPair(Some(access), Some(refresh)), "Admin verified and logged in successfully",
                              SetTokenCookies(access, refresh))
    {
      if email == "" || otp == "" {
        o := Fail(400, "Email and OTP are required");
        return;
      }
      var found := FindByEmail(records, email);
      if found.None? || records[found.value].isVerified {
        o := Fail(400, "Invalid or already verified admin");
        return;
      }
      var i := found.value;
      var admin := records[i];
      if OtpRejected(admin.otp, admin.otpExpires, otp, now) {
        o := Fail(400, "Invalid or expired OTP");
        return;
      }
      admin := admin.(isVerified := true);
      admin := admin.(otp := None);
      admin := admin.(otpExpires := None);
      SaveKeepsValid(records, i, admin);
      records := records[i := admin];
      var tokens := GenerateAccessAndRefreshTokens(i, now);
      match tokens
      case Err(e) =>
        o := Reject(e);
      case Ok((accessToken, refreshToken)) =>
        o := Reply(200, TokenPair(Some(accessToken), Some(refreshToken)), "Admin verified and logged in successfully",
                   SetTokenCookies(accessToken, refreshToken));
    }

    /** `logoutAdmin`: `$unset` of `refreshToken` and `isVerified` on the caller's
        document, which then reads back as not verified. There is no not-found check:
        the reply is the same whether or not the document exists. */
    method LogoutAdmin(caller: Option<nat>) returns (o: Outcome<AdminData>)
      requires Valid()
      modifies this
      ensures Valid()
      ensures caller.None? ==> o == Throw(TypeError(NoCaller)) && records == old(records)
      ensures caller.Some? ==> o == Reply(200, NoData, "Admin Logged out successfully", ClearTokenCookies)
      ensures caller.Some? && caller.value < |old(records)| ==>
                records == old(records)[caller.value := old(records)[caller.value].(refreshToken := None, isVerified := false)]
      ensures caller.Some? && caller.value >= |old(records)| ==> records == old(records)
    {
      if caller.None? {
        o := Throw(TypeError(NoCaller));
        return;
      }
      var id := caller.value;
      if id < |records| {
        records := records[id := records[id].(refreshToken := None, isVerified := false)];
      }
      o := Reply(200, NoData, "Admin Logged out successfully", ClearTokenCookies);
    }

    /** `renewRefreshToken`. The rotation is started without `await`: the stored refresh
        token is replaced, but the reply carries `undefined` for both tokens and sets both
        cookies to the text "undefined". The `catch` turns every failure into a 400. */
    method RenewRefreshToken(cookieToken: Option<string>, bodyToken: Option<string>, now: nat)
      returns (o: Outcome<AdminData>)
      requires Valid()
      modifies this
      ensures Valid()
      ensures o.Reject? ==> o.error.statusCode == 400
      ensures var rs := old(records);
              var token := FirstTruthy(cookieToken, bodyToken);
              var v := Verify(token, RefreshTokenSecret, IssuedAt(now));
              if v.Err? then
                o == Fail(400, v.error) && records == rs
              else if v.value.id >= |rs| then
                o == Fail(400, "Inavild refresh Token") && records == rs
              else if token != rs[v.value.id].refreshToken then
                o == Fail(400, "Token doesnot match") && records == rs
              else
                var id := v.value.id;
                records == rs[id := rs[id].(refreshToken := Some(GenerateRefreshToken(id, cfg, now)))]
                && o == Reply(200, TokenPair(None, None), "Refresh token updated", SetTokenCookies("undefined", "undefined"))
    {
      var token := FirstTruthy(cookieToken, bodyToken);
      var decoded := Verify(token, RefreshTokenSecret, IssuedAt(now));
      if decoded.Err? {
        o := Fail(400, decoded.error);
        return;
      }
      var id := decoded.value.id;
      if id >= |records| {
        o := Fail(400, "Inavild refresh Token");
        return;
      }
      if token != records[id].refreshToken {
        o := Fail(400, "Token doesnot match");
        return;
      }
      var _ := GenerateAccessAndRefreshTokens(id, now);
      o := Reply(200, TokenPair(None, None), "Refresh token updated", SetTokenCookies("undefined", "undefined"));
    }

    /** `forgotPassword`: a fresh OTP for the account; `isVerified` is left as it was. */
    method ForgotPassword(email: string, digits: seq<nat>, now: nat) returns (o: Outcome<AdminData>, mail: Option<Mail>)
      requires Valid()
      requires IsDigitSource(digits, DefaultLength)
      modifies this
      ensures Valid()
      ensures var rs := old(records);
              var found := FindByEmail(rs, email);
              var c := GenerateOtp(digits, now);
              if email == "" then
                o == Fail(400, "Please enter the email") && mail.None? && records == rs
              else if found.None? then
                o == Fail(400, "Invalid Email ID") && mail.None? && records == rs
              else if IsFalsy(c) then
                o == Fail(500, "Internal server error") && mail.None? && records == rs
              else
                var i := found.value;
                mail == Some(Mail(email, c.otp))
                && records == rs[i := rs[i].(otp := Some(c.otp), otpExpires := Some(c.otpExpires))]
                && o == Reply(200, EmailOnly(email), "OTP sent to your email for password reset")
    {
      mail := None;
      if email == "" {
        o := Fail(400, "Please enter the email");
        return;
      }
      var found := FindByEmail(records, email);
      if found.None? {
        o := Fail(400, "Invalid Email ID");
        return;
      }
      var i := found.value;
      var challenge := GenerateOtp(digits, now);
      if IsFalsy(challenge) {
        o := Fail(500, "Internal server error");
        return;
      }
      mail := Some(Mail(email, challenge.otp));
      var admin := records[i];
      admin := admin.(otp := Some(challenge.otp));
      admin := admin.(otpExpires := Some(challenge.otpExpires));
      records := records[i := admin];
      o := Reply(200, EmailOnly(email), "OTP sent to your email for password reset");
    }

    /** `verifyForgotPasswordOtp`: an accepted reset OTP marks the account verified,
        whatever it was before. */
    method VerifyForgotPasswordOtp(email: string, otp: string, now: nat) returns (o: Outcome<AdminData>)
      requires Valid()
      modifies this
      ensures Valid()
      ensures var rs := old(records);
              var found := FindByEmail(rs, email);
              if email == "" || otp == "" then
                o == Fail(400, "Email and OTP are required") && records == rs
              else if found.None? then
                o == Fail(400, "Invalid admin") && records == rs
              else if OtpRejected(rs[found.value].otp, rs[found.value].otpExpires, otp, now) then
                o == Fail(400, "Invalid or expired OTP") && records == rs
              else
                var i := found.value;
                records == rs[i := rs[i].(isVerified := true, otp := None, otpExpires := None)]
                && o == Reply(200, EmailOnly(email), "OTP verified successfully, you can now reset your password")
    {
      if email == "" || otp == "" {
        o := Fail(400, "Email and OTP are required");
        return;
      }
      var found := FindByEmail(records, email);
      if found.None? {
        o := Fail(400, "Invalid admin");
        return;
      }
      var i := found.value;
      var admin := records[i];
      if OtpRejected(admin.otp, admin.otpExpires, otp, now) {
        o := Fail(400, "Invalid or expired OTP");
        return;
      }
      admin := admin.(isVerified := true);
      admin := admin.(otp := None);
      admin := admin.(otpExpires := None);
      records := records[i := admin];
      o := Reply(200, EmailOnly(email), "OTP verified successfully, you can now reset your password");
    }

    /** `resetPassword`: its only guard is `isVerified`, so it succeeds exactly for an
        existing account that is verified, by a reset OTP or by a login. */
    method ResetPassword(email: string, newPassword: string, salt: nat) returns (o: Outcome<AdminData>)
      requires Valid()
      modifies this
      ensures Valid()
      ensures var rs := old(records);
              var found := FindByEmail(rs, email);
              if email == "" || newPassword == "" then
                o == Fail(400, "Email and new password are required") && records == rs
              else if found.None? || !rs[found.value].isVerified then
                o == Fail(400, "Invalid request or OTP not verified") && records == rs
              else
                var i := found.value;
                records == rs[i := rs[i].(password := Bcrypt.HashPassword(newPassword, salt), isVerified := false)]
                && (forall p :: IsPasswordCorrect(records[i], p) <==> p == newPassword)
                && o == Reply(200, NoData, "Password reset successfully go to login")
    {
      if email == "" || newPassword == "" {
        o := Fail(400, "Email and new password are required");
        return;
      }
      var found := FindByEmail(records, email);
      if found.None? || !records[found.value].isVerified {
        o := Fail(400, "Invalid request or OTP not verified");
        return;
      }
      var i := found.value;
      var admin := records[i];
      admin := admin.(password := Bcrypt.HashIfModified(admin.password, Some(newPassword), salt));
      admin := admin.(isVerified := false);
      records := records[i := admin];
      o := Reply(200, NoData, "Password reset successfully go to login");
    }

    /** `changeCurrentPassword` for the caller the guard attached. */
    method ChangeCurrentPassword(caller: Option<nat>, oldPassword: string, newPassword: string, salt: nat)
      returns (o: Outcome<AdminData>)
      requires Valid()
      modifies this
      ensures Valid()
      ensures var rs := old(records);
              if oldPassword == "" || newPassword == "" then
                o == Fail(400, "Please provide old and new password") && records == rs
              else if caller.None? then
                o == Throw(TypeError(NoCaller)) && records == rs
              else if caller.value >= |rs| then
                o == Fail(400, "Admin not found, please provide password correctly") && records == rs
              else if !IsPasswordCorrect(rs[caller.value], oldPassword) then
                o == Fail(401, "Invalid old password") && records == rs
              else
                var id := caller.value;
                records == rs[id := rs[id].(password := Bcrypt.HashPassword(newPassword, salt))]
                && (forall p :: IsPasswordCorrect(records[id], p) <==> p == newPassword)
                && o == Reply(200, NoData, "Password changed successfully")
    {
      if oldPassword == "" || newPassword == "" {
        o := Fail(400, "Please provide old and new password");
        return;
      }
      if caller.None? {
        o := Throw(TypeError(NoCaller));
        return;
      }
      var id := caller.value;
      if id >= |records| {
        o := Fail(400, "Admin not found, please provide password correctly");
        return;
      }
      var admin := records[id];
      if !IsPasswordCorrect(admin, oldPassword) {
        o := Fail(401, "Invalid old password");
        return;
      }
      admin := admin.(password := Bcrypt.HashIfModified(admin.password, Some(newPassword), salt));
      records := records[id := admin];
      o := Reply(200, NoData, "Password changed successfully");
    }

    /** `updateAdminAvatar`. The controller never imports `cloudinary`, so deleting the
        old image throws as soon as the document has an `avatarPublicId`. */
    method UpdateAdminAvatar(file: Option<string>, caller: Option<nat>, upload: Option<Upload>)
      returns (o: Outcome<AdminData>)
      requires Valid()
      modifies this
      ensures Valid()
      ensures var rs := old(records);
              if file.None? then
                o == Throw(TypeError(NoFile)) && records == rs
              else if file.value == "" then
                o == Fail(400, "Please provide the avatar") && records == rs
              else if caller.None? then
                o == Throw(TypeError(NoCaller)) && records == rs
              else if caller.value >= |rs| then
                o == Fail(400, "Admin not found") && records == rs
              else if rs[caller.value].avatarPublicId != "" then
                o == Throw(ReferenceError("cloudinary is not defined")) && records == rs
              else if upload.None? || upload.value.url == "" || upload.value.publicId == "" then
                o == Fail(400, "Error while uploading avatar") && records == rs
              else
                var id := caller.value;
                var a := rs[id].(avatar := upload.value.url, avatarPublicId := upload.value.publicId);
                records == rs[id := a]
                && o == Reply(200, AdminDocument(id, a, AllFields), "Avatar uploaded successfully")
    {
      if file.None? {
        o := Throw(TypeError(NoFile));
        return;
      }
      var avatarLocalPath := file.value;
      if avatarLocalPath == "" {
        o := Fail(400, "Please provide the avatar");
        return;
      }
      if caller.None? {
        o := Throw(TypeError(NoCaller));
        return;
      }
      var id := caller.value;
      if id >= |records| {
        o := Fail(400, "Admin not found");
        return;
      }
      var admin := records[id];
      if admin.avatarPublicId != "" {
        o := Throw(ReferenceError("cloudinary is not defined"));
        return;
      }
      if upload.None? || upload.value.url == "" || upload.value.publicId == "" {
        o := Fail(400, "Error while uploading avatar");
        return;
      }
      admin := admin.(avatar := upload.value.url);
      admin := admin.(avatarPublicId := upload.value.publicId);
      records := records[id := admin];
      o := Reply(200, AdminDocument(id, admin, AllFields), "Avatar uploaded successfully");
    }

    /** `updateAdminDetails`: `findByIdAndUpdate` with `$set` of `name` and `email`, which
        runs no save hook; the unique index on `email` still applies. */
    method UpdateAdminDetails(caller: Option<nat>, name: string, email: string) returns (o: Outcome<AdminData>)
      requires Valid()
      modifies this
      ensures Valid()
      ensures var rs := old(records);
              if name == "" || email == "" then
                o == Fail(400, "Please provide the details") && records == rs
              else if caller.None? then
                o == Throw(TypeError(NoCaller)) && records == rs
              else if caller.value >= |rs| then
                o == Fail(400, "Admin not found") && records == rs
              else if FindByEmail(rs, email).Some? && FindByEmail(rs, email).value != caller.value then
                o == Throw(DuplicateKeyError("E11000 duplicate key error")) && records == rs
              else
                var id := caller.value;
                var a := rs[id].(name := name, email := email);
                records == rs[id := a]
                && o == Reply(200, AdminDocument(id, a, NoPassword), "Admin details updated Successfully")
    {
      if name == "" || email == "" {
        o := Fail(400, "Please provide the details");
        return;
      }
      if caller.None? {
        o := Throw(TypeError(NoCaller));
        return;
      }
      var id := caller.value;
      if id >= |records| {
        o := Fail(400, "Admin not found");
        return;
      }
      var clash := FindByEmail(records, email);
      if clash.Some? && clash.value != id {
        o := Throw(DuplicateKeyError("E11000 duplicate key error"));
        return;
      }
      records := records[id := records[id].(name := name, email := email)];
      o := Reply(200, AdminDocument(id, records[id], NoPassword), "Admin details updated Successfully");
    }
  }
}

/** Request sequences against the admin collection, and what the handlers' contracts
    guarantee about them. */
module AdminFlows {
  import opened Wrappers
  import opened Api
  import opened Otp
  import opened Jwt
  import opened Effects
  import opened AdminModel
  import opened AdminController

  /** A login OTP is good once: after a successful `verifyLoginOtp` the account is
      verified, so the same request is refused. */
  method VerifyLoginOtpTwice(s: AdminStore, email: string, otp: string, now: nat, later: nat)
    returns (first: Outcome<AdminData>, second: Outcome<AdminData>)
    requires s.Valid()
    modifies s
    ensures s.Valid()
    ensures first.Respond? ==> second == Fail(400, "Invalid or already verified admin")
  {
    ghost var before := s.records;
    first := s.VerifyLoginOtp(email, otp, now);
    if first.Respond? {
      var i := FindByEmail(before, email).value;
      FindByEmailAfterSave(before, i, s.records[i], email);
    }
    second := s.VerifyLoginOtp(email, otp, later);
  }

  /** The intended login: the code mailed by `loginAdmin`, presented within its fifteen
      minutes, logs the admin in, and the refresh token handed out is the stored one. */
  method LoginThenVerify(s: AdminStore, email: string, password: string, digits: seq<nat>,
                         now: nat, later: nat)
    returns (login: Outcome<AdminData>, mail: Option<Mail>, verify: Outcome<AdminData>)
    requires s.Valid()
    requires IsDigitSource(digits, DefaultLength)
    requires later <= now + DefaultExpiresInMinutes * 60 * 1000
    modifies s
    ensures s.Valid()
    ensures login.Respond? ==> mail.Some? && mail.value.to == email
    ensures login.Respond? ==>
              && verify.Respond? && verify.response.statusCode == 200
              && verify.response.data.TokenPair?
              && FindByEmail(s.records, email).Some?
              && s.records[FindByEmail(s.records, email).value].refreshToken == verify.response.data.refreshToken
  {
    ghost var before := s.records;
    login, mail := s.LoginAdmin(email, password, digits, now);
    if login.Respond? {
      var i := FindByEmail(before, email).value;
      FindByEmailAfterSave(before, i, s.records[i], email);
      ghost var middle := s.records;
      verify := s.VerifyLoginOtp(email, mail.value.otp, later);
      FindByEmailAfterSave(middle, i, s.records[i], email);
    } else {
      verify := login;
    }
  }

  /** `resetPassword` asks for no OTP of an account that has just logged in: its
      `isVerified` is set, and the email alone replaces the password. */
  method ResetWhileLoggedIn(s: AdminStore, email: string, otp: string, now: nat, newPassword: string, salt: nat)
    returns (login: Outcome<AdminData>, reset: Outcome<AdminData>)
    requires s.Valid()
    requires newPassword != ""
    modifies s
    ensures s.Valid()
    ensures login.Respond? ==> reset == Reply(200, NoData, "Password reset successfully go to login")
    ensures login.Respond? ==>
              && FindByEmail(s.records, email).Some?
              && forall p :: IsPasswordCorrect(s.records[FindByEmail(s.records, email).value], p) <==> p == newPassword
  {
    ghost var before := s.records;
    login := s.VerifyLoginOtp(email, otp, now);
    if login.Respond? {
      var i := FindByEmail(before, email).value;
      FindByEmailAfterSave(before, i, s.records[i], email);
      ghost var middle := s.records;
      reset := s.ResetPassword(email, newPassword, salt);
      FindByEmailAfterSave(middle, i, s.records[i], email);
    } else {
      reset := login;
    }
  }

  /** Logging out revokes the session: with a single admin, every refresh token
      presented afterwards is refused. */
  method LogoutThenRenew(s: AdminStore, id: nat, cookieToken: Option<string>, bodyToken: Option<string>, now: nat)
    returns (logout: Outcome<AdminData>, renew: Outcome<AdminData>)
    requires s.Valid()
    modifies s
    ensures s.Valid()
    ensures logout == Reply(200, NoData, "Admin Logged out successfully", ClearTokenCookies)
    ensures id < |old(s.records)| ==> renew.Reject? && renew.error.statusCode == 400
  {
    logout := s.LogoutAdmin(Some(id));
    AtMostOneAdmin(s.records);
    renew := s.RenewRefreshToken(cookieToken, bodyToken, now);
  }

  /** The avatar can be replaced at most once: the first replacement stores a public id,
      and deleting it needs the `cloudinary` binding the controller lacks. */
  method AvatarTwice(s: AdminStore, id: nat, path: string, first: Upload, second: Upload)
    returns (o1: Outcome<AdminData>, o2: Outcome<AdminData>)
    requires s.Valid()
    modifies s
    ensures s.Valid()
    ensures o1.Respond? ==> o2 == Throw(ReferenceError("cloudinary is not defined"))
  {
    o1 := s.UpdateAdminAvatar(Some(path), Some(id), Some(first));
    o2 := s.UpdateAdminAvatar(Some(path), Some(id), Some(second));
  }
}
