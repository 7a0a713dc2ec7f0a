/** The trainer controller. Only `registerTrainer` and `verifyOtp` ever reach the store.
    The schema stores no `otp`, `otpExpires` or `isVerified`, so no OTP can be accepted.
    Each of the other handlers reads `trainer` inside its own `const trainer = await
    trainer.…(…)` initializer. That read throws a `ReferenceError` before anything is read
    or written, so whatever happens before the read decides the outcome. */
module TrainerController {
  import opened Wrappers
  import opened Api
  import opened Otp
  import opened Jwt
  import opened Effects
  import opened TrainerModel
  import Store

  /** The `data` of the one reply this controller can send, `{ email }`. */
  datatype TrainerData = EmailOnly(email: string)

  /** What a `const` read inside its own initializer throws. */
  const SelfReference: string := "Cannot access 'trainer' before initialization"

  /** What every save keeps. Each document passes validation, and no two documents share
      an email or a `uniqueCode`, the schema's two unique indexes. That each stored email
      is already in normal form is stated by `NewTrainer`. */
  ghost predicate ValidTrainers(rs: seq<TrainerRecord>)
  {
    && (forall i :: 0 <= i < |rs| ==> PassesValidation(rs[i]))
    && (forall i, j :: 0 <= i < j < |rs| ==> rs[i].email != rs[j].email && rs[i].uniqueCode != rs[j].uniqueCode)
  }

  /** Inserting a valid document that shares neither an email nor a `uniqueCode` with any
      stored one keeps the store valid. */
  lemma InsertKeepsValid(rs: seq<TrainerRecord>, t: TrainerRecord)
    requires ValidTrainers(rs) && PassesValidation(t)
    requires forall j :: 0 <= j < |rs| ==> rs[j].email != t.email && rs[j].uniqueCode != t.uniqueCode
    ensures ValidTrainers(rs + [t])
  {
    var rs' := rs + [t];
    assert forall i :: 0 <= i < |rs| ==> rs'[i] == rs[i];
  }

  /** The body fields `updatetrainerDetails` reads. The schema declares none of them but
      `email`. */
  datatype DetailsBody = DetailsBody(name: string, email: string, phone: string, address: string,
                                     department: string, subjects: string, highestQualification: string)

  /** The fields `updateFields` may receive, one per field of the body. */
  datatype DetailField = Name | Email | Phone | Address | Department | Subjects | HighestQualification

  /** The field of the body a name designates. */
  function Value(d: DetailsBody, f: DetailField): string
  {
    match f
    case Name => d.name
    case Email => d.email
    case Phone => d.phone
    case Address => d.address
    case Department => d.department
    case Subjects => d.subjects
    case HighestQualification => d.highestQualification
  }

  /** The `updateFields` object: each of the seven properties set to a value, or absent. */
  datatype DetailsUpdate = DetailsUpdate(name: Option<string>, email: Option<string>, phone: Option<string>,
                                         address: Option<string>, department: Option<string>,
                                         subjects: Option<string>, highestQualification: Option<string>)

  /** `{}`. */
  const NoFields: DetailsUpdate := DetailsUpdate(None, None, None, None, None, None, None)

  /** The property of the update a name designates. */
  function Get(u: DetailsUpdate, f: DetailField): Option<string>
  {
    match f
    case Name => u.name
    case Email => u.email
    case Phone => u.phone
    case Address => u.address
    case Department => u.department
    case Subjects => u.subjects
    case HighestQualification => u.highestQualification
  }

  /** `![...].some(field => field)`: no field of the body is truthy. */
  predicate NoDetail(d: DetailsBody)
  {
    && d.name == "" && d.email == "" && d.phone == "" && d.address == ""
    && d.department == "" && d.subjects == "" && d.highestQualification == ""
  }

  class TrainerStore {
    var records: seq<TrainerRecord>
    const cfg: TokenConfig

    ghost predicate Valid()
      reads this
    {
      ValidTrainers(records)
    }

    constructor (cfg: TokenConfig)
      ensures Valid() && records == [] && this.cfg == cfg
    {
      records := [];
      this.cfg := cfg;
    }

    /** `registerTrainer`. The stored document keeps the five schema fields, with the
        email normalised. The OTP is mailed to the email as typed, but it is never stored. */
    method RegisterTrainer(username: string, email: string, password: string, uniqueCode: string,
                           subjectname: string, avatarPath: string, upload: Option<Upload>,
                           digits: seq<nat>, now: nat, salt: nat)
      returns (o: Outcome<TrainerData>, mail: Option<Mail>)
      requires Valid()
      requires IsDigitSource(digits, DefaultLength)
      modifies this
      ensures Valid()
      ensures o.Respond? ==> o.cookies == NoCookies && o.response.data == EmailOnly(email)
      ensures var rs := old(records);
              var c := GenerateOtp(digits, now);
              if username == "" || email == "" || password == "" || uniqueCode == "" || subjectname == "" then
                o == Fail(400, "All required fields must be provided") && mail.None? && records == rs
              else if FindByEmailOrCode(rs, email, uniqueCode).Some? then
                o == Fail(409, "trainer already exists") && mail.None? && records == rs
              else if avatarPath == "" then
                o == Fail(400, "Avatar image is required") && mail.None? && records == rs
              else if upload.None? then
                o == Fail(500, "Failed to upload avatar image") && mail.None? && records == rs
              else if IsFalsy(c) then
                o == Fail(500, "Internal server error") && mail.None? && records == rs
              else
                var t := NewTrainer(username, email, password, salt, uniqueCode, subjectname, upload.value.url);
                mail == Some(Mail(email, c.otp))
                && if !PassesValidation(t) then
                     o == Throw(ValidationError("Trainer validation failed")) && records == rs
                   else
                     o == Reply(201, EmailOnly(email), "OTP sent to your email") && records == rs + [t]
    {
      mail := None;
      if username == "" || email == "" || password == "" || uniqueCode == "" || subjectname == "" {
        o := Fail(400, "All required fields must be provided");
        return;
      }
      if FindByEmailOrCode(records, email, uniqueCode).Some? {
        o := Fail(409, "trainer already exists");
        return;
      }
      if avatarPath == "" {
        o := Fail(400, "Avatar image is required");
        return;
      }
      if upload.None? {
        o := Fail(500, "Failed to upload avatar image");
        return;
      }
      var challenge := GenerateOtp(digits, now);
      if IsFalsy(challenge) {
        o := Fail(500, "Internal server error");
        return;
      }
      mail := Some(Mail(email, challenge.otp));
      var trainer := NewTrainer(username, email, password, salt, uniqueCode, subjectname, upload.value.url);
      if !PassesValidation(trainer) {
        o := Throw(ValidationError("Trainer validation failed"));
        return;
      }
      NoConflictAfterEmptyQuery(records, trainer, email);
      InsertKeepsValid(records, trainer);
      records := records + [trainer];
      o := Reply(201, EmailOnly(email), "OTP sent to your email");
    }

    /** `verifyOtp`. A stored trainer has no `isVerified`, and reading it gives `undefined`.
        It has no `otp` either, and `undefined !== otp`. So every request is refused, and
        the store is never written. */
    method VerifyOtp(email: string, otp: string, now: nat) returns (o: Outcome<TrainerData>)
      ensures o.Reject? && o.error.statusCode == 400
      ensures if email == "" || otp == "" then o == Fail(400, "Email and OTP are required")
              else if FindByEmail(records, email).None? then o == Fail(400, "Invalid or already verified trainer")
              else o == Fail(400, "Invalid or expired OTP")
    {
      if email == "" || otp == "" {
        o := Fail(400, "Email and OTP are required");
        return;
      }
      var found := FindByEmail(records, email);
      if found.None? {
        o := Fail(400, "Invalid or already verified trainer");
        return;
      }
      var storedOtp: Option<string> := None;
      var storedExpires: Option<int> := None;
      if OtpRejected(storedOtp, storedExpires, otp, now) {
        o := Fail(400, "Invalid or expired OTP");
        return;
      }
      assert false;
    }

    /** `logintrainer`. Past the presence check, the handler throws. */
    method LoginTrainer(email: string, password: string) returns (o: Outcome<TrainerData>)
      ensures !o.Respond?
      ensures if email == "" || password == "" then o == Fail(400, "Email and password are required")
              else o == Throw(ReferenceError(SelfReference))
    {
      if email == "" || password == "" {
        o := Fail(400, "Email and password are required");
        return;
      }
      o := Throw(ReferenceError(SelfReference));
    }

    /** `logouttrainer`. Reading `req.trainer._id` comes before the self-reference. */
    method LogoutTrainer(caller: Option<nat>) returns (o: Outcome<TrainerData>)
      ensures o.Throw?
      ensures if caller.None? then o == Throw(TypeError(NoCaller))
              else o == Throw(ReferenceError(SelfReference))
    {
      if caller.None? {
        o := Throw(TypeError(NoCaller));
        return;
      }
      o := Throw(ReferenceError(SelfReference));
    }

    /** `renewRefreshToken`. The token is verified inside the `try`, and so is the
        self-reference. Every outcome is a 400: the verification error's message, or else
        the `ReferenceError`'s. */
    method RenewRefreshToken(cookieToken: Option<string>, bodyToken: Option<string>, now: nat)
      returns (o: Outcome<TrainerData>)
      ensures o.Reject? && o.error.statusCode == 400
      ensures var v := Verify(FirstTruthy(cookieToken, bodyToken), RefreshTokenSecret, IssuedAt(now));
              if v.Err? then o == Fail(400, v.error) else o == Fail(400, SelfReference)
    {
      var token := FirstTruthy(cookieToken, bodyToken);
      var decoded := Verify(token, RefreshTokenSecret, IssuedAt(now));
      if decoded.Err? {
        o := Fail(400, decoded.error);
        return;
      }
      o := Fail(400, SelfReference);
    }

    /** `changeCurrentPassword`. The callee `trainer.findById` is evaluated before its
        argument `req.trainer._id`, so the caller makes no difference. */
    method ChangeCurrentPassword(oldPassword: string, newPassword: string) returns (o: Outcome<TrainerData>)
      ensures !o.Respond?
      ensures if oldPassword == "" || newPassword == "" then o == Fail(400, "Please provide old and new password")
              else o == Throw(ReferenceError(SelfReference))
    {
      if oldPassword == "" || newPassword == "" {
        o := Fail(400, "Please provide old and new password");
        return;
      }
      o := Throw(ReferenceError(SelfReference));
    }

    /** `updatetrainerAvatar`. The file and the upload are checked, and the upload happens,
        before the self-reference. A failed upload resolves to `null`, and reading `.url` on
        it throws. */
    method UpdateTrainerAvatar(file: Option<string>, upload: Option<Upload>) returns (o: Outcome<TrainerData>)
      ensures !o.Respond?
      ensures if file.None? then o == Throw(TypeError(NoFile))
              else if file.value == "" then o == Fail(400, "Please provide the avatar")
              else if upload.None? then o == Throw(TypeError("Cannot read properties of null (reading 'url')"))
              else if upload.value.url == "" then o == Fail(400, "Error while uploading avatar")
              else o == Throw(ReferenceError(SelfReference))
    {
      if file.None? {
        o := Throw(TypeError(NoFile));
        return;
      }
      var avatarLocalPath := file.value;
      if avatarLocalPath == "" {
        o := Fail(400, "Please provide the avatar");
        return;
      }
      if upload.None? {
        o := Throw(TypeError("Cannot read properties of null (reading 'url')"));
        return;
      }
      if upload.value.url == "" {
        o := Fail(400, "Error while uploading avatar");
        return;
      }
      o := Throw(ReferenceError(SelfReference));
    }

    /** `updatetrainerDetails`. Fails 400 unless some field is truthy. Otherwise it builds
        the update and then throws at the self-reference. */
    method UpdateTrainerDetails(d: DetailsBody) returns (o: Outcome<TrainerData>, update: Option<DetailsUpdate>)
      ensures !o.Respond?
      ensures NoDetail(d) ==> o == Fail(400, "Please provide at least one detail to update") && update.None?
      ensures !NoDetail(d) ==> o == Throw(ReferenceError(SelfReference)) && update.Some? && update.value != NoFields
      ensures update.Some? ==> forall f :: Get(update.value, f).Some? <==> Value(d, f) != ""
    {
      if NoDetail(d) {
        o := Fail(400, "Please provide at least one detail to update");
        update := None;
        return;
      }
      var fields := UpdateFields(d);
      update := Some(fields);
      o := Throw(ReferenceError(SelfReference));
    }
  }

  /** Building `updateFields`: exactly the truthy fields of the body, each with the value
      it was given. The update is empty exactly when no field is truthy. */
  method UpdateFields(d: DetailsBody) returns (fields: DetailsUpdate)
    ensures forall f :: Get(fields, f) == if Value(d, f) != "" then Some(Value(d, f)) else None
    ensures fields == NoFields <==> NoDetail(d)
  {
    fields := NoFields;
    if d.name != "" { fields := fields.(name := Some(d.name)); }
    if d.email != "" { fields := fields.(email := Some(d.email)); }
    if d.phone != "" { fields := fields.(phone := Some(d.phone)); }
    if d.address != "" { fields := fields.(address := Some(d.address)); }
    if d.department != "" { fields := fields.(department := Some(d.department)); }
    if d.subjects != "" { fields := fields.(subjects := Some(d.subjects)); }
    if d.highestQualification != "" { fields := fields.(highestQualification := Some(d.highestQualification)); }
    EmptyExactlyWhenNoDetail(fields, d);
  }

  /** An update holding exactly the truthy fields is `{}` exactly when no field is. */
  lemma EmptyExactlyWhenNoDetail(u: DetailsUpdate, d: DetailsBody)
    requires forall f :: Get(u, f) == if Value(d, f) != "" then Some(Value(d, f)) else None
    ensures u == NoFields <==> NoDetail(d)
  {
    assert Get(u, Name) == u.name && Get(u, Email) == u.email && Get(u, Phone) == u.phone
        && Get(u, Address) == u.address && Get(u, Department) == u.department
        && Get(u, Subjects) == u.subjects && Get(u, HighestQualification) == u.highestQualification;
  }
}

/** Request sequences against the trainer collection. */
module TrainerFlows {
  import opened Wrappers
  import opened Api
  import opened Otp
  import opened Effects
  import opened TrainerModel
  import opened TrainerController

  /** Signing up cannot be completed. Right after a successful registration, the signup
      OTP is refused with "Invalid or expired OTP", even the OTP that was mailed. */
  method RegisterThenVerify(s: TrainerStore, username: string, email: string, password: string,
                            uniqueCode: string, subjectname: string, avatarPath: string, upload: Option<Upload>,
                            digits: seq<nat>, now: nat, salt: nat, later: nat)
    returns (register: Outcome<TrainerData>, mail: Option<Mail>, verify: Outcome<TrainerData>)
    requires s.Valid()
    requires IsDigitSource(digits, DefaultLength)
    modifies s
    ensures s.Valid()
    ensures register.Respond? ==> mail.Some? && verify == Fail(400, "Invalid or expired OTP")
  {
    ghost var before := s.records;
    register, mail := s.RegisterTrainer(username, email, password, uniqueCode, subjectname, avatarPath,
                                        upload, digits, now, salt);
    if register.Respond? {
      FindByEmailAfterInsert(before, s.records[|before|], email);
      verify := s.VerifyOtp(email, mail.value.otp, later);
    } else {
      verify := s.VerifyOtp(email, "", later);
    }
  }

  /** After a trainer is stored, registering again with the same email, or with the same
      `uniqueCode`, is a 409. */
  method RegisterTwice(s: TrainerStore, username: string, email: string, password: string,
                       uniqueCode: string, subjectname: string, avatarPath: string, upload: Option<Upload>,
                       digits: seq<nat>, now: nat, salt: nat,
                       email2: string, uniqueCode2: string, later: nat)
    returns (first: Outcome<TrainerData>, second: Outcome<TrainerData>)
    requires s.Valid()
    requires IsDigitSource(digits, DefaultLength)
    requires email2 == email || uniqueCode2 == uniqueCode
    modifies s
    ensures s.Valid()
    ensures first.Respond? ==>
              if username == "" || email2 == "" || password == "" || uniqueCode2 == "" || subjectname == "" then
                second == Fail(400, "All required fields must be provided")
              else second == Fail(409, "trainer already exists")
  {
    ghost var before := s.records;
    var mail;
    first, mail := s.RegisterTrainer(username, email, password, uniqueCode, subjectname, avatarPath,
                                     upload, digits, now, salt);
    if first.Respond? {
      FindByEmailOrCodeAfterInsert(before, s.records[|before|], email2, uniqueCode2);
    }
    second, mail := s.RegisterTrainer(username, email2, password, uniqueCode2, subjectname, avatarPath,
                                      upload, digits, later, salt);
  }
}
