# Account lifecycle of the A2 learning-platform backend, in Dafny

This project models the OTP-gated account lifecycle of an Express/Mongoose backend with three roles: admins, students and trainers. It covers:

- registration with an avatar upload and a mailed six-digit code;
- confirmation of that code;
- password login followed by a second code;
- access and refresh tokens, logout and token renewal;
- the forgotten-password flow, the password change and the avatar and details updates;
- the `VerifyStudent` guard that admits a request on an access token.

Each collection is a Dafny class. The handlers are methods on it, and their postconditions state, guard by guard, the reply and the whole new collection. `Valid()` is the invariant every handler keeps:

- every document passes the schema's validation;
- the OTP fields are set together or not at all;
- emails are unique (and trainer codes too).

Request sequences such as "log in, then confirm the code twice" or "log out, then renew" are client methods. Their contracts follow only from the handlers' contracts.

Modules:

- `Wrappers`: `Option` and `Result`.
- `Text`: the JavaScript string operations the code uses: `trim`, ASCII `toLowerCase`, `replace` of the first occurrence, and decimal digits.
- `Store`: a collection is a sequence in insertion order. A document's `_id` is its index. `findOne` is the first match and `findById` is an index test.
- `Api`: `ApiResponse` and `ApiError`, and how a handler's run ends (`Outcome`): a reply with its cookies, a thrown `ApiError`, or another thrown JavaScript error. `HttpStatus` gives the status the client receives.
- `Otp`: `generateOtp`, with the random digits and the clock as inputs, and the `otp !== given || otpExpires < now` check.
- `Bcrypt`: the password hash, and the pre-save hook that hashes a password only when one was assigned. `Effects` holds the values that mail and Cloudinary calls give back.
- `Jwt`: `sign`/`verify`, abstracted to a token string the verifier reads back. It proves the round trip, the refusal under the other secret, expiry, and injectivity. It also holds the refresh token, which all three schemas sign alike.
- `AdminModel`, `StudentModel`, `TrainerModel`: documents, lookups, password checks and token payloads.
- `AdminController`/`AdminFlows`, `StudentController`/`StudentFlows`, `TrainerController`/`TrainerFlows`: the handlers and the request sequences.
- `AuthMiddleware`/`StudentSession`: the guard as a function (`Authenticate`) and as the middleware method on a request object. `StudentSession` runs a whole session from signup to a guarded request.

Behaviour the code has and the model keeps:

- `loginAdmin`/`loginStudent` clear `isVerified`, so the login OTP can be used once.
- `resetPassword` checks only `isVerified`. After a completed login it therefore resets the password without any code.
- `renewRefreshToken` starts the rotation without `await`. The stored refresh token changes, but the reply carries `undefined` tokens and sets the cookies to the string `"undefined"`.
- The admin and student controllers never import `cloudinary`. Replacing an avatar that already has a public id throws a `ReferenceError`.
- The admin `registerAdmin` conflict check is on `role`, and the role enum allows only `admin`. So the collection holds at most one admin (`AtMostOneAdmin`).
- In the trainer controller, `logintrainer`, `logouttrainer`, `renewRefreshToken`, `changeCurrentPassword`, `updatetrainerAvatar` and `updatetrainerDetails` each read `trainer` inside their own `const trainer = await trainer.…` initializer. That read throws a `ReferenceError` once the handler's earlier guards have passed. In `renewRefreshToken` the error is caught and re-thrown as an `ApiError` with status 400 and the error's message. `getCurrenttrainer` has no such read and is left out, like the other `getCurrent…` handlers.
- The trainer schema has no `otp`, `otpExpires`, `isVerified` or `refreshToken`. Under Mongoose's strict mode these are dropped on save, so trainer `verifyOtp` can never succeed. The model states this, unlike the intended behaviour described for the endpoint.
- The trainer schema's `lowercase`/`trim` options apply both to the stored email and to query filters.

## Model

| member | source | states |
|---|---|---|
| `Api.NewApiResponse` | src/utils/ApiResponse.js:2-9 | status, data and message kept; `message` defaults to "Success"; `success` exactly when the status is below 400 |
| `Api.NewApiError` | src/utils/ApiError.js:2-24 | status and message kept, `message` defaults to "Something went wrong", `errors` to the empty list; `data` null and `success` false |
| `Api.FirstTruthy` | src/controllers/admin.controller.js:246 | `a \|\| b` on optional strings: the first operand when present and non-empty, otherwise the second |
| `Api.HttpStatus` | src/app.js:1-43 | a reply's status is its own; a thrown `ApiError` keeps its status; any other thrown error becomes 500 |
| `Otp.GenerateOtp` | src/utils/otpGenerator.js:9-14 | exactly `length` decimal digits, the i-th being the i-th draw; expiry exactly `expiresInMinutes`·60000 ms after now |
| `Otp.DefaultChallenge` | src/utils/otpGenerator.js:9 | with the defaults: six digits, valid for 900000 ms |
| `Otp.EveryCodeIsGenerated` | src/utils/otpGenerator.js:10 | every digit string, leading zeros included, is a code the generator can give |
| `Otp.DefaultChallengeNotFalsy` | src/controllers/admin.controller.js:56-59 | the `!otp \|\| !otpExpires` guard after `generateOtp()` never fires with the defaults |
| `Otp.OtpRejected` | src/controllers/admin.controller.js:94 | the test `x.otp !== otp \|\| x.otpExpires < Date.now()`, with a missing expiry never past; `Otp.ChallengeWindow` states when it lets a code through |
| `Otp.ChallengeWindow` | src/controllers/admin.controller.js:94 | the stored code is accepted exactly when it matches and now is at most its expiry |
| `Bcrypt.Compare` | src/models/admin.model.js:60-62 | `bcrypt.compare(password, hash)`: whether the hash was computed from that password; `Bcrypt.CompareHashed` states it for every pair |
| `Bcrypt.CompareHashed` | src/models/admin.model.js:60-62 | `bcrypt.compare` accepts exactly the password the hash was computed from |
| `Bcrypt.HashIfModified` | src/models/admin.model.js:52-57 | the pre-save hook leaves an unmodified hash alone and otherwise stores a hash accepting exactly the new password |
| `Jwt.Verify` | src/middlewares/auth.middleware.js:16-21 | a missing or empty token fails; a payload is returned only for a token that decodes, was signed with this secret and has not expired |
| `Jwt.VerifySigned` | src/models/admin.model.js:65-90 | round trip: a signed token verifies under its own secret and gives its payload back, exactly until its expiry second |
| `Jwt.VerifyOtherSecret` | src/controllers/admin.controller.js:252-258 | a token never verifies under the other secret (an access token is no refresh token and vice versa) |
| `Jwt.Sign` | src/models/admin.model.js:66-76 | `jwt.sign(payload, secret, { expiresIn })` as a string from which the verifier reads back the secret, the expiry and the payload; its meaning is stated by `Jwt.DecodeSigned` and `Jwt.VerifySigned` |
| `Jwt.Decode` | src/middlewares/auth.middleware.js:18 | reads a token string back into its secret tag, expiry and payload, or fails on a string that is not a token; `Jwt.DecodeSigned` is the round trip |
| `Jwt.DecodeSigned` | src/middlewares/auth.middleware.js:18 | decoding a signed token gives back exactly the secret tag, the expiry and the payload it was signed with |
| `Jwt.GenerateRefreshToken` | src/models/admin.model.js:80-90 | every schema's `generateRefreshToken`: `{ _id }` alone under the refresh secret, expiring the configured number of seconds after the clock's whole second; its meaning is stated by `Jwt.RefreshTokenClaims` |
| `Jwt.RefreshTokenClaims` | src/models/admin.model.js:80-90 | the refresh token of the admin, student and (with `jwt` imported) trainer schemas carries `_id` alone, verifies until its expiry and is never accepted as an access token |
| `Jwt.SignInjective` | src/controllers/admin.controller.js:261-263 | equal token strings come from equal payloads, secrets and expiries, so comparing stored tokens compares what was signed |
| `Store.FindFirst` | src/controllers/admin.controller.js:88 | `findOne`: the index of the first matching document, and none exactly when no document matches |
| `Store.FindFirstUpdate` | src/controllers/admin.controller.js:172-175 | saving a document that the filter judges the same way as before leaves the lookup's answer unchanged |
| `Store.FindFirstNoneNarrower` | src/controllers/trainer.controller.js:34-40 | an empty `$or` query means no document matches either branch |
| `Store.FindFirstAppended` | src/controllers/student.controller.js:55-65 | after inserting a document into a collection with no match, the lookup finds the new document |
| `Store.FindFirstAppendedFound` | src/controllers/student.controller.js:55-65 | inserting a document never hides an earlier match |
| `AdminModel.NewAdmin` | src/models/admin.model.js:5-57 | a new admin is unverified, has no refresh token, keeps the given fields and accepts exactly its own password |
| `AdminModel.FindByEmailAfterSave` | src/controllers/admin.controller.js:98-101 | saving a document without changing its email leaves every email lookup as it was |
| `AdminModel.PassesValidation` | src/models/admin.model.js:5-49 | what `save()` validates: the required `name`, `email` and `avatar` and the `role` enum |
| `AdminModel.IsPasswordCorrect` | src/models/admin.model.js:60-62 | `isPasswordCorrect(password)`: `bcrypt.compare` against the stored hash |
| `AdminModel.GenerateAccessToken` | src/models/admin.model.js:65-77 | `{ _id, email, role }` under the access secret with the access expiry; its meaning is stated by `AdminModel.AccessTokenClaims` |
| `AdminModel.AccessTokenClaims` | src/models/admin.model.js:65-77 | the access token carries `_id`, `email` and `role`, verifies until its expiry and is refused as a refresh token |
| `AdminController.AtMostOneAdmin` | src/controllers/admin.controller.js:41-44 | with the role conflict check and the single-valued role enum, the collection holds at most one admin |
| `AdminController.SaveKeepsValid` | src/controllers/admin.controller.js:98-101 | saving a document that still validates and keeps its role keeps the collection invariant |
| `AdminController.AdminStore.GenerateAccessAndRefreshTokens` | src/controllers/admin.controller.js:12-31 | a missing id gives 500 and no change; otherwise both tokens for that document, the refresh token stored and nothing else changed |
| `AdminController.AdminStore.RegisterAdmin` | src/controllers/admin.controller.js:33-79 | 400 for a missing field, 409 when an admin with that role exists, 400/500 for the avatar, 500 for a falsy OTP; after the mail, a validation error for a role other than `admin` or a missing URL and a duplicate-key error for a taken email; otherwise 201 with one appended unverified admin holding the OTP |
| `AdminController.AdminStore.VerifyOtp` | src/controllers/admin.controller.js:81-108 | 400 for an unknown or already verified account and for a wrong or expired code; otherwise the account is verified, the OTP cleared, and nothing else changed |
| `AdminController.AdminStore.LoginAdmin` | src/controllers/admin.controller.js:112-151 | 400 for a missing field, 401 for an unknown email or a wrong password; otherwise a fresh OTP is stored and mailed and `isVerified` is cleared |
| `AdminController.AdminStore.VerifyLoginOtp` | src/controllers/admin.controller.js:154-192 | 400 for missing fields, an unknown or already verified account, or a wrong or expired code; otherwise verified, OTP cleared, both tokens issued as cookies and the refresh token stored |
| `AdminController.AdminStore.LogoutAdmin` | src/controllers/admin.controller.js:216-242 | a request with no caller throws a `TypeError`; otherwise the caller's refresh token and verification are unset and both cookies cleared |
| `AdminController.AdminStore.RenewRefreshToken` | src/controllers/admin.controller.js:244-288 | the token from the cookie or the body must verify as a refresh token of an existing admin and equal the stored one; then the stored token is rotated and the reply carries `undefined` tokens |
| `AdminController.AdminStore.ForgotPassword` | src/controllers/admin.controller.js:291-317 | 400 for a missing or unknown email, 500 for a falsy OTP; otherwise a fresh OTP is stored and mailed, nothing else changed |
| `AdminController.AdminStore.VerifyForgotPasswordOtp` | src/controllers/admin.controller.js:319-344 | a matching, unexpired code marks the account verified and clears the OTP; every other case is refused with no change |
| `AdminController.AdminStore.ResetPassword` | src/controllers/admin.controller.js:346-366 | succeeds exactly for a verified account, which then accepts exactly the new password and is unverified again |
| `AdminController.AdminStore.ChangeCurrentPassword` | src/controllers/admin.controller.js:378-404 | guards in order (missing fields, no caller, unknown caller, wrong old password); on success only the caller's password changes, to one accepting exactly the new password |
| `AdminController.AdminStore.UpdateAdminAvatar` | src/controllers/admin.controller.js:410-443 | no file or caller throws; an existing public id throws a `ReferenceError`; a failed upload is 400; otherwise avatar and public id are replaced |
| `AdminController.AdminStore.UpdateAdminDetails` | src/controllers/admin.controller.js:446-473 | both fields required; an email held by another admin fails the unique index; otherwise name and email are set and the document returned without its password |
| `AdminFlows.VerifyLoginOtpTwice` | src/controllers/admin.controller.js:154-192 | a login code is good once: a second confirmation is refused |
| `AdminFlows.LoginThenVerify` | src/controllers/admin.controller.js:112-192 | the code mailed by a login, presented before it expires, logs the admin in |
| `AdminFlows.ResetWhileLoggedIn` | src/controllers/admin.controller.js:346-366 | right after a completed login, `resetPassword` changes the password without any code |
| `AdminFlows.LogoutThenRenew` | src/controllers/admin.controller.js:216-288 | after logout no refresh token renews the session |
| `AdminFlows.AvatarTwice` | src/controllers/admin.controller.js:410-443 | after a first replacement stores a public id, a second replacement throws a `ReferenceError` |
| `StudentModel.NewStudent` | src/controllers/student.controller.js:55-65 | a new student is unverified, has no refresh token, keeps the given fields and accepts exactly its own password |
| `StudentModel.FindByEmailAfterSave` | src/controllers/student.controller.js:89-92 | saving a document without changing its email leaves every email lookup as it was |
| `StudentModel.FindByEmailAfterInsert` | src/controllers/student.controller.js:33-65 | after registering a new email, the lookup finds the new document |
| `StudentModel.PassesValidation` | src/controllers/student.controller.js:55-65 | what `save()` validates, taken to be the supplied `username`, `email` and avatar URL |
| `StudentModel.IsPasswordCorrect` | src/controllers/student.controller.js:113-114 | `student.isPasswordCorrect(password)`: `bcrypt.compare` against the stored hash |
| `StudentModel.GenerateAccessToken` | src/controllers/student.controller.js:13 | the student's access token under the access secret with the access expiry; its meaning is stated by `StudentModel.AccessTokenClaims` |
| `StudentModel.AccessTokenClaims` | src/controllers/student.controller.js:13 | the access token carries the student's id, verifies until its expiry and is refused as a refresh token |
| `StudentController.StudentStore.GenerateAccessAndRefreshTokens` | src/controllers/student.controller.js:10-24 | a missing id gives 500; otherwise both tokens, the refresh token stored and nothing else changed |
| `StudentController.StudentStore.RegisterStudent` | src/controllers/student.controller.js:26-70 | guards in order (fields 400, existing email 409, avatar 400/400, OTP 500, validation); otherwise 201 and one appended unverified student holding the OTP |
| `StudentController.StudentStore.VerifyOtp` | src/controllers/student.controller.js:72-99 | refused for unknown or verified accounts and bad codes; otherwise verified, OTP cleared, the document returned without password and refresh token |
| `StudentController.StudentStore.LoginStudent` | src/controllers/student.controller.js:101-133 | 400 for missing fields, 401 for an unknown email or a wrong password, 500 for a falsy OTP; otherwise a fresh OTP stored and mailed, `isVerified` cleared |
| `StudentController.StudentStore.VerifyLoginOtp` | src/controllers/student.controller.js:135-169 | a matching unexpired code verifies the account, clears the OTP and issues both tokens; there is no already-verified check |
| `StudentController.StudentStore.LogoutStudent` | src/controllers/student.controller.js:171-187 | no caller throws; an unknown caller is 400; otherwise the refresh token is cleared, the account unverified and the cookies cleared |
| `StudentController.StudentStore.RenewRefreshToken` | src/controllers/student.controller.js:189-233 | the refresh token must verify, name an existing student and equal the stored one; then the stored token is rotated and the reply carries `undefined` tokens |
| `StudentController.StudentStore.ForgotPassword` | src/controllers/student.controller.js:235-261 | 400 for a missing or unknown email, 500 for a falsy OTP; otherwise a fresh OTP stored and mailed, nothing else changed |
| `StudentController.StudentStore.VerifyForgotPasswordOtp` | src/controllers/student.controller.js:264-289 | a matching unexpired code marks the account verified and clears the OTP; otherwise refused with no change |
| `StudentController.StudentStore.ResetPassword` | src/controllers/student.controller.js:292-312 | succeeds exactly for a verified account, which then accepts exactly the new password |
| `StudentController.StudentStore.ChangeCurrentPassword` | src/controllers/student.controller.js:315-341 | guards in order; on success only the caller's password changes, to one accepting exactly the new password |
| `StudentController.StudentStore.UpdateStudentAvatar` | src/controllers/student.controller.js:353-386 | no file or caller throws; an unknown caller is 400; an existing public id throws a `ReferenceError`; a failed upload is 400; otherwise avatar and public id are replaced |
| `StudentFlows.VerifyLoginOtpTwice` | src/controllers/student.controller.js:135-169 | a second confirmation of the same login code is refused because the first one cleared it |
| `StudentFlows.ResetWhileLoggedIn` | src/controllers/student.controller.js:292-312 | after a completed login, `resetPassword` with only the email replies 200, and the account the email finds then accepts exactly the new password |
| `StudentFlows.ForgotWhileLoggedIn` | src/controllers/student.controller.js:235-261 | asking for a reset code keeps a logged-in account verified and keeps its refresh token |
| `StudentFlows.LogoutThenRenew` | src/controllers/student.controller.js:171-233 | after logout a refresh token that verifies no longer matches the stored one |
| `TrainerModel.NormalizeEmail` | src/models/trainer.model.js:10-16 | the `lowercase` then `trim` setters on `email`, applied to stored values and to query filters; `TrainerModel.NormalizeEmailIdempotent` states its key property |
| `TrainerModel.PassesValidation` | src/models/trainer.model.js:4-34 | what `save()` validates: the required `username`, `email`, `uniqueCode`, `avatar` and `subjectname` |
| `TrainerModel.IsPasswordCorrect` | src/models/trainer.model.js:44-46 | `isPasswordCorrect(password)`: `bcrypt.compare` against the stored hash |
| `TrainerModel.FindByEmailOrCode` | src/controllers/trainer.controller.js:34-40 | the `$or` conflict query on the normalized email and the unique code; `TrainerModel.NoConflictAfterEmptyQuery` and `TrainerModel.FindByEmailOrCodeAfterInsert` state what it answers |
| `TrainerModel.NormalizeEmailIdempotent` | src/models/trainer.model.js:10-16 | the schema's `trim` and `lowercase` setters, applied twice, give what they give once |
| `TrainerModel.NewTrainer` | src/controllers/trainer.controller.js:61-73 | a new trainer stores the normalized email, keeps the other schema fields and accepts exactly its own password; the public id and OTP fields the schema lacks are dropped |
| `TrainerModel.FindByEmailAfterInsert` | src/controllers/trainer.controller.js:34-73 | after registering with no conflicting email or code, the email lookup finds the new document |
| `TrainerModel.NoConflictAfterEmptyQuery` | src/controllers/trainer.controller.js:34-42 | an empty `$or` query means no document shares the new email or the new code |
| `TrainerModel.FindByEmailOrCodeAfterInsert` | src/controllers/trainer.controller.js:34-42 | once a trainer is inserted, the conflict query for its email or its code finds a document |
| `TrainerModel.GenerateAccessTokenAsWritten` | src/models/trainer.model.js:49-59 | `generateAccessToken` as written: `jwt` is not bound in the file, so the call throws a `ReferenceError` |
| `TrainerModel.GenerateRefreshTokenAsWritten` | src/models/trainer.model.js:62-70 | `generateRefreshToken` as written, throwing the same way |
| `TrainerModel.AccessTokenAsWrittenDiffers` | src/models/trainer.model.js:49-59 | for every document and time, the as-written access token method fails and so never gives the intended token, which verifies to `{ _id, email, subjectname }` until its expiry |
| `TrainerModel.RefreshTokenAsWrittenDiffers` | src/models/trainer.model.js:62-70 | for every id and time, the as-written refresh token method fails and never gives the intended token, which verifies to `{ _id }` until its expiry |
| `TrainerModel.GenerateAccessToken` | src/models/trainer.model.js:49-59 | `generateAccessToken` with `jwt` imported: `{ _id, email, subjectname }` under the access secret; its meaning is stated by `TrainerModel.AccessTokenClaims` |
| `TrainerModel.AccessTokenClaims` | src/models/trainer.model.js:49-59 | with `jwt` imported: the access token carries `_id`, `email` and `subjectname` and is refused as a refresh token |
| `TrainerController.InsertKeepsValid` | src/controllers/trainer.controller.js:61-73 | inserting a valid trainer with a new email and a new code keeps the collection invariant |
| `TrainerController.TrainerStore.RegisterTrainer` | src/controllers/trainer.controller.js:27-78 | guards in order (fields 400, email or code taken 409, avatar 400/500, OTP 500, validation); otherwise 201 and one appended trainer, the code mailed to the raw email |
| `TrainerController.TrainerStore.VerifyOtp` | src/controllers/trainer.controller.js:82-109 | always a 400: missing fields, an unknown trainer, or (since no OTP is stored) an invalid code |
| `TrainerController.TrainerStore.LoginTrainer` | src/controllers/trainer.controller.js:112-139 | missing fields are 400; anything else throws a `ReferenceError` |
| `TrainerController.TrainerStore.LogoutTrainer` | src/controllers/trainer.controller.js:142-157 | no caller throws a `TypeError`; otherwise a `ReferenceError` |
| `TrainerController.TrainerStore.RenewRefreshToken` | src/controllers/trainer.controller.js:160-191 | a token that fails to verify is 400 with the verifier's message; otherwise 400 with the `ReferenceError`'s message |
| `TrainerController.TrainerStore.ChangeCurrentPassword` | src/controllers/trainer.controller.js:194-210 | missing fields are 400; otherwise a `ReferenceError` |
| `TrainerController.TrainerStore.UpdateTrainerAvatar` | src/controllers/trainer.controller.js:218-241 | no file throws; a null upload throws a `TypeError`; an upload with no URL is 400; otherwise a `ReferenceError` |
| `TrainerController.TrainerStore.UpdateTrainerDetails` | src/controllers/trainer.controller.js:244-270 | no detail given is 400; otherwise the update set is built, holding exactly the given details, and the lookup throws a `ReferenceError` |
| `TrainerController.UpdateFields` | src/controllers/trainer.controller.js:251-258 | the update set holds exactly the non-empty details, and is empty exactly when no detail was given |
| `TrainerController.EmptyExactlyWhenNoDetail` | src/controllers/trainer.controller.js:246-258 | the update set is empty exactly when every detail is empty, so the 400 guard and the empty set agree |
| `TrainerFlows.RegisterThenVerify` | src/controllers/trainer.controller.js:27-109 | after a successful registration the code was mailed, yet confirming it is refused as invalid |
| `TrainerFlows.RegisterTwice` | src/controllers/trainer.controller.js:27-78 | after one successful registration, another with the same email or code is refused |
| `AuthMiddleware.ExtractToken` | src/middlewares/auth.middleware.js:9 | `req.cookies?.accessToken \|\| req.header("Authorization")?.replace("Bearer ", "")`; `CookieTakesPrecedence`, `BearerHeader` and `HeaderWithoutBearer` state what it gives |
| `AuthMiddleware.Rewrap` | src/middlewares/auth.middleware.js:35-37 | the outer catch keeps a non-zero status and a non-empty message, and otherwise uses 400 and "Invalid access token" |
| `AuthMiddleware.RewrapKeepsOwnErrors` | src/middlewares/auth.middleware.js:11-37 | the guard's own errors leave the outer catch unchanged |
| `AuthMiddleware.Authenticate` | src/middlewares/auth.middleware.js:6-38 | every rejection is 400 or 401; admission only for a token that verifies with the access secret and names an existing student, who is attached with password and refresh token not selected |
| `AuthMiddleware.CookieTakesPrecedence` | src/middlewares/auth.middleware.js:9 | a non-empty cookie is used whatever the header says |
| `AuthMiddleware.BearerHeader` | src/middlewares/auth.middleware.js:9 | `Bearer <t>` in the header yields `t` |
| `AuthMiddleware.HeaderWithoutBearer` | src/middlewares/auth.middleware.js:9 | a header without `Bearer ` is used as it is |
| `AuthMiddleware.GuardNoToken` | src/middlewares/auth.middleware.js:11-13 | no cookie and no header gives 401 "Unauthorized request: No token provided" |
| `AuthMiddleware.GuardAcceptsAccessToken` | src/middlewares/auth.middleware.js:9-31 | an unexpired access token of an existing student, in the cookie or as a Bearer header, admits that student |
| `AuthMiddleware.GuardRejectsRefreshToken` | src/middlewares/auth.middleware.js:16-21 | a refresh token is rejected with 400 |
| `AuthMiddleware.GuardRejectsExpired` | src/middlewares/auth.middleware.js:16-21 | an expired access token is rejected with 400 |
| `AuthMiddleware.GuardUnknownStudent` | src/middlewares/auth.middleware.js:24-28 | a valid token naming no student is 401 "Invalid access token: Student not found" |
| `AuthMiddleware.VerifyStudent` | src/middlewares/auth.middleware.js:6-38 | `next` is called exactly once, with no error exactly when the guard admits; exactly then `req.student` is set, to the named student with password and refresh token not selected |
| `StudentSession.SignUp` | src/controllers/student.controller.js:26-99 | registering and confirming the mailed code appends one verified student, found by its email, accepting the password |
| `StudentSession.LogIn` | src/controllers/student.controller.js:101-169 | logging in and confirming the mailed code gives the access token of that student and keeps every lookup |
| `StudentSession.LogInAndAuthenticate` | src/middlewares/auth.middleware.js:6-38 | a request carrying the access token from a login passes the guard as that student |
| `StudentSession.SignUpAndAuthenticate` | src/controllers/student.controller.js:26-169 | a new student who signs up, confirms, logs in and confirms passes the guard as the new document |

## Left out

- Module loading is not modelled. The admin, student and trainer controllers import `sendMail`, but `sendEmail.js` exports only `sendEmail`. `ApiError` is also imported under two spellings of the file name. And `admin.route.js` imports a `verifyAdmin` guard that the middleware file does not define. The model takes every module to load, with `sendMail(email, otp)` delivering one message.
- Routing is not modelled. Each handler is a method whatever its route. The trainer router mounts only `register` and `verify-otp`, and the admin controller exports only part of its handlers.
- Hashing and signing are not cryptographic. `bcrypt` is a hash that remembers its password and salt. `jsonwebtoken` is a string encoding with a secret tag and an expiry, so forgery is not modelled.
- Randomness, the clock, mail delivery and uploads are inputs. The OTP digits, `Date.now()`, the hash salt and the Cloudinary result are inputs. Mail and upload failures other than a null upload are not modelled, nor are the Cloudinary internals of `uploadOnCloudinary` and `destroy`.
- Concurrency is not modelled. Handlers run one after another, so the un-awaited rotation in `renewRefreshToken` is modelled as having completed before the next request.
- The student schema file is not part of this model. The student document is inferred from the controller, and the access-token claims are taken to be `email` and `username`.
- Each collection has its own id space. A token of one role naming an id of another collection is not modelled.
- `getCurrentAdmin`, `getCurrentStudent`, `getCurrenttrainer` and `generateInviteCode` are left out. They read state without changing it or are outside the account lifecycle.
- The trainer `generateAccessAndRefreshTokens` is left out. Both of its callers throw before reaching it.
- Cookie options (`httpOnly`, `secure`) and response headers are left out. The model keeps only the cookie values.
- `toLowerCase` is modelled for ASCII letters only. Unicode case mapping is outside the model.
- Collections are sequences in insertion order, not maps. An id is a position, and documents are never deleted by these handlers.
- `TrainerController.ValidTrainers`: the invariant does not state that stored emails are normalized. `TrainerModel.NewTrainer` states it for each inserted document instead.
- `TrainerController.UpdateFields`: the update object is a record of seven optional properties rather than a dictionary. Key order is not modelled.
- Request fields are modelled as strings, with an absent field read as the empty string or `None`. A JSON body can carry other types, and the OTP checks compare with `!==`. A client that sends the code as a number is therefore refused with "Invalid or expired OTP" every time (src/controllers/admin.controller.js:94, 167, 332; src/controllers/student.controller.js:85, 148, 277; src/controllers/trainer.controller.js:95). The model cannot express such a request.
- Mongoose validators other than required fields, the role enum and the unique indexes are left out. So are timestamps.

## Findings

| source | as written | input that shows it | evidently intended | confidence | as-written member | corrected member |
|---|---|---|---|---|---|---|
| src/models/trainer.model.js:1-3 | the token methods call `jwt.sign`, but the file imports only `mongoose` and `bcrypt` | any call of `generateAccessToken()` or `generateRefreshToken()` on a trainer | import `jsonwebtoken` so that both methods sign their payloads | high, not executed | `TrainerModel.AccessTokenAsWrittenDiffers` | `TrainerModel.AccessTokenClaims` |
