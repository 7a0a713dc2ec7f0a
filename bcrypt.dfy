/** The password hasher (the `bcrypt` package), abstracted, and the schemas' pre-save
    hook that hashes a password only when one was assigned since the last save. */
module Bcrypt {
  import opened Wrappers

  /** A salted digest: it records which password it was computed from and its salt, so
      two hashes of one password with different salts differ. */
  datatype Hash = Hash(password: string, salt: nat)

  /** `bcrypt.hash(password, 10)` with the salt it draws. */
  function HashPassword(password: string, salt: nat): Hash
  {
    Hash(password, salt)
  }

  /** `bcrypt.compare(password, hash)`. */
  predicate Compare(password: string, h: Hash)
  {
    h.password == password
  }

  /** A hash accepts exactly the password it was computed from. */
  lemma CompareHashed(p: string, q: string, salt: nat)
    ensures Compare(p, HashPassword(q, salt)) <==> p == q
  {
  }

  /** `schema.pre("save")`: `if (!this.isModified("password")) return next();` and otherwise
      `this.password = await bcrypt.hash(this.password, 10)`. `newPassword` is the plain
      password assigned since the last save, if any. */
  function HashIfModified(current: Hash, newPassword: Option<string>, salt: nat): (h: Hash)
    ensures newPassword.None? ==> h == current
    ensures newPassword.Some? ==> forall p :: Compare(p, h) <==> p == newPassword.value
  {
    match newPassword
    case None => current
    case Some(p) => HashPassword(p, salt)
  }
}

/** The external services the controllers call, reduced to the values they return. */
module Effects {

  /** `sendMail(email, otp)`: an event without a result (failures are not modelled). */
  datatype Mail = Mail(to: string, otp: string)

  /** What `uploadOnCloudinary(path)` resolves to when it does not resolve to null:
      `url` and `public_id`, each possibly missing (the empty string). */
  datatype Upload = Upload(url: string, publicId: string)

  /** Which fields a query's `.select(...)` leaves out of a returned document. */
  datatype Projection = AllFields | NoPassword | NoPasswordNoRefreshToken
}
