/** The Otp collection: src/models/otp.model.ts. */
module OtpModel {
  import opened Wrappers

  /** The not-yet-committed user carried by a pending record (`ITempUser`). */
  datatype TempUser = TempUser(name: string, email: string, password: string)

  /** Lifetime of an issued code: 10 minutes in milliseconds (both controller revisions). */
  const OtpLifetimeMs: int := 10 * 60 * 1000

  /**
   * An OTP document (`IOtp`) as stored. `email`, `otp` and `expiresAt` are
   * required paths, so every record has them; `tempUser` is None when the
   * record was written without a candidate (the earlier revision's upsert
   * writes only the code and its expiry). `expiresAt` is a time in milliseconds.
   */
  datatype OtpRecord = OtpRecord(email: string, otp: string, expiresAt: int, tempUser: Option<TempUser>)

  /**
   * What `record.tempUser` reads on a document returned by `findOne`.
   * `tempUser` is declared as a nested path (an object of three `String`
   * paths), not as a sub-schema, and Mongoose presents a nested path as an
   * object even when nothing was stored under it; its three fields are then
   * undefined, which is the empty string here. So the value is never falsy.
   */
  function CandidateOf(r: OtpRecord): (t: TempUser)
    ensures r.tempUser.Some? ==> t == r.tempUser.value
    ensures r.tempUser.None? ==> t.name == "" && t.email == "" && t.password == ""
  {
    match r.tempUser
    case Some(candidate) => candidate
    case None => TempUser("", "", "")
  }

  /**
   * What `save()` checks: a `required` string path rejects the empty string.
   * (`expiresAt` is always present here; the sub-document's paths are not required.)
   */
  predicate ValidOtpDocument(r: OtpRecord)
  {
    r.email != "" && r.otp != ""
  }

  /**
   * The schema has no unique index on `email`; the controllers keep one record
   * per email by always upserting on `{ email }`. A store keyed by email holds
   * this when every record sits under its own email.
   */
  predicate OtpsKeyedByEmail(otps: map<string, OtpRecord>)
  {
    forall e :: e in otps ==> otps[e].email == e
  }
}
