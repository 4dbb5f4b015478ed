/**
 * Properties of the earlier revision, src/controllers/user.controller.ts,
 * that relate several requests. Most of them follow from its single global
 * candidate slot: a later signup for another email, or a resend that was not
 * preceded by a signup, leaves a code that cannot commit.
 */
module LegacyUserControllerProperties {
  import opened Wrappers
  import opened Routes
  import opened Http
  import opened OtpModel
  import opened UserModel
  import opened LegacyUserController

  const UserDataNotFound: Response := Response(400, "User data not found. Please signup again.")

  /** The happy path: signup, then verify with the code in time, creates the user and clears record and slot. */
  lemma SignupThenVerify(db: Db, name: string, email: string, password: string, hash: string -> string,
                         now: int, code: string, later: int)
    requires Valid(db) && email !in db.users
    requires name != "" && email != "" && hash(password) != ""
    requires later <= now + OtpLifetimeMs
    ensures var db1 := SignupStep(db, name, email, password, hash, now, code, None).db;
            var r := VerifyOtpStep(db1, email, code, later, None);
            && r.response == Response(201, "User registered and verified successfully")
            && r.db.users == db.users[email := User(name, email, hash(password), true)]
            && email !in r.db.otps
            && r.db.tempUser.None?
  {
  }

  /**
   * Signups for two different emails in a row: the second overwrites the
   * slot, so the first email's code, used in time, no longer commits; its
   * record stays and no user is created.
   */
  lemma SecondSignupBreaksFirstVerification(db: Db, hash: string -> string,
                                            nameA: string, emailA: string, passwordA: string, nowA: int, codeA: string,
                                            nameB: string, emailB: string, passwordB: string, nowB: int, codeB: string,
                                            failureB: Option<string>, later: int, mailFailure: Option<string>)
    requires emailA !in db.users && emailB !in db.users && emailA != emailB
    requires later <= nowA + OtpLifetimeMs
    ensures var dbA := SignupStep(db, nameA, emailA, passwordA, hash, nowA, codeA, None).db;
            var dbB := SignupStep(dbA, nameB, emailB, passwordB, hash, nowB, codeB, failureB).db;
            && VerifyOtpStep(dbB, emailA, codeA, later, mailFailure) == Outcome(UserDataNotFound, dbB)
            && emailA in dbB.otps && dbB.users == db.users
  {
  }

  /**
   * A resend for an email with no user always issues a code, even when no
   * signup for that email holds the slot; verifying that code then fails on
   * the slot and keeps the record.
   */
  lemma ResendWithoutSignupCannotCommit(db: Db, email: string, now: int, code: string, later: int,
                                        mailFailure: Option<string>)
    requires email !in db.users && !SlotHolds(db, email)
    requires later <= now + OtpLifetimeMs
    ensures var db1 := ResendOtpStep(db, email, now, code, None).db;
            && email in db1.otps && db1.otps[email].otp == code
            && VerifyOtpStep(db1, email, code, later, mailFailure) == Outcome(UserDataNotFound, db1)
  {
  }

  /** After a verify that created a user, the same request no longer finds its record. */
  lemma VerifyIsSingleUse(db: Db, email: string, otp: string, now: int, mailFailure: Option<string>,
                          later: int, laterFailure: Option<string>)
    requires VerifyOtpStep(db, email, otp, now, mailFailure).db.users != db.users
    ensures var db' := VerifyOtpStep(db, email, otp, now, mailFailure).db;
            VerifyOtpStep(db', email, otp, later, laterFailure) == Outcome(Response(400, "Invalid or expired OTP"), db')
  {
  }

  /**
   * No field is checked: a signup with an empty name is accepted and issues a
   * code, and the commit then fails schema validation with a 500, leaving the
   * record and the slot in place.
   */
  lemma EmptyNameFailsAtCommit(db: Db, email: string, password: string, hash: string -> string,
                               now: int, code: string, later: int, mailFailure: Option<string>)
    requires email !in db.users && later <= now + OtpLifetimeMs
    ensures SignupStep(db, "", email, password, hash, now, code, None).response.status == 200
    ensures var db1 := SignupStep(db, "", email, password, hash, now, code, None).db;
            VerifyOtpStep(db1, email, code, later, mailFailure) == Outcome(Response(500, ValidationErrorMessage), db1)
  {
  }

  function Handle(db: Db, ev: Event): (r: Outcome)
    ensures Valid(db) ==> Valid(r.db)
  {
    match ev.request
    case SignupRequest(name, email, password) =>
      SignupStep(db, name, email, password, ev.hash, ev.now, ev.code, ev.mailFailure)
    case VerifyOtpRequest(email, otp) =>
      VerifyOtpStep(db, email, otp, ev.now, ev.mailFailure)
    case ResendOtpRequest(email) =>
      ResendOtpStep(db, email, ev.now, ev.code, ev.mailFailure)
  }

  function Run(db: Db, events: seq<Event>): Db
    decreases |events|
  {
    if events == [] then db else Run(Handle(db, events[0]).db, events[1..])
  }

  lemma {:induction false} RunPreservesValid(db: Db, events: seq<Event>)
    requires Valid(db)
    ensures Valid(Run(db, events))
    decreases |events|
  {
    if events != [] {
      RunPreservesValid(Handle(db, events[0]).db, events[1..]);
    }
  }

  /** From empty collections and an empty slot, every stored user is verified and sits under its own email. */
  lemma ReachableUsersAreVerified(events: seq<Event>)
    ensures var db := Run(Db(map[], map[], [], None), events);
            forall e :: e in db.users ==> db.users[e].email == e && db.users[e].isVerified && ValidUserDocument(db.users[e])
  {
    RunPreservesValid(Db(map[], map[], [], None), events);
  }
}
