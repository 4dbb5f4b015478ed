/**
 * Properties of the handlers of src/controllers/user.controller.tsx that
 * relate several requests: codes are single-use, a resend invalidates the old
 * code and keeps the candidate, a repeated signup replaces the candidate,
 * pending signups for different emails do not interfere, and every user in
 * any reachable store is verified.
 */
module UserControllerProperties {
  import opened Wrappers
  import opened Routes
  import opened Http
  import opened OtpModel
  import opened UserModel
  import opened EmailFormat
  import opened UserController

  /** The answer verifyOtp gives, alike for an unknown email and a wrong code. */
  const InvalidOtpOrEmail: Response := Response(400, "Invalid OTP or email.")

  /** After a verify that created a user, the same request finds no record: the code was used up. */
  lemma VerifyIsSingleUse(db: Db, email: string, otp: string, now: int, mailFailure: Option<string>,
                          later: int, laterFailure: Option<string>)
    requires VerifyOtpStep(db, email, otp, now, mailFailure).db.users != db.users
    ensures var db' := VerifyOtpStep(db, email, otp, now, mailFailure).db;
            VerifyOtpStep(db', email, otp, later, laterFailure) == Outcome(InvalidOtpOrEmail, db')
  {
  }

  /** Verifying an unknown email and verifying a known email with a wrong code cannot be told apart. */
  lemma UnknownEmailLooksLikeWrongCode(db: Db, unknown: string, known: string, otp: string, wrong: string,
                                       now: int, mailFailure: Option<string>)
    requires VerifyInputOk(unknown, otp) && unknown !in db.otps
    requires VerifyInputOk(known, wrong) && known in db.otps && db.otps[known].otp != wrong
    ensures VerifyOtpStep(db, unknown, otp, now, mailFailure).response
         == VerifyOtpStep(db, known, wrong, now, mailFailure).response
         == InvalidOtpOrEmail
    ensures VerifyOtpStep(db, unknown, otp, now, mailFailure).db == db
    ensures VerifyOtpStep(db, known, wrong, now, mailFailure).db == db
  {
  }

  /**
   * The expiry check is strict: a record whose `expiresAt` equals the request
   * time still commits; one millisecond later the same request finds it expired.
   */
  lemma ExpiryIsStrict(db: Db, email: string, otp: string, mailFailure: Option<string>)
    requires Valid(db)
    requires VerifyInputOk(email, otp) && email in db.otps && db.otps[email].otp == otp
    requires email !in db.users && db.otps[email].tempUser.Some?
    requires ValidUserDocument(CommittedUser(db.otps[email].tempUser.value))
    ensures var at := db.otps[email].expiresAt;
            && VerifyOtpStep(db, email, otp, at, mailFailure).db.users[email].isVerified
            && VerifyOtpStep(db, email, otp, at + 1, mailFailure)
               == Outcome(Response(400, "OTP expired. Please request a new one."), db.(otps := db.otps - {email}))
  {
  }

  /**
   * A resend keeps the record's email and candidate, and a verify with any
   * other code afterwards is answered as an unknown code.
   */
  lemma ResendInvalidatesOldCode(db: Db, email: string, now: int, code: string, mailFailure: Option<string>,
                                 oldCode: string, later: int, laterFailure: Option<string>)
    requires ResendOtpStep(db, email, now, code, mailFailure).db != db
    requires oldCode != code
    ensures var db' := ResendOtpStep(db, email, now, code, mailFailure).db;
            && email in db.otps && email in db'.otps
            && db'.otps[email].email == db.otps[email].email
            && db'.otps[email].tempUser == db.otps[email].tempUser
            && db'.otps[email].otp == code && db'.otps[email].expiresAt == now + OtpLifetimeMs
            && (VerifyInputOk(email, oldCode) ==>
                  VerifyOtpStep(db', email, oldCode, later, laterFailure) == Outcome(InvalidOtpOrEmail, db'))
  {
  }

  /**
   * A second signup for the same, still unverified email is not an error: it
   * replaces the first code and candidate. The first code is then unknown,
   * and the second one, used in time, creates the user of the second signup.
   */
  lemma RepeatSignupReplacesCandidate(db: Db, email: string, hash: string -> string,
                                      name1: string, password1: string, now1: int, code1: string,
                                      name2: string, password2: string, now2: int, code2: string,
                                      later: int, mailFailure: Option<string>)
    requires Valid(db)
    requires !SignupRefused(db, name1, email, password1) && !SignupRefused(db, name2, email, password2)
    requires code1 != code2 && code1 != "" && code2 != ""
    requires later <= now2 + OtpLifetimeMs
    requires hash(password2) != ""
    ensures var db1 := SignupStep(db, name1, email, password1, hash, now1, code1, None).db;
            var db2 := SignupStep(db1, name2, email, password2, hash, now2, code2, None).db;
            && VerifyOtpStep(db2, email, code1, later, mailFailure) == Outcome(InvalidOtpOrEmail, db2)
            && VerifyOtpStep(db2, email, code2, later, mailFailure).db.users
               == db.users[email := User(name2, email, hash(password2), true)]
            && email !in VerifyOtpStep(db2, email, code2, later, mailFailure).db.otps
  {
  }

  /**
   * A pending signup survives a signup for another email: its code still
   * commits its own candidate.
   */
  lemma SignupsForDistinctEmailsAreIndependent(db: Db, hash: string -> string,
                                               nameA: string, emailA: string, passwordA: string, nowA: int, codeA: string,
                                               nameB: string, emailB: string, passwordB: string, nowB: int, codeB: string,
                                               failureB: Option<string>, later: int, mailFailure: Option<string>)
    requires Valid(db)
    requires !SignupRefused(db, nameA, emailA, passwordA) && emailB != emailA
    requires codeA != "" && hash(passwordA) != "" && later <= nowA + OtpLifetimeMs
    ensures var dbA := SignupStep(db, nameA, emailA, passwordA, hash, nowA, codeA, None).db;
            var dbB := SignupStep(dbA, nameB, emailB, passwordB, hash, nowB, codeB, failureB).db;
            VerifyOtpStep(dbB, emailA, codeA, later, mailFailure).db.users
            == db.users[emailA := User(nameA, emailA, hash(passwordA), true)]
  {
  }

  /**
   * A live record stored without a candidate, as the earlier revision's
   * upsert leaves one in the same collection. Its `tempUser` still reads as an
   * object, so verify goes on to `User.create`, which rejects the undefined
   * name: 500, and the record is kept.
   */
  lemma VerifyWithoutCandidateFailsAtCreate(db: Db, email: string, otp: string, now: int, mailFailure: Option<string>)
    requires VerifyInputOk(email, otp) && email !in db.users
    requires email in db.otps && db.otps[email].otp == otp && !(db.otps[email].expiresAt < now)
    requires db.otps[email].tempUser.None?
    ensures VerifyOtpStep(db, email, otp, now, mailFailure) == Outcome(Response(500, "Internal server error."), db)
  {
  }

  /** For the same kind of record, resend is not refused: it issues a new code and mails it. */
  lemma ResendWithoutCandidateIssuesCode(db: Db, email: string, now: int, code: string)
    requires Valid(db) && email != "" && IsValidEmail(email) && email !in db.users
    requires email in db.otps && db.otps[email].tempUser.None? && code != ""
    ensures var r := ResendOtpStep(db, email, now, code, None);
            && r.response == Response(200, "OTP resent to email.")
            && r.db.otps[email] == OtpRecord(email, code, now + OtpLifetimeMs, None)
  {
  }

  /**
   * Signup, resend, then verify with the new code in time: the user is
   * created with the name given at signup and verified, and no pending
   * record is left.
   */
  lemma SignupResendVerify(db: Db, name: string, email: string, password: string, hash: string -> string,
                           t0: int, code1: string, t1: int, code2: string, t2: int)
    requires Valid(db) && !SignupRefused(db, name, email, password)
    requires hash(password) != "" && code2 != "" && t2 <= t1 + OtpLifetimeMs
    ensures var r1 := SignupStep(db, name, email, password, hash, t0, code1, None);
            var r2 := ResendOtpStep(r1.db, email, t1, code2, None);
            var r3 := VerifyOtpStep(r2.db, email, code2, t2, None);
            && r1.response.status == 200 && r2.response.status == 200 && r3.response.status == 201
            && r3.db.users == db.users[email := User(name, email, hash(password), true)]
            && email !in r3.db.otps
  {
  }

  /** The same flow for signup("Alice", "a@x.com", "pw1"). */
  lemma SignupResendVerifyScenario(db: Db, hash: string -> string, t0: int, code1: string,
                                   t1: int, code2: string, t2: int)
    requires Valid(db) && "a@x.com" !in db.users
    requires hash("pw1") != "" && code2 != "" && t2 <= t1 + OtpLifetimeMs
    ensures var r1 := SignupStep(db, "Alice", "a@x.com", "pw1", hash, t0, code1, None);
            var r2 := ResendOtpStep(r1.db, "a@x.com", t1, code2, None);
            var r3 := VerifyOtpStep(r2.db, "a@x.com", code2, t2, None);
            && r1.response.status == 200 && r2.response.status == 200 && r3.response.status == 201
            && r3.db.users == db.users["a@x.com" := User("Alice", "a@x.com", hash("pw1"), true)]
            && "a@x.com" !in r3.db.otps
  {
    IsValidEmailAccepts();
    SignupResendVerify(db, "Alice", "a@x.com", "pw1", hash, t0, code1, t1, code2, t2);
  }

  /** The handler the router dispatches the request to. */
  function Handle(db: Db, ev: Event): (r: Outcome)
    ensures Valid(db) ==> Valid(r.db)
  {
    match ev.request
    case SignupRequest(name, email, password) =>
      SignupStep(db, name, email, password, ev.hash, ev.now, ev.code, ev.mailFailure)
    case VerifyOtpRequest(email, otp) =>
      VerifyOtpStep(db, email, otp, ev.now, ev.mailFailure)
    case ResendOtpRequest(email) =>
      ResendOtpStep(db, email, ev.now, ev.code, ev.mailFailure)
  }

  /** The stores after the requests are handled one after another. */
  function Run(db: Db, events: seq<Event>): Db
    decreases |events|
  {
    if events == [] then db else Run(Handle(db, events[0]).db, events[1..])
  }

  lemma {:induction false} RunPreservesValid(db: Db, events: seq<Event>)
    requires Valid(db)
    ensures Valid(Run(db, events))
    decreases |events|
  {
    if events != [] {
      RunPreservesValid(Handle(db, events[0]).db, events[1..]);
    }
  }

  /**
   * From empty collections, whatever requests arrive: every user is stored
   * under its own email (one per email), is verified and has a name, email
   * and password; every pending record belongs to its email.
   */
  lemma ReachableStoresAreValid(events: seq<Event>)
    ensures var db := Run(Db(map[], map[], []), events);
            && (forall e :: e in db.users ==> db.users[e].email == e && db.users[e].isVerified)
            && (forall e :: e in db.users ==> ValidUserDocument(db.users[e]))
            && (forall e :: e in db.otps ==> db.otps[e].email == e)
  {
    RunPreservesValid(Db(map[], map[], []), events);
  }
}
