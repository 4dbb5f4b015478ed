/**
 * The earlier revision of the handlers, src/controllers/user.controller.ts.
 * The pending user is not stored with its OTP record but in one process-wide
 * slot, `req.app.locals.tempUser`, which every signup overwrites. The request
 * fields are not checked.
 *
 * As in UserController, each handler is a function `…Step` (the
 * specification) and a method of class `LegacyBackend` that changes the
 * stores step by step. A failing handler answers 500 with the thrown error's
 * own message: the transport's message for a failed send, Mongoose's for a
 * failed insert.
 */
module LegacyUserController {
  import opened Wrappers
  import opened Http
  import opened Mailer
  import opened OtpModel
  import opened UserModel

  /** The message of the error `User.create` throws when a required path is empty. */
  const ValidationErrorMessage: string := "User validation failed"

  /** The message of the error `User.create` throws on the unique email index. */
  const DuplicateKeyMessage: string := "E11000 duplicate key error"

  /** The two collections, the mail sent so far, and the global candidate slot. */
  datatype Db = Db(users: map<string, User>, otps: map<string, OtpRecord>, outbox: seq<Mail>,
                   tempUser: Option<TempUser>)

  datatype Outcome = Outcome(response: Response, db: Db)

  /** Every user sits under its own email and is verified and schema-valid; every record sits under its own email. */
  predicate Valid(db: Db)
  {
    && UsersKeyedByEmail(db.users)
    && (forall e :: e in db.users ==> db.users[e].isVerified && ValidUserDocument(db.users[e]))
    && OtpsKeyedByEmail(db.otps)
  }

  /**
   * `Otp.findOneAndUpdate({ email }, { otp, expiresAt }, { upsert: true })`:
   * an existing record gets the new code and expiry and keeps its other paths;
   * otherwise a record with no candidate is inserted.
   */
  function UpsertCode(otps: map<string, OtpRecord>, email: string, code: string, expiresAt: int): (r: map<string, OtpRecord>)
    ensures r.Keys == otps.Keys + {email}
    ensures r[email].otp == code && r[email].expiresAt == expiresAt
    ensures email in otps ==> r[email].email == otps[email].email && r[email].tempUser == otps[email].tempUser
    ensures email !in otps ==> r[email].email == email && r[email].tempUser.None?
    ensures forall e :: e in otps && e != email ==> r[e] == otps[e]
    ensures OtpsKeyedByEmail(otps) ==> OtpsKeyedByEmail(r)
  {
    if email in otps then otps[email := otps[email].(otp := code, expiresAt := expiresAt)]
    else otps[email := OtpRecord(email, code, expiresAt, None)]
  }

  /** The message a failed `User.create` throws. */
  function CreateErrorMessage(r: CreateResult): string
  {
    if r.ValidationError? then ValidationErrorMessage else DuplicateKeyMessage
  }

  function SignupStep(db: Db, name: string, email: string, password: string,
                      hash: string -> string, now: int, code: string, mailFailure: Option<string>): (r: Outcome)
    // the only check: no user for the email
    ensures r.response.status == 400 <==> email in db.users
    ensures email in db.users ==> r == Outcome(Response(400, "Email already registered"), db)
    ensures email !in db.users ==>
              && r.db.users == db.users
              && r.db.otps == UpsertCode(db.otps, email, code, now + OtpLifetimeMs)
              // the slot is overwritten, whatever it held and for whichever email
              && r.db.tempUser == Some(TempUser(name, email, hash(password)))
              && r.db.outbox == Deliver(db.outbox, Mail(email, "Your OTP Code", Text("Your OTP is: " + code)), mailFailure)
              && (mailFailure.None? ==> r.response == Response(200, "OTP sent to email"))
              // the transport's error reaches the catch block: 500 with its message
              && (mailFailure.Some? ==> r.response == Response(500, mailFailure.value))
    ensures Valid(db) ==> Valid(r.db)
  {
    if email in db.users then
      Outcome(Response(400, "Email already registered"), db)
    else
      var otps := UpsertCode(db.otps, email, code, now + OtpLifetimeMs);
      var slot := Some(TempUser(name, email, hash(password)));
      var outbox := Deliver(db.outbox, Mail(email, "Your OTP Code", Text("Your OTP is: " + code)), mailFailure);
      var response := if mailFailure.None? then Response(200, "OTP sent to email")
                      else Response(500, mailFailure.value);
      Outcome(response, Db(db.users, otps, outbox, slot))
  }

  /** `Otp.findOne({ email, otp })` finds a record and it has not expired. */
  predicate LiveMatch(db: Db, email: string, otp: string, now: int)
  {
    email in db.otps && db.otps[email].otp == otp && !(db.otps[email].expiresAt < now)
  }

  /** The global slot holds a candidate for this very email. */
  predicate SlotHolds(db: Db, email: string)
  {
    db.tempUser.Some? && db.tempUser.value.email == email
  }

  function VerifyOtpStep(db: Db, email: string, otp: string, now: int, mailFailure: Option<string>): (r: Outcome)
    // no record, wrong code or expired: nothing is deleted
    ensures !LiveMatch(db, email, otp, now) ==> r == Outcome(Response(400, "Invalid or expired OTP"), db)
    ensures LiveMatch(db, email, otp, now) && email in db.users ==>
              r == Outcome(Response(400, "User already verified"), db.(otps := db.otps - {email}))
    // empty or foreign slot: the record is kept, no user
    ensures LiveMatch(db, email, otp, now) && email !in db.users && !SlotHolds(db, email) ==>
              r == Outcome(Response(400, "User data not found. Please signup again."), db)
    // a user is created only from the slot's candidate; the record and the slot are cleared with it
    ensures r.db.users != db.users ==>
              && LiveMatch(db, email, otp, now) && email !in db.users && SlotHolds(db, email)
              && r.db.users == db.users[email := CommittedUser(db.tempUser.value)]
              && r.db.otps == db.otps - {email}
              && r.db.tempUser.None?
    // commit: the slot's candidate becomes a verified user, record and slot are cleared, the mail is sent
    ensures LiveMatch(db, email, otp, now) && email !in db.users && SlotHolds(db, email) &&
            ValidUserDocument(CommittedUser(db.tempUser.value)) ==>
              && r.db.users == db.users[email := CommittedUser(db.tempUser.value)]
              && r.db.otps == db.otps - {email}
              && r.db.tempUser.None?
              && r.db.outbox == Deliver(db.outbox, Mail(email, "Registration Successful", Text("Your account has been verified!")), mailFailure)
              && (mailFailure.None? ==> r.response == Response(201, "User registered and verified successfully"))
              && (mailFailure.Some? ==> r.response == Response(500, mailFailure.value))
    // `User.create` rejects the candidate: 500 with Mongoose's message; record and slot are kept
    ensures LiveMatch(db, email, otp, now) && email !in db.users && SlotHolds(db, email) &&
            !ValidUserDocument(CommittedUser(db.tempUser.value)) ==>
              r == Outcome(Response(500, ValidationErrorMessage), db)
    ensures r.response.status == 201 <==>
              && LiveMatch(db, email, otp, now) && email !in db.users && SlotHolds(db, email)
              && ValidUserDocument(CommittedUser(db.tempUser.value)) && mailFailure.None?
    ensures Valid(db) ==> Valid(r.db)
  {
    if !(email in db.otps && db.otps[email].otp == otp) || db.otps[email].expiresAt < now then
      Outcome(Response(400, "Invalid or expired OTP"), db)
    else if email in db.users then
      Outcome(Response(400, "User already verified"), db.(otps := db.otps - {email}))
    else if db.tempUser.None? || db.tempUser.value.email != email then
      Outcome(Response(400, "User data not found. Please signup again."), db)
    else
      var t := db.tempUser.value;
      var created := Create(db.users, CommittedUser(t));
      if !created.Created? then
        Outcome(Response(500, CreateErrorMessage(created)), db)
      else
        var outbox := Deliver(db.outbox, Mail(email, "Registration Successful", Text("Your account has been verified!")), mailFailure);
        var response := if mailFailure.None? then Response(201, "User registered and verified successfully")
                        else Response(500, mailFailure.value);
        Outcome(response, Db(created.users, db.otps - {email}, outbox, None))
  }

  function ResendOtpStep(db: Db, email: string, now: int, code: string, mailFailure: Option<string>): (r: Outcome)
    ensures r.response.status == 400 <==> email in db.users
    ensures email in db.users ==> r == Outcome(Response(400, "User already verified"), db)
    // otherwise a code is always issued, whether or not a signup was started
    ensures email !in db.users ==>
              && r.db == db.(otps := UpsertCode(db.otps, email, code, now + OtpLifetimeMs),
                             outbox := Deliver(db.outbox, Mail(email, "Your OTP Code (Resent)", Text("Your OTP is: " + code)), mailFailure))
              && (mailFailure.None? ==> r.response == Response(200, "OTP resent to email"))
              && (mailFailure.Some? ==> r.response == Response(500, mailFailure.value))
    ensures Valid(db) ==> Valid(r.db)
  {
    if email in db.users then
      Outcome(Response(400, "User already verified"), db)
    else
      var otps := UpsertCode(db.otps, email, code, now + OtpLifetimeMs);
      var outbox := Deliver(db.outbox, Mail(email, "Your OTP Code (Resent)", Text("Your OTP is: " + code)), mailFailure);
      var response := if mailFailure.None? then Response(200, "OTP resent to email")
                      else Response(500, mailFailure.value);
      Outcome(response, db.(otps := otps, outbox := outbox))
  }

  /** The backend's state in this revision: the collections, the outbox and `app.locals.tempUser`. */
  class LegacyBackend {
    var users: map<string, User>
    var otps: map<string, OtpRecord>
    var outbox: seq<Mail>
    var tempUser: Option<TempUser>

    function State(): Db
      reads this
    {
      Db(users, otps, outbox, tempUser)
    }

    constructor ()
      ensures State() == Db(map[], map[], [], None)
      ensures Valid(State())
    {
      users, otps, outbox, tempUser := map[], map[], [], None;
    }

    /** `sendEmail`: the message is added to the outbox unless the transport throws. */
    method SendEmail(to: string, subject: string, body: Body, failure: Option<string>) returns (error: Option<string>)
      modifies this`outbox
      ensures error == failure
      ensures outbox == Deliver(old(outbox), Mail(to, subject, body), failure)
    {
      if failure.None? {
        outbox := outbox + [Mail(to, subject, body)];
      }
      error := failure;
    }

    /** `findOneAndUpdate({ email }, { otp, expiresAt }, { upsert: true })` on the Otp collection. */
    method UpsertOtp(email: string, code: string, expiresAt: int)
      modifies this`otps
      ensures otps == UpsertCode(old(otps), email, code, expiresAt)
    {
      if email in otps {
        var record := otps[email];
        otps := otps[email := record.(otp := code, expiresAt := expiresAt)];
      } else {
        otps := otps[email := OtpRecord(email, code, expiresAt, None)];
      }
    }

    method Signup(name: string, email: string, password: string,
                  hash: string -> string, now: int, code: string, mailFailure: Option<string>)
      returns (response: Response)
      modifies this
      ensures Outcome(response, State()) == SignupStep(old(State()), name, email, password, hash, now, code, mailFailure)
      ensures Valid(old(State())) ==> Valid(State())
    {
      if email in users {
        return Response(400, "Email already registered");
      }
      var hashedPassword := hash(password);
      UpsertOtp(email, code, now + OtpLifetimeMs);
      tempUser := Some(TempUser(name, email, hashedPassword));
      var error := SendEmail(email, "Your OTP Code", Text("Your OTP is: " + code), mailFailure);
      if error.Some? {
        return Response(500, error.value);
      }
      return Response(200, "OTP sent to email");
    }

    method VerifyOtp(email: string, otp: string, now: int, mailFailure: Option<string>) returns (response: Response)
      modifies this
      ensures Outcome(response, State()) == VerifyOtpStep(old(State()), email, otp, now, mailFailure)
      ensures Valid(old(State())) ==> Valid(State())
    {
      if !(email in otps && otps[email].otp == otp) || otps[email].expiresAt < now {
        return Response(400, "Invalid or expired OTP");
      }
      if email in users {
        otps := otps - {email};
        return Response(400, "User already verified");
      }
      var slot := tempUser;
      if slot.None? || slot.value.email != email {
        return Response(400, "User data not found. Please signup again.");
      }
      var t := slot.value;
      var created := Create(users, CommittedUser(t));
      if !created.Created? {
        return Response(500, CreateErrorMessage(created));
      }
      users := created.users;
      otps := otps - {email};
      tempUser := None;
      var error := SendEmail(email, "Registration Successful", Text("Your account has been verified!"), mailFailure);
      if error.Some? {
        return Response(500, error.value);
      }
      return Response(201, "User registered and verified successfully");
    }

    method ResendOtp(email: string, now: int, code: string, mailFailure: Option<string>) returns (response: Response)
      modifies this
      ensures Outcome(response, State()) == ResendOtpStep(old(State()), email, now, code, mailFailure)
      ensures Valid(old(State())) ==> Valid(State())
    {
      if email in users {
        return Response(400, "User already verified");
      }
      UpsertOtp(email, code, now + OtpLifetimeMs);
      var error := SendEmail(email, "Your OTP Code (Resent)", Text("Your OTP is: " + code), mailFailure);
      if error.Some? {
        return Response(500, error.value);
      }
      return Response(200, "OTP resent to email");
    }
  }
}
