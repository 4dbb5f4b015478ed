/**
 * The signup / OTP verification handlers of src/controllers/user.controller.tsx.
 * The pending user lives inside its OTP record.
 *
 * Each handler is given twice: a function `…Step` from the stores before the
 * request to the response and the stores after it (the specification, with
 * the properties the handler promises as its ensures), and a method of class
 * `Backend` that updates the stores step by step as the handler does and is
 * proved to end in the state the function names.
 *
 * What the environment decides is passed in: `now` (ms since the epoch at the
 * moment of the request), `code` (the value `generateOtp()` returns), `hash`
 * (bcrypt with cost 12, as chosen for this call) and `mailFailure` (None when
 * the mail transport accepts the message, Some(m) when it throws m).
 * A JSON field that is absent is the empty string: both are falsy.
 */
module UserController {
  import opened Wrappers
  import opened Http
  import opened Mailer
  import opened OtpModel
  import opened UserModel
  import opened EmailFormat

  const LogoUrl: string := "https://myjobb-backend-74wp.onrender.com/images/logo.png"

  /** The two collections and the mail handed to the transport so far. */
  datatype Db = Db(users: map<string, User>, otps: map<string, OtpRecord>, outbox: seq<Mail>)

  /** A handler's answer together with the stores it leaves behind. */
  datatype Outcome = Outcome(response: Response, db: Db)

  /**
   * What every reachable store satisfies: each user sits under its own email,
   * is verified and passes schema validation; each OTP record sits under its
   * own email, and so does its candidate user when it has one.
   */
  predicate Valid(db: Db)
  {
    && UsersKeyedByEmail(db.users)
    && (forall e :: e in db.users ==> db.users[e].isVerified && ValidUserDocument(db.users[e]))
    && OtpsKeyedByEmail(db.otps)
    && (forall e :: e in db.otps && db.otps[e].tempUser.Some? ==> db.otps[e].tempUser.value.email == e)
  }

  /** The record `Otp.findOne({ email, otp })` finds. */
  function MatchingRecord(otps: map<string, OtpRecord>, email: string, otp: string): (r: Option<OtpRecord>)
    ensures r.Some? <==> email in otps && otps[email].otp == otp
    ensures r.Some? ==> r.value == otps[email]
  {
    if email in otps && otps[email].otp == otp then Some(otps[email]) else None
  }

  /** The pending record signup writes: the fresh code, its expiry and the candidate user. */
  function PendingRecord(name: string, email: string, hashedPassword: string, code: string, now: int): (r: OtpRecord)
    ensures r.email == email && r.otp == code && r.expiresAt == now + OtpLifetimeMs
    ensures r.tempUser == Some(TempUser(name, email, hashedPassword))
  {
    OtpRecord(email, code, now + OtpLifetimeMs, Some(TempUser(name, email, hashedPassword)))
  }

  /** The conditions under which signup answers 400 without touching anything. */
  predicate SignupRefused(db: Db, name: string, email: string, password: string)
  {
    name == "" || email == "" || password == "" || !IsValidEmail(email) || email in db.users
  }

  function SignupStep(db: Db, name: string, email: string, password: string,
                      hash: string -> string, now: int, code: string, mailFailure: Option<string>): (r: Outcome)
    ensures r.response.status == 400 <==> SignupRefused(db, name, email, password)
    ensures r.response.status == 400 ==> r.db == db
    // each refusal has its own message, checked in this order
    ensures name == "" || email == "" || password == "" ==>
              r == Outcome(Response(400, "Name, email, and password are required."), db)
    ensures name != "" && email != "" && password != "" && !IsValidEmail(email) ==>
              r == Outcome(Response(400, "Invalid email format."), db)
    ensures name != "" && email != "" && password != "" && IsValidEmail(email) && email in db.users ==>
              r == Outcome(Response(400, "Email already registered."), db)
    ensures !SignupRefused(db, name, email, password) ==>
              && r.db.users == db.users
              && r.db.otps.Keys == db.otps.Keys + {email}
              && r.db.otps[email] == PendingRecord(name, email, hash(password), code, now)
              && (forall e :: e in db.otps && e != email ==> r.db.otps[e] == db.otps[e])
              && r.db.outbox == Deliver(db.outbox, Mail(email, "Your OTP Code", OtpEmailHtml(name, code)), mailFailure)
              && (mailFailure.None? ==> r.response == Response(200, "OTP sent to email."))
              && (mailFailure.Some? ==> r.response == Response(500, "Internal server error."))
    ensures Valid(db) ==> Valid(r.db)
  {
    if name == "" || email == "" || password == "" then
      Outcome(Response(400, "Name, email, and password are required."), db)
    else if !IsValidEmail(email) then
      Outcome(Response(400, "Invalid email format."), db)
    else if email in db.users then
      Outcome(Response(400, "Email already registered."), db)
    else
      var otps := db.otps[email := PendingRecord(name, email, hash(password), code, now)];
      var outbox := Deliver(db.outbox, Mail(email, "Your OTP Code", OtpEmailHtml(name, code)), mailFailure);
      var response := if mailFailure.None? then Response(200, "OTP sent to email.")
                      else Response(500, "Internal server error.");
      Outcome(response, Db(db.users, otps, outbox))
  }

  /** The request passes the field checks of verifyOtp. */
  predicate VerifyInputOk(email: string, otp: string)
  {
    email != "" && otp != "" && IsValidEmail(email)
  }

  /**
   * A record matches, has not expired and no user exists yet: verifyOtp goes
   * on to `User.create`. The `!tempUser` test before it never holds, since
   * `tempUser` reads as an object (see `CandidateOf`).
   */
  predicate Committable(db: Db, email: string, otp: string, now: int)
  {
    && VerifyInputOk(email, otp)
    && MatchingRecord(db.otps, email, otp).Some?
    && !(db.otps[email].expiresAt < now)
    && email !in db.users
  }

  /** `User.create` accepts the record's candidate: it passes validation and its email is free. */
  predicate CandidateAccepted(db: Db, email: string)
    requires email in db.otps
  {
    ValidUserDocument(CommittedUser(CandidateOf(db.otps[email])))
    && CandidateOf(db.otps[email]).email !in db.users
  }

  function VerifyOtpStep(db: Db, email: string, otp: string, now: int, mailFailure: Option<string>): (r: Outcome)
    ensures !VerifyInputOk(email, otp) ==> r.db == db && r.response.status == 400
    ensures email == "" || otp == "" ==> r == Outcome(Response(400, "Email and OTP are required."), db)
    ensures email != "" && otp != "" && !IsValidEmail(email) ==> r == Outcome(Response(400, "Invalid email format."), db)
    // unknown email and wrong code: one answer, nothing changes
    ensures VerifyInputOk(email, otp) && MatchingRecord(db.otps, email, otp).None? ==>
              r == Outcome(Response(400, "Invalid OTP or email."), db)
    // expired (strictly before now): the record is consumed, no user
    ensures VerifyInputOk(email, otp) && MatchingRecord(db.otps, email, otp).Some? && db.otps[email].expiresAt < now ==>
              r == Outcome(Response(400, "OTP expired. Please request a new one."), db.(otps := db.otps - {email}))
    // already a user: the record is consumed, users untouched
    ensures VerifyInputOk(email, otp) && MatchingRecord(db.otps, email, otp).Some? && !(db.otps[email].expiresAt < now) &&
            email in db.users ==>
              r == Outcome(Response(400, "User already verified."), db.(otps := db.otps - {email}))
    // commit: the candidate becomes a verified user, the record goes, the welcome mail is sent
    ensures Committable(db, email, otp, now) && CandidateAccepted(db, email) ==>
              var t := CandidateOf(db.otps[email]);
              && r.db.users == db.users[t.email := CommittedUser(t)]
              && r.db.otps == db.otps - {email}
              && r.db.outbox == Deliver(db.outbox, Mail(email, "Welcome to MyJobb!", WelcomeEmailHtml(t.name, LogoUrl)), mailFailure)
              && (mailFailure.None? ==> r.response == Response(201, "User registered and verified successfully."))
              && (mailFailure.Some? ==> r.response == Response(500, "Internal server error."))
    // `User.create` throws: 500, and nothing changes (the record is kept)
    ensures Committable(db, email, otp, now) && !CandidateAccepted(db, email) ==>
              r == Outcome(Response(500, "Internal server error."), db)
    // a user is created only by the commit step
    ensures r.db.users != db.users ==> Committable(db, email, otp, now) && CandidateAccepted(db, email)
    ensures r.response.status == 201 <==> Committable(db, email, otp, now) && CandidateAccepted(db, email) && mailFailure.None?
    ensures Valid(db) ==> Valid(r.db)
  {
    if email == "" || otp == "" then
      Outcome(Response(400, "Email and OTP are required."), db)
    else if !IsValidEmail(email) then
      Outcome(Response(400, "Invalid email format."), db)
    else
      match MatchingRecord(db.otps, email, otp)
      case None =>
        Outcome(Response(400, "Invalid OTP or email."), db)
      case Some(record) =>
        var consumed := db.(otps := db.otps - {email});
        if record.expiresAt < now then
          Outcome(Response(400, "OTP expired. Please request a new one."), consumed)
        else if email in db.users then
          Outcome(Response(400, "User already verified."), consumed)
        else
          // `!tempUser` is never true here: the nested path reads as an object
          var t := CandidateOf(record);
          match Create(db.users, CommittedUser(t))
          case ValidationError =>
            Outcome(Response(500, "Internal server error."), db)
          case DuplicateKey =>
            Outcome(Response(500, "Internal server error."), db)
          case Created(users) =>
            var outbox := Deliver(db.outbox, Mail(email, "Welcome to MyJobb!", WelcomeEmailHtml(t.name, LogoUrl)), mailFailure);
            var response := if mailFailure.None? then Response(201, "User registered and verified successfully.")
                            else Response(500, "Internal server error.");
            Outcome(response, Db(users, db.otps - {email}, outbox))
  }

  /**
   * The request passes the checks of resendOtp and a record exists for the
   * email. The `!otpRecord.tempUser` half of the test never holds (see
   * `CandidateOf`), so a record written without a candidate also qualifies.
   */
  predicate ResendAllowed(db: Db, email: string)
  {
    && email != "" && IsValidEmail(email)
    && email !in db.users
    && email in db.otps
  }

  function ResendOtpStep(db: Db, email: string, now: int, code: string, mailFailure: Option<string>): (r: Outcome)
    ensures !ResendAllowed(db, email) ==> r.response.status == 400 && r.db == db
    ensures r.response.status == 400 ==> !ResendAllowed(db, email)
    // each refusal has its own message, checked in this order
    ensures email == "" ==> r == Outcome(Response(400, "Email is required."), db)
    ensures email != "" && !IsValidEmail(email) ==> r == Outcome(Response(400, "Invalid email format."), db)
    ensures email != "" && IsValidEmail(email) && email in db.users ==>
              r == Outcome(Response(400, "User already verified."), db)
    ensures email != "" && IsValidEmail(email) && email !in db.users && email !in db.otps ==>
              r == Outcome(Response(400, "No signup in progress. Please sign up first."), db)
    ensures r.db.users == db.users
    // only the code and its expiry change; email and candidate stay
    ensures r.db != db ==>
              && ResendAllowed(db, email)
              && r.db.otps == db.otps[email := db.otps[email].(otp := code, expiresAt := now + OtpLifetimeMs)]
    ensures ResendAllowed(db, email) && db.otps[email].email != "" && code != "" ==>
              && r.db.otps == db.otps[email := db.otps[email].(otp := code, expiresAt := now + OtpLifetimeMs)]
              && r.db.outbox == Deliver(db.outbox, Mail(email, "Your OTP Code (Resent)", Text("Your new OTP is: " + code)), mailFailure)
              && (mailFailure.None? ==> r.response == Response(200, "OTP resent to email."))
              && (mailFailure.Some? ==> r.response == Response(500, "Internal server error."))
    // `save()` rejects the updated record (an empty required path): 500, nothing changes
    ensures ResendAllowed(db, email) && !(db.otps[email].email != "" && code != "") ==>
              r == Outcome(Response(500, "Internal server error."), db)
    ensures Valid(db) ==> Valid(r.db)
  {
    if email == "" then
      Outcome(Response(400, "Email is required."), db)
    else if !IsValidEmail(email) then
      Outcome(Response(400, "Invalid email format."), db)
    else if email in db.users then
      Outcome(Response(400, "User already verified."), db)
    else if email !in db.otps then
      Outcome(Response(400, "No signup in progress. Please sign up first."), db)
    else
      var updated := db.otps[email].(otp := code, expiresAt := now + OtpLifetimeMs);
      if !ValidOtpDocument(updated) then
        Outcome(Response(500, "Internal server error."), db)
      else
        var outbox := Deliver(db.outbox, Mail(email, "Your OTP Code (Resent)", Text("Your new OTP is: " + code)), mailFailure);
        var response := if mailFailure.None? then Response(200, "OTP resent to email.")
                        else Response(500, "Internal server error.");
        Outcome(response, Db(db.users, db.otps[email := updated], outbox))
  }

  /** The backend's persistent state: the User and Otp collections and the mail sent so far. */
  class Backend {
    var users: map<string, User>
    var otps: map<string, OtpRecord>
    var outbox: seq<Mail>

    function State(): Db
      reads this
    {
      Db(users, otps, outbox)
    }

    constructor ()
      ensures State() == Db(map[], map[], [])
      ensures Valid(State())
    {
      users, otps, outbox := map[], map[], [];
    }

    /** `sendEmail`: the message is added to the outbox unless the transport throws. */
    method SendEmail(to: string, subject: string, body: Body, failure: Option<string>) returns (error: Option<string>)
      modifies this`outbox
      ensures error == failure
      ensures outbox == Deliver(old(outbox), Mail(to, subject, body), failure)
    {
      if failure.None? {
        outbox := outbox + [Mail(to, subject, body)];
      }
      error := failure;
    }

    method Signup(name: string, email: string, password: string,
                  hash: string -> string, now: int, code: string, mailFailure: Option<string>)
      returns (response: Response)
      modifies this
      ensures Outcome(response, State()) == SignupStep(old(State()), name, email, password, hash, now, code, mailFailure)
      ensures Valid(old(State())) ==> Valid(State())
    {
      if name == "" || email == "" || password == "" {
        return Response(400, "Name, email, and password are required.");
      }
      if !IsValidEmail(email) {
        return Response(400, "Invalid email format.");
      }
      if email in users {
        return Response(400, "Email already registered.");
      }
      var hashedPassword := hash(password);
      var expiresAt := now + OtpLifetimeMs;
      // findOneAndUpdate({ email }, { otp, expiresAt, tempUser }, { upsert: true })
      otps := otps[email := OtpRecord(email, code, expiresAt, Some(TempUser(name, email, hashedPassword)))];
      var error := SendEmail(email, "Your OTP Code", OtpEmailHtml(name, code), mailFailure);
      if error.Some? {
        return Response(500, "Internal server error.");
      }
      return Response(200, "OTP sent to email.");
    }

    method VerifyOtp(email: string, otp: string, now: int, mailFailure: Option<string>) returns (response: Response)
      modifies this
      ensures Outcome(response, State()) == VerifyOtpStep(old(State()), email, otp, now, mailFailure)
      ensures Valid(old(State())) ==> Valid(State())
    {
      if email == "" || otp == "" {
        return Response(400, "Email and OTP are required.");
      }
      if !IsValidEmail(email) {
        return Response(400, "Invalid email format.");
      }
      var found := MatchingRecord(otps, email, otp);
      if found.None? {
        return Response(400, "Invalid OTP or email.");
      }
      var record := found.value;
      if record.expiresAt < now {
        otps := otps - {email};
        return Response(400, "OTP expired. Please request a new one.");
      }
      if email in users {
        otps := otps - {email};
        return Response(400, "User already verified.");
      }
      var t := CandidateOf(record);
      var created := Create(users, CommittedUser(t));
      if !created.Created? {
        return Response(500, "Internal server error.");
      }
      users := created.users;
      otps := otps - {email};
      var error := SendEmail(email, "Welcome to MyJobb!", WelcomeEmailHtml(t.name, LogoUrl), mailFailure);
      if error.Some? {
        return Response(500, "Internal server error.");
      }
      return Response(201, "User registered and verified successfully.");
    }

    method ResendOtp(email: string, now: int, code: string, mailFailure: Option<string>) returns (response: Response)
      modifies this
      ensures Outcome(response, State()) == ResendOtpStep(old(State()), email, now, code, mailFailure)
      ensures Valid(old(State())) ==> Valid(State())
    {
      if email == "" {
        return Response(400, "Email is required.");
      }
      if !IsValidEmail(email) {
        return Response(400, "Invalid email format.");
      }
      if email in users {
        return Response(400, "User already verified.");
      }
      if email !in otps {
        return Response(400, "No signup in progress. Please sign up first.");
      }
      var record := otps[email];
      // the fetched document is changed in place and saved; save() validates it
      record := record.(otp := code, expiresAt := now + OtpLifetimeMs);
      if !ValidOtpDocument(record) {
        return Response(500, "Internal server error.");
      }
      otps := otps[email := record];
      var error := SendEmail(email, "Your OTP Code (Resent)", Text("Your new OTP is: " + code), mailFailure);
      if error.Some? {
        return Response(500, "Internal server error.");
      }
      return Response(200, "OTP resent to email.");
    }
  }
}
