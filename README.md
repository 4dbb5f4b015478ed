# Signup and OTP verification, modelled in Dafny

This project models the signup backend of the `myjobb-backend` repository. A
visitor signs up with a name, an email and a password. The server keeps a
pending record with a one-time code that lives for ten minutes and mails the
code. A verify request with the right code, in time, turns the pending
candidate into a stored, verified `User`. A resend replaces the code.

There are two revisions of the handlers. Each is its own module:

- `UserController` models `src/controllers/user.controller.tsx`, the current
  revision. The candidate user is stored inside the OTP record, and the
  request fields are validated, including the email pattern.
- `LegacyUserController` models `src/controllers/user.controller.ts`, the
  earlier revision. The candidate sits in one process-wide slot
  (`app.locals.tempUser`) that every signup overwrites. No field is validated.

The pieces of the model:

- **Collections.** `Db` holds the `User` and `Otp` collections as maps keyed
  by email, plus an outbox of delivered mail. The legacy `Db` also holds the
  global slot. `OtpModel` and `UserModel` give the document datatypes of
  `src/models/*.ts`. They also model Mongoose's behaviour:
  - a `required` string path rejects the empty string;
  - `User.create` validates before it inserts, then fails on the unique email
    index;
  - `findOneAndUpdate` with `upsert` does not validate;
  - `save()` does validate.
- **Handlers.** Each handler appears twice:
  - a function `…Step(db, request…, environment…)` that returns the response
    (status and message) and the stores afterwards. It is the specification,
    and its `ensures` state what the handler promises;
  - a method of class `Backend` (or `LegacyBackend`) that changes the fields
    one step at a time, in the handler's order. Its `ensures` ties the result
    and new state to the `…Step` function.
- **Environment inputs.** What the environment decides is a parameter:
  - `now`, in milliseconds;
  - `code`, the value of `generateOtp()`;
  - `hash`, bcrypt at cost 12;
  - `mailFailure`: `None` when the transport accepts the mail, `Some(m)` when
    it throws `m`.
- **Lemmas.** `UserControllerProperties` and `LegacyUserControllerProperties`
  relate several requests: single use, expiry, resend, repeated signup and
  interference between emails. They also prove the invariant of every
  reachable store: one user per email, and every user verified and
  schema-valid.

What the code does, worth noting:

- `verifyOtp` issues no token and returns only a message.
- There is no login handler.
- Signup is refused when any `User` exists for the email, not only a
  verified one.
- A wrong code on an expired record gets "Invalid OTP or email.", not the
  expiry message.
- In the earlier revision an expired record is not deleted.
- `tempUser` in `src/models/otp.model.ts:20-24` is a nested path, not a
  sub-schema. Mongoose presents a nested path as an object even when nothing
  was stored under it. So the tests `!tempUser` (`user.controller.tsx:91`) and
  `!otpRecord.tempUser` (`user.controller.tsx:138`) never hold. Take a record
  written without a candidate, as the earlier revision's upsert leaves one:
  verify reaches `User.create`, which rejects the undefined name, and answers
  500; resend issues a new code. The answers "User data not found. Please
  sign up again." and, for an existing record, "No signup in progress…" are
  therefore not reachable.

## Model

| member | source | states |
|---|---|---|
| Mailer.Deliver | src/utils/mailer.ts:19-26 | a delivered mail is appended to the outbox as the last element; a send that throws leaves the outbox as it was |
| UserModel.MakeUser | src/models/user.model.ts:10-15 | a document takes the supplied name, email and password; `isVerified` is true only when supplied as true, and defaults to false when omitted |
| UserModel.CommittedUser | src/controllers/user.controller.tsx:97-102 | the user created from a candidate copies its name, email and password hash and is verified |
| UserModel.Create | src/models/user.model.ts:10-15 | insertion fails validation exactly when a required string is empty; it fails on the unique index exactly when a valid user's email is taken; otherwise it adds exactly that user under its email, keeps every other user, and keeps the store keyed by email |
| EmailFormat.MatchIsWellFormed | src/controllers/user.controller.tsx:11-12 | a string the pattern matches has no white space, exactly one '@', a non-empty local part, and a '.' inside the domain |
| EmailFormat.WellFormedIsMatch | src/controllers/user.controller.tsx:11-12 | every string of that shape is matched by the pattern |
| EmailFormat.IsValidEmailCharacterization | src/controllers/user.controller.tsx:11-12 | `isValidEmail` holds if and only if: no white space, exactly one '@', a non-empty part before it, and a dot after it with a character on each side |
| EmailFormat.Accepts | src/controllers/user.controller.tsx:11-12 | three atoms joined as local '@' host '.' tld form an accepted address |
| EmailFormat.IsValidEmailAccepts | src/controllers/user.controller.tsx:11-12 | `a@x.com` is accepted |
| EmailFormat.IsValidEmailRejects | src/controllers/user.controller.tsx:11-12 | the five strings `a@x.`, `a@.com`, `@x.com`, `a@b@x.com` and `a b@x.com` are rejected |
| OtpModel.CandidateOf | src/models/otp.model.ts:20-24 | what `record.tempUser` reads on a fetched document: the stored candidate, or, for a record stored without one, an object whose name, email and password are all undefined (never a falsy value) |
| UserController.MatchingRecord | src/controllers/user.controller.tsx:74 | the lookup finds a record exactly when one exists for the email with exactly that code |
| UserController.PendingRecord | src/controllers/user.controller.tsx:35-47 | the record signup writes holds the fresh code, expiry now + 600000 ms and the candidate {name, email, hashed password} |
| UserController.SignupStep | src/controllers/user.controller.tsx:15-58 | 400 if and only if a field is empty ("Name, email, and password are required."), the email is malformed ("Invalid email format.") or a user exists ("Email already registered."), checked in that order, and then nothing changes; otherwise no user is created, the email's record is replaced by the pending record, other records are kept, and one OTP mail is delivered with 200 "OTP sent to email." or the send throws with 500 "Internal server error." (record kept); validity of the stores is preserved |
| UserController.VerifyOtpStep | src/controllers/user.controller.tsx:61-116 | a missing email or code gives 400 "Email and OTP are required." and a malformed email 400 "Invalid email format.", with nothing changed; unknown email and wrong code give the same 400 "Invalid OTP or email." with nothing changed; an expired record (strictly before now) is deleted with no user; an existing user deletes the record and leaves users alone; for a matching, unexpired record whose candidate `User.create` accepts, the verified user is stored, the record removed and the welcome mail delivered, answering 201 exactly when the mail is accepted (else 500); when `User.create` throws, 500 and nothing changes; no other path creates a user; validity is preserved |
| UserController.ResendOtpStep | src/controllers/user.controller.tsx:119-159 | 400 with nothing changed exactly when the email is missing ("Email is required."), malformed ("Invalid email format."), a user exists ("User already verified.") or no record exists ("No signup in progress. Please sign up first."), checked in that order; users never change; any change replaces only the record's code and expiry (now + 600000), keeping its email and candidate; when `save()` rejects the updated record (an empty email or code), 500 "Internal server error." and nothing changes; otherwise the resent code is mailed, answering 200 "OTP resent to email." when the mail is accepted and 500 "Internal server error." when the send throws; validity is preserved |
| UserController.Backend.SendEmail | src/utils/mailer.ts:19-26 | the method reports the transport's failure and appends the mail only on success |
| UserController.Backend.Signup | src/controllers/user.controller.tsx:15-58 | the step-by-step handler ends with the response and stores that `SignupStep` names, and keeps the stores valid |
| UserController.Backend.VerifyOtp | src/controllers/user.controller.tsx:61-116 | the step-by-step handler ends with the response and stores that `VerifyOtpStep` names, and keeps the stores valid |
| UserController.Backend.ResendOtp | src/controllers/user.controller.tsx:119-159 | the in-place update and save end with the response and stores that `ResendOtpStep` names, and keep the stores valid |
| UserControllerProperties.VerifyIsSingleUse | src/controllers/user.controller.tsx:97-105 | after a verify that created a user, the same request gets 400 "Invalid OTP or email." and changes nothing |
| UserControllerProperties.UnknownEmailLooksLikeWrongCode | src/controllers/user.controller.tsx:74-77 | an unknown email and a wrong code for a known email get identical responses and leave the stores unchanged |
| UserControllerProperties.ExpiryIsStrict | src/controllers/user.controller.tsx:78-81 | a request at exactly `expiresAt` still creates the user; one millisecond later the record is deleted with the expiry message |
| UserControllerProperties.ResendInvalidatesOldCode | src/controllers/user.controller.tsx:137-149 | a resend keeps the record's email and candidate and sets the new code and expiry; a verify with the old code afterwards is answered as unknown and changes nothing |
| UserControllerProperties.RepeatSignupReplacesCandidate | src/controllers/user.controller.tsx:39-47 | a second signup for an unverified email is accepted; the first code is then unknown, and the second code creates the user of the second signup and removes the record |
| UserControllerProperties.SignupsForDistinctEmailsAreIndependent | src/controllers/user.controller.tsx:39-47 | a signup for another email does not disturb a pending signup: its code still creates its own user |
| UserControllerProperties.VerifyWithoutCandidateFailsAtCreate | src/controllers/user.controller.tsx:90-102 | a live record stored without a candidate is not refused as "User data not found": `User.create` rejects the undefined fields, the answer is 500 and nothing changes |
| UserControllerProperties.ResendWithoutCandidateIssuesCode | src/controllers/user.controller.tsx:137-154 | a resend for a record stored without a candidate is not refused: it answers 200 and stores the new code and expiry |
| UserControllerProperties.SignupResendVerify | src/controllers/user.controller.tsx:15-159 | for any accepted signup: signup, resend, then verify with the new code in time give 200, 200, 201; the verified user is stored with the signup's name and hash, and no record remains |
| UserControllerProperties.SignupResendVerifyScenario | src/controllers/user.controller.tsx:15-159 | signup("Alice", "a@x.com", "pw1"), then resend, then verify with the new code: 200, 200, 201; the verified user Alice is stored and no record remains |
| UserControllerProperties.Handle | src/routes/user.routes.ts:6-8 | dispatching any request to its handler preserves validity of the stores |
| UserControllerProperties.RunPreservesValid | src/routes/user.routes.ts:6-8 | any sequence of signup, verify and resend requests from a valid store ends in a valid store |
| UserControllerProperties.ReachableStoresAreValid | src/models/user.model.ts:11-14 | from empty collections, every stored user sits under its own email, is verified and has a non-empty name, email and password; every record sits under its own email |
| LegacyUserController.UpsertCode | src/controllers/user.controller.ts:25-29 | the upsert sets code and expiry on the email's record and keeps its other paths (a candidate included), or inserts a record with no candidate; other records are kept |
| LegacyUserController.SignupStep | src/controllers/user.controller.ts:8-41 | 400 with nothing changed if and only if a user exists for the email (no other check); otherwise users are unchanged, the code is upserted with expiry now + 600000, the global slot is overwritten with the new candidate whatever it held, and the OTP mail is delivered with 200 "OTP sent to email", or the send throws and the answer is 500 with the transport's message |
| LegacyUserController.VerifyOtpStep | src/controllers/user.controller.ts:43-81 | no record, wrong code or expired: 400 and nothing deleted; an existing user: the record is deleted, no user created; an empty slot or one holding another email: 400 "User data not found", record kept; with the slot holding this email's candidate and the candidate schema-valid, the verified user is stored, record and slot are cleared and the "Registration Successful" mail is delivered, answering 201 exactly when the mail is accepted (else 500 with the transport's message); a schema-invalid candidate gives 500 with the validation message and nothing changes; no other path creates a user; validity is preserved |
| LegacyUserController.ResendOtpStep | src/controllers/user.controller.ts:83-107 | 400 if and only if a user exists, and then nothing changes; otherwise a code is always upserted and mailed, whether or not a signup was started, answering 200 "OTP resent to email" when the mail is accepted and 500 with the transport's message when the send throws |
| LegacyUserController.LegacyBackend.SendEmail | src/utils/mailer.ts:19-26 | the method reports the transport's failure and appends the mail only on success |
| LegacyUserController.LegacyBackend.UpsertOtp | src/controllers/user.controller.ts:25-29 | the in-place upsert leaves the collection `UpsertCode` names |
| LegacyUserController.LegacyBackend.Signup | src/controllers/user.controller.ts:8-41 | the step-by-step handler, slot write included, ends with what `SignupStep` names and keeps the stores valid |
| LegacyUserController.LegacyBackend.VerifyOtp | src/controllers/user.controller.ts:43-81 | the step-by-step handler, slot clearing included, ends with what `VerifyOtpStep` names and keeps the stores valid |
| LegacyUserController.LegacyBackend.ResendOtp | src/controllers/user.controller.ts:83-107 | the step-by-step handler ends with what `ResendOtpStep` names and keeps the stores valid |
| LegacyUserControllerProperties.SignupThenVerify | src/controllers/user.controller.ts:65-77 | signup, then verify with the code in time: 201; the verified user is stored, and the record and slot are cleared |
| LegacyUserControllerProperties.SecondSignupBreaksFirstVerification | src/controllers/user.controller.ts:59-62 | after signups for two different emails, the first email's code, used in time, gets 400 "User data not found" with its record kept and no user created |
| LegacyUserControllerProperties.ResendWithoutSignupCannotCommit | src/controllers/user.controller.ts:88-99 | a resend for an email with no user and no slot entry issues a code; verifying it gets 400 "User data not found" and keeps the record |
| LegacyUserControllerProperties.VerifyIsSingleUse | src/controllers/user.controller.ts:65-73 | after a verify that created a user, the same request gets 400 "Invalid or expired OTP" and changes nothing |
| LegacyUserControllerProperties.EmptyNameFailsAtCommit | src/controllers/user.controller.ts:8-32 | an empty name is accepted at signup (200), and the commit then fails schema validation with 500, leaving the record and slot |
| LegacyUserControllerProperties.Handle | src/routes/user.routes.ts:6-8 | dispatching any request preserves validity of the stores |
| LegacyUserControllerProperties.RunPreservesValid | src/routes/user.routes.ts:6-8 | any sequence of signup, verify and resend requests from a valid store ends in a valid store |
| LegacyUserControllerProperties.ReachableUsersAreVerified | src/models/user.model.ts:11-14 | from empty collections and an empty slot, every stored user sits under its own email, is verified and is schema-valid |

## Left out

- Token issuance and login: neither appears in the handlers. `verifyOtp` answers with a message only.
- bcrypt, `generateOtp` and the clock are parameters. `src/utils/otp` is not part of this model, so the format of a code is not constrained.
- Email templates (`src/emails/*.tsx`): a rendered template is an opaque `Body` value holding its props. Rendering failures are not modelled.
- The SMTP transport (`src/utils/mailer.ts:9-17`): a send either lands in the outbox or throws, as the `mailFailure` parameter says.
- Database failures other than schema validation and the unique email index, and so the 500 answers they cause, are not modelled.
- Concurrency: each handler is one atomic step. The Otp schema has no unique index, so two interleaved upserts could store two records for one email. The map keyed by email does not represent that.
- Request bodies: an absent field is modelled as the empty string. In the current revision both are falsy and take the same branch. Non-string JSON values are not modelled.
- LegacyUserController.SignupStep: an absent field is not the empty string in this revision, and the model does not tell them apart. An absent password reaches `bcrypt.hash(undefined, 12)` (`user.controller.ts:18`), which throws; the source then answers 500 with bcrypt's message and writes neither the record nor the slot. The model hashes "" and answers 200.
- LegacyUserController.VerifyOtpStep: a verify request without an `otp` field is modelled as the empty code and refused with 400 "Invalid or expired OTP". In the source the code is never checked (`user.controller.ts:45-47`). A filter key whose value is `undefined` is dropped from the query, so `Otp.findOne({ email, otp })` then finds the email's record whatever its code. Such a request, made within ten minutes of a signup, would commit the candidate. The model does not capture this input.
- LegacyUserController: an absent `email` reaches the Mongoose queries as `undefined`; what those queries then match is not modelled.
- Document `_id`s are not modelled, and neither are the document-level `new: true` results, which no handler reads.
- The `\s` class is checked on Unicode code points; JavaScript sees UTF-16 code units. No white-space character and no '@' is a surrogate, so the two readings accept the same strings.
- LegacyUserController.VerifyOtpStep: a 500 after a failed insert carries a fixed abbreviation of Mongoose's error text. Mongoose's full message also lists the offending paths.
- `src/recommend.ts`: file reading, the embedding store and the LLM calls are outside the signup flow.
- `src/server.ts`, `src/app.ts` and `src/middlewares/error.middleware.ts`: Express and Mongoose wiring.

## Findings

| source | as written | input that shows it | evidently intended | confidence | as-written member | corrected member |
|---|---|---|---|---|---|---|
| src/controllers/user.controller.ts:59-62 | the candidate is kept in one process-wide slot that every signup overwrites, and verify rejects a code whose email is not the slot's | signup for A, then signup for B ≠ A, then verify A with A's code within ten minutes: 400 "User data not found. Please signup again.", and A cannot complete | each pending signup keeps its own candidate (the current revision stores it in the OTP record) | high; not executed | LegacyUserControllerProperties.SecondSignupBreaksFirstVerification | UserControllerProperties.SignupsForDistinctEmailsAreIndependent |
| src/controllers/user.controller.ts:8-32 | signup checks no field, so an empty name is accepted and a code is mailed | signup with name "", then verify with the mailed code: 500 from User validation; the record and slot stay | refuse an empty field at signup with 400 (the current revision does) | medium; not executed | LegacyUserControllerProperties.EmptyNameFailsAtCommit | UserController.SignupStep |
