/**
 * The requests src/routes/user.routes.ts routes to the handlers, the same
 * three in both controller revisions, together with what the environment
 * supplies while one is handled.
 */
module Routes {
  import opened Wrappers

  /** A request body as the router delivers it to its handler. */
  datatype Request =
    | SignupRequest(name: string, email: string, password: string)
    | VerifyOtpRequest(email: string, otp: string)
    | ResendOtpRequest(email: string)

  /**
   * One request with the clock reading, the code `generateOtp()` returns,
   * the password hash and the mail transport's failure, if any.
   */
  datatype Event = Event(request: Request, now: int, code: string, hash: string -> string, mailFailure: Option<string>)
}
