/**
 * The outgoing mail of src/utils/mailer.ts. The SMTP transport is outside the
 * model: a send either hands the message over (it is appended to the outbox)
 * or throws with some message, in which case nothing is appended.
 */
module Mailer {
  import opened Wrappers

  /** What a message carries: plain text, or one of the two rendered templates. */
  datatype Body =
    | Text(text: string)
    | OtpEmailHtml(name: string, otp: string)
    | WelcomeEmailHtml(name: string, logoUrl: string)

  datatype Mail = Mail(to: string, subject: string, body: Body)

  /**
   * `sendEmail(to, subject, text)`: `failure` is what the transport does with
   * this send, None when it accepts the message, Some(m) when it throws `m`.
   */
  function Deliver(outbox: seq<Mail>, m: Mail, failure: Option<string>): (r: seq<Mail>)
    ensures failure.None? ==> |r| == |outbox| + 1 && r[..|outbox|] == outbox && r[|outbox|] == m
    ensures failure.Some? ==> r == outbox
  {
    if failure.None? then outbox + [m] else outbox
  }
}
