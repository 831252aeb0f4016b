/**
 * What the two Express servers share: the JSON replies they send, the mail
 * records they hand to the outbound transport, and the mail library's factory.
 */
module Api {

  import opened Wrappers
  import opened JsText

  /**
   * A reply as the client sees it. Its message is one of the servers' fixed
   * ASCII texts. Nothing in the model measures or scans it, so it stays a plain
   * Dafny `string`, unlike the request and mail fields, which are `JsString`.
   */
  datatype Reply =
    | Json(status: int, success: bool, message: string)  // body `{ success, message }`
    | HealthReport                                       // 200, body `{ status: "OK", timestamp, ... }`
    | TooManyRequests                                    // 429 from the per-address limiter
    | NoContent                                          // 204, the CORS preflight answer
  {
    function Status(): int {
      match this
      case Json(status, _, _) => status
      case HealthReport => 200
      case TooManyRequests => 429
      case NoContent => 204
    }
  }

  /**
   * The HTML body of a mail, kept abstract: which submitted values it shows.
   * The values are interpolated exactly as submitted; nothing is escaped, and the
   * phone is the raw field, not its digits.
   */
  datatype MailBody =
    | Notification(name: JsString, phone: JsString, email: JsString, message: JsString)
    | Acknowledgment(name: JsString, message: JsString)

  /** The options passed to `sendMail`. */
  datatype Mail = Mail(
    from: JsString,
    to: JsString,
    replyTo: Option<JsString>,
    subject: JsString,
    body: MailBody)

  /**
   * What one request leads to: the reply, whether the transport was asked to
   * verify its configuration, and the mails handed to the transport, in order.
   */
  datatype Exchange = Exchange(reply: Reply, verified: bool, mails: seq<Mail>)

  const SuccessMessage := "Your message has been sent successfully! We will get back to you soon."
  const SendFailureMessage :=
    "Sorry, there was an error sending your message. Please try again or contact us directly."

  /** The business owner's mailbox, which receives every notification. */
  const OwnerAddress: JsString := Text("shrinidhi.jagannath@gmail.com")

  const SubjectPrefix: JsString := Text("New Contact Form Submission - ")

  /**
   * Whether `nodemailer.<name>(...)` returns a transport. The library's factory
   * is `createTransport`; any other property of the module is `undefined`, and
   * calling it throws a TypeError.
   */
  predicate IsMailerFactory(name: string) {
    name == "createTransport"
  }
}
