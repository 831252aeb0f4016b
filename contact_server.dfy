/**
 * server/contact.js: the `POST /api/contact` handler, which validates, verifies
 * the transport and sends two mails (a notification to the owner and an
 * acknowledgment to the submitter), and the routing around it that ends in the
 * 404 fallback.
 *
 * The handler is a function of the request fields, the `EMAIL_USER` environment
 * variable and the transport's outcomes (verify and each send succeed or fail).
 */
module ContactServer {

  import opened Wrappers
  import opened JsText
  import opened Validation
  import opened Api

  const ConfigErrorMessage := "Email service is not properly configured. Please try again later."
  const AcknowledgmentSubject: JsString := Text("Thank you for contacting Shrinidhi Borewells")

  /** The factory name the file calls. */
  const FactoryAsWritten := "createTransporter"

  /** How the outbound transport behaves for one request. */
  datatype Transport = Transport(verifies: bool, notificationSent: bool, acknowledgmentSent: bool)

  /** The fixed pieces of the two senders, `"<name>" <address>`. */
  const OpenQuote: JsString := Text("\"")
  const CloseQuoteOpenAngle: JsString := Text("\" <")
  const CloseAngle: JsString := Text(">")
  const CompanySenderOpen: JsString := Text("\"Shrinidhi Borewells\" <")

  /** How a template literal prints a variable that is not set. */
  const Undefined: JsString := Text("undefined")

  /** A template literal prints an unset environment variable as "undefined". */
  function Interpolate(v: Option<JsString>): JsString
  {
    match v
    case Some(s) => s
    case None => Undefined
  }

  /**
   * The mail to the owner: the sender is shown under the submitter's name, and
   * replies go to the submitter. The body shows the four fields as submitted:
   * the raw phone rather than its digits, and name and message unescaped.
   */
  function NotificationMail(form: ContactForm, emailUser: Option<JsString>): (m: Mail)
    requires Present(form)
    ensures m.to == OwnerAddress && m.replyTo == form.email
    ensures m.subject == SubjectPrefix + form.name.value
    ensures m.body == Notification(form.name.value, form.phone.value, form.email.value, form.message.value)
    ensures emailUser.Some? ==> m.from == OpenQuote + form.name.value + CloseQuoteOpenAngle + emailUser.value + CloseAngle
    ensures emailUser == None ==> m.from == OpenQuote + form.name.value + CloseQuoteOpenAngle + Undefined + CloseAngle
  {
    Mail(
      OpenQuote + form.name.value + CloseQuoteOpenAngle + Interpolate(emailUser) + CloseAngle,
      OwnerAddress,
      Some(form.email.value),
      SubjectPrefix + form.name.value,
      Notification(form.name.value, form.phone.value, form.email.value, form.message.value))
  }

  /**
   * The automatic reply to the submitter, with a fixed subject and no reply-to
   * address; its body shows the submitted name and message, unescaped.
   */
  function AcknowledgmentMail(form: ContactForm, emailUser: Option<JsString>): (m: Mail)
    requires Present(form)
    ensures m.to == form.email.value && m.replyTo == None
    ensures m.subject == AcknowledgmentSubject
    ensures m.body == Acknowledgment(form.name.value, form.message.value)
    ensures emailUser.Some? ==> m.from == CompanySenderOpen + emailUser.value + CloseAngle
    ensures emailUser == None ==> m.from == CompanySenderOpen + Undefined + CloseAngle
  {
    Mail(
      CompanySenderOpen + Interpolate(emailUser) + CloseAngle,
      form.email.value,
      None,
      AcknowledgmentSubject,
      Acknowledgment(form.name.value, form.message.value))
  }

  /**
   * The handler, with the transport built by `nodemailer.<factory>(...)`. A throw
   * anywhere after validation lands in the outer `catch` and its generic 500.
   * Both mails are handed to the transport together (`Promise.all`), so both are
   * attempted even when one of them fails.
   */
  function HandleContactWith(factory: string, form: ContactForm, emailUser: Option<JsString>, t: Transport): (x: Exchange)
  {
    match ValidateContactForm(form)
    case Some(error) => Exchange(Json(400, false, error), false, [])
    case None =>
      if !IsMailerFactory(factory) then Exchange(Json(500, false, SendFailureMessage), false, [])
      else if !t.verifies then Exchange(Json(500, false, ConfigErrorMessage), true, [])
      else
        var mails := [NotificationMail(form, emailUser), AcknowledgmentMail(form, emailUser)];
        if t.notificationSent && t.acknowledgmentSent then Exchange(Json(200, true, SuccessMessage), true, mails)
        else Exchange(Json(500, false, SendFailureMessage), true, mails)
  }

  /** The handler with the library's factory, `createTransport`. */
  function HandleContact(form: ContactForm, emailUser: Option<JsString>, t: Transport): (x: Exchange)
    ensures ValidateContactForm(form).Some? ==>
      x == Exchange(Json(400, false, ValidateContactForm(form).value), false, [])
    ensures x.verified <==> Accepted(form)
    ensures Accepted(form) && !t.verifies ==>
      x.reply == Json(500, false, ConfigErrorMessage) && x.mails == []
    ensures Accepted(form) && t.verifies ==>
      x.mails == [NotificationMail(form, emailUser), AcknowledgmentMail(form, emailUser)]
    ensures x.reply.Status() == 200 <==>
      Accepted(form) && t.verifies && t.notificationSent && t.acknowledgmentSent
    ensures Accepted(form) && t.verifies && !(t.notificationSent && t.acknowledgmentSent) ==>
      x.reply == Json(500, false, SendFailureMessage)
    ensures x.reply.Json? && x.reply.success <==> x.reply.Status() == 200
    ensures x.reply.Status() == 200 ==> x.reply == Json(200, true, SuccessMessage)
  {
    HandleContactWith("createTransport", form, emailUser, t)
  }

  /**
   * The handler as the file writes it, calling `nodemailer.createTransporter`:
   * it rejects what the corrected handler rejects, and answers every valid
   * submission with the generic 500, before verifying or sending anything.
   */
  function HandleContactAsWritten(form: ContactForm, emailUser: Option<JsString>, t: Transport): (x: Exchange)
    ensures !Accepted(form) ==> x == HandleContact(form, emailUser, t)
    ensures Accepted(form) ==> x == Exchange(Json(500, false, SendFailureMessage), false, [])
  {
    HandleContactWith(FactoryAsWritten, form, emailUser, t)
  }

  // ---------------------------------------------------------------------------
  // Properties of the handler.

  /**
   * Validation comes before every side effect: an invalid submission gets the
   * same 400 reply whatever the transport and the environment, and nothing is
   * verified or sent.
   */
  lemma RejectionIgnoresTransport(form: ContactForm, u1: Option<JsString>, t1: Transport, u2: Option<JsString>, t2: Transport)
    requires !Accepted(form)
    ensures HandleContact(form, u1, t1) == HandleContact(form, u2, t2)
    ensures HandleContact(form, u1, t1).reply.Status() == 400
    ensures !HandleContact(form, u1, t1).verified && HandleContact(form, u1, t1).mails == []
  {
  }

  /**
   * A success reply means both mails were handed over and delivered: one to the
   * owner, replying to the submitter, and one to the submitter.
   */
  lemma SuccessMeansBothDelivered(form: ContactForm, emailUser: Option<JsString>, t: Transport)
    requires HandleContact(form, emailUser, t).reply.Status() == 200
    ensures t.verifies && t.notificationSent && t.acknowledgmentSent
    ensures var x := HandleContact(form, emailUser, t);
      && |x.mails| == 2
      && x.mails[0].to == OwnerAddress && x.mails[0].replyTo == form.email
      && x.mails[1].to == form.email.value
  {
  }

  /**
   * Every mail goes to the owner or to the submitted address; the notification
   * names the submitter in its subject and the acknowledgment has a fixed one.
   */
  lemma MailsAddressed(form: ContactForm, emailUser: Option<JsString>, t: Transport)
    ensures var x := HandleContact(form, emailUser, t);
      forall m | m in x.mails :: m.to == OwnerAddress || Some(m.to) == form.email
    ensures var x := HandleContact(form, emailUser, t);
      x.mails != [] ==>
        && x.mails[0].subject == SubjectPrefix + form.name.value
        && x.mails[1].subject == AcknowledgmentSubject
        && x.mails[1].replyTo == None
  {
  }

  // ---------------------------------------------------------------------------
  // Routing: the middleware and routes in the order the file registers them.

  /** The request body as the JSON and URL-encoded parsers leave it. */
  datatype Body = Parsed(form: ContactForm) | Unparsable

  /**
   * One request: HTTP method, path (without the query string), body, and whether the
   * per-address limiter on the contact route has already counted five requests
   * in the current window.
   */
  datatype Request = Request(verb: string, path: JsString, body: Body, overLimit: bool)

  const ContactPath: JsString := Text("/api/contact")
  const HealthPath: JsString := Text("/api/health")
  const NotFoundMessage := "Endpoint not found"
  const ServerErrorMessage := "Something went wrong!"
  const Slash: CodeUnit := 0x2F

  /** ASCII letters to lower case; every other unit unchanged. */
  function LowerAscii(u: CodeUnit): CodeUnit
  {
    if 0x41 <= u <= 0x5A then u + 0x20 else u
  }

  predicate SameIgnoringCase(a: JsString, b: JsString) {
    |a| == |b| && forall i | 0 <= i < |a| :: LowerAscii(a[i]) == LowerAscii(b[i])
  }

  /**
   * Express's route match with its default options: letters compare without
   * regard to case and a single trailing '/' is allowed.
   */
  predicate RouteMatches(path: JsString, route: JsString) {
    || SameIgnoringCase(path, route)
    || (|path| == |route| + 1 && path[|route|] == Slash && SameIgnoringCase(path[..|route|], route))
  }

  predicate IsContactRoute(req: Request) {
    req.verb == "POST" && RouteMatches(req.path, ContactPath)
  }

  /** Express answers HEAD with the GET route. */
  predicate IsHealthRoute(req: Request) {
    (req.verb == "GET" || req.verb == "HEAD") && RouteMatches(req.path, HealthPath)
  }

  /**
   * The application: the CORS middleware answers every preflight; a body the
   * parsers refuse goes to the error middleware; then the contact route (behind
   * its limiter), the health route, and the 404 fallback.
   */
  function Route(req: Request, emailUser: Option<JsString>, t: Transport): (x: Exchange)
    ensures req.verb == "OPTIONS" ==> x == Exchange(NoContent, false, [])
    ensures req.verb != "OPTIONS" && req.body.Unparsable? ==>
      x == Exchange(Json(500, false, ServerErrorMessage), false, [])
    ensures req.body.Parsed? && IsContactRoute(req) && req.overLimit ==>
      x == Exchange(TooManyRequests, false, [])
    ensures req.body.Parsed? && IsHealthRoute(req) ==> x == Exchange(HealthReport, false, [])
  {
    if req.verb == "OPTIONS" then Exchange(NoContent, false, [])
    else if req.body.Unparsable? then Exchange(Json(500, false, ServerErrorMessage), false, [])
    else if IsContactRoute(req) then
      if req.overLimit then Exchange(TooManyRequests, false, [])
      else HandleContact(req.body.form, emailUser, t)
    else if IsHealthRoute(req) then Exchange(HealthReport, false, [])
    else Exchange(Json(404, false, NotFoundMessage), false, [])
  }

  /** The 404 fallback answers exactly the parsed, non-preflight requests no route takes. */
  lemma NotFoundExactlyWhenUnrouted(req: Request, emailUser: Option<JsString>, t: Transport)
    ensures Route(req, emailUser, t).reply == Json(404, false, NotFoundMessage) <==>
      req.verb != "OPTIONS" && req.body.Parsed? && !IsContactRoute(req) && !IsHealthRoute(req)
  {
    if IsContactRoute(req) && req.body.Parsed? && !req.overLimit {
      var x := HandleContact(req.body.form, emailUser, t);
      assert x.reply.Status() != 404;
    }
  }

  /** Mail leaves only through the contact route, within the limit, for a valid submission. */
  lemma OnlyContactRouteSendsMail(req: Request, emailUser: Option<JsString>, t: Transport)
    requires Route(req, emailUser, t).mails != []
    ensures IsContactRoute(req) && req.body.Parsed? && !req.overLimit
    ensures Accepted(req.body.form) && t.verifies
  {
  }

  /** Below the limit, a parsed POST to the contact path gets exactly the handler's exchange. */
  lemma ContactRouteRunsHandler(req: Request, emailUser: Option<JsString>, t: Transport)
    requires IsContactRoute(req) && req.body.Parsed? && !req.overLimit
    ensures Route(req, emailUser, t) == HandleContact(req.body.form, emailUser, t)
  {
  }

  /** Path matching ignores letter case and one trailing slash, and nothing more. */
  lemma ContactPathVariants()
    ensures RouteMatches(Text("/API/Contact/"), ContactPath)
    ensures !RouteMatches(Text("/api/contacts"), ContactPath)
    ensures !RouteMatches(Text("/api/contact//"), ContactPath)
  {
    var p := Text("/API/Contact/");
    assert p[..|ContactPath|] == Text("/API/Contact");
    var q := Text("/api/contacts");
    assert q[12] == 0x73;
  }
}
