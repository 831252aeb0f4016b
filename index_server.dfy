/**
 * server/index.js: the alternate server's `POST /api/contact` handler. It runs
 * the same validator, does not verify the transport, and sends one mail, to the
 * owner; that send alone decides between 200 and 500.
 */
module IndexServer {

  import opened Wrappers
  import opened JsText
  import opened Validation
  import opened Api
  import ContactServer

  /** The sender used when `EMAIL_USER` is unset or empty. */
  const DefaultSender: JsString := Text("your-email@gmail.com")

  /** The factory name the file calls. */
  const FactoryAsWritten := "createTransporter"

  /**
   * `process.env.EMAIL_USER || 'your-email@gmail.com'`: the configured address
   * when it is set and not empty, the placeholder otherwise; never empty.
   */
  function Sender(emailUser: Option<JsString>): (r: JsString)
    ensures r != []
    ensures r == DefaultSender || Some(r) == emailUser
    ensures Truthy(emailUser) ==> r == emailUser.value
  {
    if Truthy(emailUser) then emailUser.value else DefaultSender
  }

  /**
   * The one mail: from the configured sender to the owner, with no reply-to
   * address, naming the submitter in the subject and showing the four fields as
   * submitted.
   */
  function NotificationMail(form: ContactForm, emailUser: Option<JsString>): (m: Mail)
    requires Present(form)
    ensures m.from == Sender(emailUser)
    ensures m.to == OwnerAddress && m.replyTo == None
    ensures m.subject == SubjectPrefix + form.name.value
    ensures m.body == Notification(form.name.value, form.phone.value, form.email.value, form.message.value)
  {
    Mail(
      Sender(emailUser),
      OwnerAddress,
      None,
      SubjectPrefix + form.name.value,
      Notification(form.name.value, form.phone.value, form.email.value, form.message.value))
  }

  /**
   * The handler, with the transport built by `nodemailer.<factory>(...)`; a throw
   * after validation lands in the outer `catch` and its generic 500. `delivered`
   * is the outcome of the single `sendMail`.
   */
  function HandleContactWith(factory: string, form: ContactForm, emailUser: Option<JsString>, delivered: bool): (x: Exchange)
  {
    match ValidateContactForm(form)
    case Some(error) => Exchange(Json(400, false, error), false, [])
    case None =>
      if !IsMailerFactory(factory) then Exchange(Json(500, false, SendFailureMessage), false, [])
      else
        var mails := [NotificationMail(form, emailUser)];
        if delivered then Exchange(Json(200, true, SuccessMessage), false, mails)
        else Exchange(Json(500, false, SendFailureMessage), false, mails)
  }

  /** The handler with the library's factory, `createTransport`. */
  function HandleContact(form: ContactForm, emailUser: Option<JsString>, delivered: bool): (x: Exchange)
    ensures ValidateContactForm(form).Some? ==>
      x == Exchange(Json(400, false, ValidateContactForm(form).value), false, [])
    ensures Accepted(form) ==> x.mails == [NotificationMail(form, emailUser)]
    ensures x.reply.Status() == 200 <==> Accepted(form) && delivered
    ensures Accepted(form) && !delivered ==> x.reply == Json(500, false, SendFailureMessage)
    ensures x.reply.Status() == 200 ==> x.reply == Json(200, true, SuccessMessage)
    ensures !x.verified
  {
    HandleContactWith("createTransport", form, emailUser, delivered)
  }

  /**
   * The handler as the file writes it, calling `nodemailer.createTransporter`:
   * it rejects what the corrected handler rejects, and answers every valid
   * submission with the generic 500, before sending anything.
   */
  function HandleContactAsWritten(form: ContactForm, emailUser: Option<JsString>, delivered: bool): (x: Exchange)
    ensures !Accepted(form) ==> x == HandleContact(form, emailUser, delivered)
    ensures Accepted(form) ==> x == Exchange(Json(500, false, SendFailureMessage), false, [])
  {
    HandleContactWith(FactoryAsWritten, form, emailUser, delivered)
  }

  // ---------------------------------------------------------------------------

  /**
   * A valid submission produces exactly one mail, to the owner, naming the
   * submitter in the subject and carrying the raw fields; a failed send never
   * yields a 200.
   */
  lemma OneMailToOwner(form: ContactForm, emailUser: Option<JsString>, delivered: bool)
    requires Accepted(form)
    ensures var x := HandleContact(form, emailUser, delivered);
      && |x.mails| == 1
      && x.mails[0].to == OwnerAddress
      && x.mails[0].subject == SubjectPrefix + form.name.value
      && x.mails[0].body == Notification(form.name.value, form.phone.value, form.email.value, form.message.value)
    ensures !delivered ==> HandleContact(form, emailUser, delivered).reply.Status() == 500
  {
  }

  /**
   * The two servers answer an invalid submission identically, and for a valid one
   * this server's mail has the recipient, subject and body of the other server's
   * notification; only the other server's lets the owner reply to the submitter.
   */
  lemma ServersAgree(form: ContactForm, emailUser: Option<JsString>, delivered: bool, t: ContactServer.Transport)
    ensures !Accepted(form) ==>
      HandleContact(form, emailUser, delivered) == ContactServer.HandleContact(form, emailUser, t)
    ensures Accepted(form) ==>
      var m, n := NotificationMail(form, emailUser), ContactServer.NotificationMail(form, emailUser);
      && m.to == n.to && m.subject == n.subject && m.body == n.body
      && m.replyTo == None && n.replyTo == form.email
  {
  }
}
