/**
 * Both servers build their transport with `nodemailer.createTransporter`, a name
 * the mail library does not export (its factory is `createTransport`). As written,
 * every submission that passes validation throws a TypeError there and is
 * answered with the generic 500: no mail is ever sent and no contact submission
 * succeeds.
 * The rest of the model uses the handlers with the library's factory.
 */
module Findings {

  import opened Wrappers
  import opened JsText
  import opened Validation
  import opened Api
  import ValidationExamples
  import ContactServer
  import IndexServer

  /** server/contact.js as written: no contact submission succeeds, and nothing is verified or sent. */
  lemma ContactAsWrittenNeverSucceeds(form: ContactForm, emailUser: Option<JsString>, t: ContactServer.Transport)
    ensures var x := ContactServer.HandleContactAsWritten(form, emailUser, t);
      x.reply.Status() != 200 && !x.verified && x.mails == []
    ensures Accepted(form) ==>
      ContactServer.HandleContactAsWritten(form, emailUser, t).reply == Json(500, false, SendFailureMessage)
  {
  }

  /** server/index.js as written: no contact submission succeeds, and nothing is sent. */
  lemma IndexAsWrittenNeverSucceeds(form: ContactForm, emailUser: Option<JsString>, delivered: bool)
    ensures var x := IndexServer.HandleContactAsWritten(form, emailUser, delivered);
      x.reply.Status() != 200 && x.mails == []
    ensures Accepted(form) ==>
      IndexServer.HandleContactAsWritten(form, emailUser, delivered).reply == Json(500, false, SendFailureMessage)
  {
  }

  /**
   * The sample valid submission, with a transport that verifies and delivers:
   * the handlers as written answer 500, the corrected ones 200.
   */
  lemma SampleSubmissionShowsIt(emailUser: Option<JsString>)
    ensures var t := ContactServer.Transport(true, true, true);
      && ContactServer.HandleContactAsWritten(ValidationExamples.Sample(), emailUser, t).reply.Status() == 500
      && ContactServer.HandleContact(ValidationExamples.Sample(), emailUser, t).reply.Status() == 200
    ensures IndexServer.HandleContactAsWritten(ValidationExamples.Sample(), emailUser, true).reply.Status() == 500
    ensures IndexServer.HandleContact(ValidationExamples.Sample(), emailUser, true).reply.Status() == 200
  {
    ValidationExamples.SampleSubmissionAccepted();
  }
}
