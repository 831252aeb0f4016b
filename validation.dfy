/**
 * `validateContactForm`, the request validator both Express servers run before
 * any side effect. The two copies (server/contact.js and server/index.js) are the
 * same code line for line and are modelled once here.
 *
 * The four checks run in a fixed order and the first one that fails decides the
 * single message returned; `None` stands for the source's `null` ("valid").
 */
module Validation {

  import opened Wrappers
  import opened JsText
  import opened EmailPattern

  /**
   * The four fields of the JSON request body. A field the body does not carry is
   * `None` (JavaScript's `undefined`); fields are otherwise strings.
   */
  datatype ContactForm = ContactForm(
    name: Option<JsString>,
    phone: Option<JsString>,
    email: Option<JsString>,
    message: Option<JsString>)

  const NameError := "Name must be at least 2 characters long"
  const PhoneError := "Please provide a valid 10-digit phone number"
  const EmailError := "Please provide a valid email address"
  const MessageError := "Message must be at least 10 characters long"

  /** JavaScript truthiness of an optional string: present and not empty. */
  predicate Truthy(v: Option<JsString>) {
    v.Some? && v.value != []
  }

  /** `!name || name.trim().length < 2` is false. */
  predicate NameOk(name: Option<JsString>) {
    Truthy(name) && |Trim(name.value)| >= 2
  }

  /** `!phone || !/^\d{10}$/.test(phone.replace(/\D/g, ''))` is false. */
  predicate PhoneOk(phone: Option<JsString>) {
    Truthy(phone) && IsTenDigits(StripNonDigits(phone.value))
  }

  /** `!email || !/^[^\s@]+@[^\s@]+\.[^\s@]+$/.test(email)` is false. */
  predicate EmailOk(email: Option<JsString>) {
    Truthy(email) && IsWellShapedEmail(email.value)
  }

  /** `!message || message.trim().length < 10` is false. */
  predicate MessageOk(message: Option<JsString>) {
    Truthy(message) && |Trim(message.value)| >= 10
  }

  /** All four fields were submitted; the mails read them as they came. */
  predicate Present(f: ContactForm) {
    f.name.Some? && f.phone.Some? && f.email.Some? && f.message.Some?
  }

  predicate Accepted(f: ContactForm) {
    NameOk(f.name) && PhoneOk(f.phone) && EmailOk(f.email) && MessageOk(f.message)
  }

  /**
   * The validator: `None` when every check passes; otherwise the message of the
   * first check that fails, in the order name, phone, email, message.
   */
  function ValidateContactForm(f: ContactForm): (r: Option<string>)
    ensures r == None <==> Accepted(f)
    ensures r == Some(NameError) <==> !NameOk(f.name)
    ensures r == Some(PhoneError) <==> NameOk(f.name) && !PhoneOk(f.phone)
    ensures r == Some(EmailError) <==> NameOk(f.name) && PhoneOk(f.phone) && !EmailOk(f.email)
    ensures r == Some(MessageError) <==>
      NameOk(f.name) && PhoneOk(f.phone) && EmailOk(f.email) && !MessageOk(f.message)
  {
    if !NameOk(f.name) then Some(NameError)
    else if !PhoneOk(f.phone) then Some(PhoneError)
    else if !EmailOk(f.email) then Some(EmailError)
    else if !MessageOk(f.message) then Some(MessageError)
    else None
  }

  // ---------------------------------------------------------------------------
  // What the result can be.

  /** A rejection is always one of the four fixed messages, never an empty one. */
  lemma RejectionIsOneOfFour(f: ContactForm)
    ensures ValidateContactForm(f).Some? ==>
      ValidateContactForm(f).value in {NameError, PhoneError, EmailError, MessageError}
    ensures ValidateContactForm(f).Some? ==> ValidateContactForm(f).value != ""
  {
  }

  /**
   * A check's verdict does not depend on the fields checked after it: an invalid
   * name is reported as such whatever the other three fields hold, an invalid
   * phone whatever the email and message hold, and so on.
   */
  lemma EarlierFailureWins(f: ContactForm, phone: Option<JsString>, email: Option<JsString>, message: Option<JsString>)
    ensures !NameOk(f.name) ==>
      ValidateContactForm(ContactForm(f.name, phone, email, message)) == Some(NameError)
    ensures NameOk(f.name) && !PhoneOk(f.phone) ==>
      ValidateContactForm(ContactForm(f.name, f.phone, email, message)) == Some(PhoneError)
    ensures NameOk(f.name) && PhoneOk(f.phone) && !EmailOk(f.email) ==>
      ValidateContactForm(ContactForm(f.name, f.phone, f.email, message)) == Some(EmailError)
  {
  }

  /** A missing or empty field never validates. */
  lemma MissingFieldRejected(f: ContactForm)
    requires !Truthy(f.name) || !Truthy(f.phone) || !Truthy(f.email) || !Truthy(f.message)
    ensures ValidateContactForm(f).Some?
  {
  }

  // ---------------------------------------------------------------------------
  // The phone check looks at the digits only.

  /** The phone check holds exactly when the phone has ten digits, wherever they stand. */
  lemma PhoneOkIffTenDigits(phone: JsString)
    ensures PhoneOk(Some(phone)) <==> |StripNonDigits(phone)| == 10
  {
    if |StripNonDigits(phone)| == 10 {
      assert phone != [];
    }
  }

  /**
   * Two phones with the same digit subsequence get the same verdict, and so do
   * whole submissions that differ only in such phones.
   */
  lemma PhoneVerdictDependsOnDigitsOnly(f: ContactForm, p: JsString, q: JsString)
    requires StripNonDigits(p) == StripNonDigits(q)
    ensures PhoneOk(Some(p)) == PhoneOk(Some(q))
    ensures ValidateContactForm(f.(phone := Some(p))) == ValidateContactForm(f.(phone := Some(q)))
  {
    PhoneOkIffTenDigits(p);
    PhoneOkIffTenDigits(q);
  }

  // ---------------------------------------------------------------------------
  // The e-mail check is the pattern test.

  /** The e-mail check holds exactly when the field matches the pattern. */
  lemma EmailOkIffPattern(email: JsString)
    ensures EmailOk(Some(email)) <==> MatchesEmailPattern(email)
  {
    EmailShapeIsPattern(email);
  }

  // ---------------------------------------------------------------------------
  // Name and message are judged after trimming.

  /** Surrounding whitespace changes neither the name verdict nor the message verdict. */
  lemma TrimmedChecksIgnorePadding(s: JsString, p: JsString, q: JsString)
    requires AllWhiteSpace(p) && AllWhiteSpace(q)
    ensures NameOk(Some(p + s + q)) == NameOk(Some(s))
    ensures MessageOk(Some(p + s + q)) == MessageOk(Some(s))
  {
    TrimIgnoresPadding(p, s, q);
  }

  /**
   * Padding the name and the message with whitespace, each with its own padding,
   * leaves the whole verdict as it was.
   */
  lemma PaddingKeepsVerdict(f: ContactForm, name: JsString, message: JsString,
                            p1: JsString, q1: JsString, p2: JsString, q2: JsString)
    requires AllWhiteSpace(p1) && AllWhiteSpace(q1) && AllWhiteSpace(p2) && AllWhiteSpace(q2)
    ensures ValidateContactForm(f.(name := Some(p1 + name + q1), message := Some(p2 + message + q2)))
         == ValidateContactForm(f.(name := Some(name), message := Some(message)))
  {
    TrimmedChecksIgnorePadding(name, p1, q1);
    TrimmedChecksIgnorePadding(message, p2, q2);
  }

  /** A name (or message) made only of whitespace fails however long it is. */
  lemma BlankFieldRejected(f: ContactForm, blank: JsString)
    requires AllWhiteSpace(blank)
    ensures ValidateContactForm(f.(name := Some(blank))) == Some(NameError)
    ensures NameOk(f.name) && PhoneOk(f.phone) && EmailOk(f.email) ==>
      ValidateContactForm(f.(message := Some(blank))) == Some(MessageError)
  {
  }
}
