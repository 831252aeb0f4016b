/**
 * Concrete submissions run through the validator: the sample valid
 * submission, its phone normalisation, and a malformed e-mail address.
 */
module ValidationExamples {

  import opened Wrappers
  import opened JsText
  import opened EmailPattern
  import opened Validation

  function Sample(): ContactForm {
    ContactForm(
      Some(Text("Asha Rao")),
      Some(Text("98450 00962")),
      Some(Text("a@b.com")),
      Some(Text("Need a borewell quote please.")))
  }

  /** The sample submission is accepted. */
  lemma SampleSubmissionAccepted()
    ensures ValidateContactForm(Sample()) == None
  {
    SampleNameOk();
    SamplePhoneDigits();
    SampleEmailOk();
    SampleMessageOk();
  }

  lemma SampleNameOk()
    ensures NameOk(Sample().name)
  {
    var name := Sample().name.value;
    assert name[0] == 0x41 && name[7] == 0x6F;
    UntrimmedNameOk(name);
  }

  lemma SampleEmailOk()
    ensures EmailOk(Sample().email)
  {
    var e := Sample().email.value;
    assert e == [0x61, At, 0x62, Dot, 0x63, 0x6F, 0x6D];
    assert SplitsAt(e, 1, 3);
    EmailOkIffPattern(e);
  }

  lemma SampleMessageOk()
    ensures MessageOk(Sample().message)
  {
    var message := Sample().message.value;
    assert message[0] == 0x4E && message[28] == 0x2E;
    UntrimmedMessageOk(message);
  }

  /** The phone "98450 00962" normalises to "9845000962", so it passes the phone check. */
  lemma SamplePhoneDigits()
    ensures StripNonDigits(Text("98450 00962")) == Text("9845000962")
    ensures PhoneOk(Some(Text("98450 00962")))
  {
    var a, b := Text("98450"), Text("00962");
    assert Text("98450 00962") == a + [0x20] + b;
    assert Text("9845000962") == a + b;
    DigitsAroundSpace(a, b);
    PhoneOkIffTenDigits(Text("98450 00962"));
  }

  lemma DigitsAroundSpace(a: JsString, b: JsString)
    requires AllDigits(a) && AllDigits(b)
    ensures StripNonDigits(a + [0x20] + b) == a + b
  {
    var sp: JsString := [0x20];
    StripNonDigitsAppend(a + sp, b);
    StripNonDigitsAppend(a, sp);
    StripNonDigitsKeepsDigits(a);
    StripNonDigitsKeepsDigits(b);
    StripNonDigitsDropsOthers(sp);
    assert StripNonDigits(a + sp) == a;
  }

  /** With a valid name and phone, "not-an-email" draws the e-mail message. */
  lemma MalformedEmailRejected(f: ContactForm)
    requires NameOk(f.name) && PhoneOk(f.phone)
    ensures ValidateContactForm(f.(email := Some(Text("not-an-email")))) == Some(EmailError)
  {
    var e := Text("not-an-email");
    assert e == [0x6E, 0x6F, 0x74, 0x2D, 0x61, 0x6E, 0x2D, 0x65, 0x6D, 0x61, 0x69, 0x6C];
    assert Count(e, At) == 0;
  }

  lemma UntrimmedNameOk(s: JsString)
    requires |s| >= 2 && !IsWhiteSpace(s[0]) && !IsWhiteSpace(s[|s| - 1])
    ensures NameOk(Some(s))
  {
    assert TrimStart(s) == s;
    assert TrimEnd(s) == s;
  }

  lemma UntrimmedMessageOk(s: JsString)
    requires |s| >= 10 && !IsWhiteSpace(s[0]) && !IsWhiteSpace(s[|s| - 1])
    ensures MessageOk(Some(s))
  {
    assert TrimStart(s) == s;
    assert TrimEnd(s) == s;
  }
}
