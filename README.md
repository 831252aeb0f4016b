# Shrinidhi Borewells contact API — a Dafny model

The website's backend has one piece of logic: the contact-form endpoint
`POST /api/contact`. The repository ships two Express servers for it:

- `server/contact.js` checks the submission, verifies the mail transport, and
  sends two mails: a notification to the business owner and an acknowledgment
  to the submitter.
- `server/index.js` runs the same checks and sends one mail, to the owner.

Both servers share the validator `validateContactForm`. It checks, in order:

1. the name, trimmed, has at least 2 characters;
2. the phone has exactly ten digits once every non-digit is removed;
3. the e-mail matches `^[^\s@]+@[^\s@]+\.[^\s@]+$`;
4. the message, trimmed, has at least 10 characters.

The first check that fails decides the 400 reply's message.

The model is pure, as the source is:

- **Strings** are JavaScript strings: sequences of UTF-16 code units (`JsText`).
  `trim()` and `\s` use the full ECMAScript white-space and line-terminator set,
  and `\d` is `0`–`9` only.
- **The e-mail pattern** is defined as the regular language it denotes
  (`EmailPattern.MatchesEmailPattern`: an `@` and a later `.` split the string
  into three non-empty runs without white space or `@`). It is proved equal to a
  structural check: no white space, exactly one `@`, a non-empty local part, and
  a `.` strictly inside the domain.
- **The validator** (`Validation.ValidateContactForm`) maps four optional fields
  to `None` or one of four fixed messages. A field that is missing or empty is
  falsy, as `!field` is in JavaScript.
- **The handlers** (`ContactServer.HandleContact`, `IndexServer.HandleContact`)
  are functions of three things:
  - the submitted fields;
  - the `EMAIL_USER` environment variable;
  - the transport's outcomes: whether `verify` succeeds and whether each send
    succeeds.

  Each returns an `Exchange`: the reply, whether `verify` was called, and the
  mail records handed to the transport (from, to, reply-to, subject, and which
  submitted values the body shows).
- **Routing in `server/contact.js`** (`ContactServer.Route`) covers:
  - the CORS preflight;
  - a body the parsers refuse, which goes to the error middleware;
  - the rate limiter, as a flag saying the address is over its limit;
  - the contact and health routes;
  - the 404 fallback.

  Routes match as Express matches them by default: letters are compared
  without regard to case, and one trailing `/` is allowed.

The digit-stripped phone is used only for the check (server/contact.js:60).
Only the owner's notification shows the submitter's phone, and it shows it
exactly as submitted (server/contact.js:130,165; server/index.js:92), as the
model's notification records do (`ContactServer.NotificationMail`,
`IndexServer.NotificationMail`). The acknowledgment shows no submitter phone:
its only phone number is the company's own.

Both servers call `nodemailer.createTransporter`, a function the mail library
does not have (see "## Findings"). The handlers the model uses call the
library's `createTransport`. The handlers as written are modelled beside them
(`HandleContactAsWritten`).

## Model

| member | source | states |
|---|---|---|
| JsText.IsWhiteSpace | server/contact.js:56-64 | The set `\s` matches and `trim()` strips. Among ASCII units it is exactly space, tab, line feed, vertical tab, form feed and carriage return, and it contains no digit, no `@` and no `.`. |
| JsText.TrimStart | server/contact.js:56 | The result is a suffix of the input; everything cut off is white space; the result is empty or starts with a non-white-space unit. |
| JsText.TrimEnd | server/contact.js:68 | The result is a prefix of the input; everything cut off is white space; the result is empty or ends with a non-white-space unit. |
| JsText.Trim | server/contact.js:56 | `trim()` is a slice of its input with only white space before and after it. It is empty exactly when the input is all white space, and otherwise starts and ends with non-white-space, so the slice is the whole input minus its white-space ends. |
| JsText.TrimIgnoresPadding | server/contact.js:56-68 | Padding a string with white space on either side does not change its trimmed form. |
| JsText.StripNonDigits | server/contact.js:60 | `replace(/\D/g, '')` yields only digits and is no longer than its input. |
| JsText.StripNonDigitsAppend | server/contact.js:60 | Stripping distributes over concatenation. |
| JsText.StripNonDigitsKeepsDigits | server/contact.js:60 | A string of digits is left unchanged. |
| JsText.StripNonDigitsDropsOthers | server/contact.js:60 | A string without digits strips to the empty string. |
| EmailPattern.MatchesEmailPattern | server/contact.js:64 | The language of `^[^\s@]+@[^\s@]+\.[^\s@]+$`: an `@` and a later `.` split the string into three non-empty runs without white space or `@`. Every match has at least five units and starts and ends with such a unit. |
| EmailPattern.Count | server/contact.js:64 | The count of a code unit is at most the length, and is zero exactly when the unit does not occur. |
| EmailPattern.IndexOf | server/contact.js:64 | Gives the first occurrence of a unit, or the length when there is none. |
| EmailPattern.EmailShapeIsPattern | server/contact.js:64 | A string matches `^[^\s@]+@[^\s@]+\.[^\s@]+$` exactly when it has no white space, exactly one `@` with text before it, and a `.` strictly inside the domain. |
| EmailPattern.ShapeGivesPattern | server/contact.js:64 | The structural check implies a match of the pattern. |
| EmailPattern.PatternGivesShape | server/contact.js:64 | A match of the pattern implies the structural check. |
| Validation.ValidateContactForm | server/contact.js:53-73 | Gives `None` exactly when all four checks pass. Otherwise it gives the first failing check's message, in the order name, phone, email, message, each case stated as an if-and-only-if. |
| Validation.RejectionIsOneOfFour | server/contact.js:53-73 | A rejection is one of the four fixed messages and is never empty, so `if (validationError)` always sees it. |
| Validation.EarlierFailureWins | server/contact.js:56-70 | An invalid name draws the name message whatever the other fields hold; an invalid phone draws the phone message whatever the email and message hold; likewise for the email. |
| Validation.MissingFieldRejected | server/contact.js:56-68 | A missing or empty field never validates. |
| Validation.PhoneOkIffTenDigits | server/contact.js:60 | The phone check holds exactly when the phone has ten digits, wherever they stand. |
| Validation.PhoneVerdictDependsOnDigitsOnly | server/contact.js:60 | Phones with the same digit subsequence get the same verdict, for the field and for the whole submission. |
| Validation.EmailOkIffPattern | server/contact.js:64 | The e-mail check holds exactly when the field matches the pattern. |
| Validation.TrimmedChecksIgnorePadding | server/contact.js:56-68 | White-space padding changes neither the name verdict nor the message verdict. |
| Validation.PaddingKeepsVerdict | server/contact.js:56-68 | Padding the name and the message with white space, each with its own padding, leaves the validator's result unchanged. |
| Validation.BlankFieldRejected | server/contact.js:56-68 | A name, or (after a valid name, phone and email) a message, made only of white space is rejected with its own message. |
| ValidationExamples.SampleSubmissionAccepted | server/contact.js:53-73 | Name "Asha Rao", phone "98450 00962", email "a@b.com" and message "Need a borewell quote please." are accepted. |
| ValidationExamples.SamplePhoneDigits | server/contact.js:60 | "98450 00962" strips to "9845000962" and passes the phone check. |
| ValidationExamples.MalformedEmailRejected | server/contact.js:64-66 | With a valid name and phone, "not-an-email" draws the e-mail message. |
| ContactServer.NotificationMail | server/contact.js:104-145 | The owner's mail: to the owner, reply-to the submitter, subject prefix plus name. The sender shows the submitted name and `EMAIL_USER`, or "undefined" when it is unset. The body shows the raw name, phone, email and message, unescaped, with the phone not reduced to its digits. |
| ContactServer.AcknowledgmentMail | server/contact.js:187-207 | The submitter's mail: to the submitted address, no reply-to, the fixed subject. The sender is the company name with `EMAIL_USER`, or "undefined" when it is unset. The body shows the raw name and message. |
| ContactServer.HandleContact | server/contact.js:76-262 | An invalid submission gets 400 with the validator's message, with no verify and no mail. A valid one is always verified. A failed verify gives 500 with the configuration message and no mail. Otherwise both mails are handed over. The reply is 200 exactly when the submission is valid, verify succeeds and both sends succeed, and then it is `{success: true}` with the success message. Any failed send gives 500 with the generic message. |
| ContactServer.HandleContactAsWritten | server/contact.js:39-50 | With `createTransporter`, an invalid submission gets what the corrected handler gives it. Every valid submission gets the generic 500, with no verify and no mail. |
| ContactServer.RejectionIgnoresTransport | server/contact.js:81-87 | An invalid submission gets the same 400 reply for every transport and environment, and nothing is verified or sent. |
| ContactServer.SuccessMeansBothDelivered | server/contact.js:241-252 | A 200 reply implies verify and both sends succeeded. It also implies two mails: the first to the owner replying to the submitter, the second to the submitter. |
| ContactServer.MailsAddressed | server/contact.js:104-190 | Every mail goes to the owner or to the submitted address. The notification's subject is the prefix plus the name; the acknowledgment has the fixed subject and no reply-to. |
| ContactServer.Route | server/contact.js:15-288 | The middleware order: a preflight gets 204 and nothing else happens. Otherwise an unparsable body gets the error middleware's 500 "Something went wrong!". A parsed request to the contact route over the limit gets 429, and one to the health route gets the health report. |
| ContactServer.NotFoundExactlyWhenUnrouted | server/contact.js:283-288 | The 404 "Endpoint not found" reply is given exactly to parsed, non-preflight requests that neither the contact route nor the health route takes. |
| ContactServer.OnlyContactRouteSendsMail | server/contact.js:76-262 | Mail leaves only through a parsed POST to the contact route, within the rate limit, for a valid submission whose transport verifies. |
| ContactServer.ContactRouteRunsHandler | server/contact.js:76 | Within the limit, a parsed POST to the contact path gets exactly the handler's exchange. |
| ContactServer.ContactPathVariants | server/contact.js:76 | `/API/Contact/` reaches the contact route; `/api/contacts` and `/api/contact//` do not. |
| IndexServer.Sender | server/index.js:80 | The sender is `EMAIL_USER` when it is set and not empty, the placeholder address otherwise, and never empty. |
| IndexServer.NotificationMail | server/index.js:79-108 | The one mail: from the sender, to the owner, no reply-to, subject prefix plus name, with a body showing the raw fields. |
| IndexServer.HandleContact | server/index.js:62-129 | An invalid submission gets 400 with the validator's message and no mail. A valid one hands over exactly the owner notification. The reply is 200 exactly when the submission is valid and the send succeeds, and then it is `{success: true}` with the success message. A failed send gives 500 with the generic message. Verify is never called. |
| IndexServer.HandleContactAsWritten | server/index.js:28-36 | With `createTransporter`, an invalid submission gets what the corrected handler gives it. Every valid submission gets the generic 500, with no mail. |
| IndexServer.OneMailToOwner | server/index.js:79-111 | A valid submission produces exactly one mail, to the owner, with subject prefix plus name and the raw fields; a failed send gives 500. |
| IndexServer.ServersAgree | server/index.js:39-82 | The two servers reply identically to an invalid submission. For a valid one, their owner mails share recipient, subject and body, and only the other server's mail replies to the submitter. |
| Findings.ContactAsWrittenNeverSucceeds | server/contact.js:39-50 | As written, no contact submission gets a 200, nothing is verified or sent, and every valid submission gets the generic 500. |
| Findings.IndexAsWrittenNeverSucceeds | server/index.js:28-36 | As written, no contact submission gets a 200, nothing is sent, and every valid submission gets the generic 500. |
| Findings.SampleSubmissionShowsIt | server/contact.js:40 | With the sample submission and a healthy transport, both servers as written answer 500 and both corrected servers answer 200. |

## Left out

- The rate limiter's counter is not modelled: it lives inside `express-rate-limit`. The request carries a flag saying the address is over its limit, and the limiter's 429 reply body is kept abstract.
- `helmet` headers, the CORS headers and the allowed-origin list are not modelled. Only the preflight's 204 reply is.
- The mails' HTML markup and the submission timestamp (`toLocaleString` in the Asia/Kolkata time zone) are not modelled. A mail body records which submitted values it shows.
- The health reply's body and its timestamp are kept abstract.
- Console logging is not modelled.
- Request fields that are not strings are not modelled; the model's fields are optional strings. How the source treats them:
  - A falsy non-string (`0`, `null`, `false`) fails its `!field` test. It gets that field's 400 message when every earlier check has passed.
  - A truthy non-string name, phone or message, once every earlier check has passed, reaches `.trim()` or `.replace()` and throws inside the handler's `try`, which answers the generic 500. If an earlier check fails first, that check's 400 message is the answer.
  - A truthy non-string email has no method called on it. The pattern test converts it to a string first. `{}` becomes "[object Object]" and gets the e-mail message; `["a@b.com"]` passes and reaches the mails as an array.
- The body parsers' failures (a body over the 10 MB limit, malformed JSON, a URL-encoded body the parser refuses) are folded into one `Unparsable` body that reaches the error middleware. A well-formed JSON or URL-encoded body is modelled as `Parsed`. An error other than a parse failure is not modelled.
- Routing in `server/index.js` (health route, error middleware, 404 fallback, and the limiter mounted on the `/api/contact` path) is not modelled. Only its contact handler is.
- The timing of the two concurrent sends in `server/contact.js` is not modelled. Both mails are recorded as handed over, and the reply depends on both outcomes.
- The mail library `nodemailer` is not part of this model. Its only modelled behaviour is which factory name returns a transport.
- `JsText.Text` turns Dafny string literals into code units and requires characters from the Basic Multilingual Plane. It is only applied to the model's constants.
- `supabase/functions/send-contact-email/index.ts`, `src/lib/supabase.ts` and the React pages and components are not part of this model.

## Findings

| source | as written | input that shows it | evidently intended | confidence | as-written member | corrected member |
|---|---|---|---|---|---|---|
| server/contact.js:40, server/index.js:29 | The transport is built with `nodemailer.createTransporter(...)`. The library exports no such function, so after validation the call throws a TypeError. The outer `catch` then answers the generic 500: no contact submission ever succeeds, and no mail is sent. | The sample valid submission (name "Asha Rao", phone "98450 00962", email "a@b.com", message "Need a borewell quote please.") with a transport that verifies and delivers gets a 500 from both servers. | `nodemailer.createTransport(...)`: the same submission gets the 200 success reply, with the mails sent. | not executed; the library's factory name is `createTransport` | Findings.SampleSubmissionShowsIt | ContactServer.HandleContact |
