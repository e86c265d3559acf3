# Elystra landing site: its sequential logic, modelled in Dafny

The Elystra landing site is mostly JSX markup and animation. This project models the few
parts that carry real logic, one Dafny module per source file, and proves what each promises:

- **`QuoteNormalizer`** (`quotes.dfy`) models the one-off script that rewrites
  `src/constants/index.tsx`. It does four single-character `str.replace` passes, turning
  U+201C and U+201D into `"` and U+2018 and U+2019 into `'`. The model proves that no curly
  quote remains, that length and every other character are kept, that the script is
  idempotent, and that the four passes commute. The script itself is a method over a file map:
  it reads the file, rebinds `content` four times and writes it back.
- **`RateLimit`** (`rate_limit.dfy`) models the API's fixed-window limiter: ten requests per
  sixty seconds per client address, kept in a module-level map. `Limiter` is a class whose map
  field the limiter method updates. The model proves that stored counts stay in `1..10`, that
  at most ten calls are accepted between two resets, and that other addresses are untouched.
- **`DemoRequestApi`** (`demo_request.dfy`) models the TypeScript endpoint. It covers the order
  in which the handler chooses its status (preflight, method, body, rate limit, email check,
  delivery result) and the subject line of the generated email.
- **`LegacyDemoRequest`** (`legacy_demo_request.dfy`) models the older JavaScript endpoint: its
  own guard order (method, email, API key, provider result), and the defaults it fills in for
  `source`, `trackingData` and the sender address.
- **`EmailCapture`** (`email_capture.dfy`) models the sign-up form. It covers the client's
  email pattern, proved equal to a plain description of the strings it accepts. It also covers
  the tracking fields taken from the query string with their `||` fallbacks, the `source` sent
  to the API, the domain reported to analytics, and the guard that stops invalid submissions.
- **`WordRotation`** (`word_rotation.dfy`) models the hero's clip/word counters: two bounded
  counters with a carry, like an odometer. The model proves that both indices stay in bounds
  and that the rotation returns to its start after nine ticks and not before.
- **`FaqAccordion`** (`faq.dfy`) models the FAQ's single `openIndex` and its toggle rule.
- **`Wrappers`** and **`JsStrings`** (`wrappers.dfy`) hold shared helpers: `Option`/`Result`,
  JavaScript truthiness of strings and the `||` chain, and the handlers' `email.includes('@')`
  test.

Clocks, environment variables, the email provider and the browser are parameters. Time is
passed in as `now`, `process.env` as an `Env` value, the SendGrid reply as a `SendResult` or
`Upstream` value, and the query string, referrer and user agent as arguments.

Behaviour the model keeps from the code:

- In the TypeScript handler, a request with no body throws while the request log runs
  (`body.email` at `api/demo-request.ts:299`). The catch answers 500, and the rate limiter is
  never consulted.
- A truthy non-string `email` makes `email.includes` throw, which answers 500. In the
  TypeScript handler this happens after the quota has been spent.
- The legacy handler answers a preflight `OPTIONS` with 405, because it only checks
  `method !== 'POST'`.
- Its destructuring defaults (`source = 'website'`, `trackingData = {}`) replace only
  `undefined`, so `""` and `null` are kept. The `||` fallbacks elsewhere (sender address,
  tracking parameters, client IP) and the API-key truthiness test skip `""` as well.
- Requests without an `x-forwarded-for` header all share the rate-limit bucket `unknown`.

The quote script handles none of its I/O errors: Python raises, and nothing is caught. The
model keeps only the missing-file case, as a `Failure` that writes nothing.

## Model

| member | source | states |
|---|---|---|
| `QuoteNormalizer.Replace` | fix_quotes.py:8-11 | One `str.replace` with single characters: same length, every occurrence of the source character becomes the target, every other position is unchanged |
| `QuoteNormalizer.Normalize` | fix_quotes.py:8-11 | The four passes in order keep the length, and each output character is the input character sent through the reference map `Straighten` |
| `QuoteNormalizer.NoCurlyQuotesRemain` | fix_quotes.py:8-11 | No U+201C, U+201D, U+2018 or U+2019 is left in the output |
| `QuoteNormalizer.CurlyQuotesBecomeStraight` | fix_quotes.py:8-11 | Both double curly quotes become `"`, both single ones become `'`, and any other character stays where it was |
| `QuoteNormalizer.NormalizeIdempotent` | fix_quotes.py:8-11 | Running the transformation on its own output changes nothing |
| `QuoteNormalizer.QuoteFreeUnchanged` | fix_quotes.py:8-11 | Text with none of the four characters is returned unchanged |
| `QuoteNormalizer.ApplyRulesIsLookup` | fix_quotes.py:8-11 | Replace passes whose sources are distinct and never another pass's target act, per character, as one table lookup |
| `QuoteNormalizer.AnyOrderSameResult` | fix_quotes.py:8-11 | Any permutation of the four replace calls gives the script's result |
| `QuoteNormalizer.FixQuotes` | fix_quotes.py:4-14 | The script writes back exactly the transformed content read from the same path and leaves other files alone; a missing file fails with nothing written |
| `RateLimit.Step` | api/demo-request.ts:362-380 | No record or an expired window: store `{1, now + 60000}` and allow. At the limit in a live window: refuse and change nothing. Otherwise add one to that address's count and allow. Other addresses are never changed |
| `RateLimit.StepPreservesWellFormed` | api/demo-request.ts:369-379 | Every stored count stays between 1 and 10 |
| `RateLimit.StepRefusesOnlyAtTheLimit` | api/demo-request.ts:374-376 | A call is refused exactly when a live window already holds 10 requests |
| `RateLimit.LiveWindowBound` | api/demo-request.ts:364-379 | Calls at or before a record's reset time are accepted at most `10 - count` times |
| `RateLimit.AtMostTenPerWindow` | api/demo-request.ts:363-379 | A call that opens a window, followed by any calls before the window ends, is accepted at most ten times in all |
| `RateLimit.OtherAddressesUntouched` | api/demo-request.ts:367-379 | Any series of calls for one address leaves every other address's record as it was |
| `RateLimit.Limiter.constructor` | api/demo-request.ts:360 | The limiter starts with an empty map |
| `RateLimit.Limiter.CheckRateLimit` | api/demo-request.ts:360-380 | Updates the map and answers as `Step` does, keeps every count in `1..10` and leaves other addresses' records as they were |
| `DemoRequestApi.Subject` | api/demo-request.ts:162-168 | The subject is one of the two fixed subject lines |
| `DemoRequestApi.ClientIp` | api/demo-request.ts:305 | The rate-limit key is never empty: the `x-forwarded-for` header when it is set and non-empty, otherwise `unknown` |
| `DemoRequestApi.Handle` | api/demo-request.ts:273-355 | The status is one of 200, 400, 405, 429 and 500. A preflight, and only a preflight, gets no JSON body. A success body comes exactly with a non-preflight 200. The limiter map is either unchanged or changed by exactly one limiter call for the client's key |
| `DemoRequestApi.SubjectChoice` | api/demo-request.ts:162-168 | The subject is the trial-ready one exactly when `source` is `cold_call`, and the thank-you one otherwise |
| `DemoRequestApi.PreflightFirst` | api/demo-request.ts:279-282 | `OPTIONS` is answered 200 with no body before any other check, and spends no quota |
| `DemoRequestApi.OtherMethodsRejected` | api/demo-request.ts:284-287 | Any other method but POST is answered 405 whatever the body, and spends no quota |
| `DemoRequestApi.RateLimitBeforeValidation` | api/demo-request.ts:304-315 | A refused rate-limit check answers 429 whatever the email is |
| `DemoRequestApi.EveryPostSpendsQuota` | api/demo-request.ts:297-315 | Every POST with a body changes the limiter exactly as one limiter call does, so malformed requests still consume quota |
| `DemoRequestApi.InvalidEmailRejected` | api/demo-request.ts:311-315 | Within the limit, a missing email or one without `@` is answered 400 |
| `DemoRequestApi.DeliveryDecides` | api/demo-request.ts:317-344 | Past every check, the answer is 200 exactly when the email was delivered and 500 exactly when it was not |
| `DemoRequestApi.SuccessOnlyAfterEveryCheck` | api/demo-request.ts:279-344 | A 200 to a non-preflight request means a POST with a body, an allowed rate-limit check, an email containing `@` and a delivered email |
| `DemoRequestApi.HandleRequest` | api/demo-request.ts:273-355 | The handler's response and the limiter's new map are those of the guard chain `Handle`, and the limiter stays valid |
| `LegacyDemoRequest.WithDefault` | api/demo-request.js:17 | A destructuring default never leaves `undefined`. It replaces `undefined` with the default and keeps every other value, `null` included |
| `LegacyDemoRequest.Sender` | api/demo-request.js:29 | The sender is never empty: `SENDGRID_FROM_EMAIL` when it is set and non-empty, otherwise `onboarding@elystra.online` |
| `LegacyDemoRequest.Handle` | api/demo-request.js:7-147 | The status is one of 200, 400, 405 and 500. A 200 comes exactly with the success log line and exactly with a success body. A success log implies a mail was attempted, and any mail attempted carries the welcome subject and goes to an address containing `@` |
| `LegacyDemoRequest.NonPostRejected` | api/demo-request.js:9-14 | Every method but POST, `OPTIONS` included, is answered 405 whatever the body, and nothing is sent |
| `LegacyDemoRequest.EmailCheckedBeforeApiKey` | api/demo-request.js:17-37 | A missing email or one without `@` is answered 400, the same whatever the API key and the provider do |
| `LegacyDemoRequest.MissingApiKeyOnlyForValidEmail` | api/demo-request.js:20-37 | "Email service unavailable" (500, nothing sent) is answered exactly when the method is POST, the email passes and the key is missing or empty |
| `LegacyDemoRequest.SenderDefault` | api/demo-request.js:29-95 | Mail goes from `SENDGRID_FROM_EMAIL`, or from `onboarding@elystra.online` when it is unset or empty, to the request's email, which contains `@` |
| `LegacyDemoRequest.LoggedDefaults` | api/demo-request.js:17-129 | An undefined `source` is logged as `website` and an undefined `trackingData` as `{}`; any other value, including `""` and `null`, is kept |
| `LegacyDemoRequest.UpstreamDecides` | api/demo-request.js:82-145 | With a valid email and a key, mail is attempted. An ok reply gives 200 with `success` and the email echoed back; a non-ok one gives 500 "Email delivery failed"; a thrown `fetch` gives the catch's 500 "Internal server error" |
| `LegacyDemoRequest.SuccessOnlyAfterEveryGuard` | api/demo-request.js:7-147 | A 200 means a POST, an email containing `@`, a key that is set and an ok provider reply |
| `JsStrings.CheckEmailField` | api/demo-request.ts:312 | `!email \|\| !email.includes('@')` passes exactly for a string containing `@`, and throws exactly for a truthy non-string |
| `JsStrings.FirstTruthy` | src/components/GetStartedNew.tsx:70-76 | An `a \|\| b \|\| 'default'` chain yields the first truthy operand when there is one, and the default when every operand is `null`, `undefined` or `""`. The result is the default or a non-empty operand |
| `EmailCapture.ValidateEmail` | src/components/GetStartedNew.tsx:44-47 | An accepted address has at least five characters and contains both `@` and `.` |
| `EmailCapture.ValidateEmailShape` | src/components/GetStartedNew.tsx:44-47 | The pattern accepts exactly the strings with no whitespace and exactly one `@`, something before the `@`, and after it a `.` with at least one character on each side |
| `EmailCapture.AcceptedHasPlainShape` | src/components/GetStartedNew.tsx:45 | Every string the pattern accepts has that plain shape |
| `EmailCapture.PlainShapeAccepted` | src/components/GetStartedNew.tsx:45 | Every string of that plain shape is accepted by the pattern |
| `EmailCapture.AcceptedPassesServerCheck` | src/components/GetStartedNew.tsx:45 | An address the form accepts passes the API's `email.includes('@')` check |
| `EmailCapture.Split` | src/components/GetStartedNew.tsx:287 | `split` with a one-character separator gives parts that, joined back with the separator, give the input, and no part contains the separator. So the parts are fixed completely. There is more than one part exactly when the separator occurs |
| `EmailCapture.EmailDomain` | src/components/GetStartedNew.tsx:287 | `email.split('@')[1]` is defined exactly when the address contains `@`, and it contains no `@` |
| `EmailCapture.DomainOfAcceptedEmail` | src/components/GetStartedNew.tsx:287 | For an accepted address, `email.split('@')[1]` is the whole substring after its single `@` |
| `EmailCapture.CaptureTrackingData` | src/components/GetStartedNew.tsx:66-79 | `source`, `medium`, `campaign`, `salesperson` and `referrer` are never empty. `callId` is empty or one of its two parameters. `timestamp` and `userAgent` are the values passed in |
| `EmailCapture.TrackingFallbacks` | src/components/GetStartedNew.tsx:66-79 | `source` is `utm_source`, else `source`, else `direct`. `medium` defaults to `unknown` and `campaign` to `default`. `salesperson` is `rep`, else `salesperson`, else `unknown`. `callId` is `call_id`, else `callId`, else `""`. `referrer` defaults to `direct`. An empty parameter counts as absent |
| `EmailCapture.RequestSource` | src/components/GetStartedNew.tsx:264 | The source sent is `cold_call` or `website`. It is `cold_call` exactly when tracking data exists and its source is `cold_call` |
| `EmailCapture.ColdCallSource` | src/components/GetStartedNew.tsx:264 | The request source is `cold_call` exactly when the tracked source is `cold_call`, and otherwise `website` |
| `EmailCapture.Submit` | src/components/GetStartedNew.tsx:248-273 | A request is made exactly when the pattern accepts the address. It posts that address unchanged with the mapped source. The timestamp is the tracked one when set, and the current time when there is no tracking data |
| `EmailCapture.SubmitDisabled` | src/components/GetStartedNew.tsx:358 | The button is disabled exactly while submitting or when the address lacks the plain shape (no whitespace, one `@`, an inner `.` after it) |
| `EmailCapture.SubmitGuard` | src/components/GetStartedNew.tsx:251-273 | A rejected address disables the button and sends nothing. An accepted one is posted unchanged, and the button is disabled only while submitting |
| `WordRotation.Next` | src/components/VideoMaskedHero.tsx:44-51 | A tick leaves the clip index in range, keeps an in-range word index in range, and moves the word only when the clip wraps to 0 |
| `WordRotation.NextInRange` | src/components/VideoMaskedHero.tsx:44-51 | A tick keeps both indices in range. The clip index moves to `(clip + 1) % 3`, and the word index advances (mod 3) exactly when the new clip index is 0 |
| `WordRotation.NextAdvancesPosition` | src/components/VideoMaskedHero.tsx:46-50 | A tick adds one, modulo 9, to the odometer reading `word * 3 + clip` |
| `WordRotation.PositionAfter` | src/components/VideoMaskedHero.tsx:40-52 | After `n` ticks from (0,0), both indices are in range and the odometer reads `n mod 9` |
| `WordRotation.FullCycle` | src/components/VideoMaskedHero.tsx:23-52 | From (0,0), nine ticks return to (0,0), and no earlier tick does |
| `WordRotation.Rotation.constructor` | src/components/VideoMaskedHero.tsx:40-41 | Both indices start at 0 |
| `WordRotation.Rotation.Tick` | src/components/VideoMaskedHero.tsx:44-51 | The interval callback moves the state exactly as `Next` does and keeps it in range |
| `WordRotation.Rotation.CurrentWord` | src/components/VideoMaskedHero.tsx:57 | `WORDS[wordIndex]` is in bounds and is one of the words |
| `WordRotation.Rotation.CurrentClip` | src/components/VideoMaskedHero.tsx:58 | `CLIPS[clipIndex]` is in bounds, because there are as many clips per word as clips |
| `FaqAccordion.IsOpen` | src/components/Faq.tsx:222 | An item is open exactly when `openIndex` holds that item's index |
| `FaqAccordion.Toggled` | src/components/Faq.tsx:223 | The toggle gives null or the clicked index, and null exactly when the clicked item was the open one |
| `FaqAccordion.AtMostOneOpen` | src/components/Faq.tsx:222 | Two items that are both open are the same item |
| `FaqAccordion.ToggleEffect` | src/components/Faq.tsx:223 | Toggling the open item closes everything. Toggling any other item opens it, and no other item is open |
| `FaqAccordion.ToggleTwice` | src/components/Faq.tsx:223 | Toggling the same item twice restores the state if that item or nothing was open. If another item was open, everything ends closed |
| `FaqAccordion.ToggleKeepsValid` | src/components/Faq.tsx:218-223 | Toggling an item of the table keeps `openIndex` null or a valid index |
| `FaqAccordion.Accordion.constructor` | src/components/Faq.tsx:160 | Item 0 starts open |
| `FaqAccordion.Accordion.Toggle` | src/components/Faq.tsx:223 | The click handler sets `openIndex` as the toggle rule says and keeps it null or a valid index |
| `FaqAccordion.Accordion.OpenFlags` | src/components/Faq.tsx:218-222 | Each of the 15 rendered items gets `isOpen` exactly when it is the open item. At most one flag is set, and one is set exactly when an item is open |

## Left out

- File reading and writing in the quote script are modelled only as a map from path to text.
- `QuoteNormalizer.FixQuotes`: the map holds the text as a text-mode read returns it. The script opens the file with Python's default newline handling (fix_quotes.py:4, 13), so `\r\n` and `\r` line endings are read as `\n` and written back as the platform's line separator. A file with CRLF or CR endings therefore also has its line endings rewritten. That translation is not modelled. The final status line is not modelled. Decoding, permission and write errors are not modelled either, because the script does not handle them.
- SendGrid `fetch` calls, CORS headers, `console.log`/`console.error` diagnostics and `logDemoRequest`: network and logging. Delivery is an input (`SendResult`, `Upstream`).
- The HTML and text bodies of both emails are template text with no logic. The `salesperson` fallback in `generateDemoEmail` is left out, because no body uses the value.
- `Date.now()`, `new Date()` and `process.env` become parameters.
- The TypeScript handler is modelled only for requests that carry a `headers` object (the platform always provides one). A `req.headers` that is missing would throw and answer 500.
- Array-valued `email` fields, which do have an `includes` method, are left out. Every truthy non-string is treated as lacking one.
- The rate limiter's `record.count++` mutates the record object stored in the map. The model replaces that map entry with the incremented record, which has the same effect because nothing else holds the record. JavaScript number precision is not modelled: counts stay at or below 10.
- The browser's own validation of the email input (`type="email"` and `required`, src/components/GetStartedNew.tsx:347, 352) is not modelled. `EmailCapture.Submit` and `EmailCapture.SubmitGuard` describe `handleSubmit` as if it is always called. For some strings the pattern accepts, such as `a@b..c`, the browser blocks the submit before `handleSubmit` runs, so no request is made.
- In the email form, the `EmailCapture` component's `isSubmitting`/`submitted` flags and the steps of `handleSubmit` after the request are left out: the response handling, `gtag`, the `mailto:` fallback with `encodeURIComponent`, and `window.location`. They are async UI state and browser I/O. Only the validation guard, the request payload's `email`/`source`/`timestamp` fields and the reported domain are modelled.
- `setInterval`, the interval cleanup and React's updater scheduling in the hero are left out. Only the single tick step is modelled.
- FAQ answers, JSX rendering and all animation are display only.
- `WordRotation.Rotation.CurrentWord`: states only that the word is in bounds and one of the three words, not which word is shown (that is `WORDS[wordIndex]`).
- Strings are sequences of Unicode scalar values. JavaScript's UTF-16 code units and Python's lone surrogates are not modelled; every character the pattern and the script name lies in the Basic Multilingual Plane.
