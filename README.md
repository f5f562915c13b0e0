# Contact form to spreadsheet: a Dafny model

This project models a contact form whose entries are forwarded to a
spreadsheet. It covers the two submission handlers and the two browser clients:

- **`api/submit-form.js`**: a serverless handler with the signature
  `handler(req, res)`. It writes the CORS headers, answers preflight requests,
  rejects every method other than POST, and checks the required fields
  `nama`, `email` and `pesan`. It then checks the three configuration values,
  appends one five-cell row to range `Sheet1!A:E`, and turns the outcome of
  that append into a status code and a JSON body.
- **`src/app/api/submit-form/route.ts`**: the same logic as a framework route
  that returns response values, plus its `OPTIONS` export.
- **`script.js`**: the static page's script. It holds the email pattern
  `^[^\s@]+@[^\s@]+\.[^\s@]+$` and the on-blur field colouring. Its submit
  handler disables the button while the request is in flight, sorts failure
  messages into the texts it shows, and re-enables the button in `finally`.
- **`src/app/page.tsx`**: the framework page. Its state is `isLoading` and
  `message`, and its `handleSubmit` drives that state through the two setters.

## Modelling choices

- Outside calls become parameters:
  - The authenticated spreadsheet call is `append: AppendRequest -> AppendOutcome`.
    The outcome is either a reply, whose `updates` may be missing, or a thrown
    value.
  - `new Date(timestamp).toLocaleString('id-ID')` is `fmt: JsValue -> string`.
  - `new Date().toISOString()` is the string `now`.
  - The one `fetch` of a submit, together with `response.json()`, is a
    `FetchOutcome`. A submit handler is split at its `await` into `BeginSubmit`
    and `FinishSubmit`. The state between the two is the state while the
    request is in flight.
- The environment is `Env`, three optional strings. The private key is
  unescaped on load by `ServerConfig.Unescape`, which is
  `replace(/\\n/g, '\n')` written as a left-to-right scan.
- Request-body values are `JsValue`s with JavaScript truthiness. Numbers are
  integers. Objects and arrays are one opaque, truthy case.
- A thrown value is either an `Error` with a message, or some other value
  together with the string in its own `message` property, if it has one.
  - In `api/submit-form.js`, `error.message` reports that property; a thrown
    value without a `message` property gives `undefined`, which the JSON body
    leaves out.
  - In `route.ts` every non-`Error` value gives `'Unknown error'`.
  - `RouteHandler.VariantsDifferOnNonErrorThrow` states the difference.
- Two browser behaviours are taken as assumptions rather than modelled:
  - `form.reset()` restores each field's default value, taken to be empty
    (`FormClient.Reset`).
  - A handler's response reaches a client through `fetch` and
    `response.json()` with `ok` true exactly for a 2xx status, and with the
    JSON body's `error` and `success` (`FormClient.Deliver`). A response
    without a body makes `json()` throw.
- `\s` and `trim` use one character set: ECMAScript's WhiteSpace plus
  LineTerminator. That is U+0009 to U+000D, U+0020, U+00A0, U+1680,
  U+2000 to U+200A, U+2028, U+2029, U+202F, U+205F, U+3000 and U+FEFF.
- The two handlers share one decision procedure, `Submission.Decide` (field
  check, then configuration check, then the row). They differ as follows:
  - If the append reply has no `updates`, `api/submit-form.js` throws a
    TypeError reading `response.data.updates.updatedRange`. That error is
    caught, so the caller gets 500 even though the row was appended.
  - `route.ts` reads the same field with `?.` and answers 200 with no
    `updatedRange`.
  - A non-`Error` value thrown while reading the body or by the append is
    reported by its `message` property in `api/submit-form.js` and as
    `'Unknown error'` in `route.ts`.
  - The route's `OPTIONS` answer has the same status and body as the
    serverless preflight, but the route sets no CORS headers. The serverless
    handler sets its three `Access-Control-*` headers on every response.
  - `RouteHandler.VariantsAgreeOnPost` states where they agree.
    `RouteHandler.VariantsDifferOnMissingUpdates`,
    `RouteHandler.VariantsDifferOnNonErrorThrow` and
    `RouteHandler.VariantsDifferOnUnreadableBody` state where they differ.
- Four places where the code is easy to misread:
  - The server tests the required fields for falsiness, not for emptiness
    after trimming. A name of spaces is accepted.
  - The success body's `updatedRange` is not always present.
  - `route.ts` has no method check of its own.
  - `api/submit-form.js` also accepts OPTIONS.
- The client pairs are the ones the repository deploys together. `script.js`
  talks to `api/submit-form.js`; `page.tsx` talks to `route.ts`
  (`EndToEnd` module).

## Model

| member | source | states |
|---|---|---|
| `ServerConfig.Unescape` | api/submit-form.js:7 | `replace(/\\n/g, '\n')` as a scan; specified by `UnescapeWithoutPairs`, `UnescapeSplit` and `UnescapeLeavesNoPairs` |
| `ServerConfig.UnescapeWithoutPairs` | api/submit-form.js:7 | a key without any backslash-`n` pair is returned unchanged |
| `ServerConfig.UnescapeLeavesNoPairs` | api/submit-form.js:7 | the unescaped key never contains a backslash-`n` pair, so every pair was replaced |
| `ServerConfig.UnescapeIdempotent` | api/submit-form.js:7 | unescaping twice is the same as unescaping once |
| `ServerConfig.UnescapeEscape` | src/app/api/submit-form/route.ts:8 | a multi-line key with no literal backslash-`n` survives being escaped into the variable and unescaped |
| `ServerConfig.UnescapeSplit` | api/submit-form.js:7 | each backslash-`n` pair becomes one newline and the text on either side is unescaped on its own; with `UnescapeWithoutPairs` this fixes the result on every input |
| `ServerConfig.EscapeUnescape` | api/submit-form.js:7 | a variable without raw newlines is given back by escaping its unescaped value, so the unescape loses nothing |
| `ServerConfig.UnescapeEmptyIff` | api/submit-form.js:7 | only the empty string unescapes to the empty string |
| `ServerConfig.PrivateKey` | api/submit-form.js:7 | the loaded key is absent exactly when the variable is; it holds no backslash-`n` pair, is empty exactly when the variable is, and equals the variable when that holds no pair |
| `ServerConfig.ConfiguredIffAllSet` | api/submit-form.js:34 | the configuration check on the unescaped key passes exactly when all three raw variables are non-empty |
| `Submission.Decide` | api/submit-form.js:26-62 | an append is reached exactly when the required fields and the configuration are present; a missing field gives 400 whatever the configuration; an append has range `Sheet1!A:E` and one five-cell row |
| `Submission.Row` | api/submit-form.js:54-62 | the five-cell row; its cells are stated by `AppendedRow` |
| `Submission.AppendedRow` | api/submit-form.js:54-73 | the append request cell by cell: `[nama, email, telepon or '', pesan, fmt(timestamp)]`, `USER_ENTERED`, `INSERT_ROWS`, the configured sheet and the unescaped key |
| `ServerlessHandler.Handle` | api/submit-form.js:9-90 | at most one append; one exactly when the method is POST, the body reads, the fields are present and the configuration is set; when one is made, its outcome decides the response; the status is 200, 400, 405 or 500 |
| `ServerlessHandler.Preflight` | api/submit-form.js:16-18 | OPTIONS gets 200 with no body and no append |
| `ServerlessHandler.OtherMethodsRejected` | api/submit-form.js:21-23 | any method other than OPTIONS and POST gets 405 `Method not allowed` and no append |
| `ServerlessHandler.MissingFieldRejected` | api/submit-form.js:29-31 | a falsy `nama`, `email` or `pesan` gives 400 with the required-fields text and no append, whatever the configuration |
| `ServerlessHandler.MissingConfigurationReported` | api/submit-form.js:34-40 | with the fields present, a missing variable gives 500 with the configuration error and details, and no append |
| `ServerlessHandler.AppendDecidesResponse` | api/submit-form.js:54-89 | exactly one append with the five-cell row; a reply gives 200 with the reported range; a throw gives 500 with the error's message as details |
| `ServerlessHandler.MissingUpdatesIsReportedAsFailure` | api/submit-form.js:77-89 | a reply without `updates` gives 500 with the TypeError's message although the row was appended |
| `ServerlessHandler.UnreadableBodyReported` | api/submit-form.js:83-89 | a body that cannot be read is caught and answered with 500, the save-failure text and the thrown value's `message`, and nothing is appended |
| `ServerlessHandler.AfterAppend` | api/submit-form.js:77-89 | the response once the append settles; specified by `AppendDecidesResponse` and `MissingUpdatesIsReportedAsFailure` |
| `ServerlessHandler.Handler` | api/submit-form.js:9-90 | on the response object: always finished, the three CORS headers set, and the status, body and append calls are the ones `Handle` gives |
| `RouteHandler.Post` | src/app/api/submit-form/route.ts:10-85 | at most one append; one exactly when the body reads, the fields are present and the configuration is set; the status is 200, 400 or 500; error bodies carry a non-empty `error` |
| `RouteHandler.PreflightAgrees` | src/app/api/submit-form/route.ts:87-89 | `OPTIONS` is 200 with no body and no append, the same status and body as the serverless preflight; the route sets no CORS headers |
| `RouteHandler.MissingFieldRejected` | src/app/api/submit-form/route.ts:15-20 | a falsy required field gives 400 and no append, whatever the configuration |
| `RouteHandler.UnreadableBodyReported` | src/app/api/submit-form/route.ts:75-83 | a body that cannot be read is caught and answered with 500, the save-failure text and the `Error`'s message or `Unknown error`, and nothing is appended |
| `RouteHandler.MissingConfigurationReported` | src/app/api/submit-form/route.ts:23-32 | a missing variable, once the fields pass, gives 500 with the configuration error and no append |
| `RouteHandler.AppendDecidesResponse` | src/app/api/submit-form/route.ts:46-83 | exactly one append to `Sheet1!A:E` with `USER_ENTERED`/`INSERT_ROWS` and the row; 200 with the range, or with none when there are no `updates`; on a throw, 500 with the message, or `Unknown error` for a non-`Error` |
| `RouteHandler.AfterAppend` | src/app/api/submit-form/route.ts:69-83 | the response once the append settles; specified by `AppendDecidesResponse` |
| `RouteHandler.Options` | src/app/api/submit-form/route.ts:87-89 | the preflight answer; specified by `PreflightAgrees` |
| `RouteHandler.VariantsAgreeOnPost` | src/app/api/submit-form/route.ts:10-85 | for POST the two handlers give the same response and calls, as long as only `Error`s are thrown and the append reply has `updates` |
| `RouteHandler.VariantsDifferOnNonErrorThrow` | src/app/api/submit-form/route.ts:80 | a thrown non-`Error` with a `message` is reported with that message by the serverless handler and as `Unknown error` by the route |
| `RouteHandler.VariantsDifferOnUnreadableBody` | src/app/api/submit-form/route.ts:12 | when reading the body throws a non-`Error`, the serverless handler reports its `message` (and gives no `details` for a value without one) and the route `Unknown error`; the responses differ unless the message is literally `Unknown error` |
| `RouteHandler.VariantsDifferOnMissingUpdates` | src/app/api/submit-form/route.ts:72 | without `updates` the route answers 200 and the serverless handler 500, after the same single append |
| `Js.OrElse` | script.js:52 | a JavaScript or of an optional string with a fallback gives one of the two, and is never empty when the fallback is not |
| `Js.TrimEmptyIffBlank` | script.js:92 | `!value.trim()` holds exactly when every character is whitespace |
| `Js.ContainsIffOccurs` | script.js:58-60 | `includes` holds exactly when the text occurs at some index |
| `Js.MissingCharNotContained` | script.js:58-60 | a message lacking one character of a marker does not include the marker |
| `Js.DecimalRoundTrip` | script.js:43 | the status rendered in `HTTP error! status: N` reads back as the status |
| `ContactScript.IsValidEmail` | script.js:102-105 | the email check; specified by `ValidEmailIffPattern` and `ValidEmailHasOneAt` |
| `ContactScript.ValidEmailIffPattern` | script.js:102-105 | `isValidEmail` accepts exactly the strings `a@b.c` with `a`, `b`, `c` non-empty and free of whitespace and `@` (dots allowed in `b` and `c`) |
| `ContactScript.ValidEmailHasOneAt` | script.js:103 | an accepted address contains exactly one `@` and no whitespace |
| `ContactScript.BlurVerdict` | script.js:92-98 | the blur rule; specified by `BlurInvalidIff` |
| `ContactScript.BlurInvalidIff` | script.js:92-98 | a field is marked invalid exactly when it is required and blank, or an email field with a non-empty value the pattern rejects |
| `ContactScript.Input.OnBlur` | script.js:91-99 | the border colour is `#dc3545` for an invalid verdict and `#28a745` for a valid one |
| `ContactScript.Input.Blur` | script.js:91 | losing focus recolours the field only when the listener is attached |
| `ContactScript.AttachBlurHandlers` | script.js:89-100 | every input gets the listener; values and colours are untouched |
| `ContactScript.FailureOf` | script.js:41-53 | the message the `try` block ends with; specified by `ThrownReachesCatch`, `NonOkMessage`, `OkUnsuccessfulText` and `ScriptSuccessIff` |
| `ContactScript.ThrownReachesCatch` | script.js:32-46 | a rejected `fetch` and a body `json()` cannot parse reach the `catch` block with their own message |
| `ContactScript.FetchRejectionShowsConnectionHint` | script.js:60-61 | the browser's `Failed to fetch` rejection is shown as the connection hint |
| `ContactScript.CatchText` | script.js:58-64 | the `catch` block's text; specified by `CatchTextPriority` |
| `ContactScript.ScriptBanner` | script.js:40-64 | the banner a submit ends with; specified by `FailureBannerText`, `ScriptSuccessIff` and `CatchTextPriority` |
| `ContactScript.NonOkMessage` | script.js:41-44 | a non-ok response fails with the body's `error`, or with `HTTP error! status: N` |
| `ContactScript.OkUnsuccessfulText` | script.js:51-52 | an ok reply without a truthy `success` fails with the body's `error`, or with the generic text when it has none |
| `ContactScript.ScriptSuccessIff` | script.js:46-53 | success is shown exactly for an ok response with a truthy `success` |
| `ContactScript.FailureBannerText` | script.js:54-64 | a failed `try` block shows the `catch` block's text for its message, as an error; an unfailed one shows the success text |
| `ContactScript.CatchTextPriority` | script.js:58-64 | the configuration marker wins over `Failed to fetch`, which wins over the error's own text; the generic text only for an empty message; the shown text is never empty |
| `ContactScript.ContactForm.ShowMessage` | script.js:73-76 | the message box shows the text, with class `message <type>`, displayed as `block` |
| `ContactScript.ContactForm.HideMessage` | script.js:84-86 | the message box is hidden |
| `ContactScript.ContactForm.BeginSubmit` | script.js:14-28 | the button is disabled, the label hidden, the spinner shown, the message hidden, and the payload is built from the form |
| `ContactScript.ContactForm.FinishSubmit` | script.js:40-70 | whatever the outcome the button is enabled again and the spinner hidden; the message shows the classified banner; the form is reset only on success |
| `ContactScript.ContactForm.Submit` | script.js:11-71 | the button is disabled while the request is in flight and enabled after it; the banner's text, class and display are those of the outcome; the form is reset only on success |
| `FormClient.FormPayload` | script.js:21-28 | the JSON payload both clients build from the form; specified by `PayloadFields` and `PayloadHasRequiredFields` |
| `FormClient.PayloadFields` | script.js:22-28 | `telepon` is the field's value, or `''` when the field is empty or missing; the other fields are carried over unchanged, plus the timestamp |
| `FormClient.PayloadHasRequiredFields` | src/app/page.tsx:15-21 | the server's field check passes on a client payload exactly when `nama`, `email` and `pesan` are filled in |
| `ReactPage.PageBanner` | src/app/page.tsx:32-45 | the banner `handleSubmit` ends with; specified by `ThrownMessageShown`, `PageSuccessIff` and `PageFailureText` |
| `ReactPage.ThrownMessageShown` | src/app/page.tsx:24-44 | a rejected `fetch` and a body `json()` cannot parse show their own message as an error banner |
| `ReactPage.PageSuccessIff` | src/app/page.tsx:34-36 | the outcome is a success exactly when `response.ok && result.success`, with the success text |
| `ReactPage.PageFailureText` | src/app/page.tsx:37-45 | otherwise an error banner whose text is `result.error`, or the generic text |
| `ReactPage.Home.SetIsLoading` | src/app/page.tsx:6 | `isLoading` takes the value and the call joins the update queue |
| `ReactPage.Home.SetMessage` | src/app/page.tsx:7 | `message` takes the value and the call joins the update queue |
| `ReactPage.Home.BeginSubmit` | src/app/page.tsx:11-21 | `isLoading` is set, then `message` cleared, in that order, before the request; the payload is built |
| `ReactPage.Home.FinishSubmit` | src/app/page.tsx:23-48 | afterwards `isLoading` is false and `message` is a banner of type success or error; the form is reset only on success |
| `ReactPage.Home.HandleSubmit` | src/app/page.tsx:9-49 | the whole queue of state updates for one submit, and the final state: loading off, the outcome's banner, the form reset only on success |
| `EndToEnd.ConfigurationErrorHasMarker` | script.js:58 | the server's configuration error carries the marker the script looks for |
| `EndToEnd.ScriptShowsServerVerdict` | script.js:40-64 | the static page shows the required-fields text, the configuration hint, success or the save failure, in that priority, with no append in the first two cases |
| `EndToEnd.PageShowsServerVerdict` | src/app/page.tsx:32-45 | the framework page shows the server's texts, and success exactly when the append resolves |
| `EndToEnd.ServerAcceptsAnyEmail` | api/submit-form.js:29-31 | whatever the `email` string, one the page's pattern rejects included, both handlers append one row carrying it |

## Left out

- The spreadsheet library is not modelled: the `GoogleAuth` construction, the scopes and the call itself are the `append` parameter.
- The clock and locale formatting are the `fmt` and `now` parameters.
- `fetch` and JSON parsing are taken as the `FetchOutcome` input. Their exact error messages are inputs too. The one fixed text is the Node/V8 TypeError for the missing `updates`.
- Logging (`console.log`, `console.error`) is left out. It has no behaviour to state.
- The JSX markup and styling are left out, as are the style changes beyond the modelled display and border fields.
- The 5-second `setTimeout` that hides the message again is left out, because it is timer-driven.
- `e.preventDefault()` is left out: it only stops the browser's own navigation.
- `api/test.js` is not part of this model. It only echoes the method and the time.
- The framework's own 405 for other methods on the route is left out: it is not in the route's source.
- JavaScript numbers are integers here, so NaN and -0 in truthiness tests are not represented.
- Throwing `null` or `undefined` is not represented. In `api/submit-form.js`, reading `error.message` of such a value throws inside the `catch` block. The handler's promise then rejects and the response is never finished.
- A `message` property that is not a string is not represented.
- In `page.tsx` the non-`Error` fallback text is never shown, because every value the `try` block can throw is an `Error`.
- Concurrency is not modelled: two submits from separate tabs, and when React applies its queued state updates and re-renders.
- `ContactScript.ContactForm.Submit`: its `disabledInFlight` result records the button at the `await` point. It does not model the browser blocking clicks.
