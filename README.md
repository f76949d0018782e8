# Sweepstakes form → Klaviyo profile: a verified model

This project models the decision-and-formatting core of the Sweepstakes 2025
integration with the Klaviyo API, which exists twice:

- **The server webhook** (`server/klaviyo-webhook.js`, module `KlaviyoWebhook`).
  `handleWebhookRequest` answers a form submission in a fixed order: a method
  other than POST gets 405 (section 15.5.6 of RFC 9110); a body that is not
  the sweepstakes form gets 200 "Form not matched"; a missing email gets 400;
  otherwise the profile is upserted and the reply is 200 (`success: true`) or
  500 (`success: false` with the error's message). Around it: field extraction
  that prefers the capitalised key, the name splitter, the profile payload,
  the collection of the response body chunk by chunk, the classification of
  the upstream status (any 2xx status, section 15.3 of RFC 9110, succeeds
  whether or not the body is JSON), and the AWS Lambda adapter, whose `res`
  object is a class whose `status()`/`json()` overwrite its two fields.
- **The browser script** (`klaviyo-integration.js`, module `KlaviyoIntegration`).
  The submit handler requires a non-empty email and name, builds the identify
  profile (site token, campaign flag, consent `['email', 'sms']`, phone and zip
  defaulted to `''`), treats status 200 or 1 as success, appends exactly two
  commands (identify, then track 'Sweepstakes Entry') to `window._learnq` when
  the page has one, and then navigates to the form's `redirect` target or
  shows the `.w-form-fail` element. When a field holds a character above
  U+00FF, `btoa` throws while the request URL is built: nothing is sent or
  queued, the promise rejects without a handler, and the page stays as it
  was. The page's mutable state is the class `Page`.

Shared modules: `JsValues` (strings-or-nothing and JavaScript's `||`, where
`''` counts as missing), `NameSplit` (`split(' ')`, `join(' ')` and the
first/last name split), `Decimal` (the decimal text of a status code).

The network is an input: the server's upstream answer is
`Response(statusCode, chunks) | RequestError(message)`, the browser's is
`Loaded(status) | NetworkError`. Whether a response body parses as JSON is an
input function `parses`; the clock reading of the track command is an input
`entryDate`.

The model follows the code as written, including:

- Names are split on the single character `' '`, not on whitespace, and the
  rest is re-joined with `' '`: `"Jane  Doe"` gives last name `" Doe"`.
- The browser's identify call reports only true or false, not a status or an
  error message; status `1` counts as success exactly as the code has it.
- On the server, `name` is both a form-identification key and the fallback
  for `Name`: a body identified by `name: "Sweepstakes 2025"` without `Name`
  sends first name "Sweepstakes" and last name "2025"
  (`KlaviyoWebhook.FormNameDoublesAsPersonName`).

## Model

| member | source | states |
|---|---|---|
| `NameSplit.SplitName` | server/klaviyo-webhook.js:40-42 | the first name has no space; with a space in the name, first name + " " + last name is the name; without one, the first name is the whole name and the last name is empty (an absent name is `''` and gives both empty) |
| `NameSplit.SplitNameUnique` | klaviyo-integration.js:65-67 | any split of a name into a space-free first part, one space and a rest is the one the splitter returns, so the first name is exactly the text before the first space |
| `NameSplit.JoinSplit` | klaviyo-integration.js:65-67 | `s.split(c).join(c) == s` for every string and separator |
| `NameSplit.SplitPiecesExcludeSeparator` | klaviyo-integration.js:65-66 | no piece of `split(c)` contains `c`, so the first name never contains a space |
| `NameSplit.SplitManyPiecesIffSeparator` | server/klaviyo-webhook.js:40-42 | `split(c)` has more than one piece exactly when `c` occurs, so the last name comes from the rest only when the name has a space |
| `NameSplit.DoubleSpaceKeepsLeadingSpace` | server/klaviyo-webhook.js:40-42 | "Jane  Doe" splits into "Jane" and " Doe": a second space stays in the last name |
| `Decimal.NatToDecimal` | server/klaviyo-webhook.js:126 | the status code in the error message is a non-empty digit string without leading zero |
| `Decimal.ParseNatToDecimal` | server/klaviyo-webhook.js:126 | reading the printed status code back gives the status code |
| `KlaviyoWebhook.IsSweepstakesForm` | server/klaviyo-webhook.js:24 | the submission is the sweepstakes form exactly when its `name` key holds "Sweepstakes 2025" or its `form` key holds "wf-form-Sweepstakes-2025"; a body with neither key is never the form |
| `KlaviyoWebhook.ExtractFields` | server/klaviyo-webhook.js:30-33 | the key pairs `Email`/`email`, `Name`/`name`, `Phone`/`phone`, `Zip-Code`/`zipCode`: each field is non-empty exactly when one of its keys is, and then the capitalised key's value wins; otherwise the fallback key's value is taken as it is |
| `KlaviyoWebhook.FieldOr` | server/klaviyo-webhook.js:30-33 | the capitalised key wins when it holds a non-empty string; otherwise the alternate key's value is used as it is; the result is non-empty exactly when one of the two is |
| `KlaviyoWebhook.BuildProfilePayload` | server/klaviyo-webhook.js:76-92 | the payload's type is always "profile" and its campaign flag always true; zip sits under `location`; phone and zip pass through without default |
| `KlaviyoWebhook.ResponseDataAppend` | server/klaviyo-webhook.js:111-115 | with chunks taken as already-decoded strings, the collected response body does not depend on how it was cut into chunks |
| `KlaviyoWebhook.CollectResponseData` | server/klaviyo-webhook.js:111-115 | the chunk loop ends with the concatenation of all chunks (decoded strings) in order |
| `KlaviyoWebhook.DecodeApiErrorMessage` | server/klaviyo-webhook.js:126 | the text of the rejection message of a non-2xx answer carries the status code (as its shortest decimal text) and the raw body, and both can be read back from it |
| `KlaviyoWebhook.ApiErrorMessage` | server/klaviyo-webhook.js:126 | the rejection message starts with "Klaviyo API error: " and decodes back to exactly its status code and raw body |
| `KlaviyoWebhook.SettleUpsert` | server/klaviyo-webhook.js:117-133 | resolves exactly on a 2xx status, with the parsed body or, when it is not JSON, the raw body; any other status rejects with a message carrying status and raw body; a request error rejects with its own message |
| `KlaviyoWebhook.CreateOrUpdateKlaviyoProfile` | server/klaviyo-webhook.js:72-138 | sends the profile payload of its arguments and settles as `SettleUpsert` says, collecting the body chunk by chunk |
| `KlaviyoWebhook.WebhookDecision` | server/klaviyo-webhook.js:14-67 | non-POST gives 405 with no call; a POST that is not the sweepstakes form (neither `name` nor `form` matches) gives 200 "Form not matched" with no call; a missing email gives 400 with no call; the upstream is called exactly in the remaining case, with the payload of the extracted fields; then 200 `success: true` exactly when the upsert resolves and 500 `success: false` with its message exactly when it rejects |
| `KlaviyoWebhook.NoCallMeansUpstreamIrrelevant` | server/klaviyo-webhook.js:16-37 | when no profile call is made, the reply is the same whatever the upstream would have answered |
| `KlaviyoWebhook.ReplyIgnoresJsonParsing` | server/klaviyo-webhook.js:118-124 | whether the upstream body parses as JSON never changes the reply |
| `KlaviyoWebhook.FormNameDoublesAsPersonName` | server/klaviyo-webhook.js:24-31 | a body identified by `name: "Sweepstakes 2025"`, without `Name` and with an email, is sent upstream with first name "Sweepstakes" and last name "2025" |
| `KlaviyoWebhook.JaneDoeIsUpserted` | server/klaviyo-webhook.js:24-58 | `{form: "wf-form-Sweepstakes-2025", Email, Name: "Jane Doe"}` with a 2xx answer gives 200 success and sends first name "Jane", last name "Doe" |
| `KlaviyoWebhook.LambdaResponse.constructor` | server/klaviyo-webhook.js:156-158 | a fresh response object has status 200 and an empty body |
| `KlaviyoWebhook.LambdaResponse.Status` | server/klaviyo-webhook.js:159-162 | `status(code)` overwrites the status code and nothing else |
| `KlaviyoWebhook.LambdaResponse.Json` | server/klaviyo-webhook.js:163-166 | `json(data)` overwrites the body and nothing else |
| `KlaviyoWebhook.Respond` | server/klaviyo-webhook.js:55-58 | `res.status(s).json(b)` leaves exactly that status and body |
| `KlaviyoWebhook.HandleWebhookRequest` | server/klaviyo-webhook.js:14-67 | the handler writes the status and body `WebhookDecision` gives and sends exactly the payload it gives |
| `KlaviyoWebhook.LambdaHandler` | server/klaviyo-webhook.js:148-178 | the Lambda export returns the status code and body the handler last wrote, with JSON content type |
| `KlaviyoIntegration.ValidateSubmission` | klaviyo-integration.js:28-38 | a submission proceeds exactly when email and name are both present and non-empty, and then with the submitted values |
| `KlaviyoIntegration.EntryTraits` | klaviyo-integration.js:64-78 | the name is split at its first space as above; phone and zip default to `''` when missing or empty; the campaign flag is set |
| `KlaviyoIntegration.BuildIdentifyProfile` | klaviyo-integration.js:70-81 | the identify profile always carries the site token and the consent list `['email', 'sms']`, with the entry's traits |
| `KlaviyoIntegration.QueueCommands` | klaviyo-integration.js:108-123 | exactly two queue commands: identify with the same traits as the identify call, then track 'Sweepstakes Entry' with the sweepstakes name and entry date |
| `KlaviyoIntegration.QueueAfterSend` | klaviyo-integration.js:108-123 | an absent queue stays absent; an existing one keeps its entries as they were and gains exactly the two commands at its end |
| `KlaviyoIntegration.IdentifySucceeded` | klaviyo-integration.js:90-103 | a network error resolves false; a load resolves true exactly with status 200 or 1 |
| `KlaviyoIntegration.EntryEncodableIffLatin1` | klaviyo-integration.js:64-88 | the identify request can be encoded exactly when email, full name, phone and zip (after the `''` default) have no character above U+00FF |
| `KlaviyoIntegration.TypographicApostropheThrows` | klaviyo-integration.js:65-88 | the name "Conan O’Brien" (U+2019) makes the identify request unencodable, whatever the email |
| `KlaviyoIntegration.RedirectTarget` | klaviyo-integration.js:49 | the `redirect` attribute when non-empty, otherwise '/confirmation/sweepstakes-confirmation'; never empty |
| `KlaviyoIntegration.Page.SendToKlaviyo` | klaviyo-integration.js:62-125 | when the traits have a character above U+00FF, `btoa` throws: nothing is sent, the queue is unchanged and the promise rejects; otherwise it sends the identify profile, settles true exactly on status 200 or 1 (a network error gives false), appends the two commands to an existing queue and leaves an absent one absent; the queue does not affect the outcome |
| `KlaviyoIntegration.Page.OnSubmit` | klaviyo-integration.js:24-58 | an invalid submission sends nothing and changes nothing; a valid one whose request cannot be encoded also sends nothing and changes nothing (the rejection is unhandled); otherwise it is sent, then success navigates to the redirect target and failure sets the error element's display to 'block' when there is one, and otherwise changes nothing |

## Left out

- The HTTPS request itself (host, path, headers, API key, `revision`, `Content-Length`, `req.write`/`req.end`): network I/O; the final status and body chunks, or the request error, are inputs.
- `ResponseDataAppend`/`CollectResponseData`: chunks are taken as decoded strings; the per-Buffer UTF-8 decoding of `responseData += chunk` is not modelled, so a multi-byte character cut between two chunks (which the code turns into two U+FFFD characters) is not captured.
- `JSON.parse`, `JSON.stringify`, `btoa`, `encodeURIComponent`: library calls; whether a body parses is the input `parses`, and the response object keeps the reply value rather than its JSON text. The one way `btoa` fails, a character above U+00FF, is modelled (`BtoaEncodable`); the Base64 text itself is not.
- The Lambda adapter's `JSON.parse(event.body || '{}')`: the handler receives the parsed body; a body that fails to parse (which throws before the handler runs) is not modelled.
- Request bodies are maps from field name to string: non-string JSON values, and a `null` or absent body (a `TypeError` caught as 500), are not modelled. A primitive body (a number, boolean or string) reads `undefined` for every key and so behaves like the empty map: 200 "Form not matched". The HTTP method is a string; an absent `httpMethod` is not modelled separately (it is not "POST" either way).
- `status()` and `json()` return `this` for chaining; the model calls them in sequence.
- The Vercel and Express exports only delegate to the handler and are not modelled separately.
- `XMLHttpRequest`, `FormData`, `getElementById`, `querySelector`, `addEventListener`, `preventDefault` and the `DOMContentLoaded` initialisation: browser I/O; their results are inputs or fields of `Page`.
- `new Date().toISOString()`: the entry date is the input `entryDate`.
- `server.js` (Express setup, CORS, health route, port): wiring with no logic.
- Environment reads, hard-coded keys other than the public site token, and all console logging.
- Promise and callback scheduling: each network call is one outcome value; the order between the queue pushes and the asynchronous resolution does not affect the final page state.
