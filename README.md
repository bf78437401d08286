# StackVerify client — a Dafny model

A model of the StackVerify SDK client (`src/index.js`), a thin JavaScript
wrapper around a messaging API (SMS send and status, email campaigns,
sending-domain status). Everything the client decides on its own is modelled
as pure functions over datatypes and proved about:

- **construction** (`new StackVerify({ apiKey, baseUrl })`): a falsy key is
  rejected, the key is stored unchanged, every trailing `/` of the base URL is
  removed (the regular-expression rewrite `/\/+$/` is modelled literally and
  proved equal to a recursive strip), and the mode is `test` exactly for keys
  beginning with `sk_test_`;
- **request construction** (`_request` up to the `fetch` call): URL, method,
  headers and body, including the object-spread override rule;
- **the five domain operations** (`sendSMS`, `getSMSStatus`,
  `getDomainStatus`, `createEmailCampaign`, `startCampaign`): the validation
  order, the field each failure names, defaults, and the request produced;
  the endpoint each request reaches is read back from method and path and
  shown to identify the operation and its encoded id;
- **response normalization** (the tail of `_request`): the data an ok response
  yields, and the error record (`message`, `status`, `code`, `retry_after`,
  `response`) with JavaScript's `||` fallbacks;
- **one call end to end** (`Execute`): the transport is a parameter, and the
  model records every request handed to it, so "nothing is sent on invalid
  input, exactly one request otherwise" is a stated property.

Inputs are JavaScript values (`JsValue.Value`, with `Undefined` for a missing
key), so truthiness is JavaScript's: `undefined`, `null`, `false`, `0` and
`""` are falsy and count as missing. `encodeURIComponent` is the parameter
`enc`, and `fetch` the parameter `fetch`.

Files: `Wrappers.dfy` (Option, Result), `JsValue.dfy` (values, truthiness,
`||`, `?.`), `Strings.dfy` (startsWith, trailing-slash strip, decimal
numerals), `StackVerify.dfy` (the client).

Behaviour worth knowing:

- An ok response whose body does not parse as JSON yields `null`, not the raw
  text (`src/index.js:42-45`).
- Caller `headers` passed to `_request` replace the default headers as a whole,
  Authorization included (`CallerHeadersReplaceDefaults`). No public
  operation passes headers, so every request they build carries it
  (`EveryRequestIsAuthorized`).
- `createEmailCampaign` reports the first missing field in the order name,
  subject, contact_list_id, sending_domain_id, so a missing
  sending_domain_id is reported only when the other three are present.
- Defaults (`baseUrl`, `status = "draft"`, `scheduled_at = null`) apply only to
  `undefined`; an explicit `null` is kept (and a `null` baseUrl makes the
  constructor throw a TypeError from `replace`).
- Transport resolution only probes `globalThis.fetch`; there is no polyfill
  import.

## Model

| member | source | states |
|---|---|---|
| JsValue.Or | src/index.js:49-53 | `a \|\| b` is the left operand when it is truthy and the right one otherwise, and is truthy iff either operand is |
| JsValue.Get | src/index.js:49-53 | `data?.key` is `undefined` for null/undefined data and for a missing key, and the property otherwise |
| Strings.StripTrailingSlashes | src/index.js:25 | the result is a prefix of the URL, does not end in `/`, and only slashes were removed |
| Strings.StripIdempotent | src/index.js:25 | stripping a stripped URL changes nothing |
| Strings.StripUnique | src/index.js:25 | for any body not ending in `/` followed by slashes only, stripping returns exactly the body |
| Strings.TrailingRunMatch | src/index.js:25 | a match of `/\/+$/` found at or after a position lies inside the string and covers slashes only |
| Strings.TrailingRunMatchFinds | src/index.js:25 | the leftmost match of `/\/+$/` starts where the stripped URL ends, and there is none when nothing is stripped |
| Strings.StripMatchesRegexReplace | src/index.js:25 | `s.replace(/\/+$/, "")` equals the recursive strip for every string |
| Strings.DecimalString | src/index.js:49 | the rendering of a status is a non-empty digit string with no leading zero except "0" |
| Strings.ParseDecimalString | src/index.js:49 | reading the rendered numeral back gives the status |
| StackVerify.New | src/index.js:19-28 | fails with ApiKeyRequired exactly for a falsy key and with a TypeError for non-string key or baseUrl; otherwise stores the key unchanged, the stripped (default) base URL and mode test iff the key starts with `sk_test_` |
| StackVerify.NewFailsExactlyOnMissingKey | src/index.js:19-27 | for a string or absent key, construction fails iff the key is absent or empty; the key is kept; mode is test iff its first eight characters are `sk_test_` |
| StackVerify.ModeName | src/index.js:27 | the stored mode string is "test" or "live", and "test" exactly for the test mode |
| StackVerify.ModeStringOfKey | src/index.js:27 | `this.mode` is "test" exactly when the key's first eight characters are `sk_test_`, "live" otherwise |
| StackVerify.NewIdempotent | src/index.js:24-27 | rebuilding a client from its own key and base URL yields the same client |
| StackVerify.TrailingSlashesExample | src/index.js:25 | base URL `https://x/api///` becomes `https://x/api` |
| StackVerify.DefaultHeaders | src/index.js:35-38 | exactly two headers: JSON content type and `Bearer ` followed by the key |
| StackVerify.BuildRequest | src/index.js:33-40 | URL is base URL then path; method GET unless given; headers the defaults unless given; body as given |
| StackVerify.CallerHeadersReplaceDefaults | src/index.js:33-40 | passing `headers` to `_request` drops Authorization |
| StackVerify.ArgErrorMessage | src/index.js:71-143 | every argument-error text begins with the operation name and `: ` and ends with ` is required` or ` must be a non-empty array` |
| StackVerify.MessageHasKey | src/index.js:71-143 | the length and first character of an error text are determined by the operation and field names |
| StackVerify.RaisedKeysDistinct | src/index.js:71-143 | the ten errors the operations raise differ in text length or first character |
| StackVerify.ArgErrorMessagesDistinct | src/index.js:71-143 | two raised errors with the same text are the same error |
| StackVerify.DispatchRaisesKnownErrors | src/index.js:70-143 | every failing operation raises one of the ten known argument errors |
| StackVerify.SendSms | src/index.js:63-90 | fails iff a check fails, naming the first failing of: non-empty recipients array, body or templateId, sender_id; otherwise a POST to `/v1/sms/send` with default headers and all five fields unchanged |
| StackVerify.GetSmsStatus | src/index.js:92-97 | fails iff the id is falsy; otherwise a bodiless GET to `/v1/sms/status/` followed by the encoded id |
| StackVerify.GetDomainStatus | src/index.js:101-106 | fails iff the id is falsy; otherwise a bodiless GET to `/domains/` followed by the encoded id |
| StackVerify.CreateEmailCampaign | src/index.js:108-139 | fails iff a required field is falsy, naming the first of name, subject, contact_list_id, sending_domain_id; otherwise a POST to `/campaigns` with channel "email", fields unchanged, status defaulting to "draft" and scheduled_at to null |
| StackVerify.StartCampaign | src/index.js:141-149 | fails iff the id is falsy; otherwise a bodiless POST to `/campaigns/` + encoded id + `/start` |
| StackVerify.EveryRequestIsAuthorized | src/index.js:33-40 | every request an operation builds has exactly the default headers, method GET or POST, and a URL extending the base URL with a `/`, with a single slash at the join for a constructed client |
| StackVerify.RequestRouteRoundTrip | src/index.js:80-147 | reading method and path back from any built request gives the operation and its encoded id |
| StackVerify.DistinctOperationsDoNotCollide | src/index.js:80-147 | two built requests with the same method and URL come from the same operation and encoded id |
| StackVerify.GenericMessageNamesStatus | src/index.js:49 | the generic error text is `StackVerify API error (` + numeral + `)` and the numeral reads back as the status |
| StackVerify.Normalize | src/index.js:42-58 | ok iff success with the data; otherwise status and response kept, message the truthy body message or the generic text (always truthy), code and retry_after the truthy body fields or null |
| StackVerify.BadSenderExample | src/index.js:47-55 | body `{message: "bad sender", error: "invalid_sender", retry_after: 30}` gives exactly those error fields |
| StackVerify.FalsyFieldsFallBack | src/index.js:48-53 | empty message, empty error and zero retry_after fall back to the generic text, null and null |
| StackVerify.Execute | src/index.js:32-58 | nothing is sent iff validation fails (the argument error is returned); otherwise exactly the built request is sent and its response normalized, a transport rejection propagating |
| StackVerify.EmptyRecipientsSendNothing | src/index.js:70-72 | an empty recipients array fails before any request, whatever the other fields |

## Left out

- `resolveFetch` and the probing of `globalThis.fetch` (`src/index.js:6-14`): environment detection; the transport is a parameter of `Execute`.
- The asynchronous `fetch` call, `res.json()` and Promises: the transport's answer is an input (`ok`, `status`, parsed body or parse failure, or a rejection); `ok` is not derived from the status.
- `JSON.stringify` of request bodies: a body is a record of fields, so the dropping of `undefined` fields and key order on the wire are not modelled.
- The internals of `encodeURIComponent` (including its `URIError` on lone surrogates): it is the opaque parameter `enc`.
- Normalize: `message` is the value handed to `new Error`, not its conversion to a string, which is the identity only for strings.
- JsValue.Get: only own properties of objects are seen; prototype properties of strings and arrays (`length`, indices) are not, which matters for none of the keys the client reads.
- Numbers are reals: NaN and `-0` (both falsy in JavaScript) are not represented.
- Arguments that are not objects: passing `null` to the constructor, `sendSMS` or `createEmailCampaign` makes destructuring throw a TypeError; an omitted argument is modelled as all fields `undefined`.
- Exact message texts beyond `ArgErrorMessage` and the generic API message; identity of JavaScript Error objects.
