# Notification dispatch, modelled in Dafny

This project models the push-notification backend of a fortune-telling app.
The backend is an Express service that forwards notifications to Firebase Cloud
Messaging (FCM). A request to `/api/notifications/<endpoint>` goes through these steps:

1. The API-key middleware (`middleware/auth.js`) checks the credential and answers 401 or 403 when it is wrong.
2. The shape validators in the same file check that `title`, `message` and `token` are non-blank strings. A failed check is answered with 400.
3. One of five route handlers (`routes/notifications.js`) picks the target, the title and body, and the metadata map. It makes exactly one send and turns the result into a 200 or a 500.
4. The send functions (`utils/firebase.js`) build the FCM envelope, make the single gateway call, and normalise its reply or exception into a `{success, ...}` result.

The endpoints are `/admin`, `/promotion`, `/fortune`, `/user` and `/test`.

The model is four modules:

- `JsValues` (`js_values.dfy`): the JavaScript value semantics the code relies on:
  - truthiness of body fields;
  - `String.prototype.trim` over the ECMAScript WhiteSpace and LineTerminator characters;
  - `replace` with a string pattern, which replaces only the first occurrence;
  - `substring(0, n)`;
  - `toLowerCase` on the characters that can lower-case to ASCII.
- `Auth` (`auth.dfy`): the credential gate, the two validators, and Express's in-order middleware chain.
- `Delivery` (`delivery.dfy`): the three envelope builders, token redaction, and the three send functions.
- `Notifications` (`notifications.dfy`): the fortune-title table, the metadata overlay, the five routes, and the whole request pipeline `Dispatch`.

The inputs the code takes from outside are parameters:
- The FCM gateway's reply is a `SendOutcome` (`Sent(messageId)` or `Thrown(message)`) or a `BatchOutcome`.
- The configured API key is `Config.apiKey`.
- The two clock readings are the opaque strings `Clock.millis` (the `Date.now()` text) and `Clock.iso` (the ISO time of the response).

Every member is a pure function or a lemma, because all three source files are chains of guards and object literals with no loops or shared mutable state.

### Consequences of the code as written

The routes' comments and response texts do not mention these behaviours. The model follows the code and proves each one:
- Caller `data` is spread after the fixed metadata keys. It can therefore replace `type`, `click_action` and `route`. See `FixedKeysUnlessOverridden`.
- `/fortune` runs the title/message validator, so it refuses a body without `title` and `message`, although it never uses them. See `BodyGateSecond`, `BlankTitleIs400` and `FortuneDemandsUnusedText`.
- Token redaction keeps the first twenty characters. A token of twenty characters or fewer is reported in full. See `ShortTokenFullyExposed`.
- An absent `fortuneType` is written to the metadata as `general`, but the title is looked up from the raw value. It is therefore the generic title, not the "general" one. See `AbsentFortuneTypeDefaultsDiffer`.

## Model

| member | source | states |
|---|---|---|
| `JsValues.Trim` | middleware/auth.js:35 | `trim()` is empty exactly when every character is ECMAScript whitespace; never longer than its input |
| `JsValues.TrimShape` | middleware/auth.js:35 | `trim()` keeps one contiguous run of the input, starting right after the leading whitespace |
| `JsValues.TrimDropsTrailing` | middleware/auth.js:35 | everything after the kept run is whitespace |
| `JsValues.TrimBorders` | middleware/auth.js:35 | a non-empty trimmed string neither starts nor ends with whitespace |
| `JsValues.LeadingWhitespace` | middleware/auth.js:35 | the count of leading characters that are all whitespace, stopping at the first non-whitespace one |
| `JsValues.IndexOf` | middleware/auth.js:7 | the search behind `replace`: the first index at or after `from` where the pattern occurs, or none when it occurs nowhere there |
| `JsValues.ReplaceFirst` | middleware/auth.js:7 | `replace(pat, rep)` splices `rep` in at the FIRST occurrence only, and leaves the string unchanged when there is none |
| `JsValues.Prefix` | utils/firebase.js:111 | `substring(0, n)` is a prefix of length `min(n, len)` |
| `JsValues.ToLowerMatchesKey` | routes/notifications.js:296-314 | a type lower-cases to a lower-case ASCII key of the title `switch` iff it spells that key letter by letter in any mix of cases, with U+212A KELVIN SIGN standing for `k` |
| `JsValues.ToLowerIdempotent` | routes/notifications.js:296 | lower-casing twice equals lower-casing once |
| `Auth.Credential` | middleware/auth.js:7 | a truthy `x-api-key` is the credential; otherwise `authorization` with its first `Bearer ` removed wherever it stands, unchanged when it has none, and nothing when the header is absent |
| `Auth.Authenticate` | middleware/auth.js:6-27 | passes iff the credential is present and equal to the configured key; 401 iff it is missing; 403 iff it is present and different |
| `Auth.UnconfiguredKeyRejectsAll` | middleware/auth.js:17-23 | with no key configured, a presented credential gets 403 and a missing one 401; nothing passes |
| `Auth.ApiKeyHeaderTakesPrecedence` | middleware/auth.js:7 | with a truthy `x-api-key` the `authorization` header has no influence on the outcome |
| `Auth.BearerCredential` | middleware/auth.js:7 | without `x-api-key`, `Bearer <key>` presents exactly `<key>` |
| `Auth.BearerHeaderAuthenticates` | middleware/auth.js:7-15 | `Bearer <key>` with the configured key passes; a bare `Bearer ` is a missing credential (401) whatever key is configured |
| `Auth.BearerRemovedMidHeader` | middleware/auth.js:7 | the prefix is stripped mid-header too: `xBearer k` presents `xk` |
| `Auth.BlankIffNoText` | middleware/auth.js:35 | the guard `!v \|\| typeof v !== 'string' \|\| v.trim().length === 0` holds exactly when `v` is not a string with a non-whitespace character |
| `Auth.ValidateNotification` | middleware/auth.js:32-53 | passes iff title and message both carry text; a bad title is reported before a bad message |
| `Auth.ValidateToken` | middleware/auth.js:58-71 | passes iff the token carries text, else 400 `Token is required` |
| `Auth.Chain` | routes/notifications.js:115 | a middleware list lets a request through iff every gate passes; otherwise it answers with a rejection that every earlier gate passed |
| `Auth.ChainFirstReject` | routes/notifications.js:115 | conversely, the answer is the first rejecting gate's |
| `Delivery.NotificationBlock` | utils/firebase.js:24-28 | title and body copied unchanged; `imageUrl` present iff the given one is truthy, and then equal to it |
| `Delivery.StampedData` | utils/firebase.js:29-32 | the data block has the caller's keys plus `timestamp`; `timestamp` is the send time even over a caller's value; every other caller entry is kept |
| `Delivery.TopicEnvelope` | utils/firebase.js:22-53 | addressed by `topic` alone; Android icon present; the iOS alert repeats the notification text |
| `Delivery.TokenEnvelope` | utils/firebase.js:77-103 | addressed by `token` alone; no Android icon; an iOS block without alert |
| `Delivery.MulticastEnvelope` | utils/firebase.js:127-145 | addressed by `tokens` alone; no Android icon; no iOS block |
| `Delivery.Redact` | utils/firebase.js:111 | the reported token is a prefix of the real one of `min(len, 20)` characters followed by `...` |
| `Delivery.ShortTokenFullyExposed` | utils/firebase.js:111 | a token of at most 20 characters is reported whole |
| `Delivery.LongTokenTruncated` | utils/firebase.js:111 | a longer token is reported as its first 20 characters plus `...` (23 in all) |
| `Delivery.SendToTopic` | utils/firebase.js:20-70 | one gateway call with the topic envelope; success iff the gateway replied, echoing the topic; an exception becomes `{success:false, error}` |
| `Delivery.SendToToken` | utils/firebase.js:75-120 | one gateway call with the token envelope; success iff the gateway replied and the token is a string, then with the redacted token (at most 23 characters); a gateway exception becomes `{success:false, error}`; a non-string token makes the redaction throw inside the same `try`, which also becomes `{success:false, error}` |
| `Delivery.SendToMultipleTokens` | utils/firebase.js:125-163 | one batch call; the counts and per-recipient replies pass through unchanged; an exception becomes `{success:false, error}` |
| `Delivery.CallerDataSurvivesStamp` | utils/firebase.js:29-32 | any caller key reaches the delivered data block, with its own value unless it is `timestamp` |
| `Delivery.PlatformHintsByBuilder` | utils/firebase.js:33-52 | only the topic send carries an Android icon and an iOS alert; only the multicast has no iOS block |
| `Notifications.FortuneTitleByTable` | routes/notifications.js:295-316 | the title is the table entry for the lower-cased type, and the generic title for an absent or unknown one |
| `Notifications.FortuneTitleCaseInsensitive` | routes/notifications.js:296 | two types that lower-case alike get the same title |
| `Notifications.FortuneTitleUpperCase` | routes/notifications.js:296-299 | `COFFEE` gets the coffee title |
| `Notifications.FortuneTitleAliases` | routes/notifications.js:297-308 | kahve/coffee, ask/love, gunluk/daily and genel/general share their titles |
| `Notifications.FortuneTitlesDistinct` | routes/notifications.js:309-314 | tarot and numerology have titles of their own; no known type gets the generic title |
| `Notifications.Overlay` | routes/notifications.js:23-27 | `{...fixed, ...data}` has both key sets; on a shared key the caller's value wins; other fixed entries are kept |
| `Notifications.Metadata` | routes/notifications.js:23-27 | every route but `/test` overlays the caller's `data` on its fixed keys: both key sets, the caller's value on every caller key, the fixed value on every fixed key the caller leaves alone; `/test` uses the fixed keys alone |
| `Notifications.FixedKeysUnlessOverridden` | routes/notifications.js:23-27 | `type` and `click_action` are always present; the caller's `data` replaces them on every route but `/test` |
| `Notifications.MetadataDefaults` | routes/notifications.js:73-79 | the keys are always present; unless the caller's `data` has the key, `promoCode` falls back to `''`, `fortuneType` to `general`, `fortuneId` to `unknown`, and `route` is `/store` or `/fortune_detail` |
| `Notifications.AbsentFortuneTypeDefaultsDiffer` | routes/notifications.js:119-130 | an absent type is `general` in the metadata but the title is the generic one, which differs from the `general` title |
| `Notifications.Respond` | routes/notifications.js:31-48 | 200 iff the send function reported success, with its message id, the echoed fields and the response time; else 500 with the provider error as `details` |
| `Notifications.AdminRoute` | routes/notifications.js:15-48 | topic `admin_announcements`, caller title and message, overlaid metadata; 200 iff sent, echoing topic and title; else 500 |
| `Notifications.PromotionRoute` | routes/notifications.js:65-100 | topic `promotions`, the caller's text and image, overlaid metadata; 200 iff sent, with the success text, the message id, the time, and exactly the echoed topic and `promoCode \|\| null` (while the payload carries `promoCode \|\| ''`); else 500 |
| `Notifications.FortuneRoute` | routes/notifications.js:117-155 | the caller's token, the looked-up title and the fixed body, with no image; the response echoes the raw type and id |
| `Notifications.UserRoute` | routes/notifications.js:172-204 | the caller's token, title and message; the response echoes the title only |
| `Notifications.TestRoute` | routes/notifications.js:219-270 | fixed test text and fixed metadata with no caller data; a send to the body's `token` whenever it is truthy, whatever its type, else to topic `all_users`; 200 naming the target kind iff the send succeeded, which a non-string token never does; else 500 |
| `Notifications.TestStrayTokenFails` | routes/notifications.js:230-268 | `/test` with a truthy non-string token sends to that token and answers 500 `Failed to send test notification`, whatever the gateway does |
| `Notifications.Route` | routes/notifications.js:13-270 | every route sends exactly once; 200 with the gateway's message id iff the gateway replied, except that a stray `/test` token always ends in 500; else 500 |
| `Notifications.GatesAdmit` | routes/notifications.js:115 | a request's middleware lets it through iff it is authenticated and its body is what the route's validators demand |
| `Notifications.Dispatch` | routes/notifications.js:7 | a send happens iff the request is authenticated and admitted, and then it is the route's; otherwise the first refusing gate's answer is the response |
| `Notifications.CredentialGateFirst` | routes/notifications.js:7 | an unauthenticated request is answered by the credential gate, on every route |
| `Notifications.BodyGateSecond` | routes/notifications.js:115 | behind the credential gate, the title/message validator answers next |
| `Notifications.TokenGateThird` | routes/notifications.js:170 | on the token routes the token validator runs last |
| `Notifications.RefusalEndsRequest` | routes/notifications.js:7 | a refused request sends nothing and gets the refusing gate's answer |
| `Notifications.MissingCredentialIs401` | middleware/auth.js:9-15 | without a credential every endpoint answers 401 and sends nothing |
| `Notifications.WrongCredentialIs403` | middleware/auth.js:17-23 | a wrong credential gets 403 and nothing is sent |
| `Notifications.BlankTitleIs400` | middleware/auth.js:35-41 | an authenticated request with a blank title gets 400 `Title is required` on every validated route |
| `Notifications.BlankMessageIs400` | middleware/auth.js:43-49 | with a good title, a blank message gets 400 `Message is required` |
| `Notifications.BlankTokenIs400` | middleware/auth.js:61-67 | on `/fortune` and `/user`, a blank token gets 400 `Token is required` |
| `Notifications.FortuneDemandsUnusedText` | routes/notifications.js:115-120 | `/fortune` refuses a body without a title, yet once admitted what it sends does not depend on the title or message |
| `Notifications.TestWithoutToken` | routes/notifications.js:241-262 | `/test` without a token sends to `all_users` with the test title and reports target `all_users` |
| `Notifications.FortuneCoffeeScenario` | routes/notifications.js:117-136 | `/fortune` with type `coffee` and no id sends the coffee title with `fortuneType: coffee` and `fortuneId: unknown` |

`Notifications.FortuneTitle` (the model of `getFortuneTitle`), `Notifications.FixedMetadata` (the five metadata object literals) and `Notifications.Gates` (each route's middleware list) carry no contract of their own. They are specified by the rows above: `FortuneTitle` by the `FortuneTitle*` lemmas and `ToLowerMatchesKey`; `FixedMetadata` by `Metadata`, `FixedKeysUnlessOverridden` and `MetadataDefaults`; `Gates` by `GatesAdmit` and the three `…GateFirst/Second/Third` lemmas.

## Left out

- `server.js` (security headers, CORS, rate limiting, logging, the listener, signal handlers, the 404 list, the global error handler) is not part of this model. Mounting the router under `/api/notifications` is not modelled either.
- Firebase initialisation and the service-account load (utils/firebase.js:1-15) are not modelled. The gateway is the `SendOutcome`/`BatchOutcome` parameter.
- `subscribeToTopic` (utils/firebase.js:168-184) is not modelled. It wraps a foreign call and no route uses it.
- `GET /health` (routes/notifications.js:285-292) is not modelled. It is a constant reply with a clock reading.
- Console logging is not modelled. The redaction expression it uses is modelled once, as `Delivery.Redact`.
- Async/await and the Express `req`/`res`/`next` plumbing are not modelled. Each middleware is a `Gate` value, each handler a function to an `Exchange`.
- The route handlers' own `catch` branches (500 `Internal server error`) are not modelled. In this code only a non-string `fortuneType` other than `null` reaches them, `0` and `false` included: `fortuneType?.toLowerCase()` short-circuits only on `null` and `undefined`, so for any other non-string the call throws in `getFortuneTitle` and no send happens. `fortuneType` is therefore an optional string.
- A falsy non-string `imageUrl`, `promoCode` or `fortuneId` (`null`, `0`, `false`), and a `null` `fortuneType`, act in the envelope exactly like an absent field, which the model's `None` covers:
  - `imageUrl && {…}` drops it (utils/firebase.js:27);
  - `promoCode || ''` and `fortuneId || 'unknown'` replace it, and so does `fortuneType || 'general'` for a `null` type (routes/notifications.js:75, 130, 131);
  - `null?.toLowerCase()` gives the generic title.
- `Notifications.FortuneRoute` does not model the response echo of a `null` `fortuneType` or a falsy non-string `fortuneId`. The code echoes the raw value (routes/notifications.js:144-145), for example `"fortuneType": null`, while the model's `Echo` holds only strings or an omitted key.
- Truthy non-string values of `imageUrl`, `promoCode` and `fortuneId`, and non-string values inside `data`, are not modelled: these fields are optional strings and `data` is a string-to-string map. In the code such values do not throw in the route. They travel in the envelope to `messaging.send`, and whatever that call does with them, the send function turns its exception into `{success:false, error}` and the route into 500 `Failed to send …`. The Firebase SDK's own validation of the envelope is not part of this model.
- A `data` body field that is not an object is not modelled. In the code a string is spread character by character, an array by index, and `null`, a number or a boolean adds nothing.
- `Delivery.SendToToken` requires a string or truthy token. No route passes a falsy non-string token (`null`, `0`, `false`). For `null` the redaction's TypeError has a different message (`Cannot read properties of null`), while `0` and `false` raise the same `token.substring is not a function`; the model's `NonString(false)` does not tell them apart.
- `Delivery.SubstringNotAFunction` is V8's wording for the TypeError a non-string token's `substring` call raises. Other engines word it differently.
- `JsValues.ToLower` only maps the characters that lower-case to ASCII letters (`A`-`Z` and U+212A KELVIN SIGN) and leaves every other character unchanged. It is not the full Unicode case mapping. The title lookup only compares the result with lower-case ASCII keys, and `ToLowerMatchesKey` states exactly which types match. No other Unicode character lower-cases to one made only of ASCII letters; U+0130 lower-cases to `i` plus a combining dot, which matches no key.
- `Delivery.Redact` counts Unicode scalar values, while JavaScript's `substring` counts UTF-16 code units. The two differ only for tokens outside the Basic Multilingual Plane, and FCM tokens are ASCII.
- `JsValues.ReplaceFirst` takes the replacement literally. JavaScript's `$` patterns never arise here, because the replacement is the empty string.
- Repeated or non-string HTTP headers are not modelled; each header is an optional string.
- The multicast `responses` are passed through without being interpreted.
