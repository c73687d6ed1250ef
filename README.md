# aws-to-teams: a Dafny model of the Teams notifier core

This project models the two pieces of the AWS-to-Microsoft-Teams notifier that make real decisions.
Its Dafny proofs cover both.

- **Delivery** (`src/teams.js`, module `Teams`). Deciding whether the configured hook URL is a KMS
  ciphertext. Resolving that value once, when the module loads. Classifying the webhook's HTTP
  status as success, permanent failure or transient failure. The `retry` driver with exponential
  back-off. `Teams.toEpochTime` and the `Teams.COLORS` palette.
- **Rendering** (`src/teams/eventdef.js`, module `EventDef`). Markdown links and the
  `HIDE_AWS_LINKS` switch. The Adaptive Card (schema version 1.2) an attachment renders to. The
  defaults `attachmentWithDefaults` fills in place: the timestamp, and a footer built from the
  SNS subscription ARN.

Files:

- `values.dfy`: `Option`, JavaScript truthiness of a string property, and how a template literal
  prints `undefined`.
- `strings.dfy`: unanchored literal search (what `RegExp.test` does for a regular expression made
  of literals), ASCII case folding, and decimal numerals with a round-trip lemma.
- `teams.dfy`: the delivery side. The class `Teams` stands for the loaded module. Its constant
  field `hookUrl` is set once, by the constructor, from the `TEAMS_HOOK_URL` setting.
  `postMessage` awaits that same value on every attempt.
- `eventdef.dfy`: the card tree as datatypes, `MarkdownLink`, and the class `AdaptiveCard`, whose
  `Render` builds the item list by appending. The class `Attachment` has fields the defaults step
  updates. The class `EventDef` has `AttachmentWithDefaults`.

How the environment is modelled:

- The environment variables, the clock, the KMS reply and the webhook replies are parameters.
- The retry driver's operation is a function from the call index to that call's outcome.
  `Retry` returns three things: the outcome it settles on, the number of calls and the list of
  waits it asked for. It does not sleep.
- Lodash is used in `eventdef.js` (lines 42, 53, 133, 140, 144) without being required there
  (only lines 1-2 require anything). The model gives those calls their lodash meaning: `_.map`,
  `_.toArray`, `_.isDate`, `_.get` and `_.split`.

Behaviour of the source that the model keeps:

- The hook URL is resolved when the module loads (src/teams.js:7), and every `postMessage`
  awaits that one value.
- The "no whitespace" test checks only the space character (src/teams.js:22).
- `render` passes `color` through verbatim (src/teams/eventdef.js:21). `Teams.COLORS` is only a
  constant that callers can look up.
- The link-suppression setting is read each time a `MarkdownLink` is constructed
  (src/teams/eventdef.js:165).
- The suppression test is a substring match, so "10" and "untrue" also hide links.
- The footer is synthesised inside `attachmentWithDefaults` (src/teams/eventdef.js:137-156).
  The truncated topic is 35 characters plus "...", applied only to topics longer than 40
  characters.
- `x / 1000 | 0` is a 32-bit conversion. The epoch value is exact up to 19 January 2038 and wraps
  after that (`Teams.EpochTimeWrapsIn2038`).

## Model

| member | source | states |
|---|---|---|
| `Strings.NatToString` | src/teams.js:75 | the status code prints as a non-empty string of decimal digits with no leading zero |
| `Strings.DecimalRoundTrip` | src/teams.js:75 | reading the printed numeral back gives the original number |
| `Teams.ShouldDecryptBlob` | src/teams.js:18-41 | decryption is attempted iff the value is a string of more than 50 characters, has no space and passes the optional predicate; otherwise the value is used unchanged; a failed decrypt falls back to the raw value; a successful one yields the plaintext |
| `Teams.HookUrlIsValid` | src/teams.js:7-9 | the hook URL's predicate accepts only values longer than 100 characters, and rejects any value that begins with `http://` or `https://` followed by a word character |
| `Teams.ResolveHookUrl` | src/teams.js:7-9 | the hook URL is decrypted iff it is a string of more than 100 characters, has no space and matches no `https?://\w` anywhere; the result is the plaintext when that decrypt succeeds and the setting unchanged otherwise |
| `Teams.LiteralUrlUsedAsIs` | src/teams.js:7-9 | a value beginning with `http://` or `https://` and then a word character is used as-is; no decrypt call is made, whatever KMS would answer |
| `Teams.PlainValueUsedAsIs` | src/teams.js:20-24 | a value of at most 50 characters, or one containing a space, is used as-is without a decrypt call, for any predicate |
| `Teams.DecryptFailureFallsBack` | src/teams.js:27-29 | when the decrypt call reports an error, the resolved value is exactly the original blob |
| `Teams.Classify` | src/teams.js:69-80 | 2xx returns the response; 4xx throws an Error with `retryable` false and the bad-request message; any other status, or a transport rejection, throws with `retryable` undefined; the retry driver stops iff the reply is 2xx or 4xx |
| `Teams.BadRequestCarriesStatus` | src/teams.js:74-77 | a 4xx error's message starts with the bad-request prefix followed by the three-digit status code, and those digits read back as the code |
| `Teams.IsRetryable` | src/teams.js:120 | a thrown value is retried when its `retryable` property is undefined or true; an Error with `retryable` false is not retried; a thrown string has no such property and is retried |
| `Teams.Backoff` | src/teams.js:122 | the wait after 0 failures would be 200 ms and each further failure doubles it |
| `Teams.Pow2Add` | src/teams.js:122 | the power of two in the back-off satisfies 2^(a+b) = 2^a·2^b |
| `Teams.BackoffGrowth` | src/teams.js:122 | b more failures multiply the wait by 2^b |
| `Teams.BackoffSchedule` | src/teams.js:120-124 | after n retryable failures there are n requested waits, and wait i is the back-off after i+1 failures, 200·2^(i+1) ms |
| `Teams.BackoffDoubles` | src/teams.js:122 | each wait is twice the one before |
| `Teams.CallsMade` | src/teams.js:113-130 | the number of calls is between 1 and max(1, retries); every call before the last failed retryably; when fewer than max(1, retries) calls are made, the last one returned or threw a non-retryable error |
| `Teams.Retry` | src/teams.js:113-130 | the loop makes `CallsMade` calls, settles on the last call's outcome (so it returns that value or re-throws that error), and records the back-off schedule for all but the last call |
| `Teams.SingleCallIff` | src/teams.js:117-127 | exactly one call is made iff the first call returns, or throws a non-retryable error, or the budget is at most 1 |
| `Teams.CallsMadeAtFirstStop` | src/teams.js:117-127 | the driver stops at the first call that returns or throws a non-retryable error, so a success returns the first successful value |
| `Teams.CallsMadeWhenExhausted` | src/teams.js:120-127 | when no call stops the driver it makes max(1, retries) calls and re-throws the last error |
| `Teams.PostCalls` | src/teams.js:64 | postMessage makes between one and three POSTs |
| `Teams.BadRequestPostsOnce` | src/teams.js:64-77 | a 4xx reply to the first POST means exactly one POST, and the error is not retryable |
| `Teams.SuccessAfterTransientFailures` | src/teams.js:64-73 | a 2xx reply to POST k (k < 3) after transient failures ends postMessage after k+1 POSTs with that response |
| `Teams.ThreeTransientFailures` | src/teams.js:113-130 | three transient failures mean three POSTs, waits of exactly [400, 800] and the third error re-thrown |
| `Teams.Teams.constructor` | src/teams.js:7-9 | loading the module resolves the hook URL once, into a constant that every later POST uses |
| `Teams.Teams.PostMessage` | src/teams.js:63-82 | every POST sends the message to the same memoised hook URL; the number of POSTs, the result and the waits are those of `retry(3, …)` over the classified replies |
| `Teams.ToInt32` | src/teams.js:54 | the bitwise-or with zero gives a signed 32-bit value congruent to its argument modulo 2^32, and leaves values already in range unchanged |
| `Teams.TruncateToSeconds` | src/teams.js:54 | milliseconds divided by 1000, truncated toward zero, for negative times too |
| `Teams.ToEpochTime` | src/teams.js:53-55 | the result is a signed 32-bit integer congruent to the truncated seconds, and equal to them when they are in range |
| `Teams.EpochTimeOfModernDate` | src/teams.js:53-55 | for times from 1970 to 19 January 2038 the epoch value s satisfies s·1000 ≤ ms < s·1000 + 1000 |
| `Teams.EpochTimeWrapsIn2038` | src/teams.js:54 | at 2^31 seconds the value wraps to -2^31 |
| `Teams.Colors` | src/teams.js:89-93 | critical, warning and ok map to attention, warning and good, all of them Teams colour names |
| `EventDef.LinksHidden` | src/teams/eventdef.js:162-166 | links are hidden iff the setting, lower-cased, contains "true" or the setting contains "1"; an unset or empty setting never hides them |
| `EventDef.NewMarkdownLink` | src/teams/eventdef.js:162-166 | the link keeps its url and text, and will print link syntax iff the suppression setting does not hide links |
| `EventDef.MarkdownLink.ToString` | src/teams/eventdef.js:172-177 | a suppressed link prints as its text (undefined stays undefined); otherwise as "[" text "](" url ")", with undefined parts printed as "undefined" |
| `EventDef.LinkText` | src/teams/eventdef.js:172-177 | a link prints as its text when links are hidden and as `[text](url)` otherwise |
| `EventDef.LinkExample` | src/teams/eventdef.js:172-177 | `("http://x", "Label")` prints as `[Label](http://x)` when links are shown and as `Label` when hidden |
| `EventDef.LinksHiddenExamples` | src/teams/eventdef.js:165 | "1", "10", "TRUE" and "untrue" hide links; unset, "", "false", "0" and "yes" show them |
| `EventDef.TitleColumn` | src/teams/eventdef.js:42-47 | the left column has one bold, small cell per field, holding that field's title, in input order |
| `EventDef.ValueColumn` | src/teams/eventdef.js:53-57 | the right column has one small cell per field, holding that field's value, in input order |
| `EventDef.FieldTable` | src/teams/eventdef.js:37-62 | the field table is a small-spaced ColumnSet of an auto-width and a stretch column of equal length; row i holds field i's title on the left and its value on the right; missing fields give empty columns |
| `EventDef.RenderingIsUnique` | src/teams/eventdef.js:16-108 | the description of a rendering fixes the message completely |
| `EventDef.OptionalBlocks` | src/teams/eventdef.js:65-81 | an Image block is at position 4 iff `imageUrl` is truthy; a footer block exists iff `footer` is truthy, and it is then the last item |
| `EventDef.AdaptiveCard.constructor` | src/teams/eventdef.js:5-14 | the card copies the attachment's eight rendered properties |
| `EventDef.AdaptiveCard.Render` | src/teams/eventdef.js:16-108 | the message is the fixed envelope (type "message", one attachment of content type `application/vnd.microsoft.card.adaptive`, version "1.2", one ColumnSet with one stretch Column); its items are the author block with the colour verbatim, the title as the link of (titleLink, title), the text, the field table, then the image iff truthy, then the footer iff truthy |
| `EventDef.DefaultTs` | src/teams/eventdef.js:130-135 | a falsy ts becomes the event time, or now when that is falsy; a Date becomes integer epoch seconds; a truthy non-Date is unchanged; the result is never a Date |
| `EventDef.FirstSegment` | src/teams/eventdef.js:144 | the topic is the prefix of the ARN suffix before its first colon, or the whole suffix when it has none |
| `EventDef.VisibleTopic` | src/teams/eventdef.js:148-150 | topics of at most 40 characters are kept; longer ones become their first 35 characters plus "..." |
| `EventDef.EventDef.GetLink` | src/teams/eventdef.js:119-121 | `getLink(text, url)` swaps its arguments into a MarkdownLink, which prints as the text or as `[text](url)` |
| `EventDef.EventDef.SnsFooter` | src/teams/eventdef.js:142-154 | the footer is "Received via ", the SNS link (caption "SNS " plus the visible topic, target the console page of the topic), a vertical bar between spaces, and the sign-in link; with links hidden the two captions appear without link syntax |
| `EventDef.EventDef.DefaultFooter` | src/teams/eventdef.js:137-156 | a truthy footer is kept; otherwise the SNS footer is synthesised when there is a subscription ARN; without an ARN the footer stays falsy |
| `EventDef.EventDef.FillTimestamp` | src/teams/eventdef.js:130-135 | the attachment's ts is replaced in place by its defaulted value; nothing else changes |
| `EventDef.EventDef.FillFooter` | src/teams/eventdef.js:137-156 | the attachment's footer is replaced in place by its defaulted value; nothing else changes |
| `EventDef.EventDef.AttachmentWithDefaults` | src/teams/eventdef.js:129-158 | ts and footer are defaulted in place, every other property is untouched, and the result is the rendering of the updated attachment |
| `EventDef.NoArnNoFooterBlock` | src/teams/eventdef.js:137-157 | with no footer and no subscription ARN, the rendered card has no footer block |

## Left out

- `postJson` (src/teams.js:139-169): the HTTPS request, the stream events, the JSON
  serialisation, `Content-Length` and the 3500 ms timeout are all I/O. Its outcome is a parameter:
  a response, or a rejection from the response stream. Errors on the request object itself have
  no listener in the source, so they never reach the retry driver. They are not modelled.
- The KMS `decrypt` call, the base64 decoding of the blob and the ASCII decoding of the plaintext
  are a foreign SDK call. They are a parameter from the blob to the reply.
- `sleep`/`setTimeout`: back-off waits are recorded as a list rather than slept.
- Promise and async scheduling: the hook URL is a value resolved once, when the object standing
  for the module is constructed. Concurrent callers are not modelled.
- All `console.*` logging. This includes the logging of the rendered message in `render`.
- `SlackEventDef` (`../eventdef`) is not part of this model. `parseArn`, `consoleUrl`, `getTime`
  and the record's `EventSubscriptionArn` are inputs of the `EventDef` object, and the clock is a
  parameter.
- The card tree is a datatype, so JSON key order and object identity are not modelled. A
  property set to `undefined` is `None`.
- Property values are modelled as strings, or as `undefined`, where the source allows any
  JavaScript value. Such values are `title`, `footer`, `image_url`, a `retryable` flag that is not
  a boolean, and `fields` that is not an array.
- Numbers are integers only. `NaN` is not modelled, and neither is an invalid `Date`, whose
  `getTime() / 1000 | 0` is 0.
- `retry` on an operation that throws `undefined` or `null`: reading `e.retryable` would then
  throw a TypeError. No such operation occurs here.
- String lengths and `substr` count UTF-16 code units in JavaScript but characters here. The two
  agree on text without characters outside the Basic Multilingual Plane.
