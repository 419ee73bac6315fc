# CardioGuard emergency pipeline in Dafny

This project models the decision core of the CardioGuard backend (`index.js`).
For every wearable reading it decides whether the wearer is in an emergency. If so, it
notifies the wearer's emergency contact by SMS and appends a line to the audit log.

- `wrappers.dfy` — `Option` (a JavaScript value that may be `null`) and `Outcome` (a call that may raise).
- `js_number.dfy` — JavaScript numbers: finite values as exact reals, plus `NaN`, `Infinity` and
  `-Infinity`. It gives the comparisons, products and sums the rules use, and `Math.sqrt(v) > 18`
  restated as a test on squares, with the lemma that justifies it.
- `readings.dfy` — the normaliser. The heart rate is absent when it is undefined, null or NaN.
  Each acceleration axis is kept exactly when its value has type `number`, independently of the others.
  The readings route normalises the axes and `checkForEmergency` normalises them again; doing so twice
  changes nothing.
- `rules.dfy` — the ordered rules: bradycardia (heart rate `<= 40`), then tachycardia (`>= 180`), then
  fall (all three axes present and magnitude `> 18`). The first rule that fires wins. The if-chain of the
  source is proved equal to a generic "first match in an ordered rule list".
- `messages.dfy` — the emergency messages, the SMS body and the audit line.
- `emergency.dfy` — `sendSms`, `triggerEmergency` and `checkForEmergency` as methods of a class
  `Backend`. It holds the user table, the `TWILIO_ENABLED` flag, every use of the SMS channel and the
  audit log. Each method is tied to a pure function (`SendOutcome`, `Trigger`, `Check`), and the lemmas
  about failure isolation are stated over those functions.

External calls are inputs. The user table is a map. A `Faults` value says, for one invocation,
whether the lookup rejects, the live SMS send fails and the log append fails. The timestamp is a string.

A field that is not a finite number might be expected to become null. The code instead keeps an
acceleration axis whose value is `NaN` or an infinity, because `typeof` calls those `'number'`; it also
keeps an infinite heart rate. The model follows the code. A `NaN` axis therefore counts as present, but
it makes the magnitude `NaN`, so the fall rule cannot fire (`NaNAxisNeverFalls`).
An infinite axis (with no `NaN` axis) does fire it.

The source does not keep newlines out of a user's name or emergency contact: `/api/register`
(index.js:191-196) stores any non-empty text and index.js:133 inserts it unescaped, so such a name splits
one audit record over two lines. `AuditLineIsSingleLine` therefore requires newline-free parts.

## Model

| member | source | states |
|---|---|---|
| JsNumber.AtMost | index.js:154 | `n <= bound`: false for NaN and Infinity, true for -Infinity, the real comparison otherwise |
| JsNumber.AtLeast | index.js:159 | `n >= bound`: false for NaN and -Infinity, true for Infinity, the real comparison otherwise |
| JsNumber.SqrtExceeds | index.js:172-174 | `Math.sqrt(n) > bound` holds only for Infinity or a finite non-negative n above bound², and always for Infinity; NaN, -Infinity and negatives never pass (see SqrtComparison) |
| JsNumber.SqrtComparison | index.js:172-174 | for a square root m >= 0, `m > 18` holds exactly when `m*m > 324`, so the squared test decides `Math.sqrt(...) > 18` |
| JsNumber.Times | index.js:172 | `a * b` is the real product for finite operands and NaN when either operand is NaN; a number times itself is NaN only for NaN, and otherwise a non-negative number or Infinity |
| JsNumber.Plus | index.js:172 | `a + b` is the real sum for finite operands and NaN when either operand is NaN |
| Readings.NormalizeHeartRate | index.js:151-152 | the heart rate is absent exactly when it is undefined, null or NaN; otherwise it is the coerced number, never NaN |
| Readings.NormalizeAxis | index.js:166-168 | an axis is present exactly when its value is of type number, and then it is that number |
| Readings.Normalize | index.js:151-168 | the sample's heart rate is the normalised heart rate; with no acceleration object all axes are absent; otherwise each axis is normalised from its own field only |
| Readings.NormalizeAccel | index.js:166-168 | each axis is present exactly when there is an acceleration object and that axis's own field is of type number |
| Readings.Denormalize | index.js:213-215 | writing a normalised axis back as number-or-null and normalising it again gives the same axis |
| Readings.RouteAccel | index.js:213-228 | the route always passes an `{x, y, z}` object, and that object normalises to the same three axes as the raw acceleration |
| Readings.RouteNormalizeAgrees | index.js:212-228 | the sample from the route's re-built `{x, y, z}` object equals the sample from the raw reading |
| Rules.SumOfSquares | index.js:172 | `ax*ax + ay*ay + az*az` is the real sum of squares for finite axes, NaN when any axis is NaN, and otherwise a non-negative number or Infinity |
| Rules.Fires | index.js:152-177 | a reason a single rule produces always names that rule |
| Rules.Evaluate | index.js:149-181 | the verdict names a rule that fires, every earlier rule in the order does not fire, and there is no emergency exactly when no rule fires |
| Rules.RankIsPosition | index.js:152-177 | each rule's rank is its position in the ordered rule list |
| Rules.FirstMatchIsFirst | index.js:149-181 | an ordered rule list yields nothing exactly when no rule fires, and otherwise yields the reason of a firing rule with no firing rule before it |
| Rules.EvaluateIsFirstMatch | index.js:149-181 | the source's if-chain is the ordered list bradycardia, tachycardia, fall run to its first match |
| Rules.BradycardiaFirst | index.js:152-157 | a heart rate at or below 40 yields "low heart rate" with that rate, whatever the acceleration |
| Rules.TachycardiaSecond | index.js:159-162 | a heart rate at or above 180 yields "very high heart rate" with that rate, whatever the acceleration |
| Rules.HeartRateRulesExclusive | index.js:154-162 | no heart rate is both at most 40 and at least 180 |
| Rules.PartialVectorNeverFalls | index.js:166-180 | with any axis absent, the result is "no emergency" exactly when neither heart-rate rule fires |
| Rules.FallThreshold | index.js:171-177 | with the heart-rate rules silent and three finite axes, an emergency is raised exactly when x²+y²+z² > 324, and it is a fall carrying that sum |
| Rules.NaNAxisNeverFalls | index.js:166-177 | a NaN axis never lets the fall rule fire |
| Rules.InfiniteAxisFalls | index.js:166-177 | with all axes present, none NaN and one infinite, the fall rule fires with magnitude Infinity |
| Rules.FallExamples | index.js:171-177 | (18,0,0) and (10,10,10) raise nothing; (10,10,15) raises a fall with squared magnitude 425 |
| Messages.ReasonText | index.js:155-175 | defined by its body: the three message texts, each a fixed prefix followed by the formatted number; MessageNamesRule proves the prefixes tell the rules apart |
| Messages.MessageNamesRule | index.js:155-175 | whatever the number formatting, each message's prefix tells which rule raised it |
| Messages.SmsBody | index.js:127 | the SMS body starts with "Emergency for " and ends with the message |
| Messages.ContactText | index.js:133 | a null contact is written as "null", a present one as itself |
| Messages.AuditLine | index.js:133 | defined by its body: the timestamp, "EMERGENCY", "user:" with the name, "contact:" with the contact text and "msg:" with the message, joined by a bar between spaces and ended by a newline; AuditLineIsSingleLine proves its shape |
| Messages.AuditLineIsSingleLine | index.js:133 | an audit line built from newline-free parts starts with the timestamp, ends with the message and one newline, and has no other newline |
| Emergency.Contact | index.js:120 | the contact is null exactly when the stored contact is NULL or empty, and otherwise is the stored, non-empty contact |
| Emergency.DisplayName | index.js:121 | the stored name when it is non-empty, otherwise `user#<id>`; never empty |
| Emergency.TwilioConfig.Enabled | index.js:73-76 | defined by its body: account id, auth token and sender number all present and non-empty |
| Emergency.Found | index.js:114-115 | defined by its body: the lookup did not reject and returned a row for the id |
| Emergency.SendOutcome | index.js:87-103 | without configuration the stub is used; with it the send fails exactly when the channel fails; the message is the one given |
| Emergency.Trigger | index.js:111-142 | logs only grow; an unknown user or a rejected lookup changes nothing; one SMS is attempted, to the contact with body "Emergency for {name}: {message}", exactly when the user has a contact, and it is recorded as stubbed when the channel is unconfigured and as failed (and contained) when the live channel fails; one audit line is appended exactly when the user is found and the write succeeds |
| Emergency.Check | index.js:149-181 | `true` exactly when a rule fires, independent of lookup and channel outcomes; `false` leaves every effect unchanged; `true` triggers exactly one emergency with the rule's message; at most one SMS and one audit line per reading |
| Emergency.SmsFailureDoesNotBlockAudit | index.js:125-138 | the audit log is the same whether the SMS channel fails or not, and whether it is live or the stub |
| Emergency.AuditFailureDoesNotBlockSms | index.js:133-138 | the SMS step is the same whether the audit write fails or not |
| Emergency.UnknownUserStillTriggered | index.js:114-118 | for an unknown user an emergency reading returns `true` and leaves no SMS and no audit line |
| Emergency.RepeatedReadingsRepeatAudit | index.js:111-142 | there is no suppression: the same emergency reading twice leaves two audit lines |
| Emergency.Backend.constructor | index.js:72-82 | the live channel is enabled exactly when account id, auth token and sender number are all set and non-empty; the effects start empty |
| Emergency.Backend.SendSms | index.js:87-103 | records one use of the channel as `SendOutcome` describes it; raises exactly when the live channel fails |
| Emergency.Backend.TriggerEmergency | index.js:111-142 | leaves exactly the effects `Trigger` describes and raises nothing |
| Emergency.Backend.CheckForEmergency | index.js:149-181 | returns the result and leaves the effects `Check` describes |

## Left out

- HTTP routing, request parsing and the `/health`, `/api/register` and `/api/users/:id/readings` handlers (index.js:183-262). They contain no decision logic. The route's re-normalisation of the axes is kept (`RouteAccel`).
- SQLite setup and the `dbRun`/`dbGet` helpers (index.js:30-70). The user lookup is a map keyed by the id's text, and its rejection is the `lookupFails` input. The `phone` column is not read by the core.
- Twilio client construction and the network send (index.js:78-82, 93-97). The send's outcome is the `smsFails` input, and the sender number is not recorded.
- `fs.appendFile`, `console.*` output and `new Date().toISOString()`. The audit file is a sequence of lines, a failed append is the `writeFails` input, and the timestamp is a parameter. Console output is not modelled, except the SMS stub's `console.log` (index.js:89), which is what a `Stubbed` dispatch records.
- JavaScript `Number(...)` coercion (for example `Number("") === 0`). The model receives what `Number(heart_rate)` returned.
- Floating point: finite numbers are exact reals. Rounding near the threshold 324 and overflow of a huge finite square are not modelled. The overflow would give Infinity and fire the fall rule, as the real square already does.
- `String(n)` and `Math.sqrt(...).toFixed(2)`, which format floating-point numbers. They are the `NumberFormat` parameter of the message texts.
- Negative zero is not distinguished from zero.
- A `Backend` object stands for a fixed user table: `/api/register` (index.js:189-203) adds rows between readings, which the model expresses by applying `Trigger` and `Check` to whatever table holds at that reading.
- async/await scheduling and concurrency between requests. Each call is one sequential run.
