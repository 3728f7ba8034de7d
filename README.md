# LSPS1 order result: status reconciliation and invoice presentation

This project models the decision logic of the two components that show the
outcome of a Lightning-channel purchase order in the BTCPay Server LSPS1
plugin:

- **OrderResult** (`order_result.dfy`, module `OrderResult`). It keeps the last
  `order-status-updated` snapshot (last write wins, with the time it arrived)
  and the last `channels-updated` list (wholesale replacement). It registers
  both document listeners on mount and removes them on unmount, and it starts
  order-status polling once on mount when the order result is successful and
  has an order id. The pure state is the datatype `Reconciler`, with `Step`
  for one event and `Run` for a sequence. The class `Component` holds the same
  fields and has the event methods. From the state the component derives the
  merged view `CurrentStatusData`. From the view it derives three separate
  rules: the container class, invoice mode, and the heading with its message.
  They are not one classifier, and their vocabularies differ.
- **OrderResultInvoice** (`order_result_invoice.dfy`, module
  `OrderResultInvoice`). It builds the `lightning:` payment URI and the
  copied text (the bare invoice). The displayed amount is the first truthy of
  `paymentInfo.totalSats` and `payment.bolt11.order_total_sat`, and otherwise
  the capture of the pattern `/ln[a-z0-9]+([0-9]+)[a-z0-9]/i`. The text
  placeholder stands in for the QR code. The `ref` callback writes into the
  QR mount target (class `QrTarget`), and so do the `onload`/`onerror`
  callbacks of the script it may inject.
- **Records** (`records.dfy`) holds JavaScript's absent values (`Option`) and
  its truthiness: an empty string and zero are falsy. It also holds the
  status record shared by both components.

The pattern is modelled as JavaScript runs it. `FirstMatch` tries the
leftmost start first. At each start, `PlusTry` and `GroupTry` try the greedy
quantifiers from the longest count down. `MatchAtIsExpected`,
`FirstMatchIsLeftmost` and `FirstMatchNone` prove that this equals a
description without backtracking. The match starts at the leftmost `ln`
whose following alphanumeric run holds a digit (not in the run's first
position) followed by another alphanumeric. The capture is the LAST such
digit, so it is always exactly one digit (`RegexAmountIsOneDigit`). In an
invoice, the human-readable part, the separator `1` and the data part form
one alphanumeric run. The separator is a digit followed by an alphanumeric,
so the capture is the separator or a digit of the data part, never a digit
of the amount field (`CaptureLiesPastSeparator`). `lnbc1500n1p` yields 1
(`SeparatorExample`) and `lnbc1500n1pj9x` yields 9 (`DataDigitExample`).
Each is shown as an amount in satoshis. Only the bare text `lnbc1500n1`,
with no data part, yields the `0` before `n` (`Bolt11Example`).

Consequences of the code as written:
- The comment beside the pattern calls it a heuristic to extract the amount
  from a bolt11 invoice. It yields a single digit (0 to 9) taken from the
  separator or the data part, so a truthy digit is shown as a satoshi amount
  that has nothing to do with the invoice's amount field. When the digit is
  0 there is no satoshi line, but `totalSats && …` leaves the number 0 as a
  child, which React renders as a bare `0` (`RenderInvoice`).
- The container class, invoice mode and the heading are three separate
  rules. Invoice mode ignores `success`. The container class knows only the
  legacy `waiting_for_payment` status (`InvoiceModeIsNotContainerClass`).
- The QR target is filled only when it has no children. On the synchronous
  path a second `ref` call changes nothing (`RefTwiceWithLibrary`). A second
  `ref` call before the script settles injects a second script, and each
  `onload` appends without checking for children, so the QR element can end
  up twice (`RefTwiceBeforeLoad`).

## Model

The helpers `TruthyText`, `TruthyNumber`, `OrText` and `OrObject` (JavaScript truthiness and `||`), `IsDigit`, `IsAlnum` and `IsLnAt` (the pattern's character classes under `/i`) and `LeadingValue` (the digit accumulation of `parseInt`) are primitives the rows below build on. They have no rows of their own.

| member | source | states |
|---|---|---|
| `OrderResult.CurrentStatusData` | BTCPayServer.Plugins.LSPS1/Resources/js/components/OrderResult.js:47-64 | without a snapshot the view is the order result; with one it is the snapshot field for field, except that `paymentInfo`/`data` fall back to the order result's when absent and `channelData` is the stored list when non-empty, else absent |
| `OrderResult.ChannelsIgnoredWithoutStatus` | BTCPayServer.Plugins.LSPS1/Resources/js/components/OrderResult.js:60-63 | with no snapshot the view does not depend on the channel list |
| `OrderResult.IsFailed` | BTCPayServer.Plugins.LSPS1/Resources/js/components/OrderResult.js:74-75 | failure holds when `order_state` is `FAILED` or `status` is `failed`, either alone; the comparison is case-sensitive and both fields absent means not failed |
| `OrderResult.IsCompleted` | BTCPayServer.Plugins.LSPS1/Resources/js/components/OrderResult.js:81-83 | completion holds for `order_state` `COMPLETED` or `status` `complete`/`completed`; a lower-case `completed` order state alone does not count |
| `OrderResult.ContainerClass` | BTCPayServer.Plugins.LSPS1/Resources/js/components/OrderResult.js:72-89 | one of four classes, each characterised by an if-and-only-if that follows the priority: failed or unsuccessful gives danger; completed gives success; `waiting_for_payment` gives bg-light; otherwise card |
| `OrderResult.IsShowingInvoice` | BTCPayServer.Plugins.LSPS1/Resources/js/components/OrderResult.js:92-95 | invoice mode holds exactly when `status` is `waiting_for_payment` or the upper-cased `order_state` is `CREATED` (so `created`, `Created` and `CREATED` all qualify) |
| `OrderResult.ToUpper` | BTCPayServer.Plugins.LSPS1/Resources/js/components/OrderResult.js:94 | same length, each character upper-cased |
| `OrderResult.LspDisplayName` | BTCPayServer.Plugins.LSPS1/Resources/js/components/OrderResult.js:106 | the connected LSP's name when truthy, otherwise exactly `the LSP`; never empty |
| `OrderResult.FailedOrderId` | BTCPayServer.Plugins.LSPS1/Resources/js/components/OrderResult.js:103 | the view's `orderId` when truthy, else `details.order_id`, else the text `undefined` |
| `OrderResult.FailureMessage` | BTCPayServer.Plugins.LSPS1/Resources/js/components/OrderResult.js:106 | the message is the fixed prefix, the LSP name, the fixed middle text and the order id at known offsets, ending with a full stop |
| `OrderResult.HeadingMessage` | BTCPayServer.Plugins.LSPS1/Resources/js/components/OrderResult.js:98-121 | the failure heading exactly when failed, with the failure message; otherwise `Error` exactly when the order result is unsuccessful or `order_state` is absent or empty, else `Success!`; both messages are the order result's message when truthy, else their own default |
| `OrderResult.FailureTakesPrecedence` | BTCPayServer.Plugins.LSPS1/Resources/js/components/OrderResult.js:74-108 | on failure: danger class and failure heading, and flipping `success` changes neither |
| `OrderResult.InvoiceModeIsNotContainerClass` | BTCPayServer.Plugins.LSPS1/Resources/js/components/OrderResult.js:87-94 | `order_state` `created` alone gives invoice mode, yet the container is card (successful) or danger (unsuccessful), never bg-light |
| `OrderResult.Initial` | BTCPayServer.Plugins.LSPS1/Resources/js/components/OrderResult.js:6-8 | no snapshot, the poll time is the clock reading, no channels, not listening, nothing polled |
| `OrderResult.ShouldPoll` | BTCPayServer.Plugins.LSPS1/Resources/js/components/OrderResult.js:30 | polling happens exactly when the order result is present and successful and has a non-empty order id |
| `OrderResult.Mounted` | BTCPayServer.Plugins.LSPS1/Resources/js/components/OrderResult.js:19-33 | listeners registered; exactly one poll for the order id is appended when the result is successful with a truthy id, none otherwise; nothing else changes |
| `OrderResult.Unmounted` | BTCPayServer.Plugins.LSPS1/Resources/js/components/OrderResult.js:35-38 | listeners removed and nothing else changes |
| `OrderResult.Step` | BTCPayServer.Plugins.LSPS1/Resources/js/components/OrderResult.js:13-25 | a status event replaces the snapshot and the poll time; a channel event replaces the list; without listeners the state is unchanged; never touches listeners or polls |
| `OrderResult.Run` | BTCPayServer.Plugins.LSPS1/Resources/js/components/OrderResult.js:12-39 | events are delivered in order; they never change listener registration or the poll log, so polling starts only at mount; after unmount any events leave the whole state unchanged |
| `OrderResult.ChannelEventsKeepStatus` | BTCPayServer.Plugins.LSPS1/Resources/js/components/OrderResult.js:22-25 | channel events never change the stored snapshot or its time |
| `OrderResult.StatusEventsKeepChannels` | BTCPayServer.Plugins.LSPS1/Resources/js/components/OrderResult.js:13-16 | status events never change the stored channel list |
| `OrderResult.LastStatusWins` | BTCPayServer.Plugins.LSPS1/Resources/js/components/OrderResult.js:13-16 | while listening, after any earlier events, the last status event, and any later channel events, the snapshot and its time are the last status event's |
| `OrderResult.LastChannelsWin` | BTCPayServer.Plugins.LSPS1/Resources/js/components/OrderResult.js:22-25 | while listening, the stored list is the one from the last channel event, whatever came before |
| `OrderResult.ViewAfterStatus` | BTCPayServer.Plugins.LSPS1/Resources/js/components/OrderResult.js:51-57 | after a status event the whole view is the event's snapshot, with `paymentInfo`/`data` taken from the order result when absent and `channelData` set to the stored list when non-empty, else absent |
| `OrderResult.Lifetime` | BTCPayServer.Plugins.LSPS1/Resources/js/components/OrderResult.js:29-38 | mount, events, unmount, events: at most one poll, for the order id and only when the order result qualifies; the state is what the events before unmount left |
| `OrderResult.Render` | BTCPayServer.Plugins.LSPS1/Resources/js/components/OrderResult.js:123-135 | nothing without an order result; otherwise the container class, the heading block exactly when not in invoice mode, and the view with the poll time exactly when the status renderer exists |
| `OrderResult.Scenarios` | BTCPayServer.Plugins.LSPS1/Resources/js/components/OrderResult.js:29-121 | `abc` then `CREATED`: one poll for `abc`, invoice mode, no heading; no id then `FAILED` with `details.order_id` `xyz`: no poll, failure heading, message quotes `xyz` |
| `OrderResult.Component.constructor` | BTCPayServer.Plugins.LSPS1/Resources/js/components/OrderResult.js:6-8 | the initial state |
| `OrderResult.Component.Mount` | BTCPayServer.Plugins.LSPS1/Resources/js/components/OrderResult.js:19-33 | the new state is `Mounted` of the old |
| `OrderResult.Component.Unmount` | BTCPayServer.Plugins.LSPS1/Resources/js/components/OrderResult.js:35-38 | the new state is `Unmounted` of the old |
| `OrderResult.Component.OnStatus` | BTCPayServer.Plugins.LSPS1/Resources/js/components/OrderResult.js:13-16 | the new state is `Step` of the old on the status event; the channel list is unchanged |
| `OrderResult.Component.OnChannels` | BTCPayServer.Plugins.LSPS1/Resources/js/components/OrderResult.js:22-25 | the new state is `Step` of the old on the channel event; the snapshot is unchanged |
| `OrderResult.Component.UpdateStatus` | BTCPayServer.Plugins.LSPS1/Resources/js/components/OrderResult.js:139-141 | the new state is `Step` of the old on a status event with detail `s`, as the dispatched `order-status-updated` event delivers it |
| `OrderResult.Component.View` | BTCPayServer.Plugins.LSPS1/Resources/js/components/OrderResult.js:47-64 | the order result until a snapshot arrives; then the snapshot with `paymentInfo`/`data` falling back to the order result's and `channelData` the stored list when non-empty, else absent |
| `OrderResult.Component.Rendered` | BTCPayServer.Plugins.LSPS1/Resources/js/components/OrderResult.js:42-44 | nothing without an order result; otherwise the heading block is absent exactly in invoice mode |
| `OrderResultInvoice.LightningUrl` | BTCPayServer.Plugins.LSPS1/Resources/js/components/OrderResultInvoice.js:11 | the scheme `lightning:` followed by the invoice |
| `OrderResultInvoice.ClipboardText` | BTCPayServer.Plugins.LSPS1/Resources/js/components/OrderResultInvoice.js:15 | the copied text is the payment URI without its scheme, strictly shorter than it |
| `OrderResultInvoice.TotalSats` | BTCPayServer.Plugins.LSPS1/Resources/js/components/OrderResultInvoice.js:55-57 | `paymentInfo.totalSats` whenever the status data and `paymentInfo` exist, and absent otherwise |
| `OrderResultInvoice.OrderTotalSat` | BTCPayServer.Plugins.LSPS1/Resources/js/components/OrderResultInvoice.js:58-59 | `payment.bolt11.order_total_sat` whenever every object on the path exists, and absent otherwise |
| `OrderResultInvoice.AlnumRun` | BTCPayServer.Plugins.LSPS1/Resources/js/components/OrderResultInvoice.js:67 | the maximal run of `[a-z0-9]` (either case) from a position |
| `OrderResultInvoice.DigitRun` | BTCPayServer.Plugins.LSPS1/Resources/js/components/OrderResultInvoice.js:67 | the maximal run of `[0-9]` from a position |
| `OrderResultInvoice.GroupTry` | BTCPayServer.Plugins.LSPS1/Resources/js/components/OrderResultInvoice.js:67 | greedy `([0-9]+)` then `[a-z0-9]`: a count between 1 and the limit, with an alphanumeric right behind the group |
| `OrderResultInvoice.Group` | BTCPayServer.Plugins.LSPS1/Resources/js/components/OrderResultInvoice.js:67 | the group takes at most the digit run at the position and leaves an alphanumeric behind it |
| `OrderResultInvoice.PlusTry` | BTCPayServer.Plugins.LSPS1/Resources/js/components/OrderResultInvoice.js:67 | greedy backtracking over `[a-z0-9]+`: a match starts the group strictly after the run's start and inside the string |
| `OrderResultInvoice.MatchAt` | BTCPayServer.Plugins.LSPS1/Resources/js/components/OrderResultInvoice.js:67 | a match at a start needs `ln` there (any case), and its capture is a non-empty run of digits after it |
| `OrderResultInvoice.FirstMatch` | BTCPayServer.Plugins.LSPS1/Resources/js/components/OrderResultInvoice.js:67 | the leftmost match's capture is a non-empty run of digits inside the string, after an `ln` |
| `OrderResultInvoice.GroupAtHit` | BTCPayServer.Plugins.LSPS1/Resources/js/components/OrderResultInvoice.js:67 | `([0-9]+)[a-z0-9]` succeeds at a position exactly when a digit there is followed by an alphanumeric |
| `OrderResultInvoice.GroupAtLastHit` | BTCPayServer.Plugins.LSPS1/Resources/js/components/OrderResultInvoice.js:67 | at a hit not followed by another hit, the greedy group takes exactly one digit |
| `OrderResultInvoice.PlusTryIsLastHit` | BTCPayServer.Plugins.LSPS1/Resources/js/components/OrderResultInvoice.js:67 | backtracking lands on the largest hit position, with a one-digit capture |
| `OrderResultInvoice.MatchAtIsExpected` | BTCPayServer.Plugins.LSPS1/Resources/js/components/OrderResultInvoice.js:67 | the backtracking matcher at a start equals the description: `ln` in any case, then the last digit of the following run that has an alphanumeric behind it |
| `OrderResultInvoice.FirstMatchIsLeftmost` | BTCPayServer.Plugins.LSPS1/Resources/js/components/OrderResultInvoice.js:67 | the match is the description at the leftmost start where it finds anything |
| `OrderResultInvoice.FirstMatchNone` | BTCPayServer.Plugins.LSPS1/Resources/js/components/OrderResultInvoice.js:67 | where the description finds nothing, the pattern does not match |
| `OrderResultInvoice.FirstMatchIsOneDigit` | BTCPayServer.Plugins.LSPS1/Resources/js/components/OrderResultInvoice.js:67 | any match captures one digit followed by an alphanumeric |
| `OrderResultInvoice.Capture` | BTCPayServer.Plugins.LSPS1/Resources/js/components/OrderResultInvoice.js:67-68 | `amountMatch[1]` exists exactly when the pattern matches, and is a non-empty string of decimal digits |
| `OrderResultInvoice.ParseInt` | BTCPayServer.Plugins.LSPS1/Resources/js/components/OrderResultInvoice.js:69 | for text without leading white space or sign: a number exactly when the text starts with a decimal digit (NaN otherwise), and the value of that digit when no digit follows it |
| `OrderResultInvoice.RegexAmount` | BTCPayServer.Plugins.LSPS1/Resources/js/components/OrderResultInvoice.js:68-69 | the pattern's amount exists exactly when the pattern matches, and is never negative |
| `OrderResultInvoice.RegexAmountIsOneDigit` | BTCPayServer.Plugins.LSPS1/Resources/js/components/OrderResultInvoice.js:67-70 | the capture is one decimal digit and the pattern's amount is exactly that digit's value, between 0 and 9 |
| `OrderResultInvoice.Bolt11Example` | BTCPayServer.Plugins.LSPS1/Resources/js/components/OrderResultInvoice.js:67-70 | the bare text `lnbc1500n1` captures `0`: the amount is 0 and falsy, so there is no satoshi line but a bare `0` is rendered |
| `OrderResultInvoice.CaptureLiesPastSeparator` | BTCPayServer.Plugins.LSPS1/Resources/js/components/OrderResultInvoice.js:66-69 | for `ln…` human-readable part, separator `1` and a non-empty alphanumeric data part, the pattern matches and its capture lies at or after the separator, outside the amount field |
| `OrderResultInvoice.SeparatorExample` | BTCPayServer.Plugins.LSPS1/Resources/js/components/OrderResultInvoice.js:66-69 | `lnbc1500n1p` captures the separator `1`, and the block shows a satoshi amount of 1 |
| `OrderResultInvoice.DataDigitExample` | BTCPayServer.Plugins.LSPS1/Resources/js/components/OrderResultInvoice.js:66-69 | `lnbc1500n1pj9x` captures the data part's `9`, and the block shows a satoshi amount of 9 |
| `OrderResultInvoice.ResolveAmount` | BTCPayServer.Plugins.LSPS1/Resources/js/components/OrderResultInvoice.js:54-74 | truthy `totalSats` wins; else truthy `order_total_sat`; else the pattern's amount (absent when it does not match) |
| `OrderResultInvoice.StructuredAmountWins` | BTCPayServer.Plugins.LSPS1/Resources/js/components/OrderResultInvoice.js:64 | with a truthy structured amount the invoice text has no influence and the amount is truthy |
| `OrderResultInvoice.FallbackAmountBound` | BTCPayServer.Plugins.LSPS1/Resources/js/components/OrderResultInvoice.js:64-70 | without a truthy structured amount, the amount is absent exactly when the pattern does not match, and otherwise a digit 0 to 9 |
| `OrderResultInvoice.RenderInvoice` | BTCPayServer.Plugins.LSPS1/Resources/js/components/OrderResultInvoice.js:171-173 | the URI is the scheme plus the copied text, which is the invoice; the satoshi line appears exactly for a truthy amount; a bare `0` child appears exactly when the amount is 0, with no satoshi line |
| `OrderResultInvoice.Prefix` | BTCPayServer.Plugins.LSPS1/Resources/js/components/OrderResultInvoice.js:85 | `substring(0, n)`: the first min(n, length) characters |
| `OrderResultInvoice.TextQr` | BTCPayServer.Plugins.LSPS1/Resources/js/components/OrderResultInvoice.js:85 | the fixed prefix, the first min(20, length) characters of the text, then `...` |
| `OrderResultInvoice.PlaceholderForInvoice` | BTCPayServer.Plugins.LSPS1/Resources/js/components/OrderResultInvoice.js:134 | for the payment URI the placeholder shows `lightning:` and the first min(10, length) characters of the invoice |
| `OrderResultInvoice.QrChildren` | BTCPayServer.Plugins.LSPS1/Resources/js/components/OrderResultInvoice.js:146-164 | the QR element first; a second child, the placeholder, exactly when the constructor throws |
| `OrderResultInvoice.LoadedChildren` | BTCPayServer.Plugins.LSPS1/Resources/js/components/OrderResultInvoice.js:114-138 | something is appended on load, and it ends with the placeholder exactly on a failure path (no library, or constructor throws) |
| `OrderResultInvoice.QrTarget.constructor` | BTCPayServer.Plugins.LSPS1/Resources/js/components/OrderResultInvoice.js:93-104 | the QR container starts with no children and no pending script |
| `OrderResultInvoice.QrTarget.ScriptLoaded` | BTCPayServer.Plugins.LSPS1/Resources/js/components/OrderResultInvoice.js:114-139 | the script leaves the pending list; its children are appended to the target unconditionally |
| `OrderResultInvoice.QrTarget.ScriptFailed` | BTCPayServer.Plugins.LSPS1/Resources/js/components/OrderResultInvoice.js:140-143 | the script leaves the pending list; a placeholder is appended |
| `OrderResultInvoice.RefCallback` | BTCPayServer.Plugins.LSPS1/Resources/js/components/OrderResultInvoice.js:105-167 | a null or non-empty target is left unchanged; an empty one gets a pending script (no library) or the QR children at once |
| `OrderResultInvoice.RefTwiceWithLibrary` | BTCPayServer.Plugins.LSPS1/Resources/js/components/OrderResultInvoice.js:106 | with the library, a second `ref` call changes nothing |
| `OrderResultInvoice.RefTwiceBeforeLoad` | BTCPayServer.Plugins.LSPS1/Resources/js/components/OrderResultInvoice.js:106-144 | without it, two `ref` calls inject two scripts and two loads leave two QR elements |

## Left out

- React element construction and markup are not modelled. Only the container class, the heading block and the two render gates are kept. The status renderer (`OrderResultStatus`) is reduced to a flag saying whether it exists, and to the view and poll time it receives.
- The toast DOM, the Bootstrap Toast API and the dismissal timers are UI chrome and timing. They are not modelled.
- The clipboard promise and its error logging are not modelled. Only the text handed to `writeText` is kept.
- The QR library's drawing, its options and the `Math.random` element ids are not modelled. The script fetch is not modelled either. Whether the library is defined, whether the script loads or fails, and whether the constructor throws are inputs to the methods.
- A script injected into `document.head` is modelled as an entry in the target's `pendingScripts`, together with the URI its callbacks captured.
- `toLocaleString` formatting of the amount is locale-dependent. It is not modelled.
- `new Date()` is an opaque integer supplied by the caller.
- `window.location.reload` (the start-over handler), the unused `showTechnicalDetails` state and all console logging are not modelled.
- `startOrderStatusPolling` is recorded in the poll log `polls`, and nothing more.
- The LSP name comes from `LSPS1App`. It is a parameter, and falls back to `the LSP`.
- The status data handed to the invoice block comes from a caller that is not part of this model. It is a parameter.
- The `null` branch of the merged view cannot be reached past the early return when there is no order result, so it is not modelled.
- Status objects keep only the fields the core reads. Other fields carried along by the object spread are dropped.
- `null` and `undefined` are not told apart. A missing order id in the failure message prints as `undefined`.
- A status snapshot replaced by a falsy event detail becomes absent.
- Channel details that are not arrays are not modelled. A `null` or `undefined` detail throws at `.length`, but only once a snapshot exists, since the merge reads it only then. A string is used through its length like a list. An object without `length` gives `null`.
- Fields holding an unexpected type are not modelled. Examples: a non-string `order_state` or invoice. The exception the invoice case raises inside the `try` is not modelled either.
- Amounts are integers. Fractional values and NaN amounts in the status data are not modelled; NaN from `parseInt` is absent (NaN is falsy, like `null`).
- OrderResultInvoice.ParseInt: does not skip leading white space or read a sign, as JavaScript's `parseInt` does. Its only caller passes the capture, which is all digits (`Capture`).
- OrderResult.ToUpper: upper-cases only ASCII letters, not JavaScript's full Unicode mapping. For the comparison with `CREATED` the answer is the same: no non-ASCII character upper-cases to a single ASCII letter of `CREATED` (the nearest, `ẗ` and `ẚ`, map to a letter plus a combining or modifier mark).
- Strings are sequences of Unicode characters, whereas JavaScript counts UTF-16 code units in `substring(0, 20)`. They differ only for characters outside the Basic Multilingual Plane.
- OrderResult.Component.Mount: requires the listeners to be unregistered. React runs an effect's cleanup before running the effect again, so a double registration never happens.
