# tg-aquabot record notifications, modelled in Dafny

tg-aquabot is a Telegram bot for a car-wash business that takes its bookings
in YCLIENTS. YCLIENTS posts a webhook for every change to a booking ("record").
The bot handles each one in two ways:

- **Admin alerts.** Five rules decide whether the admin chat hears about it:
  - missing phone (debounced; follows the issue until the phone arrives);
  - not confirmed (debounced);
  - canceled;
  - no-show;
  - client not linked to a Telegram chat (debounced).
- **Client messages.** When the client's phone is linked to a Telegram chat,
  the client gets one of four messages: created (with a confirm button),
  confirmed, changed (debounced), or canceled.

The bot also has a few other parts:

- the `/record` command, which shows a client their next booking;
- the confirm-button callback, which reads the booking and writes
  `attendance = 2` back to YCLIENTS;
- the Postgres tables of client links and notification jobs;
- the helpers that normalise phones and build the YCLIENTS update request.

## How the model is built

- **JavaScript values.** They are the datatype `JsValue.JsVal`, with
  JavaScript's truthiness, `||`, `??`, `String(v)` and `Number(v)`. Only
  integer numbers are modelled.
- **Rules and the notifier.** Each is a `class` whose fields are the
  module-level maps of the source. A `Dedup.Ledger` object holds the
  anti-spam map of sent keys. Every method is proved equal to a pure
  `OnEvent` or `OnTimer` function of the old state, and the properties are
  lemmas about those functions.
- **Timers.** A `setTimeout` becomes an entry in a pending map plus a `Fire`
  method, which the environment calls when the timer would go off.
- **Inputs from outside.** The current time is a parameter (`now`), and so
  is whether a Telegram send went through (`delivered`). Every HTTP reply
  is a value handed to the operation.
- **Database tables.** Each is a class holding a `seq` of rows. The SQL
  statements become functions on that sequence, and the methods are proved
  against those functions.
- **`RecordHandlers.Engine`.** It wires the five rules and the notifier
  together the way `handleRecordEvent` does.
- **Throws.** `comment?.trim()` throws when a record's comment is present
  but is not a string (a number, say). In the missing-phone handler this
  happens after the "resolved" ledger is stamped and outside any `try`, so
  the issue stays open, nothing is sent, and `handleRecordEvent` rejects
  before the other rules run (`aborted`, route `RuleThrew`). In the
  missing-phone timer the same throw is caught: no alert, no open issue.

Where the documentation and the code disagree, the model follows the code:

- **Client sends can fail the handler.** The created, confirmed and
  canceled client messages are sent outside any `try`. A failed send
  therefore aborts the handler (`failed` in `RecordClientNotify.Outcome`),
  and the stored snapshot is not updated. Only the "changed" timer
  swallows a send error.
- **A phone with no digits still counts as a phone.** `normalizePhone`
  turns it into `"+"`, which is truthy. `getLinkedChatByPhone` then
  searches the table for `"+"` rather than returning `null`.
- **The client notifier's ledger sweep uses the calling TTL.** The sweep
  drops entries older than the TTL of whichever call triggered it.
  A "changed" call (5 minutes) can therefore drop a live 10-minute entry
  written by a create, confirm or cancel call (`Dedup.ShortTtlSweepDropsLongerEntry`).
- **`confirmedRule` has no effect.** It stops after its guards: it never
  sends and keeps no state.

## Model

| member | source | states |
|---|---|---|
| JsValue.Or | src/integrations/yclients/recordHandlers.js:12-16 | `a \|\| b` gives `a` when it is truthy and `b` otherwise |
| JsValue.Coalesce | src/webhooks/clientNotifications/recordClientNotify.js:68-69 | `a ?? b` gives `b` exactly when `a` is null or undefined |
| JsValue.ToStr | src/webhooks/rules/missingPhoneRule.js:1-5 | `String(v)` of anything but a string or an array is non-empty and does not start with whitespace |
| JsValue.StringToNumber | src/integrations/yclients/recordHandlers.js:67 | `Number(string)` is always a number or NaN |
| JsValue.ToNumber | src/webhooks/rules/noShowRule.js:61-62 | `Number(v)` is always a number or NaN |
| JsValue.NumberOfIntString | src/app.js:327-329 | reading back the decimal text of an integer gives that integer |
| JsValue.NumberOfNatString | src/app.js:327-329 | reading back the digits of a natural number gives that number |
| JsValue.NumberOfNegString | src/app.js:327-329 | reading back `-` and the digits of a positive number gives its negation |
| JsValue.NumberOfString | src/app.js:88-91 | `Number(String(n)) == n` for every integer |
| JsValue.Safe | src/webhooks/rules/missingPhoneRule.js:7-9 | `safe(v)` is the fallback exactly for empty values, and otherwise `String(v)`, which is not blank |
| JsValue.IsEmptyCases | src/webhooks/rules/missingPhoneRule.js:1-5 | a string is empty iff it is all whitespace; numbers, booleans and objects never are; `[]` is |
| JsValue.FalsyVersusEmpty | src/webhooks/rules/missingPhoneRule.js:1-9 | `Boolean` and `isEmpty` agree on null, undefined and ""; `false`, 0 and NaN are falsy but not empty; only a blank string or an array is truthy and empty |
| Text.DigitsOnly | src/utils/phone.js:5 | `replace(/\D/g, "")` leaves only digits and never lengthens the string |
| Text.DigitsOnlyOfDigits | src/utils/phone.js:5 | a string of digits is unchanged |
| Text.DigitsOnlyAppend | src/yclients/clients.service.js:4 | filtering distributes over concatenation |
| Text.TrimStart | src/webhooks/rules/missingPhoneRule.js:3 | the result does not start with whitespace |
| Text.TrimStartEmpty | src/webhooks/rules/missingPhoneRule.js:3-4 | trimming the start gives "" iff the string is all whitespace |
| Text.TrimEndEmpty | src/webhooks/rules/missingPhoneRule.js:3-4 | trimming the end of a string that starts with non-whitespace gives "" only for "" |
| Text.TrimEmptyIffBlank | src/webhooks/rules/missingPhoneRule.js:3-4 | `trim()` gives "" iff the string is all whitespace |
| Text.TrimOfDigits | src/db/clientsLinkRepo.js:22 | the text of an integer is its own trim |
| Text.SplitOn | src/app.js:327 | `split(c)` gives at least one part, two or more iff `c` occurs, and no part contains `c` |
| Text.SplitOnWithout | src/webhooks/rules/missingPhoneRule.js:25-26 | splitting a string without the separator gives the string itself |
| Text.SplitOnJoined | src/app.js:327 | splitting `a + c + b` where `a` has no `c` gives `a` then the split of `b` |
| Text.SplitOnJoin | src/app.js:327 | `split` inverts `join` when no part contains the separator |
| Text.Prefix | src/webhooks/rules/missingPhoneRule.js:29 | `slice(0, n)` is a prefix of at most `n` characters |
| Text.LowerAscii | src/webhooks/rules/recordCanceledRule.js:49 | lower-casing keeps the length |
| Text.LowerAsciiOfLower | src/webhooks/rules/recordCanceledRule.js:49-53 | a string without capitals is its own lower case |
| Text.NatToString | src/db/clientsLinkRepo.js:20 | the decimal text of a natural is a non-empty digit string |
| Text.IntToString | src/db/clientsLinkRepo.js:20 | the decimal text of an integer is not empty |
| Text.ParseNatToString | src/db/clientsLinkRepo.js:20 | parsing the decimal text of a natural gives it back |
| Text.IntToStringShape | src/db/clientsLinkRepo.js:20 | the text of an integer is its digits, with a leading `-` for negatives |
| RecordEvent.StableKey | src/webhooks/rules/notConfirmedRule.js:89-91 | the key uses `api_id` when it is truthy, and the record id otherwise |
| RecordEvent.StableKeyPrefersApiId | src/webhooks/rules/noShowRule.js:72-74 | two bodies of one company with the same truthy `api_id`, or with no `api_id` and the same record id, share a key |
| RecordEvent.OrDash | src/webhooks/rules/missingPhoneRule.js:28-29 | `x \|\| "—"` is never empty |
| RecordEvent.StripOffset | src/webhooks/rules/missingPhoneRule.js:36 | the time after `split("+")[0].split("Z")[0]` holds no `Z` |
| RecordEvent.SplitDateTime | src/webhooks/rules/missingPhoneRule.js:20-44 | the shown date and time are never empty, and the time is at most five characters |
| RecordEvent.FormatDateTime | src/webhooks/rules/missingPhoneRule.js:20-44 | the date and time of `body.data` shown by the rules are never empty, and the time is at most five characters |
| RecordEvent.SplitDateTimeOfDate | src/webhooks/rules/missingPhoneRule.js:25-31 | a `date` of the form `D T` shows `D` and the first five characters of `T` |
| RecordEvent.SplitDateTimeOfIso | src/webhooks/rules/missingPhoneRule.js:34-41 | an ISO `datetime` without `date` shows its date and the first five characters of its time, without the offset |
| RecordEvent.TruthyField | src/webhooks/rules/missingPhoneRule.js:11-14 | the collected field values are all truthy and no more than the items |
| RecordEvent.TruthyFieldKeepsExactly | src/webhooks/rules/missingPhoneRule.js:11-14 | a value is collected iff it is truthy and some item has it in that field |
| RecordEvent.TruthyFieldKeepsOrder | src/webhooks/rules/missingPhoneRule.js:11-14 | when every item's field is truthy, all are kept in order |
| RecordEvent.CanceledOnUpdate | src/webhooks/rules/recordCanceledRule.js:48-61 | an "update" is a cancellation iff the record is flagged deleted; a "create" never is |
| RecordEvent.UpdateStatus | src/webhooks/rules/recordCanceledRule.js:48-57 | the status "update" is a cancellation iff the record is flagged deleted |
| RecordEvent.CreateStatus | src/webhooks/rules/recordCanceledRule.js:48-61 | the status "create" is never a cancellation |
| RecordEvent.CancelStatusStart | src/webhooks/rules/recordCanceledRule.js:51 | every one of the seven cancel statuses starts with `d`, `ca` or `r` |
| RecordEvent.CanceledNeedsWord | src/webhooks/rules/recordCanceledRule.js:49-53 | a missing, numeric or boolean status is never a cancellation |
| RecordEvent.CanceledEventIgnoresCase | src/webhooks/rules/recordCanceledRule.js:49-53 | the status is compared after ASCII lower-casing: two string statuses that lower-case alike classify a record alike |
| Dedup.Ledger.constructor | src/webhooks/rules/missingPhoneRule.js:53 | a new ledger is empty |
| Dedup.Ledger.WasSentRecently | src/webhooks/rules/missingPhoneRule.js:55-65 | the check-and-set gives exactly the `CheckAndSet` verdict and new map |
| Dedup.CheckAndSet | src/webhooks/rules/missingPhoneRule.js:55-65 | suppressed iff a recent stamp exists, and a suppressed call leaves the map as it was |
| Dedup.CheckAndSetSpec | src/webhooks/rules/missingPhoneRule.js:55-65 | suppressed iff a non-zero stamp younger than the TTL exists, and then the map is unchanged; otherwise the key is stamped `now` |
| Dedup.SweepOnlyExpired | src/webhooks/rules/missingPhoneRule.js:61-63 | the sweep removes only entries older than the TTL, and only when the map exceeds its size bound |
| Dedup.CheckAndSetKeepsLive | src/webhooks/rules/missingPhoneRule.js:55-65 | a call for any key keeps every other entry that is still within the TTL |
| Dedup.WindowHolds | src/webhooks/rules/noShowRule.js:35-46 | once a key is stamped at `t0`, every call for that key before `t0 + ttl` is suppressed and the stamp stays |
| Dedup.ExpiredLetsThrough | src/webhooks/rules/noShowRule.js:39 | after the TTL the same key is let through again |
| Dedup.ShortTtlSweepDropsLongerEntry | src/webhooks/clientNotifications/recordClientNotify.js:83-93 | a short-TTL call can sweep away an entry a longer-TTL call would still suppress |
| MissingPhoneRule.OnEvent | src/webhooks/rules/missingPhoneRule.js:67-153 | no admin chat, a non-record or a status other than create/update leaves the state unchanged and sends nothing; a call that throws sends nothing |
| MissingPhoneRule.OnTimer | src/webhooks/rules/missingPhoneRule.js:155-216 | the timer removes its pending entry, leaves the "resolved" ledger alone, never rejects (its throw is caught), and does nothing for a key that is not pending |
| MissingPhoneRule.Rule.constructor | src/webhooks/rules/missingPhoneRule.js:51-53 | the rule starts with empty maps |
| MissingPhoneRule.Rule.Handle | src/webhooks/rules/missingPhoneRule.js:67-219 | the handler's new state, alert and whether it threw are those of `OnEvent` |
| MissingPhoneRule.Rule.Fire | src/webhooks/rules/missingPhoneRule.js:155-216 | the timer body's new state and alert are those of `OnTimer`, with a non-string comment caught as a throw |
| MissingPhoneRule.PhoneResolves | src/webhooks/rules/missingPhoneRule.js:90-146 | an event with a phone cancels the pending timer; with an open issue and the 30-minute ledger letting it through, a non-string comment throws at `comment?.trim()` with the ledger stamped and the issue still open, and otherwise the issue closes and "phone added" is sent; nothing is sent in any other case |
| MissingPhoneRule.NoPhoneDebounces | src/webhooks/rules/missingPhoneRule.js:152-153 | an event without a phone only stores its body as the latest for its key |
| MissingPhoneRule.TimerAlertsOnce | src/webhooks/rules/missingPhoneRule.js:166-208 | the timer alerts iff a body is pending, its phone is still missing, no issue is open and its comment is a string or absent (a non-string one throws inside the `try`); a delivered alert opens the issue |
| MissingPhoneRule.OpenIssueSilences | src/webhooks/rules/missingPhoneRule.js:169 | while an issue is open and no event resolves it, no further "no phone" alert is raised for it |
| MissingPhoneRule.StepKeepsIssue | src/webhooks/rules/missingPhoneRule.js:166-169 | one event that does not bring a phone for the key keeps its issue open, and its timer raises no alert |
| NotConfirmedRule.IsConfirmedIsStrict | src/webhooks/rules/notConfirmedRule.js:1-5 | only 1, true and "1" count as confirmed; "01" reads as 1 but does not count |
| NotConfirmedRule.OnEvent | src/webhooks/rules/notConfirmedRule.js:57-147 | no admin chat, a non-record or a status other than create/update leaves the state unchanged |
| NotConfirmedRule.OnTimer | src/webhooks/rules/notConfirmedRule.js:99-145 | the timer removes its entry and alerts iff the pending body is still unconfirmed |
| NotConfirmedRule.Rule.constructor | src/webhooks/rules/notConfirmedRule.js:40-43 | the rule starts with empty maps |
| NotConfirmedRule.Rule.Handle | src/webhooks/rules/notConfirmedRule.js:57-148 | the handler's new state is that of `OnEvent` |
| NotConfirmedRule.Rule.Fire | src/webhooks/rules/notConfirmedRule.js:99-145 | the timer body's new state and alert are those of `OnTimer` |
| NotConfirmedRule.ConfirmedClearsPending | src/webhooks/rules/notConfirmedRule.js:71-83 | a confirmed event drops its pending entry and changes nothing else |
| NotConfirmedRule.UnconfirmedSchedules | src/webhooks/rules/notConfirmedRule.js:89-147 | an unconfirmed event schedules its key iff the ledger lets it through, and is otherwise ignored |
| NotConfirmedRule.WindowIgnoresRepeats | src/webhooks/rules/notConfirmedRule.js:45-55 | for 30 minutes after a key is stamped, its unconfirmed events change nothing |
| RecordCanceledRule.OnEvent | src/webhooks/rules/recordCanceledRule.js:63-114 | only a cancellation of a record, with an admin chat, can alert, and the alert names its stable key |
| RecordCanceledRule.Rule.constructor | src/webhooks/rules/recordCanceledRule.js:34-35 | the rule starts with an empty ledger |
| RecordCanceledRule.Rule.Handle | src/webhooks/rules/recordCanceledRule.js:63-114 | the handler's ledger and alert are those of `OnEvent` |
| RecordCanceledRule.CancelAlertsUnlessRecent | src/webhooks/rules/recordCanceledRule.js:77-81 | a cancellation alerts iff its key has no live stamp |
| RecordCanceledRule.OneAttemptPerWindow | src/webhooks/rules/recordCanceledRule.js:36-46 | after an alert, the same key gets no second alert for 30 minutes |
| NoShowRule.NoShowMarkers | src/webhooks/rules/noShowRule.js:61-64 | -1, "-1" and " -1" mark a no-show; null and undefined do not |
| NoShowRule.OnEvent | src/webhooks/rules/noShowRule.js:48-110 | only a non-deleted "update" of a record with a no-show marker can alert, and the alert names its stable key |
| NoShowRule.Rule.constructor | src/webhooks/rules/noShowRule.js:35 | the rule starts with an empty ledger |
| NoShowRule.Rule.Handle | src/webhooks/rules/noShowRule.js:48-111 | the handler's ledger and alert are those of `OnEvent` |
| NoShowRule.DeletedNeverAlerts | src/webhooks/rules/noShowRule.js:55-59 | a deleted record or a non-update status never alerts |
| NoShowRule.OneAttemptPerWindow | src/webhooks/rules/noShowRule.js:35-46 | after an alert, the same key gets no second alert for 12 hours |
| NotLinkedRule.MaskPhone | src/webhooks/rules/notLinkedRule.js:11-16 | a blank phone shows "—"; up to seven characters are shown whole; longer ones keep the first five and last three around `****` |
| NotLinkedRule.PhonesAreIndependent | src/webhooks/rules/notLinkedRule.js:77-79 | different phones of one record get different keys |
| NotLinkedRule.OnEvent | src/webhooks/rules/notLinkedRule.js:66-141 | without an admin chat nothing changes |
| NotLinkedRule.OnTimer | src/webhooks/rules/notLinkedRule.js:88-134 | the timer removes its entry and alerts, with the masked phone, iff an entry was pending |
| NotLinkedRule.Rule.constructor | src/webhooks/rules/notLinkedRule.js:47-48 | the rule starts with empty maps |
| NotLinkedRule.Rule.Handle | src/webhooks/rules/notLinkedRule.js:66-141 | the handler's new state is that of `OnEvent` |
| NotLinkedRule.Rule.Fire | src/webhooks/rules/notLinkedRule.js:88-134 | the timer body's new state and alert are those of `OnTimer` |
| NotLinkedRule.ArrivalReplacesEntry | src/webhooks/rules/notLinkedRule.js:82-141 | an event is let through iff its key has no live stamp; then its body replaces the pending entry |
| NotLinkedRule.WindowIgnoresRepeats | src/webhooks/rules/notLinkedRule.js:50-60 | for 30 minutes after a key is stamped, its events change nothing |
| ConfirmedRule.Reaches | src/webhooks/rules/confirmedRule.js:1-14 | without an admin chat, for a non-record, a non-update or a deleted record, the rule stops at a guard |
| ConfirmedRule.AgreesWithNotConfirmed | src/webhooks/rules/confirmedRule.js:9-13 | a record the not-confirmed rule treats as confirmed also counts as confirmed here |
| RecordMessages.FormatServices | src/integrations/telegram/recordMessages.js:20-26 | no titles give "—" and one title gives that title |
| RecordMessages.MessageDateTime | src/integrations/telegram/recordMessages.js:34-49 | the shown date is never empty and the time is at most five characters |
| RecordMessages.SafeTextOfNonBlank | src/integrations/telegram/recordMessages.js:16-18 | `safe` and `\|\| "—"` agree on non-blank text |
| RecordMessages.MessageDateTimeOfDate | src/integrations/telegram/recordMessages.js:37-40 | for a `D T` date the messages show the same date and time as the rules |
| RecordMessages.BuildFooter | src/integrations/telegram/recordMessages.js:51-64 | the pushed lines joined by newlines are exactly `FooterLines` |
| RecordMessages.FooterOptionalLines | src/integrations/telegram/recordMessages.js:54-59 | the record-link line appears iff the record link is truthy, and the review line iff the review link is |
| RecordMessages.FooterFixedLines | src/integrations/telegram/recordMessages.js:55-61 | the entry line and both map lines are always there, the Yandex line next to last and the 2GIS line last, and the footer has five lines plus one per link given |
| RecordMessages.MessageLink | src/integrations/telegram/recordMessages.js:101 | the option link wins, then the record's `short_link`, else null |
| RecordMessages.JoinStartsWithFirst | src/integrations/telegram/recordMessages.js:103-112 | a join starts with its first line |
| RecordMessages.StatusMessageShape | src/integrations/telegram/recordMessages.js:98-157 | each status message starts with its header and has a details line iff a link is available |
| RecordMessages.ConfirmedMessage | src/integrations/telegram/recordMessages.js:98-113 | the confirmed message opens with its header |
| RecordMessages.ChangedMessage | src/integrations/telegram/recordMessages.js:120-135 | the changed message opens with its header |
| RecordMessages.CanceledMessage | src/integrations/telegram/recordMessages.js:142-157 | the canceled message opens with its header |
| RecordMessages.CreateMessage | src/integrations/telegram/recordMessages.js:79-91 | the create message ends with the footer built from the same record link and review link |
| RecordClientNotify.ConfirmedTestsDisjoint | src/webhooks/clientNotifications/recordClientNotify.js:95-101 | no value is both confirmed-true and confirmed-false, and 2 and "" are neither |
| RecordClientNotify.NewRecordCases | src/webhooks/clientNotifications/recordClientNotify.js:43-59 | "create" is always new; an "update" is new iff `create_date` is set and within two minutes of now |
| RecordClientNotify.StaffName | src/webhooks/clientNotifications/recordClientNotify.js:15-16 | the staff name is never falsy |
| RecordClientNotify.Snap | src/webhooks/clientNotifications/recordClientNotify.js:61-71 | a missing `confirmed` is stored as null, a missing `deleted` as false, and the staff defaults to "—" |
| RecordClientNotify.OnEvent | src/webhooks/clientNotifications/recordClientNotify.js:110-231 | the handler fails iff it attempted a message that was not delivered, and then only the ledger has changed; every message goes to the given chat |
| RecordClientNotify.OnTimer | src/webhooks/clientNotifications/recordClientNotify.js:197-217 | the "changed" timer removes its entry, never fails the handler, and leaves the snapshots alone |
| RecordClientNotify.Notifier.constructor | src/webhooks/clientNotifications/recordClientNotify.js:78-81 | the notifier starts with empty maps |
| RecordClientNotify.Notifier.SendOnce | src/webhooks/clientNotifications/recordClientNotify.js:129-136 | the message is attempted iff the ledger lets it through, and fails iff attempted and not delivered |
| RecordClientNotify.Notifier.Handle | src/webhooks/clientNotifications/recordClientNotify.js:110-231 | the handler's new state, message and failure are those of `OnEvent` |
| RecordClientNotify.Notifier.HandleCancel | src/webhooks/clientNotifications/recordClientNotify.js:128-140 | the cancel branch is `CancelStep` |
| RecordClientNotify.Notifier.HandleCreate | src/webhooks/clientNotifications/recordClientNotify.js:143-169 | the create branch is `CreateStep` |
| RecordClientNotify.Notifier.HandleOther | src/webhooks/clientNotifications/recordClientNotify.js:172-230 | the confirmed and changed branches are `OtherStep` |
| RecordClientNotify.Notifier.HandleOtherFor | src/webhooks/clientNotifications/recordClientNotify.js:172-230 | for a given key, data and snapshot, the new state, message and failure are those of `OtherFrom` |
| RecordClientNotify.Notifier.FireChanged | src/webhooks/clientNotifications/recordClientNotify.js:197-217 | the timer body's new state and message are those of `OnTimer` |
| RecordClientNotify.CancelWins | src/webhooks/clientNotifications/recordClientNotify.js:128-140 | a cancellation never schedules "changed", sends only the canceled message and only without a live stamp, and stores the record as deleted unless the send fails |
| RecordClientNotify.CreateSkipsTransitions | src/webhooks/clientNotifications/recordClientNotify.js:143-169 | a creation never schedules "changed", its message carries the confirm button, and the record is stored as not deleted |
| RecordClientNotify.OtherEventTransitions | src/webhooks/clientNotifications/recordClientNotify.js:172-230 | confirmed is sent iff the stored value was false-like, the new one true-like and no live stamp exists; "changed" is scheduled iff a stored snapshot differs; a failed send leaves both maps |
| RecordClientNotify.ConfirmFlipAlsoChanges | src/webhooks/clientNotifications/recordClientNotify.js:175-191 | a 0-to-1 confirmation of a known record also schedules "changed" |
| RecordClientNotify.ChangedOncePerWindow | src/webhooks/clientNotifications/recordClientNotify.js:204 | the "changed" timer sends at most once per key in five minutes |
| Phone.FixTrunk | src/utils/phone.js:8-10 | the trunk fix keeps the digits and the length |
| Phone.NormalizePhone | src/utils/phone.js:1-24 | null iff the input is falsy; otherwise "+" followed by digits |
| Phone.NormalizeRussian | src/utils/phone.js:8-20 | 8XXXXXXXXXX, 7XXXXXXXXXX and XXXXXXXXXX all give +7XXXXXXXXXX |
| Phone.NoDigitsGivesPlus | src/utils/phone.js:23 | a string without digits normalises to "+" |
| Phone.NormalizeIdempotent | src/utils/phone.js:1-24 | normalising a normalised phone gives it back |
| ClientsService.PhoneVariants | src/yclients/clients.service.js:3-20 | the variants start with the phone itself, have no repeats, and hold the digits and both Russian forms exactly when those apply |
| ClientsService.FindClientByPhone | src/yclients/clients.service.js:22-52 | no digits means no search; otherwise the digits are searched, and an error gives null |
| ClientsService.FindClientFirstItem | src/yclients/clients.service.js:42-45 | a non-empty result list gives its first item |
| ClientsLinkRepo.ToBigIntString | src/db/clientsLinkRepo.js:13-24 | null, undefined and NaN give nothing, and a result is never "" |
| ClientsLinkRepo.BigIntStringOfNumber | src/db/clientsLinkRepo.js:16-23 | a number id reads back as that number; a string gives its trim, or nothing when blank |
| ClientsLinkRepo.ToInt | src/db/clientsLinkRepo.js:26-29 | a result exists iff `Number(v)` is finite, and then is that number |
| ClientsLinkRepo.ToIntOr | src/db/clientsLinkRepo.js:26-29 | NaN gives the fallback and a number gives itself |
| ClientsLinkRepo.Company | src/db/clientsLinkRepo.js:37-38 | an accepted company id is never 0 |
| ClientsLinkRepo.CompanyCases | src/db/clientsLinkRepo.js:37-38 | numbers and numeric strings other than 0 are accepted; null, "" and undefined are not |
| ClientsLinkRepo.Upsert | src/db/clientsLinkRepo.js:31-76 | a failed check returns its error with the table untouched; otherwise the returned row is in the table with the checked company, user, phone and chat and `updated_at` now |
| ClientsLinkRepo.Store | src/db/clientsLinkRepo.js:48-75 | the insert-or-update always succeeds, and the row it returns is in the table with the given values |
| ClientsLinkRepo.MarkLinked | src/db/clientsLinkRepo.js:104-139 | the table keeps its size and its id sequence, and a returned row is in the table, linked, with `linked_at` now |
| ClientsLinkRepo.PendingLinks | src/db/clientsLinkRepo.js:78-102 | an error iff the company is invalid; otherwise at most `limit` rows, all pending |
| ClientsLinkRepo.LinkedChatByPhone | src/db/clientsLinkRepo.js:144-164 | an error iff the company is invalid; a chat returned is that of a linked row |
| ClientsLinkRepo.ReplaceKeeps | src/db/clientsLinkRepo.js:59-62 | rewriting a row without touching its key, id or creation time keeps the table invariant |
| ClientsLinkRepo.FindUser | src/db/clientsLinkRepo.js:58 | the found row has that (company, user), and none exists when nothing is found |
| ClientsLinkRepo.StoreKeepsInvariant | src/db/clientsLinkRepo.js:48-75 | the insert-or-update keeps the unique key, the id sequence and the creation order |
| ClientsLinkRepo.LinkTable.StoreRow | src/db/clientsLinkRepo.js:48-75 | the insert-or-update on checked arguments is `Store`, and the invariant holds |
| ClientsLinkRepo.LinkTable.constructor | src/db/clientsLinkRepo.js:1 | the table starts empty |
| ClientsLinkRepo.LinkTable.Lookup | src/db/clientsLinkRepo.js:58 | the scan finds exactly `FindUser` |
| ClientsLinkRepo.LinkTable.UpsertClientLink | src/db/clientsLinkRepo.js:31-76 | the new table, next id and result are those of `Upsert`, and the invariant holds |
| ClientsLinkRepo.LinkTable.MarkClientLinked | src/db/clientsLinkRepo.js:104-139 | the new table, next id and result are those of `MarkLinked`, and the invariant holds |
| ClientsLinkRepo.UpsertRejects | src/db/clientsLinkRepo.js:37-46 | an invalid company, empty phone, user or chat throws before the table is touched |
| ClientsLinkRepo.UpsertInsertsOrUpdates | src/db/clientsLinkRepo.js:56-62 | a first upsert for (company, user) appends a pending row; a repeat updates only its phone, chat and time |
| ClientsLinkRepo.UpsertKeepsInvariant | src/db/clientsLinkRepo.js:31-76 | upserts keep the table invariant |
| ClientsLinkRepo.MarkLinkedOnlyMatching | src/db/clientsLinkRepo.js:118-138 | only the row of (company, user) becomes linked with the YCLIENTS id, the id sequence is untouched, and a missing row gives null |
| ClientsLinkRepo.Latest | src/db/clientsLinkRepo.js:151-159 | the chosen row is a linked match that sorts first by `updated_at DESC, id DESC`; nothing is chosen iff no row matches |
| ClientsLinkRepo.LinkedChatIsLatest | src/db/clientsLinkRepo.js:144-164 | a falsy phone gives null; otherwise the chat is that of the latest linked row with the normalised phone |
| ClientsLinkRepo.PendingLimit | src/db/clientsLinkRepo.js:82 | the limit is at least 1, 20 when unreadable, and the given one when it is at least 1 |
| ClientsLinkRepo.PendingRows | src/db/clientsLinkRepo.js:94-96 | exactly the pending rows of the company, in creation order |
| ClientsLinkRepo.HeadBeforeRest | src/db/clientsLinkRepo.js:96 | a filtered tail behind the first row stays in creation order |
| ClientsLinkRepo.PendingLinksSelects | src/db/clientsLinkRepo.js:78-102 | exactly the first `limit` (at least 1) pending rows of the company in creation order come back: a prefix of them, sorted, as many as the limit allows, none older than a pending row left out |
| NotificationJobsRepo.EnqueueRejects | src/db/repos/notificationJobsRepo.js:17-21 | an invalid company, type or run time throws before anything is written |
| NotificationJobsRepo.Enqueue | src/db/repos/notificationJobsRepo.js:9-51 | an inserted job is appended with the next id, `pending`, the given run time and dedupe key; a `null` result inserts nothing and only happens with a dedupe key |
| NotificationJobsRepo.EnqueueDedupes | src/db/repos/notificationJobsRepo.js:34-50 | a key held by a pending or running job inserts nothing and returns null |
| NotificationJobsRepo.EnqueueKeepsInvariant | src/db/repos/notificationJobsRepo.js:9-51 | enqueueing keeps ids increasing and one active job per key |
| NotificationJobsRepo.PickLimit | src/db/repos/notificationJobsRepo.js:57 | the limit is within 1..200, 25 when unreadable, and the given one when in range |
| NotificationJobsRepo.Apply | src/db/repos/notificationJobsRepo.js:81-118 | finishing a job keeps its id, key and run time and makes it inactive |
| NotificationJobsRepo.CancelReason | src/db/repos/notificationJobsRepo.js:102 | no reason iff the reason is falsy; otherwise its first 1000 characters |
| NotificationJobsRepo.FailureText | src/db/repos/notificationJobsRepo.js:116 | the stored error is the first 1000 characters of its message, or of its text when it has none |
| NotificationJobsRepo.JobTable.constructor | src/db/repos/notificationJobsRepo.js:1 | the table starts empty |
| NotificationJobsRepo.JobTable.HasActive | src/db/repos/notificationJobsRepo.js:34-37 | the scan answers whether an active job holds the key |
| NotificationJobsRepo.JobTable.EnqueueJob | src/db/repos/notificationJobsRepo.js:9-51 | the new table and result are those of `Enqueue`, and the invariant holds |
| NotificationJobsRepo.JobTable.FirstDue | src/db/repos/notificationJobsRepo.js:61-74 | the found job is due and precedes every other due job by `(run_at, id)`; none is found iff none is due |
| NotificationJobsRepo.JobTable.PickDueJobs | src/db/repos/notificationJobsRepo.js:56-79 | at most `limit` due jobs are taken, each earlier by `(run_at, id)` than every job left due, and exactly they become running; they are returned in one order RETURNING allows |
| NotificationJobsRepo.JobTable.Mark | src/db/repos/notificationJobsRepo.js:81-118 | the row with that id is finished and every other row is unchanged |
| NotificationJobsRepo.JobTable.MarkJobDone | src/db/repos/notificationJobsRepo.js:81-91 | the row with that id becomes done and every other row is unchanged |
| NotificationJobsRepo.JobTable.MarkJobCanceled | src/db/repos/notificationJobsRepo.js:93-104 | the row with that id becomes canceled with the cut reason; the others are unchanged |
| NotificationJobsRepo.JobTable.MarkJobFailed | src/db/repos/notificationJobsRepo.js:106-118 | the row with that id becomes failed with the cut error text; the others are unchanged |
| NotificationJobsRepo.PickStep | src/db/repos/notificationJobsRepo.js:61-74 | taking the first due job in order extends a correct pick |
| NotificationJobsRepo.PickKeepsInvariant | src/db/repos/notificationJobsRepo.js:61-74 | starting a due job keeps one active job per key |
| NotificationJobsRepo.FinishKeepsInvariant | src/db/repos/notificationJobsRepo.js:81-118 | finishing a job keeps the invariant |
| NotificationJobsRepo.FinishingFreesKey | src/db/repos/notificationJobsRepo.js:81-118 | finishing the active job holding a key frees that key for a new enqueue |
| RecordsService.ExtractYclientsError | src/integrations/yclients/records.service.js:4-9 | the message is `meta.message` when truthy and the default text otherwise |
| RecordsService.MentionsId | src/integrations/yclients/records.service.js:13 | true iff some message, lower-cased, contains "id" |
| RecordsService.IsIdMissing | src/integrations/yclients/records.service.js:11-14 | false unless `meta.errors.id` is an array, and then whether one of its messages mentions "id" |
| RecordsService.IdMissingIgnoresCase | src/integrations/yclients/records.service.js:11-14 | "Record ID is required" counts whatever its case |
| RecordsService.UpdatePayloadFields | src/integrations/yclients/records.service.js:16-28 | the patch overrides every key it has; the other keys come from the record, with the fallbacks for id and length |
| RecordsService.BuildUpdatePayload | src/integrations/yclients/records.service.js:16-28 | the payload is an object with `id` and `services`, and every patch key carries the patch value |
| RecordsService.BaseServices | src/integrations/yclients/records.service.js:21 | the payload's services are exactly the truthy ids of the record's services |
| RecordsService.Without | src/integrations/yclients/records.service.js:34 | the remaining pairs do not hold the name |
| RecordsService.SetParam | src/integrations/yclients/records.service.js:34 | setting a name the form lacks appends one pair |
| RecordsService.ServicePairs | src/integrations/yclients/records.service.js:47 | one `services[]` pair per id, in order |
| RecordsService.OptField | src/integrations/yclients/records.service.js:36-38 | an optional field adds at most one pair, with its name |
| RecordsService.SetFresh | src/integrations/yclients/records.service.js:34 | `form.set` of a name not yet present appends it |
| RecordsService.SetIfPresent | src/integrations/yclients/records.service.js:36-38 | a field is set iff it is neither null nor undefined |
| RecordsService.BuildScalars | src/integrations/yclients/records.service.js:31-38 | the id and scalar pairs, in order |
| RecordsService.AddClient | src/integrations/yclients/records.service.js:40-44 | the client pairs follow the scalars |
| RecordsService.AppendServices | src/integrations/yclients/records.service.js:46-47 | the loop appends one `services[]` pair per id |
| RecordsService.AddTail | src/integrations/yclients/records.service.js:50-52 | the status pairs come last |
| RecordsService.ScalarsAbsent | src/integrations/yclients/records.service.js:31-38 | a name no scalar field has is absent from the scalars |
| RecordsService.HeadAbsent | src/integrations/yclients/records.service.js:31-44 | a name no head field has is absent from the head |
| RecordsService.BuildHead | src/integrations/yclients/records.service.js:31-44 | the scalar and client pairs set one by one are `FormHead` |
| RecordsService.ServicesAbsent | src/integrations/yclients/records.service.js:46-48 | the service pairs carry no name but `services[]` and `services` |
| RecordsService.AddServices | src/integrations/yclients/records.service.js:46-48 | the `services[]` pairs follow the head, then the JSON mirror when there is a service |
| RecordsService.BuildFormFromPayload | src/integrations/yclients/records.service.js:30-55 | the built form is exactly `FormPairs` |
| RecordsService.FormNames | src/integrations/yclients/records.service.js:30-55 | each name appears in the form iff its field is present (the id always) |
| RecordsService.OptFieldNames | src/integrations/yclients/records.service.js:36-38 | an optional field holds its own name iff its value is neither null nor undefined |
| RecordsService.HeadNames | src/integrations/yclients/records.service.js:31-44 | the head holds `id` always, each scalar name iff present, and the client names iff the client id is present |
| RecordsService.ServiceNames | src/integrations/yclients/records.service.js:46-48 | the service part holds `services[]` and `services` iff there is a service |
| RecordsService.TailNames | src/integrations/yclients/records.service.js:50-52 | the tail holds each status name iff its value is present |
| RecordsService.FormFields | src/integrations/yclients/records.service.js:34-44 | the form starts with `id`, and the client pairs appear iff the client id is present |
| RecordsService.FormServicesInOrder | src/integrations/yclients/records.service.js:46-48 | the service ids are sent one pair each, in order, followed by the JSON mirror when there are any |
| RecordsService.ReadResult | src/integrations/yclients/records.service.js:57-71 | `ok` iff a reply came with `success: true`; an exception gives status 0 or its own, and a message |
| RecordsService.FormResult | src/integrations/yclients/records.service.js:122-156 | `ok` iff the form reply says `success: true` |
| RecordsService.UpdateRecord | src/integrations/yclients/records.service.js:80-157 | the requests and the result are those of `UpdateSpec` |
| RecordsService.UpdateSpec | src/integrations/yclients/records.service.js:80-157 | the JSON request always goes first, at most two requests are made, and a failure is reported only after the form attempt |
| RecordsService.UpdateFallsBackOnce | src/integrations/yclients/records.service.js:84-136 | a successful JSON request is the only one; anything else is followed by exactly one form request, whose answer is the result |
| RecordsService.ConfirmRecordInYclients | src/integrations/yclients/records.service.js:169-186 | the result is that of `ConfirmSpec` |
| RecordsService.ConfirmSpec | src/integrations/yclients/records.service.js:169-186 | a write is attempted iff the read succeeded, at most two requests follow it, and success needs a successful read |
| RecordsService.ConfirmWritesAttendance | src/integrations/yclients/records.service.js:169-186 | a failed read is returned and nothing is written; otherwise the payload carries attendance 2, and visit attendance 2 only with the setting |
| RecordsService.ConfirmOmitsVisitAttendance | src/integrations/yclients/records.service.js:175-179 | without the setting the payload holds no `visit_attendance` |
| RecordHandlers.BuildRecordLink | src/integrations/yclients/recordHandlers.js:10-18 | a truthy `short_link` wins, then `link`; the link is null iff both are falsy and the company or record id is missing |
| RecordHandlers.RecordLinkNamesRecord | src/integrations/yclients/recordHandlers.js:14-16 | the built record link splits into the YCLIENTS host, the company id and the record id |
| RecordHandlers.RecordUrlParts | src/integrations/yclients/recordHandlers.js:16 | the record URL splits on "/" into its six pieces |
| RecordHandlers.StaffUrlParts | src/integrations/yclients/recordHandlers.js:22 | the staff page URL splits on "/" into its nine pieces |
| RecordHandlers.BuildStaffReviewLink | src/integrations/yclients/recordHandlers.js:20-23 | null iff the widget, company or staff id is falsy, and a string otherwise |
| RecordHandlers.StaffReviewLinkNamesStaff | src/integrations/yclients/recordHandlers.js:20-23 | the staff page link names the widget, the company and the staff member |
| RecordHandlers.ExtractStaffId | src/integrations/yclients/recordHandlers.js:26-28 | `staff.id` wins, then the first composite staff id, else null |
| RecordHandlers.PickReviewLink | src/integrations/yclients/recordHandlers.js:31-33 | the body's `review_link` wins, then the fallback; null iff both are falsy |
| RecordHandlers.ReviewLinkFallsBackToStaffPage | src/integrations/yclients/recordHandlers.js:81-86 | with no `review_link` the staff page is used |
| RecordHandlers.NotifyOnlyLinkedChat | src/integrations/yclients/recordHandlers.js:66-77 | a client is notified only at the chat of the latest linked row of its company and phone |
| RecordHandlers.UnlinkedIffNoLinkedRow | src/integrations/yclients/recordHandlers.js:66-75 | the not-linked branch is taken iff no linked row of the company has the phone |
| RecordHandlers.LookupFailsOnlyOnBadCompany | src/integrations/yclients/recordHandlers.js:66-69 | the chat lookup throws only for an invalid company id |
| RecordHandlers.Sent | src/integrations/yclients/recordHandlers.js:40-43 | the list of alerts raised holds exactly the rules' alerts that were sent |
| RecordHandlers.RouteOf | src/integrations/yclients/recordHandlers.js:35-75 | a non-record goes nowhere and every record goes somewhere; a lookup, unlinked or notify route needs a truthy phone and company; a chat notified is never empty |
| RecordHandlers.Engine.constructor | src/integrations/yclients/recordHandlers.js:35-43 | all rules start empty and own distinct ledgers |
| RecordHandlers.Engine.RunAdminRules | src/integrations/yclients/recordHandlers.js:40-43 | the four admin rules each move by their own `OnEvent` and the alerts are theirs, in order; when the missing-phone rule throws, the other three do not run and nothing is sent |
| RecordHandlers.Engine.RunClientSide | src/integrations/yclients/recordHandlers.js:66-99 | the not-linked rule runs only for an unlinked client, and the notifier only for a linked chat with the built links |
| RecordHandlers.Engine.HandleRecordEvent | src/integrations/yclients/recordHandlers.js:35-108 | a non-record changes nothing; a record runs the admin rules; a throw in the missing-phone rule rejects the handler there (route `RuleThrew`), and otherwise the route is `RouteOf`, not-linked runs iff the client is unlinked, and the notifier iff a chat is found |
| App.ToNumberOrString | src/app.js:88-91 | a readable number is used as a number, anything else as its text |
| App.ChatIdReadBack | src/app.js:88-91 | a numeric chat id becomes that number, and a non-numeric one stays text |
| App.NotifyAdmin | src/app.js:93-104 | no admin chat means no send; a send goes to a truthy chat with the given text |
| App.NotifyAdminTarget | src/app.js:93-104 | "0" and " " are not sent to; any other integer is sent to as a number |
| App.BlankAdminSilent | src/app.js:93-98 | a blank admin chat id reads as 0, so nothing is sent |
| App.FormatDateString | src/app.js:118-134 | the shown date and time are never empty, the time is at most five characters, and text without `T` or a space shows dashes |
| App.RecordDateSource | src/app.js:119 | `datetime` wins, and with neither field the source is "" |
| App.FormatRecordDateTime | src/app.js:118-134 | the shown date and time are never empty, the time is at most five characters, and a record with neither field shows dashes |
| App.RecordDateTimeOfIso | src/app.js:118-134 | an ISO `datetime` shows its date and the first five characters of its time |
| App.RecordDateTimeOfSpace | src/app.js:118-134 | a `D T` date shows `D` and the first five characters of `T` |
| App.ParseConfirm | src/app.js:322-329 | only data starting with `rec_confirm:` is handled; its ids are read as numbers or NaN |
| App.ParseConfirmData | src/app.js:327-329 | the button data built from two integer ids parses back to them |
| App.CatchText | src/app.js:429-437 | the timeout text is shown iff the error message mentions "Timeout" |
| App.TimeoutGetsTimeoutText | src/app.js:333-339 | the 8-second timeout's own message gives the timeout text |
| App.HandleConfirmCallback | src/app.js:308-438 | the acknowledgements, replies, edits and calls are exactly those of the corrected flow `CallbackIntended` |
| App.CallbackSpec | src/app.js:308-438 | every callback is acknowledged first; only `rec_confirm:` data goes further, with the "checking" reply and the record read next |
| App.IntendedDiffersOnlyThere | src/app.js:412-437 | the corrected flow differs from the flow as written exactly when the write succeeded and only the read after it was rejected |
| App.OtherCallbackOnlyAcks | src/app.js:322-325 | any other button is only acknowledged |
| App.WriteOnlyAfterGoodRead | src/app.js:355-395 | the confirm write happens iff the read succeeded and attendance is not already 2 |
| App.FailedWriteEndsInFailure | src/app.js:403-409 | a failed write ends with the failure alert and message |
| App.AfterReadOnlyLogs | src/app.js:412-428 | a post-write read that resolves does not change what the user sees |
| App.DebugReadTimeoutHidesSuccess | src/app.js:412-437 | as written, a timed-out post-write read replaces the success reply with the timeout text after a successful write |
| App.IntendedSuccessIgnoresAfterRead | src/app.js:412-428 | in the corrected flow a successful write always ends with the success reply and the button removed |
| App.TimedOutReadSaysTimeout | src/app.js:355-437 | a timed-out first read writes nothing and shows the timeout text |
| App.FirstActive | src/app.js:191 | the found record is active and every earlier one is not; none is found iff none is active |
| App.FindActive | src/app.js:191 | the loop finds exactly `FirstActive` |
| App.RecordCommand | src/app.js:155-233 | the replies are exactly those of `RecordSpec` |
| App.RecordSpec | src/app.js:155-233 | one or two replies; the phone is asked for iff there is no link or no phone; a card shown comes from a listed record of a successful list |
| App.CardFor | src/app.js:191-227 | the card is of the given record, has the confirm button iff attendance is not 2, and shows a non-empty date |
| App.RecordShowsFirstActive | src/app.js:191-227 | the card shows the first active record; the button appears iff attendance is not 2, and its data parses back to the company and record |
| App.RecordNeedsLinkedProfile | src/app.js:163-174 | without a link the client is asked for a phone, and without a YCLIENTS client id the profile is reported not linked |

## Left out

- Telegram, HTTP and the database driver are not modelled as I/O. Each
  send outcome, HTTP reply and query result is a parameter, and the SQL
  text is replaced by functions on a sequence of rows.
- Timers and `Promise.race` are not modelled as concurrency. A timer is a
  pending entry plus a `Fire` method. A timed-out call is the `TimedOut`
  case of `App.Call`.
- The clock is a parameter (`now`). Parsing `create_date` into
  milliseconds is left out: its result is the `createdAt` parameter.
- Floating-point numbers, `Infinity` and exponent formatting are left
  out. `Number(v)` is modelled on integers and decimal strings only.
- Strings are sequences of characters. UTF-16 code units, case folding
  beyond ASCII and percent-encoding are not modelled.
- Alert and message texts are abstracted to their structure. Admin alerts
  are a kind plus a key. Client messages keep their lines but not the
  Markdown.
- `JSON.stringify` is not modelled as text. Snapshot hashes are compared
  by structural equality, and the JSON payloads are not rendered.
- Logging is left out: the `console` calls, including those in the rules'
  `catch` blocks.
- Errors from `answerCallbackQuery` and `editMessageReplyMarkup` are not
  modelled, because the source swallows them.
- The YCLIENTS query string of `listRecordsFromYclients` is left out; its
  reply is an input to `App.RecordCommand`.
- The contact-sharing flow (`src/app.js:236-305`) is left out, because it
  only chains the modelled `normalizePhone`, `findClientByPhone`,
  `upsertClientLink`, `markClientLinked` and `notifyAdmin`.
- The `/start`, `/help` and `/phone` commands (`src/app.js:137-153`) are
  left out, because they only send fixed texts.
- The bot's start-up (`src/app.js:445-447`) is left out.
- `getLinkByTelegramUserId` is not part of this model. Its row is an input
  to `App.RecordCommand`.
- `src/time/krasnoyarsk.js`, `src/config/env.js`, `src/db/pool.js`,
  `src/db/schema.js`, `src/db/repos/recordsCache.repo.js`,
  `src/integrations/yclients/yclientsWebhook.js` and
  `src/jobs/recheckPendingLinks.js` are not part of this model.
- The text of the `/record` card (`buildRecordCard`) and the `todayYmd`
  start date are left out. The card is modelled by the record, date,
  services, link and button it is built from.
- NotificationJobsRepo.JobTable.PickDueJobs: `UPDATE … RETURNING` promises
  no row order, so the model returns the picked jobs in one allowed order,
  their `(run_at, id)` order. The row locks of `FOR UPDATE SKIP LOCKED`
  only matter to concurrent workers, and concurrency is not modelled.
- RecordHandlers.Engine.HandleRecordEvent: whether Telegram accepted an
  admin alert is modelled only where the source reacts to it (the missing
  phone rule's open issues). Elsewhere a failed admin send is caught and
  logged, so the model records only that the alert was attempted.

## Findings

| source | as written | input that shows it | evidently intended | confidence | as-written member | corrected member |
|---|---|---|---|---|---|---|
| src/app.js:412-437 | after a successful write, the debug re-read is awaited under the 8-second timeout inside the same `try`, so its timeout jumps to the `catch` | a confirm callback whose read succeeds with attendance other than 2 and whose write succeeds, but whose re-read times out | the success reply "confirmed" and removal of the button, since the booking was confirmed | not executed | App.DebugReadTimeoutHidesSuccess | App.IntendedSuccessIgnoresAfterRead |
