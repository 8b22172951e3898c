/** The bot's Telegram side: the admin notification guard, the record date
    formatting and confirm button of `/record`, and the confirm-button
    callback with its decisions over the YCLIENTS replies. */
module App {
  import opened Wrappers
  import opened Text
  import opened JsValue
  import opened RecordEvent
  import ClientsLinkRepo
  import RecordsService
  import RecordHandlers

  // ---------------------------------------------------------------------------
  // Admin notifications

  /** `toNumberOrString(v)`: the number when `Number(v)` is finite, else `String(v)`. */
  function ToNumberOrString(v: JsVal): (r: JsVal)
    ensures r.Num? || r.Str?
    ensures ToNumber(v).Num? ==> r == ToNumber(v)
    ensures !ToNumber(v).Num? ==> r == Str(ToStr(v))
  {
    match ToNumber(v)
    case Num(n) => Num(n)
    case _ => Str(ToStr(v))
  }

  /** A decimal chat id becomes that number; an id that is not a number stays
      the string it was. */
  lemma ChatIdReadBack(n: int, s: string)
    requires StringToNumber(s).NaN?
    ensures ToNumberOrString(Str(IntToString(n))) == Num(n)
    ensures ToNumberOrString(Str(s)) == Str(s)
  {
    NumberOfIntString(n);
  }

  datatype AdminSend = AdminSend(chat: JsVal, text: string)

  /** `notifyAdmin(text)` with `env.telegramAdminChatId == adminEnv`: the
      message it attempts, if any. A failed send is caught and logged, so the
      caller never sees it. */
  function NotifyAdmin(adminEnv: JsVal, text: string): (r: Option<AdminSend>)
    ensures r.Some? ==> Truthy(r.value.chat) && r.value.text == text
    ensures !Truthy(adminEnv) ==> r.None?
  {
    var chat := if Truthy(adminEnv) then ToNumberOrString(adminEnv) else Null;
    if !Truthy(chat) then None else Some(AdminSend(chat, text))
  }

  /** A configured numeric chat id gets the message; an id that reads as the
      number 0 (such as "0" or a blank string) silences the admin channel. */
  lemma NotifyAdminTarget(n: int, text: string)
    ensures NotifyAdmin(Str(IntToString(n)), text) == if n == 0 then None else Some(AdminSend(Num(n), text))
    ensures NotifyAdmin(Str(" "), text) == None
  {
    NumberOfIntString(n);
    BlankAdminSilent(text);
  }

  lemma BlankAdminSilent(text: string)
    ensures NotifyAdmin(Str(" "), text) == None
  {
    assert Trim(" ") == "";
    assert ToNumberOrString(Str(" ")) == Num(0);
  }

  // ---------------------------------------------------------------------------
  // Record date and time

  /** The date and time of `formatRecordDateTime` for the string form `s`
      of the record's `datetime || date`: split at the first `T` (dropping
      the offset), else at the first space, else "—" for both; an empty
      part is "—" and the time keeps at most five characters. */
  function FormatDateString(s: string): (r: DateTime)
    ensures r.date != "" && r.time != "" && |r.time| <= 5
    ensures 'T' !in s && ' ' !in s ==> r == DateTime(Dash, Dash)
  {
    if 'T' in s then
      var parts := SplitOn(s, 'T');
      DateTime(OrDash(parts[0]), Prefix(OrDash(StripOffset(parts[1])), 5))
    else if ' ' in s then
      var parts := SplitOn(s, ' ');
      DateTime(OrDash(parts[0]), Prefix(OrDash(parts[1]), 5))
    else DateTime(Dash, Dash)
  }

  /** `String(rec?.datetime || rec?.date || "")` */
  function RecordDateSource(rec: JsVal): (r: string)
    ensures Truthy(Get(rec, "datetime")) ==> r == ToStr(Get(rec, "datetime"))
    ensures !Truthy(Get(rec, "datetime")) && !Truthy(Get(rec, "date")) ==> r == ""
  {
    ToStr(Or(Get(rec, "datetime"), Or(Get(rec, "date"), Str(""))))
  }

  /** `formatRecordDateTime(rec)` */
  function FormatRecordDateTime(rec: JsVal): (r: DateTime)
    ensures r.date != "" && r.time != "" && |r.time| <= 5
    ensures !Truthy(Get(rec, "datetime")) && !Truthy(Get(rec, "date")) ==> r == DateTime(Dash, Dash)
  {
    FormatDateString(RecordDateSource(rec))
  }

  /** An ISO `datetime` `D + "T" + hh:mm:ss + "Z" + rest` shows `D` and
      `hh:mm`, whatever `date` says. */
  lemma RecordDateTimeOfIso(rec: JsVal, d: string, t: string, rest: string)
    requires Get(rec, "datetime") == Str(d + "T" + t + "Z" + rest)
    requires d != "" && 'T' !in d && t != "" && 'T' !in t && '+' !in t && 'Z' !in t && 'T' !in rest && '+' !in rest
    ensures FormatRecordDateTime(rec) == DateTime(d, Prefix(t, 5))
  {
    var tail := t + ['Z'] + rest;
    var s := d + ['T'] + tail;
    assert RecordDateSource(rec) == s;
    assert s[|d|] == 'T';
    SplitOnJoined(d, 'T', tail);
    NotInConcat(t, 'Z', rest, 'T');
    SplitOnWithout(tail, 'T');
    NotInConcat(t, 'Z', rest, '+');
    SplitOnWithout(tail, '+');
    SplitOnJoined(t, 'Z', rest);
  }

  /** A `date` `D + " " + T` (with no `T` anywhere and no `datetime`) shows
      `D` and the first five characters of `T`. */
  lemma RecordDateTimeOfSpace(rec: JsVal, d: string, t: string)
    requires !Truthy(Get(rec, "datetime")) && Get(rec, "date") == Str(d + " " + t)
    requires d != "" && 'T' !in d && ' ' !in d && t != "" && 'T' !in t && ' ' !in t
    ensures FormatRecordDateTime(rec) == DateTime(d, Prefix(t, 5))
  {
    var s := d + [' '] + t;
    assert RecordDateSource(rec) == s;
    assert s[|d|] == ' ';
    NotInConcat(d, ' ', t, 'T');
    SplitOnJoined(d, ' ', t);
    SplitOnWithout(t, ' ');
  }

  // ---------------------------------------------------------------------------
  // The confirm button's callback data

  /** `rec_confirm:${companyId}:${recordId}` */
  function ConfirmData(company: string, recordId: string): string {
    Join(["rec_confirm", company, recordId], ":")
  }

  datatype ConfirmTarget = ConfirmTarget(companyId: JsVal, recordId: JsVal)

  /** The callback handler's parse: data without the `rec_confirm:` prefix
      is not a confirm request; otherwise the second and third `:`-separated
      pieces go through `Number` (a missing piece is NaN). */
  function ParseConfirm(data: string): (r: Option<ConfirmTarget>)
    ensures r.Some? <==> StartsWith(data, "rec_confirm:")
    ensures r.Some? ==> (r.value.companyId.Num? || r.value.companyId.NaN?) && (r.value.recordId.Num? || r.value.recordId.NaN?)
  {
    if !StartsWith(data, "rec_confirm:") then None
    else
      assert data[11] == ':';
      var parts := SplitOn(data, ':');
      Some(ConfirmTarget(StringToNumber(parts[1]), if |parts| >= 3 then StringToNumber(parts[2]) else NaN))
  }

  /** Parsing the data of a button built for integer ids gives the ids back. */
  lemma ParseConfirmData(company: int, recordId: int)
    ensures ParseConfirm(ConfirmData(IntToString(company), IntToString(recordId)))
         == Some(ConfirmTarget(Num(company), Num(recordId)))
  {
    var c := IntToString(company);
    var r := IntToString(recordId);
    IntToStringShape(company);
    IntToStringShape(recordId);
    var data := ConfirmData(c, r);
    assert Join(["rec_confirm", c, r][1..], ":") == c + ":" + r;
    assert data == "rec_confirm" + ":" + (c + ":" + r);
    assert data[..12] == "rec_confirm:";
    SplitOnJoin(["rec_confirm", c, r], ':');
    NumberOfIntString(company);
    NumberOfIntString(recordId);
  }

  // ---------------------------------------------------------------------------
  // The confirm callback

  /** The outcome of an awaited call wrapped in `withTimeout(…, 8000)`: its
      value, the timeout's rejection, or another exception with its message. */
  datatype Call<T> = Resolved(value: T) | TimedOut | Threw(message: string)

  /** The texts the callback sends (`BOT_TEXT.cb…`); `ErrorText` is
      "🚨 Ошибка подтверждения: " followed by the exception's message. */
  datatype BotText = Checking | GetRecordFail | AlreadyConfirmed | Confirming | UpdateFailAlert | UpdateFailMsg
              | Confirmed | TimeoutText | ErrorText(message: string)

  /** What the bot does, in order. */
  datatype Action =
    | Ack                                        // closes the spinner on the button
    | Say(text: BotText)                            // a reply in the chat
    | ShowAlert(text: BotText)                      // a pop-up alert
    | ClearMarkup                                // removes the button
    | ReadRecord(target: ConfirmTarget)          // `getRecordFromYclients`
    | WriteConfirm(target: ConfirmTarget)        // `confirmRecordInYclients`

  const TimeoutMessage: string := "Timeout 8000ms"

  /** The `catch` branch: a message mentioning "Timeout" gets the timeout
      text, anything else the generic error with the message. */
  function CatchText(message: string): (r: BotText)
    ensures r == TimeoutText <==> Contains(message, "Timeout")
    ensures r != TimeoutText ==> r == ErrorText(message)
  {
    if Contains(message, "Timeout") then TimeoutText else ErrorText(message)
  }

  function Rejection<T>(c: Call<T>): string
    requires !c.Resolved?
  {
    if c.TimedOut? then TimeoutMessage else c.message
  }

  lemma TimeoutGetsTimeoutText()
    ensures CatchText(TimeoutMessage) == TimeoutText
  {
    assert OccursAt(TimeoutMessage, "Timeout", 0);
  }

  /** `check.raw?.data || check.data` is confirmed when `Number(attendance) === 2`. */
  predicate AttendanceConfirmed(check: RecordsService.ApiResult) {
    ToNumber(Get(Or(Get(check.raw, "data"), check.data), "attendance")) == Num(2)
  }

  /** The bot's actions for a callback with data `data`, given the outcome of
      the first read, the confirm write and the read after it. When
      `rereadInTry` holds, a rejected read after the write reaches the
      `catch` as in the source; otherwise that read only feeds the log. */
  function Callback(data: string, check: Call<RecordsService.ApiResult>,
                    update: Call<RecordsService.Confirm>, after: Call<RecordsService.ApiResult>,
                    rereadInTry: bool): seq<Action>
  {
    match ParseConfirm(data)
    case None => [Ack]
    case Some(target) =>
      var start := [Ack, Say(Checking), ReadRecord(target)];
      if !check.Resolved? then start + [Say(CatchText(Rejection(check)))]
      else if !check.value.ok then start + [Say(GetRecordFail)]
      else if AttendanceConfirmed(check.value) then start + [ClearMarkup, Say(AlreadyConfirmed)]
      else
        var write := start + [Say(Confirming), WriteConfirm(target)];
        if !update.Resolved? then write + [Say(CatchText(Rejection(update)))]
        else if !update.value.result.ok then write + [ClearMarkup, ShowAlert(UpdateFailAlert), Say(UpdateFailMsg)]
        else
          var reread := write + [ReadRecord(target)];
          if rereadInTry && !after.Resolved? then reread + [Say(CatchText(Rejection(after)))]
          else reread + [ClearMarkup, Say(Confirmed)]
  }

  /** The callback as written: the read after the write is awaited inside the `try`. */
  function CallbackSpec(data: string, check: Call<RecordsService.ApiResult>,
                        update: Call<RecordsService.Confirm>, after: Call<RecordsService.ApiResult>): (r: seq<Action>)
    ensures r != [] && r[0] == Ack
    ensures ParseConfirm(data).None? <==> r == [Ack]
    ensures ParseConfirm(data).Some? ==> |r| >= 4 && r[1] == Say(Checking) && r[2] == ReadRecord(ParseConfirm(data).value)
  {
    Callback(data, check, update, after, true)
  }

  /** The evident intent: the read after the write is for the log only, so
      its failure does not reach the client. */
  function CallbackIntended(data: string, check: Call<RecordsService.ApiResult>,
                            update: Call<RecordsService.Confirm>, after: Call<RecordsService.ApiResult>): seq<Action>
  {
    Callback(data, check, update, after, false)
  }

  /** The `callback_query:data` handler, step by step, with the read after
      the write kept out of the user-visible outcome. */
  method HandleConfirmCallback(data: string, check: Call<RecordsService.ApiResult>,
                               update: Call<RecordsService.Confirm>, after: Call<RecordsService.ApiResult>)
    returns (actions: seq<Action>)
    ensures actions == CallbackIntended(data, check, update, after)
  {
    actions := [Ack];
    var target := ParseConfirm(data);
    if target.None? {
      return;
    }
    var t := target.value;
    actions := [Ack, Say(Checking), ReadRecord(t)];
    if !check.Resolved? {
      actions := actions + [Say(CatchText(Rejection(check)))];
      return;
    }
    if !check.value.ok {
      actions := actions + [Say(GetRecordFail)];
      return;
    }
    if AttendanceConfirmed(check.value) {
      actions := actions + [ClearMarkup, Say(AlreadyConfirmed)];
      return;
    }
    actions := actions + [Say(Confirming), WriteConfirm(t)];
    if !update.Resolved? {
      actions := actions + [Say(CatchText(Rejection(update)))];
      return;
    }
    if !update.value.result.ok {
      actions := actions + [ClearMarkup, ShowAlert(UpdateFailAlert), Say(UpdateFailMsg)];
      return;
    }
    actions := actions + [ReadRecord(t)];
    actions := actions + [ClearMarkup, Say(Confirmed)];
  }

  /** Data that is not a confirm request is only acknowledged. */
  lemma OtherCallbackOnlyAcks(data: string, check: Call<RecordsService.ApiResult>,
                              update: Call<RecordsService.Confirm>, after: Call<RecordsService.ApiResult>)
    requires !StartsWith(data, "rec_confirm:")
    ensures CallbackSpec(data, check, update, after) == [Ack]
  {
  }

  /** The record is written at most once, and only after a successful read
      of a record whose attendance is not 2; the button is removed whenever
      the attendance is already 2. */
  lemma WriteOnlyAfterGoodRead(data: string, check: Call<RecordsService.ApiResult>,
                               update: Call<RecordsService.Confirm>, after: Call<RecordsService.ApiResult>)
    ensures var acts := CallbackSpec(data, check, update, after);
      (exists i :: 0 <= i < |acts| && acts[i].WriteConfirm?) <==>
        (ParseConfirm(data).Some? && check.Resolved? && check.value.ok && !AttendanceConfirmed(check.value))
    ensures ParseConfirm(data).Some? && check.Resolved? && check.value.ok && AttendanceConfirmed(check.value) ==>
      CallbackSpec(data, check, update, after)[3..] == [ClearMarkup, Say(AlreadyConfirmed)]
  {
    var acts := CallbackSpec(data, check, update, after);
    if ParseConfirm(data).Some? && check.Resolved? && check.value.ok && !AttendanceConfirmed(check.value) {
      assert acts[4].WriteConfirm?;
    }
  }

  /** A write that does not come back ok ends in the failure alert and
      message, never in the success text. */
  lemma FailedWriteEndsInFailure(data: string, check: Call<RecordsService.ApiResult>,
                                 update: Call<RecordsService.Confirm>, after: Call<RecordsService.ApiResult>)
    requires ParseConfirm(data).Some? && check.Resolved? && check.value.ok && !AttendanceConfirmed(check.value)
    requires update.Resolved? && !update.value.result.ok
    ensures var acts := CallbackSpec(data, check, update, after);
      acts[|acts| - 3..] == [ClearMarkup, ShowAlert(UpdateFailAlert), Say(UpdateFailMsg)]
      && Say(Confirmed) !in acts
  {
  }

  /** Once the write succeeds, whatever the read after it returns, the bot
      removes the button and reports success. */
  lemma AfterReadOnlyLogs(data: string, check: Call<RecordsService.ApiResult>,
                          update: Call<RecordsService.Confirm>, a1: RecordsService.ApiResult, a2: RecordsService.ApiResult)
    requires ParseConfirm(data).Some? && check.Resolved? && check.value.ok && !AttendanceConfirmed(check.value)
    requires update.Resolved? && update.value.result.ok
    ensures CallbackSpec(data, check, update, Resolved(a1)) == CallbackSpec(data, check, update, Resolved(a2))
    ensures var acts := CallbackSpec(data, check, update, Resolved(a1));
      acts[|acts| - 2..] == [ClearMarkup, Say(Confirmed)]
  {
  }

  /** As written, the read after a successful write is inside the same
      `try` and under the same 8-second timeout: when only that read times
      out, the client is told the confirmation timed out although the record
      was confirmed, and the button stays. */
  lemma DebugReadTimeoutHidesSuccess(data: string, check: Call<RecordsService.ApiResult>,
                                     update: Call<RecordsService.Confirm>)
    requires ParseConfirm(data).Some? && check.Resolved? && check.value.ok && !AttendanceConfirmed(check.value)
    requires update.Resolved? && update.value.result.ok
    ensures var acts := CallbackSpec(data, check, update, TimedOut);
      acts[|acts| - 1] == Say(TimeoutText) && Say(Confirmed) !in acts && ClearMarkup !in acts
  {
    TimeoutGetsTimeoutText();
    var acts := CallbackSpec(data, check, update, TimedOut);
    assert acts == [Ack, Say(Checking), ReadRecord(ParseConfirm(data).value), Say(Confirming),
                    WriteConfirm(ParseConfirm(data).value), ReadRecord(ParseConfirm(data).value), Say(TimeoutText)];
  }

  /** The correction changes only the case the finding is about: a
      successful write whose later read is rejected. */
  lemma IntendedDiffersOnlyThere(data: string, check: Call<RecordsService.ApiResult>,
                                 update: Call<RecordsService.Confirm>, after: Call<RecordsService.ApiResult>)
    ensures CallbackIntended(data, check, update, after) != CallbackSpec(data, check, update, after) <==>
      (ParseConfirm(data).Some? && check.Resolved? && check.value.ok && !AttendanceConfirmed(check.value)
       && update.Resolved? && update.value.result.ok && !after.Resolved?)
  {
  }

  /** With the intended behaviour, a successful write always ends with the
      button removed and the success text, whatever happens to the read after it. */
  lemma IntendedSuccessIgnoresAfterRead(data: string, check: Call<RecordsService.ApiResult>,
                                        update: Call<RecordsService.Confirm>, after: Call<RecordsService.ApiResult>)
    requires ParseConfirm(data).Some? && check.Resolved? && check.value.ok && !AttendanceConfirmed(check.value)
    requires update.Resolved? && update.value.result.ok
    ensures var acts := CallbackIntended(data, check, update, after);
      acts[|acts| - 2..] == [ClearMarkup, Say(Confirmed)]
      && forall a :: a in acts && a.Say? ==> a.text != TimeoutText && !a.text.ErrorText?
  {
    var t := ParseConfirm(data).value;
    var acts := CallbackIntended(data, check, update, after);
    assert acts == [Ack, Say(Checking), ReadRecord(t), Say(Confirming), WriteConfirm(t), ReadRecord(t),
                    ClearMarkup, Say(Confirmed)];
  }

  /** A timed-out first read, like any rejected step, ends in the timeout text. */
  lemma TimedOutReadSaysTimeout(data: string, update: Call<RecordsService.Confirm>, after: Call<RecordsService.ApiResult>)
    requires ParseConfirm(data).Some?
    ensures var acts := CallbackSpec(data, TimedOut, update, after);
      acts[|acts| - 1] == Say(TimeoutText) && forall i :: 0 <= i < |acts| ==> !acts[i].WriteConfirm?
  {
    TimeoutGetsTimeoutText();
  }

  // ---------------------------------------------------------------------------
  // /record

  /** `r && r.deleted !== true` */
  predicate ActiveRecord(r: JsVal) { Truthy(r) && Get(r, "deleted") != Bool(true) }

  /** The index `list.data.find(…)` stops at. */
  function FirstActive(items: seq<JsVal>): (r: Option<nat>)
    ensures r.Some? ==>
      (&& r.value < |items| && ActiveRecord(items[r.value])
       && forall j :: 0 <= j < r.value ==> !ActiveRecord(items[j]))
    ensures r.None? ==> forall j :: 0 <= j < |items| ==> !ActiveRecord(items[j])
  {
    if items == [] then None
    else if ActiveRecord(items[0]) then Some(0)
    else match FirstActive(items[1..])
      case None => None
      case Some(i) => Some(i + 1)
  }

  method FindActive(items: seq<JsVal>) returns (r: Option<nat>)
    ensures r == FirstActive(items)
  {
    var i := 0;
    while i < |items|
      invariant 0 <= i <= |items|
      invariant FirstActive(items) == FirstActiveFrom(items, i)
    {
      if ActiveRecord(items[i]) {
        return Some(i);
      }
      i := i + 1;
    }
    return None;
  }

  /** `FirstActive` of `items[i..]`, as an index into `items`. */
  function FirstActiveFrom(items: seq<JsVal>, i: nat): Option<nat>
    requires i <= |items|
  {
    match FirstActive(items[i..])
    case None => None
    case Some(k) => Some(i + k)
  }

  datatype Card = Card(record: JsVal, date: DateTime, services: seq<JsVal>, linkUrl: JsVal, button: Option<string>)

  /** The replies of `/record`. `Card` carries what `buildRecordCard` is
      given, and `button` the confirm button's data when the record is not
      yet confirmed (the card then ends with the confirm hint). */
  datatype RecordReply = NeedPhone | ProfileNotLinked | Searching | ListFailed | NoActiveRecords | Show(card: Card)

  /** The card for record `next` of company `Number(companyEnv)`. */
  function CardFor(companyEnv: JsVal, next: JsVal): (c: Card)
    ensures c.record == next
    ensures c.button.None? <==> ToNumber(Get(next, "attendance")) == Num(2)
    ensures c.date.date != "" && |c.date.time| <= 5
  {
    var companyId := ToNumber(companyEnv);
    var services := if Get(next, "services").Arr? then TruthyField(Get(next, "services").items, "title") else [];
    var linkUrl := Or(Get(next, "short_link"), Or(Get(next, "link"),
      if Truthy(Get(next, "id")) then Str(RecordHandlers.RecordUrl(ToStr(companyId), ToStr(Get(next, "id"))))
      else Null));
    var confirmed := ToNumber(Get(next, "attendance")) == Num(2);
    Card(next, FormatRecordDateTime(next), services, linkUrl,
         if confirmed then None else Some(ConfirmData(ToStr(companyId), ToStr(Get(next, "id")))))
  }

  /** `/record` for the user's link row `link` (`getLinkByTelegramUserId`)
      and the result of listing their upcoming records. */
  function RecordSpec(companyEnv: JsVal, link: Option<ClientsLinkRepo.LinkRow>, list: RecordsService.ApiResult): (r: seq<RecordReply>)
    ensures 1 <= |r| <= 2
    ensures r[0] == NeedPhone <==> link.None? || link.value.phone == ""
    ensures r[|r| - 1].Show? ==> list.ok && list.data.Arr? && r[|r| - 1].card.record in list.data.items
  {
    if link.None? || link.value.phone == "" then [NeedPhone]
    else
      var clientId := if link.value.ycClientId.Some? && link.value.ycClientId.value != ""
                      then StringToNumber(link.value.ycClientId.value) else Num(0);
      if !Truthy(clientId) then [ProfileNotLinked]
      else if !list.ok || !list.data.Arr? then [Searching, ListFailed]
      else match FirstActive(list.data.items)
        case None => [Searching, NoActiveRecords]
        case Some(i) => [Searching, Show(CardFor(companyEnv, list.data.items[i]))]
  }

  method RecordCommand(companyEnv: JsVal, link: Option<ClientsLinkRepo.LinkRow>, list: RecordsService.ApiResult)
    returns (replies: seq<RecordReply>)
    ensures replies == RecordSpec(companyEnv, link, list)
  {
    if link.None? || link.value.phone == "" {
      return [NeedPhone];
    }
    var raw := if link.value.ycClientId.Some? then Str(link.value.ycClientId.value) else Null;
    var clientId := ToNumber(Or(raw, Num(0)));
    if !Truthy(clientId) {
      return [ProfileNotLinked];
    }
    replies := [Searching];
    if !list.ok || !list.data.Arr? {
      return replies + [ListFailed];
    }
    var next := FindActive(list.data.items);
    if next.None? {
      return replies + [NoActiveRecords];
    }
    replies := replies + [Show(CardFor(companyEnv, list.data.items[next.value]))];
  }

  /** `/record` shows the first listed record that is present and not
      deleted, and offers the confirm button exactly when its attendance is
      not 2; the button's data parses back to the company and the record. */
  lemma RecordShowsFirstActive(companyEnv: JsVal, link: Option<ClientsLinkRepo.LinkRow>, list: RecordsService.ApiResult,
                               company: int, recordId: int)
    requires RecordSpec(companyEnv, link, list)[|RecordSpec(companyEnv, link, list)| - 1].Show?
    requires ToNumber(companyEnv) == Num(company)
    ensures var card := RecordSpec(companyEnv, link, list)[|RecordSpec(companyEnv, link, list)| - 1].card;
      && list.ok && list.data.Arr?
      && (exists i :: 0 <= i < |list.data.items| && card.record == list.data.items[i]
            && ActiveRecord(list.data.items[i]) && forall j :: 0 <= j < i ==> !ActiveRecord(list.data.items[j]))
      && (card.button.Some? <==> ToNumber(Get(card.record, "attendance")) != Num(2))
      && (card.button.Some? && Get(card.record, "id") == Num(recordId) ==>
            ParseConfirm(card.button.value) == Some(ConfirmTarget(Num(company), Num(recordId))))
  {
    var replies := RecordSpec(companyEnv, link, list);
    var i := FirstActive(list.data.items).value;
    var card := replies[|replies| - 1].card;
    assert card.record == list.data.items[i];
    ParseConfirmData(company, recordId);
  }

  /** Without a stored phone the user is asked for one; without a YCLIENTS
      client id the profile is reported unlinked; nothing is listed in either case. */
  lemma RecordNeedsLinkedProfile(companyEnv: JsVal, link: Option<ClientsLinkRepo.LinkRow>, list: RecordsService.ApiResult)
    ensures link.None? ==> RecordSpec(companyEnv, link, list) == [NeedPhone]
    ensures link.Some? && link.value.phone != "" && link.value.ycClientId.None? ==>
      RecordSpec(companyEnv, link, list) == [ProfileNotLinked]
    ensures link.Some? && link.value.phone != "" && link.value.ycClientId == Some("0") ==>
      RecordSpec(companyEnv, link, list) == [ProfileNotLinked]
  {
    assert Trim("0") == "0";
  }
}
