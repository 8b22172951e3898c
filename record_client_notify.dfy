/** The client notifier: for a record event whose client has a linked chat,
    decides which message the client gets (canceled, created, confirmed,
    changed), keeping per record the last snapshot seen, a debounced
    "changed" message, and one dedup ledger shared by all message kinds. */
module RecordClientNotify {
  import opened Wrappers
  import opened Text
  import opened JsValue
  import opened RecordEvent
  import opened Dedup
  import opened RecordMessages

  const Ttl: int := 10 * 60 * 1000
  const ChangedTtl: int := 5 * 60 * 1000
  const SweepAbove: nat := 10000
  /** How far `create_date` may be from now for an "update" to count as a creation. */
  const NewWindow: int := 2 * 60 * 1000

  /** `isConfirmedTrue(value)` */
  predicate IsConfirmedTrue(v: JsVal) { v == Num(1) || v == Str("1") || v == Bool(true) }

  /** `isConfirmedFalse(value)`: note that `"0"` counts although it is truthy. */
  predicate IsConfirmedFalse(v: JsVal) { v == Num(0) || v == Str("0") || v == Bool(false) || v == Null || v == Undefined }

  /** No value is both, and some values (`2`, `""`, `"yes"`) are neither. */
  lemma ConfirmedTestsDisjoint(v: JsVal)
    ensures !(IsConfirmedTrue(v) && IsConfirmedFalse(v))
    ensures !IsConfirmedTrue(Num(2)) && !IsConfirmedFalse(Num(2))
    ensures !IsConfirmedTrue(Str("")) && !IsConfirmedFalse(Str(""))
  {
  }

  /** `isNewRecordEvent(body)` at time `now`; `createdAt` is the
      `create_date` read as milliseconds, `None` when it is not a date. */
  predicate IsNewRecordEvent(body: JsVal, now: int, createdAt: Option<int>) {
    IsRecord(body)
    && (Get(body, "status") == Str("create")
        || (Get(body, "status") == Str("update") && Truthy(Get(Data(body), "create_date"))
            && createdAt.Some? && -NewWindow <= now - createdAt.value <= NewWindow))
  }

  /** The classifier: a non-record is never new, "create" always is, and an
      "update" is new exactly when it was created within two minutes. */
  lemma NewRecordCases(body: JsVal, now: int, createdAt: Option<int>)
    ensures !IsRecord(body) ==> !IsNewRecordEvent(body, now, createdAt)
    ensures IsRecord(body) && Get(body, "status") == Str("create") ==> IsNewRecordEvent(body, now, createdAt)
    ensures IsRecord(body) && Get(body, "status") == Str("update") ==>
      (IsNewRecordEvent(body, now, createdAt) <==>
        Truthy(Get(Data(body), "create_date")) && createdAt.Some? && (if now >= createdAt.value then now - createdAt.value else createdAt.value - now) <= NewWindow)
  {
  }

  /** `staffName(data)`: the staff name, else the first composite staff
      name, else "—". */
  function StaffName(data: JsVal): (r: JsVal)
    ensures Truthy(r)
  {
    Or(Or(Get(Get(data, "staff"), "name"), Get(At(Get(Get(data, "composite"), "staff"), 0), "name")), Str(Dash))
  }

  /** `snapshot(data)`; `JSON.stringify` of it is compared as equality of
      this value. */
  datatype Snapshot = Snapshot(date: string, time: string, staff: JsVal, services: seq<JsVal>, confirmed: JsVal, deleted: JsVal)

  function Snap(data: JsVal): (r: Snapshot)
    ensures !Truthy(Get(data, "staff")) && !Truthy(Get(data, "composite")) ==> r.staff == Str(Dash)
    ensures IsNullish(Get(data, "confirmed")) ==> r.confirmed == Null
    ensures !IsNullish(Get(data, "confirmed")) ==> r.confirmed == Get(data, "confirmed")
    ensures IsNullish(Get(data, "deleted")) ==> r.deleted == Bool(false)
  {
    var dt := SplitDateTime(data);
    Snapshot(dt.date, dt.time, StaffName(data), ServiceTitles(data),
             Coalesce(Get(data, "confirmed"), Null), Coalesce(Get(data, "deleted"), Bool(false)))
  }

  /** `lastByRecord` entry. */
  datatype Last = Last(snap: Snapshot, confirmed: JsVal, deleted: bool)

  /** `pendingChanged` entry: the latest data, plus the chat and link the
      latest timer closure captured. */
  datatype PendingChange = PendingChange(data: JsVal, chatId: JsVal, recordLink: JsVal)

  datatype NotifyState = NotifyState(last: map<string, Last>, pendingChanged: map<string, PendingChange>, sent: map<string, int>)

  /** Which message, and the record data and links it is formatted from. */
  datatype ClientKind =
    | CanceledMsg(data: JsVal, recordLink: JsVal)
    | CreatedMsg(data: JsVal, recordLink: JsVal, reviewLink: JsVal)
    | ConfirmedMsg(data: JsVal, recordLink: JsVal)
    | ChangedMsg(data: JsVal, recordLink: JsVal)

  /** The text Telegram receives for a message. */
  function Rendered(k: ClientKind): string {
    match k
    case CanceledMsg(data, link) => CanceledMessage(data, link)
    case CreatedMsg(data, link, review) => CreateMessage(data, link, review)
    case ConfirmedMsg(data, link) => ConfirmedMessage(data, link)
    case ChangedMsg(data, link) => ChangedMessage(data, link)
  }

  /** A Telegram message to a client; `button` is the callback data of the
      inline confirm button, if any. */
  datatype ClientMessage = ClientMessage(chatId: JsVal, kind: ClientKind, button: Option<string>)

  /** The result of one call: the new state, the message attempted, and
      whether the send failed. The immediate sends are not inside `try`, so
      a failure ends the handler there, with only the ledger stamped. */
  datatype Outcome = Outcome(state: NotifyState, message: Option<ClientMessage>, failed: bool)

  function Key(body: JsVal): string { RecordKey("rec", body) }

  /** `rec_confirm:${companyId}:${recordId}` */
  function ConfirmButton(body: JsVal): string {
    "rec_confirm:" + ToStr(CompanyId(body)) + ":" + ToStr(RecordId(body))
  }

  /** `prev?.confirmed` */
  function PrevConfirmed(s: NotifyState, key: string): JsVal {
    if key in s.last then s.last[key].confirmed else Undefined
  }

  predicate BecameConfirmed(s: NotifyState, body: JsVal) {
    IsConfirmedFalse(PrevConfirmed(s, Key(body))) && IsConfirmedTrue(Snap(Data(body)).confirmed)
  }

  /** `Boolean(prev?.snapHash) && prev.snapHash !== curHash` */
  predicate Changed(s: NotifyState, body: JsVal) {
    Key(body) in s.last && s.last[Key(body)].snap != Snap(Data(body))
  }

  /** One immediate send guarded by the ledger: `sentKey` is checked and
      stamped; the message is attempted unless suppressed; if it fails the
      handler stops with only the ledger changed, else the maps become
      `last` and `pending`. */
  function Guarded(s: NotifyState, sentKey: string, now: int, m: ClientMessage, delivered: bool,
                   last: map<string, Last>, pending: map<string, PendingChange>): Outcome
  {
    var v := CheckAndSet(s.sent, sentKey, now, Ttl, SweepAbove);
    if v.suppressed then Outcome(NotifyState(last, pending, v.sent), None, false)
    else if !delivered then Outcome(s.(sent := v.sent), Some(m), true)
    else Outcome(NotifyState(last, pending, v.sent), Some(m), false)
  }

  /** The cancel branch: canceled message, then the record stored as deleted. */
  function CancelStep(s: NotifyState, body: JsVal, chatId: JsVal, recordLink: JsVal, now: int, delivered: bool): Outcome {
    var key := Key(body);
    var cur := Snap(Data(body));
    Guarded(s, "client:cancel:" + key, now,
            ClientMessage(chatId, CanceledMsg(Data(body), recordLink), None), delivered,
            s.last[key := Last(cur, cur.confirmed, true)], s.pendingChanged)
  }

  /** The create branch: created message with the confirm button, then the
      record stored as not deleted. */
  function CreateStep(s: NotifyState, body: JsVal, chatId: JsVal, recordLink: JsVal, reviewLink: JsVal, now: int, delivered: bool): Outcome {
    var key := Key(body);
    var cur := Snap(Data(body));
    Guarded(s, "client:create:" + key, now,
            ClientMessage(chatId, CreatedMsg(Data(body), recordLink, reviewLink), Some(ConfirmButton(body))), delivered,
            s.last[key := Last(cur, cur.confirmed, false)], s.pendingChanged)
  }

  /** The remaining branches: the confirmed transition, then "changed",
      then the new stored entry. */
  function OtherStep(s: NotifyState, body: JsVal, chatId: JsVal, recordLink: JsVal, now: int, delivered: bool): Outcome {
    OtherFrom(s, Key(body), Data(body), Snap(Data(body)), chatId, recordLink, now, delivered)
  }

  /** `OtherStep` for the record's key, data and snapshot `cur`. */
  function OtherFrom(s: NotifyState, key: string, data: JsVal, cur: Snapshot, chatId: JsVal, recordLink: JsVal,
                     now: int, delivered: bool): Outcome
  {
    var changed := key in s.last && s.last[key].snap != cur;
    var pending := if changed then s.pendingChanged[key := PendingChange(data, chatId, recordLink)] else s.pendingChanged;
    var last := s.last[key := Last(cur, cur.confirmed, false)];
    if IsConfirmedFalse(PrevConfirmed(s, key)) && IsConfirmedTrue(cur.confirmed) then
      Guarded(s, "client:confirmed:" + key, now,
              ClientMessage(chatId, ConfirmedMsg(data, recordLink), None), delivered, last, pending)
    else Outcome(NotifyState(last, pending, s.sent), None, false)
  }

  /** `handleRecordClientNotifications({ body, chatId, recordLink, reviewLink })`
      at time `now`; `delivered` is the outcome of the one immediate send the
      call may make. Cancel comes before create, which comes before the rest. */
  function OnEvent(s: NotifyState, body: JsVal, chatId: JsVal, recordLink: JsVal, reviewLink: JsVal,
                   now: int, createdAt: Option<int>, delivered: bool): (r: Outcome)
    ensures r.failed <==> r.message.Some? && !delivered
    ensures r.message.Some? ==> r.message.value.chatId == chatId
    ensures r.failed ==> r.state.last == s.last && r.state.pendingChanged == s.pendingChanged
  {
    if IsCanceledEvent(body) then CancelStep(s, body, chatId, recordLink, now, delivered)
    else if IsNewRecordEvent(body, now, createdAt) then CreateStep(s, body, chatId, recordLink, reviewLink, now, delivered)
    else OtherStep(s, body, chatId, recordLink, now, delivered)
  }

  /** The "changed" timer for `key`: the entry is removed; unless the
      5-minute "changed" dedup suppresses it, the changed message for the
      stored data goes to the stored chat. Its send is inside `try`. */
  function OnTimer(s: NotifyState, key: string, now: int): (r: Outcome)
    ensures key !in r.state.pendingChanged && r.state.last == s.last && !r.failed
    ensures key !in s.pendingChanged ==> r == Outcome(s, None, false)
  {
    if key !in s.pendingChanged then Outcome(s, None, false)
    else
      var entry := s.pendingChanged[key];
      var s1 := s.(pendingChanged := s.pendingChanged - {key});
      var v := CheckAndSet(s.sent, "client:changed:" + key, now, ChangedTtl, SweepAbove);
      if v.suppressed then Outcome(s1, None, false)
      else Outcome(s1.(sent := v.sent),
                   Some(ClientMessage(entry.chatId, ChangedMsg(entry.data, entry.recordLink), None)), false)
  }

  class Notifier {
    var last: map<string, Last>
    var pendingChanged: map<string, PendingChange>
    const sentDedup: Ledger

    function State(): NotifyState
      reads this, sentDedup
    {
      NotifyState(last, pendingChanged, sentDedup.sent)
    }

    predicate Valid() { sentDedup.sweepAbove == SweepAbove }

    constructor ()
      ensures Valid() && State() == NotifyState(map[], map[], map[]) && fresh(sentDedup)
    {
      last := map[];
      pendingChanged := map[];
      sentDedup := new Ledger(SweepAbove);
    }

    /** `if (!dedup(sentKey)) await bot.api.sendMessage(…)`: `failed` when
        the message was attempted and not delivered. */
    method SendOnce(sentKey: string, now: int, m: ClientMessage, delivered: bool)
      returns (message: Option<ClientMessage>, failed: bool)
      requires Valid()
      modifies sentDedup
      ensures var v := CheckAndSet(old(sentDedup.sent), sentKey, now, Ttl, SweepAbove);
        && sentDedup.sent == v.sent
        && message == (if v.suppressed then None else Some(m))
        && failed == (!v.suppressed && !delivered)
    {
      message := None;
      failed := false;
      var suppressed := sentDedup.WasSentRecently(sentKey, now, Ttl);
      if !suppressed {
        message := Some(m);
        failed := !delivered;
      }
    }

    method Handle(body: JsVal, chatId: JsVal, recordLink: JsVal, reviewLink: JsVal,
                  now: int, createdAt: Option<int>, delivered: bool)
      returns (message: Option<ClientMessage>, failed: bool)
      requires Valid()
      modifies this, sentDedup
      ensures Outcome(State(), message, failed) == OnEvent(old(State()), body, chatId, recordLink, reviewLink, now, createdAt, delivered)
    {
      ghost var s0 := State();
      ghost var r := OnEvent(s0, body, chatId, recordLink, reviewLink, now, createdAt, delivered);
      if IsCanceledEvent(body) {
        assert r == CancelStep(s0, body, chatId, recordLink, now, delivered);
        message, failed := HandleCancel(body, chatId, recordLink, now, delivered);
      } else if IsNewRecordEvent(body, now, createdAt) {
        assert r == CreateStep(s0, body, chatId, recordLink, reviewLink, now, delivered);
        message, failed := HandleCreate(body, chatId, recordLink, reviewLink, now, delivered);
      } else {
        assert r == OtherStep(s0, body, chatId, recordLink, now, delivered);
        message, failed := HandleOther(body, chatId, recordLink, now, delivered);
      }
    }

    method HandleCancel(body: JsVal, chatId: JsVal, recordLink: JsVal, now: int, delivered: bool)
      returns (message: Option<ClientMessage>, failed: bool)
      requires Valid()
      modifies this, sentDedup
      ensures Outcome(State(), message, failed) == CancelStep(old(State()), body, chatId, recordLink, now, delivered)
    {
      ghost var s0 := State();
      var key := Key(body);
      var cur := Snap(Data(body));
      var m := ClientMessage(chatId, CanceledMsg(Data(body), recordLink), None);
      var newLast := last[key := Last(cur, cur.confirmed, true)];
      assert CancelStep(s0, body, chatId, recordLink, now, delivered)
        == Guarded(s0, "client:cancel:" + key, now, m, delivered, newLast, pendingChanged);
      message, failed := SendOnce("client:cancel:" + key, now, m, delivered);
      if failed {
        return;
      }
      last := newLast;
    }

    method HandleCreate(body: JsVal, chatId: JsVal, recordLink: JsVal, reviewLink: JsVal, now: int, delivered: bool)
      returns (message: Option<ClientMessage>, failed: bool)
      requires Valid()
      modifies this, sentDedup
      ensures Outcome(State(), message, failed) == CreateStep(old(State()), body, chatId, recordLink, reviewLink, now, delivered)
    {
      ghost var s0 := State();
      var key := Key(body);
      var cur := Snap(Data(body));
      var m := ClientMessage(chatId, CreatedMsg(Data(body), recordLink, reviewLink), Some(ConfirmButton(body)));
      var newLast := last[key := Last(cur, cur.confirmed, false)];
      assert CreateStep(s0, body, chatId, recordLink, reviewLink, now, delivered)
        == Guarded(s0, "client:create:" + key, now, m, delivered, newLast, pendingChanged);
      message, failed := SendOnce("client:create:" + key, now, m, delivered);
      if failed {
        return;
      }
      last := newLast;
    }

    method HandleOther(body: JsVal, chatId: JsVal, recordLink: JsVal, now: int, delivered: bool)
      returns (message: Option<ClientMessage>, failed: bool)
      requires Valid()
      modifies this, sentDedup
      ensures Outcome(State(), message, failed) == OtherStep(old(State()), body, chatId, recordLink, now, delivered)
    {
      message, failed := HandleOtherFor(Key(body), Data(body), Snap(Data(body)), chatId, recordLink, now, delivered);
    }

    method HandleOtherFor(key: string, data: JsVal, cur: Snapshot, chatId: JsVal, recordLink: JsVal, now: int, delivered: bool)
      returns (message: Option<ClientMessage>, failed: bool)
      requires Valid()
      modifies this, sentDedup
      ensures Outcome(State(), message, failed) == OtherFrom(old(State()), key, data, cur, chatId, recordLink, now, delivered)
    {
      ghost var s0 := State();
      message := None;
      failed := false;
      var prevConfirmed := if key in last then last[key].confirmed else Undefined;
      var changed := key in last && last[key].snap != cur;
      var pending := if changed then pendingChanged[key := PendingChange(data, chatId, recordLink)] else pendingChanged;
      var newLast := last[key := Last(cur, cur.confirmed, false)];
      if IsConfirmedFalse(prevConfirmed) && IsConfirmedTrue(cur.confirmed) {
        message, failed := SendOnce("client:confirmed:" + key, now,
          ClientMessage(chatId, ConfirmedMsg(data, recordLink), None), delivered);
        if failed {
          return;
        }
      }
      pendingChanged := pending;
      last := newLast;
    }

    method FireChanged(key: string, now: int) returns (message: Option<ClientMessage>)
      requires Valid()
      modifies this, sentDedup
      ensures Outcome(State(), message, false) == OnTimer(old(State()), key, now)
    {
      message := None;
      if key !in pendingChanged {
        return;
      }
      var entry := pendingChanged[key];
      pendingChanged := pendingChanged - {key};
      var suppressed := sentDedup.WasSentRecently("client:changed:" + key, now, ChangedTtl);
      if suppressed {
        return;
      }
      message := Some(ClientMessage(entry.chatId, ChangedMsg(entry.data, entry.recordLink), None));
    }
  }

  /** Cancel comes first: it never schedules "changed", sends at most the
      canceled message, and (unless that send fails) records the record as
      deleted. */
  lemma CancelWins(s: NotifyState, body: JsVal, chatId: JsVal, recordLink: JsVal, reviewLink: JsVal,
                   now: int, createdAt: Option<int>, delivered: bool)
    requires IsCanceledEvent(body)
    ensures var r := OnEvent(s, body, chatId, recordLink, reviewLink, now, createdAt, delivered);
      && r.state.pendingChanged == s.pendingChanged
      && (r.message.Some? ==> r.message.value.kind.CanceledMsg?)
      && (r.message.Some? <==> !Recent(s.sent, "client:cancel:" + Key(body), now, Ttl))
      && (!r.failed ==> Key(body) in r.state.last && r.state.last[Key(body)].deleted)
      && (r.failed ==> r.state.last == s.last)
  {
  }

  /** A creation (not a cancellation) never schedules "changed"; the
      created message carries the confirm button, and the record is stored
      as not deleted. */
  lemma CreateSkipsTransitions(s: NotifyState, body: JsVal, chatId: JsVal, recordLink: JsVal, reviewLink: JsVal,
                               now: int, createdAt: Option<int>, delivered: bool)
    requires !IsCanceledEvent(body) && IsNewRecordEvent(body, now, createdAt)
    ensures var r := OnEvent(s, body, chatId, recordLink, reviewLink, now, createdAt, delivered);
      && r.state.pendingChanged == s.pendingChanged
      && (r.message.Some? ==> r.message.value.kind.CreatedMsg? && r.message.value.button == Some(ConfirmButton(body)))
      && (!r.failed ==> Key(body) in r.state.last && !r.state.last[Key(body)].deleted)
  {
    var key := Key(body);
    var cur := Snap(Data(body));
    var m := ClientMessage(chatId, CreatedMsg(Data(body), recordLink, reviewLink), Some(ConfirmButton(body)));
    assert OnEvent(s, body, chatId, recordLink, reviewLink, now, createdAt, delivered)
      == Guarded(s, "client:create:" + key, now, m, delivered, s.last[key := Last(cur, cur.confirmed, false)], s.pendingChanged);
  }

  /** For any other event, the confirmed message is attempted exactly when
      the stored confirmed value was a "false" one (or there was none), the
      new one is a "true" one, and the ledger lets it through; "changed" is
      scheduled with this event's data exactly when a stored snapshot
      exists and differs; and the stored entry becomes this snapshot. A
      failed confirmed send leaves both maps as they were. */
  lemma OtherEventTransitions(s: NotifyState, body: JsVal, chatId: JsVal, recordLink: JsVal, reviewLink: JsVal,
                              now: int, createdAt: Option<int>, delivered: bool)
    requires !IsCanceledEvent(body) && !IsNewRecordEvent(body, now, createdAt)
    ensures var r := OnEvent(s, body, chatId, recordLink, reviewLink, now, createdAt, delivered);
      var key := Key(body);
      var cur := Snap(Data(body));
      && (r.message.Some? <==> BecameConfirmed(s, body) && !Recent(s.sent, "client:confirmed:" + key, now, Ttl))
      && (r.message.Some? ==> r.message.value.kind.ConfirmedMsg?)
      && (r.failed ==> r.state.last == s.last && r.state.pendingChanged == s.pendingChanged)
      && (!r.failed ==>
            && r.state.last == s.last[key := Last(cur, cur.confirmed, false)]
            && (Changed(s, body) ==> r.state.pendingChanged == s.pendingChanged[key := PendingChange(Data(body), chatId, recordLink)])
            && (!Changed(s, body) ==> r.state.pendingChanged == s.pendingChanged))
  {
  }

  /** The confirmed and changed branches are not exclusive: a known record
      whose stored confirmed value was 0 and whose update carries 1 gets the
      confirmed message and also a scheduled "changed" message, because
      `confirmed` is part of the snapshot. */
  lemma ConfirmFlipAlsoChanges(s: NotifyState, body: JsVal, chatId: JsVal, recordLink: JsVal, reviewLink: JsVal,
                               now: int, createdAt: Option<int>)
    requires !IsCanceledEvent(body) && !IsNewRecordEvent(body, now, createdAt)
    requires Key(body) in s.last && s.last[Key(body)].confirmed == Num(0) && s.last[Key(body)].snap.confirmed == Num(0)
    requires Get(Data(body), "confirmed") == Num(1)
    requires !Recent(s.sent, "client:confirmed:" + Key(body), now, Ttl)
    ensures var r := OnEvent(s, body, chatId, recordLink, reviewLink, now, createdAt, true);
      && r.message.Some? && r.message.value.kind.ConfirmedMsg?
      && Key(body) in r.state.pendingChanged
  {
    assert Changed(s, body);
    assert BecameConfirmed(s, body);
  }

  /** The "changed" timer sends at most once per key in five minutes. */
  lemma ChangedOncePerWindow(s: NotifyState, key: string, now: int, later: int)
    requires now > 0 && now <= later < now + ChangedTtl
    requires OnTimer(s, key, now).message.Some?
    ensures var s1 := OnTimer(s, key, now).state;
      OnTimer(s1, key, later).message.None?
  {
    CheckAndSetSpec(s.sent, "client:changed:" + key, now, ChangedTtl, SweepAbove);
  }
}
