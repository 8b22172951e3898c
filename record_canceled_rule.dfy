/** The record-canceled rule: a cancellation of a record raises one admin
    alert per key in 30 minutes. */
module RecordCanceledRule {
  import opened Wrappers
  import opened JsValue
  import opened RecordEvent
  import opened Dedup

  const Ttl: int := 30 * 60 * 1000
  const SweepAbove: nat := 5000

  function Key(body: JsVal): string { StableKey("record_canceled", body) }

  datatype Outcome = Outcome(sent: map<string, int>, alert: Option<AdminAlert>)

  /** The rule applied to one webhook `body` at time `now`: the ledger is
      stamped before the send, and the send is inside `try`, so a failed
      send still counts against the window. */
  function OnEvent(sent: map<string, int>, body: JsVal, adminChatId: string, now: int): (r: Outcome)
    ensures adminChatId == "" || !IsRecord(body) || !IsCanceledEvent(body) ==> r == Outcome(sent, None)
    ensures r.alert.Some? ==> r.alert.value == AdminAlert(Canceled, Key(body), "")
  {
    if adminChatId == "" || !IsRecord(body) || !IsCanceledEvent(body) then Outcome(sent, None)
    else
      var v := CheckAndSet(sent, Key(body), now, Ttl, SweepAbove);
      if v.suppressed then Outcome(sent, None)
      else Outcome(v.sent, Some(AdminAlert(Canceled, Key(body), "")))
  }

  class Rule {
    const sent: Ledger

    predicate Valid() { sent.sweepAbove == SweepAbove }

    constructor ()
      ensures Valid() && sent.sent == map[] && fresh(sent)
    {
      sent := new Ledger(SweepAbove);
    }

    /** `recordCanceledRule({ body })` */
    method Handle(body: JsVal, adminChatId: string, now: int) returns (alert: Option<AdminAlert>)
      requires Valid()
      modifies sent
      ensures Outcome(sent.sent, alert) == OnEvent(old(sent.sent), body, adminChatId, now)
    {
      alert := None;
      if adminChatId == "" || !IsRecord(body) || !IsCanceledEvent(body) {
        return;
      }
      var key := Key(body);
      var suppressed := sent.WasSentRecently(key, now, Ttl);
      if suppressed {
        return;
      }
      alert := Some(AdminAlert(Canceled, key, ""));
    }
  }

  /** A cancellation is attempted exactly when its key has no live stamp,
      and an attempt stamps the key with the time of the event. */
  lemma CancelAlertsUnlessRecent(sent: map<string, int>, body: JsVal, adminChatId: string, now: int)
    requires adminChatId != "" && IsRecord(body) && IsCanceledEvent(body)
    ensures var r := OnEvent(sent, body, adminChatId, now);
      && (r.alert.Some? <==> !Recent(sent, Key(body), now, Ttl))
      && (r.alert.Some? ==> Key(body) in r.sent && r.sent[Key(body)] == now)
      && (r.alert.None? ==> r.sent == sent)
  {
    CheckAndSetSpec(sent, Key(body), now, Ttl, SweepAbove);
  }

  /** At most one attempt per key in 30 minutes: after an attempt at `now`,
      any cancellation with the same key within the window, delivered or
      not, is suppressed. */
  lemma OneAttemptPerWindow(sent: map<string, int>, b1: JsVal, b2: JsVal, adminChatId: string, now: int, later: int)
    requires now > 0 && now <= later < now + Ttl && Key(b1) == Key(b2)
    requires OnEvent(sent, b1, adminChatId, now).alert.Some?
    ensures OnEvent(OnEvent(sent, b1, adminChatId, now).sent, b2, adminChatId, later).alert.None?
  {
    CheckAndSetSpec(sent, Key(b1), now, Ttl, SweepAbove);
  }
}
