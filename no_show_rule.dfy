/** The no-show rule: an update marking the visit as missed (attendance
    -1) raises one admin alert per key in 12 hours. */
module NoShowRule {
  import opened Wrappers
  import opened JsValue
  import opened RecordEvent
  import opened Dedup

  const Ttl: int := 12 * 60 * 60 * 1000
  const SweepAbove: nat := 10000

  /** `Number(visit_attendance) === -1 || Number(attendance) === -1` */
  predicate IsNoShow(body: JsVal) {
    ToNumber(Get(Data(body), "visit_attendance")) == Num(-1) || ToNumber(Get(Data(body), "attendance")) == Num(-1)
  }

  /** The marker is read through `Number`, so the number -1 and the strings
      "-1" and " -1" all count, and a missing field never does. */
  lemma NoShowMarkers(v: JsVal)
    ensures ToNumber(Num(-1)) == Num(-1)
    ensures ToNumber(Str("-1")) == Num(-1)
    ensures ToNumber(Str(" -1")) == Num(-1)
    ensures ToNumber(Undefined) != Num(-1) && ToNumber(Null) != Num(-1)
  {
    NumberOfIntString(-1);
    assert Text.Trim(" -1") == "-1" by {
      assert Text.TrimStart(" -1") == "-1";
      assert Text.TrimEnd("-1") == "-1";
    }
  }

  function Key(body: JsVal): string { StableKey("no_show", body) }

  /** Only an "update" of a record that is not flagged deleted is looked at. */
  predicate Considered(body: JsVal) {
    IsRecord(body) && Get(body, "status") == Str("update") && !IsDeletedFlag(body)
  }

  datatype Outcome = Outcome(sent: map<string, int>, alert: Option<AdminAlert>)

  /** The rule applied to one webhook `body` at time `now`; the send is
      inside `try`, so its failure never propagates and changes nothing. */
  function OnEvent(sent: map<string, int>, body: JsVal, adminChatId: string, now: int): (r: Outcome)
    ensures adminChatId == "" || !Considered(body) || !IsNoShow(body) ==> r == Outcome(sent, None)
    ensures r.alert.Some? ==> r.alert.value == AdminAlert(NoShow, Key(body), "")
  {
    if adminChatId == "" || !Considered(body) || !IsNoShow(body) then Outcome(sent, None)
    else
      var v := CheckAndSet(sent, Key(body), now, Ttl, SweepAbove);
      if v.suppressed then Outcome(sent, None)
      else Outcome(v.sent, Some(AdminAlert(NoShow, Key(body), "")))
  }

  class Rule {
    const sent: Ledger

    predicate Valid() { sent.sweepAbove == SweepAbove }

    constructor ()
      ensures Valid() && sent.sent == map[] && fresh(sent)
    {
      sent := new Ledger(SweepAbove);
    }

    /** `noShowRule({ body })` */
    method Handle(body: JsVal, adminChatId: string, now: int) returns (alert: Option<AdminAlert>)
      requires Valid()
      modifies sent
      ensures Outcome(sent.sent, alert) == OnEvent(old(sent.sent), body, adminChatId, now)
    {
      alert := None;
      if adminChatId == "" || !IsRecord(body) || Get(body, "status") != Str("update") {
        return;
      }
      if IsDeletedFlag(body) {
        return;
      }
      var vAtt := ToNumber(Get(Data(body), "visit_attendance"));
      var att := ToNumber(Get(Data(body), "attendance"));
      if !(vAtt == Num(-1) || att == Num(-1)) {
        return;
      }
      var key := Key(body);
      var suppressed := sent.WasSentRecently(key, now, Ttl);
      if suppressed {
        return;
      }
      alert := Some(AdminAlert(NoShow, key, ""));
    }
  }

  /** A record flagged deleted, or any status other than "update", never
      raises a no-show alert, whatever its attendance. */
  lemma DeletedNeverAlerts(sent: map<string, int>, body: JsVal, adminChatId: string, now: int)
    requires IsDeletedFlag(body) || Get(body, "status") != Str("update")
    ensures OnEvent(sent, body, adminChatId, now).alert.None?
  {
  }

  /** At most one attempt per key in 12 hours: after an attempt at `now`,
      a no-show with the same key within the window is suppressed. */
  lemma OneAttemptPerWindow(sent: map<string, int>, b1: JsVal, b2: JsVal, adminChatId: string, now: int, later: int)
    requires now > 0 && now <= later < now + Ttl && Key(b1) == Key(b2)
    requires OnEvent(sent, b1, adminChatId, now).alert.Some?
    ensures OnEvent(OnEvent(sent, b1, adminChatId, now).sent, b2, adminChatId, later).alert.None?
  {
    CheckAndSetSpec(sent, Key(b1), now, Ttl, SweepAbove);
  }
}
