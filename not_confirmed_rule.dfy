/** The not-confirmed rule: an unconfirmed record raises one debounced
    admin alert per key in 30 minutes; confirming the record cancels the
    pending alert. The dedup ledger is stamped when the event arrives, before
    the timer is set. */
module NotConfirmedRule {
  import opened Wrappers
  import opened JsValue
  import opened RecordEvent
  import opened Dedup

  const Ttl: int := 30 * 60 * 1000
  const SweepAbove: nat := 5000

  /** `isConfirmed(value)`: only `1`, `true` and `"1"` count. */
  predicate IsConfirmed(v: JsVal) { v == Num(1) || v == Bool(true) || v == Str("1") }

  /** Every confirmed value reads as the number 1, but not every value
      reading as 1 counts: `"01"`, `" 1"` and `[1]` stay unconfirmed. */
  lemma IsConfirmedIsStrict(v: JsVal)
    ensures IsConfirmed(v) ==> ToNumber(v) == Num(1)
    ensures !IsConfirmed(Str("01")) && ToNumber(Str("01")) == Num(1)
    ensures !IsConfirmed(Num(0)) && !IsConfirmed(Str("true")) && !IsConfirmed(Null)
  {
    NumberOfIntString(1);
    assert ToNumber(Str("01")) == Num(1) by {
      assert Text.Trim("01") == "01";
      assert Text.ParseNat("01") == Text.ParseNat("0") * 10 + 1;
    }
  }

  function Confirmed(body: JsVal): JsVal { Get(Data(body), "confirmed") }

  function Key(body: JsVal): string { StableKey("not_confirmed", body) }

  datatype RuleState = RuleState(pending: map<string, JsVal>, sent: map<string, int>)

  /** The rule applied to one webhook `body` at time `now`. */
  function OnEvent(s: RuleState, body: JsVal, adminChatId: string, now: int): (r: RuleState)
    ensures adminChatId == "" || !IsRecord(body) || !IsCreateOrUpdate(body) ==> r == s
  {
    if adminChatId == "" || !IsRecord(body) || !IsCreateOrUpdate(body) then s
    else
      var key := Key(body);
      if IsConfirmed(Confirmed(body)) then s.(pending := s.pending - {key})
      else
        var v := CheckAndSet(s.sent, key, now, Ttl, SweepAbove);
        if v.suppressed then s
        else RuleState(s.pending[key := body], v.sent)
  }

  datatype Outcome = Outcome(state: RuleState, alert: Option<AdminAlert>)

  /** The debounce timer for `key`: the entry is removed, and the alert is
      attempted unless the stored body has become confirmed. The send is
      inside `try`, so its outcome changes nothing. */
  function OnTimer(s: RuleState, key: string): (r: Outcome)
    ensures key !in r.state.pending && r.state.sent == s.sent
    ensures r.state.pending == s.pending - {key}
    ensures r.alert.Some? <==> key in s.pending && !IsConfirmed(Confirmed(s.pending[key]))
    ensures r.alert.Some? ==> r.alert.value == AdminAlert(NotConfirmed, key, "")
  {
    var s1 := s.(pending := s.pending - {key});
    if key !in s.pending || IsConfirmed(Confirmed(s.pending[key])) then Outcome(s1, None)
    else Outcome(s1, Some(AdminAlert(NotConfirmed, key, "")))
  }

  class Rule {
    var pending: map<string, JsVal>
    const sent: Ledger

    function State(): RuleState
      reads this, sent
    {
      RuleState(pending, sent.sent)
    }

    predicate Valid() { sent.sweepAbove == SweepAbove }

    constructor ()
      ensures Valid() && State() == RuleState(map[], map[])
      ensures fresh(sent)
    {
      pending := map[];
      sent := new Ledger(SweepAbove);
    }

    /** `notConfirmedRule({ body })` */
    method Handle(body: JsVal, adminChatId: string, now: int)
      requires Valid()
      modifies this, sent
      ensures State() == OnEvent(old(State()), body, adminChatId, now)
    {
      if adminChatId == "" || !IsRecord(body) || !IsCreateOrUpdate(body) {
        return;
      }
      var key := Key(body);
      if IsConfirmed(Confirmed(body)) {
        pending := pending - {key};
        return;
      }
      var suppressed := sent.WasSentRecently(key, now, Ttl);
      if suppressed {
        return;
      }
      pending := pending[key := body];
    }

    /** The body of the debounce timer for `key`. */
    method Fire(key: string) returns (alert: Option<AdminAlert>)
      modifies this
      ensures Outcome(State(), alert) == OnTimer(old(State()), key)
    {
      alert := None;
      if key !in pending {
        return;
      }
      var latest := pending[key];
      pending := pending - {key};
      if IsConfirmed(Confirmed(latest)) {
        return;
      }
      alert := Some(AdminAlert(NotConfirmed, key, ""));
    }
  }

  /** A confirmed create/update event drops the pending entry of its key and
      touches neither the other entries nor the dedup ledger. */
  lemma ConfirmedClearsPending(s: RuleState, body: JsVal, adminChatId: string, now: int)
    requires adminChatId != "" && IsRecord(body) && IsCreateOrUpdate(body) && IsConfirmed(Confirmed(body))
    ensures OnEvent(s, body, adminChatId, now) == RuleState(s.pending - {Key(body)}, s.sent)
  {
  }

  /** An unconfirmed event is let through exactly when the ledger does not
      hold a live stamp for its key; then it is stamped and its body is the
      one the timer will read. */
  lemma UnconfirmedSchedules(s: RuleState, body: JsVal, adminChatId: string, now: int)
    requires adminChatId != "" && IsRecord(body) && IsCreateOrUpdate(body) && !IsConfirmed(Confirmed(body))
    ensures var r := OnEvent(s, body, adminChatId, now);
      && (Recent(s.sent, Key(body), now, Ttl) ==> r == s)
      && (!Recent(s.sent, Key(body), now, Ttl) ==>
            r.pending == s.pending[Key(body) := body] && Key(body) in r.sent && r.sent[Key(body)] == now)
  {
    CheckAndSetSpec(s.sent, Key(body), now, Ttl, SweepAbove);
  }

  datatype Event = Arrive(body: JsVal, now: int) | Timer(key: string)

  function Step(s: RuleState, e: Event, adminChatId: string): RuleState {
    match e
    case Arrive(body, now) => OnEvent(s, body, adminChatId, now)
    case Timer(key) => OnTimer(s, key).state
  }

  function Run(s: RuleState, events: seq<Event>, adminChatId: string): RuleState
    decreases |events|
  {
    if events == [] then s else Run(Step(s, events[0], adminChatId), events[1..], adminChatId)
  }

  /** An unconfirmed create/update record event for `key`. */
  predicate Unconfirmed(e: Event, key: string, adminChatId: string) {
    e.Arrive? && adminChatId != "" && IsRecord(e.body) && IsCreateOrUpdate(e.body)
    && !IsConfirmed(Confirmed(e.body)) && Key(e.body) == key
  }

  /** Once `key` is stamped at `t0`, for the 30 minutes after it every
      further unconfirmed event for `key` changes nothing: it neither
      re-arms the timer nor replaces the stored body, whatever other events
      and timers come in between. */
  lemma {:induction false} WindowIgnoresRepeats(s: RuleState, events: seq<Event>, key: string, t0: int, adminChatId: string)
    requires key in s.sent && s.sent[key] == t0 && t0 != 0
    requires forall i :: 0 <= i < |events| && events[i].Arrive? ==> t0 <= events[i].now < t0 + Ttl
    ensures var r := Run(s, events, adminChatId); key in r.sent && r.sent[key] == t0
    ensures forall i :: 0 <= i < |events| && Unconfirmed(events[i], key, adminChatId) ==>
      Step(Run(s, events[..i], adminChatId), events[i], adminChatId) == Run(s, events[..i], adminChatId)
    decreases |events|
  {
    if events != [] {
      var e := events[0];
      var next := Step(s, e, adminChatId);
      if e.Arrive? && adminChatId != "" && IsRecord(e.body) && IsCreateOrUpdate(e.body) && !IsConfirmed(Confirmed(e.body)) {
        CheckAndSetKeepsLive(s.sent, Key(e.body), e.now, Ttl, SweepAbove, key);
      }
      assert key in next.sent && next.sent[key] == t0;
      WindowIgnoresRepeats(next, events[1..], key, t0, adminChatId);
      forall i | 0 <= i < |events| && Unconfirmed(events[i], key, adminChatId)
        ensures Step(Run(s, events[..i], adminChatId), events[i], adminChatId) == Run(s, events[..i], adminChatId)
      {
        if i > 0 {
          assert events[..i][1..] == events[1..][..i - 1];
          assert events[1..][i - 1] == events[i];
        }
      }
    }
  }
}
