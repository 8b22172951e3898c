/** The not-linked rule: a record whose client phone has no linked Telegram
    chat raises one debounced admin alert per record and phone in 30
    minutes. The dedup ledger is stamped when the event arrives. */
module NotLinkedRule {
  import opened Wrappers
  import opened Text
  import opened JsValue
  import opened RecordEvent
  import opened Dedup

  const Ttl: int := 30 * 60 * 1000
  const SweepAbove: nat := 5000

  /** `maskPhone(phone)`: blank gives "—", up to seven characters are shown
      as they are, longer phones keep their first five and last three. */
  function MaskPhone(phone: JsVal): (r: string)
    ensures var s := Trim(ToStr(Or(phone, Str(""))));
      && (s == "" ==> r == Dash)
      && (s != "" && |s| <= 7 ==> r == s)
      && (|s| > 7 ==> |r| == 12 && r[..5] == s[..5] && r[5..9] == "****" && r[9..] == s[|s| - 3..])
  {
    var s := Trim(ToStr(Or(phone, Str(""))));
    if s == "" then Dash
    else if |s| <= 7 then s
    else s[..5] + "****" + s[|s| - 3..]
  }

  /** `${baseKey}:${phone}` with the base key preferring `api_id`. */
  function Key(body: JsVal, phone: JsVal): string {
    StableKey("not_linked", body) + ":" + ToStr(phone)
  }

  /** Different phones of one record get different keys, so they are
      deduplicated and debounced independently. */
  lemma PhonesAreIndependent(body: JsVal, p1: JsVal, p2: JsVal)
    requires ToStr(p1) != ToStr(p2)
    ensures Key(body, p1) != Key(body, p2)
  {
    var base := StableKey("not_linked", body) + ":";
    assert Key(body, p1) == base + ToStr(p1) && Key(body, p2) == base + ToStr(p2);
    assert Key(body, p1)[|base|..] == ToStr(p1);
    assert Key(body, p2)[|base|..] == ToStr(p2);
  }

  /** The `pending` entry: the latest body, phone and company. */
  datatype Entry = Entry(lastBody: JsVal, lastPhone: JsVal, lastCompanyId: JsVal)

  datatype RuleState = RuleState(pending: map<string, Entry>, sent: map<string, int>)

  /** `notLinkedRule({ body, phone })` at time `now`. The caller has already
      found that the phone has no linked chat; the rule does not look at the
      resource or status. */
  function OnEvent(s: RuleState, body: JsVal, phone: JsVal, adminChatId: string, now: int): (r: RuleState)
    ensures adminChatId == "" ==> r == s
  {
    if adminChatId == "" then s
    else
      var key := Key(body, phone);
      var v := CheckAndSet(s.sent, key, now, Ttl, SweepAbove);
      if v.suppressed then s
      else RuleState(s.pending[key := Entry(body, phone, CompanyId(body))], v.sent)
  }

  datatype Outcome = Outcome(state: RuleState, alert: Option<AdminAlert>)

  /** The debounce timer for `key`: the entry is removed and, if there was
      one, the alert is attempted with no further check. */
  function OnTimer(s: RuleState, key: string): (r: Outcome)
    ensures r.state == RuleState(s.pending - {key}, s.sent)
    ensures r.alert.Some? <==> key in s.pending
    ensures key in s.pending ==> r.alert.value == AdminAlert(NotLinked, key, MaskPhone(s.pending[key].lastPhone))
  {
    var s1 := s.(pending := s.pending - {key});
    if key !in s.pending then Outcome(s1, None)
    else Outcome(s1, Some(AdminAlert(NotLinked, key, MaskPhone(s.pending[key].lastPhone))))
  }

  class Rule {
    var pending: map<string, Entry>
    const sent: Ledger

    function State(): RuleState
      reads this, sent
    {
      RuleState(pending, sent.sent)
    }

    predicate Valid() { sent.sweepAbove == SweepAbove }

    constructor ()
      ensures Valid() && State() == RuleState(map[], map[]) && fresh(sent)
    {
      pending := map[];
      sent := new Ledger(SweepAbove);
    }

    method Handle(body: JsVal, phone: JsVal, adminChatId: string, now: int)
      requires Valid()
      modifies this, sent
      ensures State() == OnEvent(old(State()), body, phone, adminChatId, now)
    {
      if adminChatId == "" {
        return;
      }
      var key := Key(body, phone);
      var suppressed := sent.WasSentRecently(key, now, Ttl);
      if suppressed {
        return;
      }
      pending := pending[key := Entry(body, phone, CompanyId(body))];
    }

    method Fire(key: string) returns (alert: Option<AdminAlert>)
      modifies this
      ensures Outcome(State(), alert) == OnTimer(old(State()), key)
    {
      alert := None;
      if key !in pending {
        return;
      }
      var entry := pending[key];
      pending := pending - {key};
      alert := Some(AdminAlert(NotLinked, key, MaskPhone(entry.lastPhone)));
    }
  }

  /** An event is let through exactly when its key has no live stamp; then
      it replaces the pending entry of its key (one entry per key) and
      stamps the key, leaving other pending entries alone. */
  lemma ArrivalReplacesEntry(s: RuleState, body: JsVal, phone: JsVal, adminChatId: string, now: int)
    requires adminChatId != ""
    ensures var r := OnEvent(s, body, phone, adminChatId, now);
      var key := Key(body, phone);
      && (Recent(s.sent, key, now, Ttl) ==> r == s)
      && (!Recent(s.sent, key, now, Ttl) ==>
            && r.pending[key] == Entry(body, phone, CompanyId(body))
            && (forall k :: k != key ==> (k in r.pending <==> k in s.pending))
            && key in r.sent && r.sent[key] == now)
  {
    CheckAndSetSpec(s.sent, Key(body, phone), now, Ttl, SweepAbove);
  }

  datatype Event = Arrive(body: JsVal, phone: JsVal, now: int) | Timer(key: string)

  function Step(s: RuleState, e: Event, adminChatId: string): RuleState {
    match e
    case Arrive(body, phone, now) => OnEvent(s, body, phone, adminChatId, now)
    case Timer(key) => OnTimer(s, key).state
  }

  function Run(s: RuleState, events: seq<Event>, adminChatId: string): RuleState
    decreases |events|
  {
    if events == [] then s else Run(Step(s, events[0], adminChatId), events[1..], adminChatId)
  }

  /** Once `key` is stamped at `t0`, every event for that key in the next 30
      minutes changes nothing, even after the timer has fired: the alert is
      not re-armed and the stored body is not replaced. */
  lemma {:induction false} WindowIgnoresRepeats(s: RuleState, events: seq<Event>, key: string, t0: int, adminChatId: string)
    requires key in s.sent && s.sent[key] == t0 && t0 != 0
    requires forall i :: 0 <= i < |events| && events[i].Arrive? ==> t0 <= events[i].now < t0 + Ttl
    ensures var r := Run(s, events, adminChatId); key in r.sent && r.sent[key] == t0
    ensures forall i :: 0 <= i < |events| && events[i].Arrive? && Key(events[i].body, events[i].phone) == key ==>
      Step(Run(s, events[..i], adminChatId), events[i], adminChatId) == Run(s, events[..i], adminChatId)
    decreases |events|
  {
    if events != [] {
      var e := events[0];
      var next := Step(s, e, adminChatId);
      if e.Arrive? && adminChatId != "" {
        CheckAndSetKeepsLive(s.sent, Key(e.body, e.phone), e.now, Ttl, SweepAbove, key);
      }
      assert key in next.sent && next.sent[key] == t0;
      WindowIgnoresRepeats(next, events[1..], key, t0, adminChatId);
      forall i | 0 <= i < |events| && events[i].Arrive? && Key(events[i].body, events[i].phone) == key
        ensures Step(Run(s, events[..i], adminChatId), events[i], adminChatId) == Run(s, events[..i], adminChatId)
      {
        if i > 0 {
          assert events[..i][1..] == events[1..][..i - 1];
          assert events[1..][i - 1] == events[i];
        }
      }
    }
  }
}
