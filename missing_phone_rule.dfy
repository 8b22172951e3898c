/** The missing-phone rule: a record saved without a client phone raises one
    debounced admin alert and opens an issue; when a phone appears while the
    issue is open, a "phone added" alert is sent once and the issue closes. */
module MissingPhoneRule {
  import opened Wrappers
  import opened JsValue
  import opened RecordEvent
  import opened Dedup

  /** The anti-spam window of the "phone added" alert: 30 minutes. */
  const ResolvedTtl: int := 30 * 60 * 1000
  const SweepAbove: nat := 5000

  /** `openIssues` entry: when the alert was delivered, and for which record. */
  datatype Issue = Issue(openedAt: int, recordId: JsVal)

  /** The three module-level maps: debounced bodies, open issues and the
      "phone added" dedup ledger. */
  datatype RuleState = RuleState(pending: map<string, JsVal>, openIssues: map<string, Issue>, resolvedSent: map<string, int>)

  /** The new state, the alert attempted, and whether the rule threw: a
      throw ends the webhook handler, which has no `try` around the rules. */
  datatype Outcome = Outcome(state: RuleState, alert: Option<AdminAlert>, aborted: bool)

  function Key(body: JsVal): string { RecordKey("missing_phone", body) }

  /** `comment?.trim()` throws a TypeError when the record's comment is
      neither null, undefined nor a string: only strings have `trim`. */
  predicate CommentThrows(body: JsVal) {
    var c := Get(Data(body), "comment");
    !IsNullish(c) && !c.Str?
  }

  /** The rule applied to one webhook `body` at time `now`. The "phone
      added" send is inside `try … finally`, so its outcome changes nothing;
      but the message is built before the `try`, so a comment that throws
      leaves the issue open, with the ledger already stamped. */
  function OnEvent(s: RuleState, body: JsVal, adminChatId: string, now: int): (r: Outcome)
    ensures adminChatId == "" || !IsRecord(body) || !IsCreateOrUpdate(body) ==> r == Outcome(s, None, false)
    ensures r.aborted ==> r.alert.None?
  {
    if adminChatId == "" || !IsRecord(body) || !IsCreateOrUpdate(body) then Outcome(s, None, false)
    else
      var key := Key(body);
      if !IsEmpty(ClientPhone(body)) then
        var pending := s.pending - {key};
        if key !in s.openIssues then Outcome(s.(pending := pending), None, false)
        else
          var v := CheckAndSet(s.resolvedSent, "resolved:" + key, now, ResolvedTtl, SweepAbove);
          var closed := RuleState(pending, s.openIssues - {key}, v.sent);
          if v.suppressed then Outcome(closed, None, false)
          else if CommentThrows(body) then Outcome(RuleState(pending, s.openIssues, v.sent), None, true)
          else Outcome(closed, Some(AdminAlert(PhoneAdded, key, "")), false)
      else
        Outcome(s.(pending := s.pending[key := body]), None, false)
  }

  /** The debounce timer for `key` firing; `delivered` says whether the
      Telegram send succeeded. The whole body is inside `try`, so a comment
      that throws only ends this timer, with nothing sent. */
  function OnTimer(s: RuleState, key: string, now: int, delivered: bool): (r: Outcome)
    ensures key !in r.state.pending
    ensures r.state.resolvedSent == s.resolvedSent
    ensures !r.aborted
    ensures key !in s.pending ==> r == Outcome(s, None, false)
  {
    if key !in s.pending then Outcome(s, None, false)
    else
      var latest := s.pending[key];
      var s1 := s.(pending := s.pending - {key});
      if !IsEmpty(ClientPhone(latest)) || key in s.openIssues || CommentThrows(latest) then Outcome(s1, None, false)
      else
        var issues := if delivered then s1.openIssues[key := Issue(now, RecordId(latest))] else s1.openIssues;
        Outcome(s1.(openIssues := issues), Some(AdminAlert(NoPhone, key, "")), false)
  }

  class Rule {
    var pending: map<string, JsVal>
    var openIssues: map<string, Issue>
    const resolvedSent: Ledger

    function State(): RuleState
      reads this, resolvedSent
    {
      RuleState(pending, openIssues, resolvedSent.sent)
    }

    predicate Valid() { resolvedSent.sweepAbove == SweepAbove }

    constructor ()
      ensures Valid() && State() == RuleState(map[], map[], map[])
      ensures fresh(resolvedSent)
    {
      pending := map[];
      openIssues := map[];
      resolvedSent := new Ledger(SweepAbove);
    }

    /** `missingPhoneRule({ body })` */
    method Handle(body: JsVal, adminChatId: string, now: int) returns (alert: Option<AdminAlert>, aborted: bool)
      requires Valid()
      modifies this, resolvedSent
      ensures Outcome(State(), alert, aborted) == OnEvent(old(State()), body, adminChatId, now)
    {
      alert := None;
      aborted := false;
      if adminChatId == "" || !IsRecord(body) || !IsCreateOrUpdate(body) {
        return;
      }
      var key := Key(body);
      if !IsEmpty(ClientPhone(body)) {
        pending := pending - {key};
        if key in openIssues {
          var suppressed := resolvedSent.WasSentRecently("resolved:" + key, now, ResolvedTtl);
          if !suppressed {
            if CommentThrows(body) {
              aborted := true;
              return;
            }
            alert := Some(AdminAlert(PhoneAdded, key, ""));
          }
          openIssues := openIssues - {key};
        }
        return;
      }
      pending := pending[key := body];
    }

    /** The body of the debounce timer for `key`. */
    method Fire(key: string, now: int, delivered: bool) returns (alert: Option<AdminAlert>)
      requires Valid()
      modifies this
      ensures Outcome(State(), alert, false) == OnTimer(old(State()), key, now, delivered)
    {
      alert := None;
      if key !in pending {
        return;
      }
      var latest := pending[key];
      pending := pending - {key};
      if !IsEmpty(ClientPhone(latest)) || key in openIssues || CommentThrows(latest) {
        return;
      }
      alert := Some(AdminAlert(NoPhone, key, ""));
      if delivered {
        openIssues := openIssues[key := Issue(now, RecordId(latest))];
      }
    }
  }

  /** A create/update event with a phone removes the pending entry of its
      key (and only that one). With an open issue, the "phone added" ledger
      is stamped and the issue closes, whether the alert is suppressed or
      attempted, except when the comment throws while the message is built:
      then nothing is sent, the issue stays open and the handler aborts.
      With no open issue nothing is sent and no issue changes. */
  lemma PhoneResolves(s: RuleState, body: JsVal, adminChatId: string, now: int)
    requires adminChatId != "" && IsRecord(body) && IsCreateOrUpdate(body) && !IsEmpty(ClientPhone(body))
    ensures var r := OnEvent(s, body, adminChatId, now);
      var key := Key(body);
      var unsuppressed := key in s.openIssues && !Recent(s.resolvedSent, "resolved:" + key, now, ResolvedTtl);
      && r.state.pending == s.pending - {key}
      && (r.aborted <==> unsuppressed && CommentThrows(body))
      && r.state.openIssues == (if r.aborted then s.openIssues else s.openIssues - {key})
      && r.state.resolvedSent
         == (if key in s.openIssues then CheckAndSet(s.resolvedSent, "resolved:" + key, now, ResolvedTtl, SweepAbove).sent
             else s.resolvedSent)
      && (r.alert.Some? <==> unsuppressed && !CommentThrows(body))
      && (r.alert.Some? ==> r.alert.value == AdminAlert(PhoneAdded, key, ""))
  {
    var key := Key(body);
    var r := OnEvent(s, body, adminChatId, now);
    if key in s.openIssues {
      var v := CheckAndSet(s.resolvedSent, "resolved:" + key, now, ResolvedTtl, SweepAbove);
      assert v.suppressed == Recent(s.resolvedSent, "resolved:" + key, now, ResolvedTtl);
      if v.suppressed || !CommentThrows(body) {
        assert r.state == RuleState(s.pending - {key}, s.openIssues - {key}, v.sent);
      } else {
        assert r.state == RuleState(s.pending - {key}, s.openIssues, v.sent);
      }
    } else {
      assert r.state.openIssues == s.openIssues;
    }
  }

  /** An event without a phone only stores the body as the latest for its
      key: the alert waits for the timer, and issues and the ledger stay. */
  lemma NoPhoneDebounces(s: RuleState, body: JsVal, adminChatId: string, now: int)
    requires adminChatId != "" && IsRecord(body) && IsCreateOrUpdate(body) && IsEmpty(ClientPhone(body))
    ensures var r := OnEvent(s, body, adminChatId, now);
      && r.alert == None
      && r.state.pending == s.pending[Key(body) := body]
      && r.state.openIssues == s.openIssues && r.state.resolvedSent == s.resolvedSent
  {
  }

  /** The timer alerts exactly when a body is pending, its phone is still
      empty, no issue is open and its comment does not throw; the issue is
      opened only when that alert is delivered, and no other issue changes. */
  lemma TimerAlertsOnce(s: RuleState, key: string, now: int, delivered: bool)
    ensures var r := OnTimer(s, key, now, delivered);
      && (r.alert.Some? <==> key in s.pending && IsEmpty(ClientPhone(s.pending[key])) && key !in s.openIssues
                             && !CommentThrows(s.pending[key]))
      && (key in r.state.openIssues <==> key in s.openIssues || (r.alert.Some? && delivered))
      && (forall k :: k != key ==> (k in r.state.openIssues <==> k in s.openIssues))
  {
  }

  /** What reaches the rule: a webhook body at a time, or the timer of a key. */
  datatype Event = Arrive(body: JsVal, now: int) | Timer(key: string, now: int, delivered: bool)

  function Step(s: RuleState, e: Event, adminChatId: string): Outcome {
    match e
    case Arrive(body, now) => OnEvent(s, body, adminChatId, now)
    case Timer(key, now, delivered) => OnTimer(s, key, now, delivered)
  }

  function Run(s: RuleState, events: seq<Event>, adminChatId: string): RuleState
    decreases |events|
  {
    if events == [] then s else Run(Step(s, events[0], adminChatId).state, events[1..], adminChatId)
  }

  /** An event that would close the issue of `key`: a create/update record
      event for that key carrying a phone. */
  predicate Resolves(e: Event, key: string) {
    e.Arrive? && IsRecord(e.body) && IsCreateOrUpdate(e.body) && Key(e.body) == key && !IsEmpty(ClientPhone(e.body))
  }

  /** While an issue is open, no further "no phone" alert is raised for its
      key, however many events and timers follow, until an event with a
      phone for that record arrives. */
  lemma {:induction false} OpenIssueSilences(s: RuleState, events: seq<Event>, key: string, adminChatId: string)
    requires key in s.openIssues
    requires forall i :: 0 <= i < |events| ==> !Resolves(events[i], key)
    ensures key in Run(s, events, adminChatId).openIssues
    ensures forall i :: 0 <= i < |events| && events[i].Timer? && events[i].key == key ==>
      Step(Run(s, events[..i], adminChatId), events[i], adminChatId).alert == None
    decreases |events|
  {
    if events != [] {
      var next := Step(s, events[0], adminChatId).state;
      assert !Resolves(events[0], key);
      StepKeepsIssue(s, events[0], key, adminChatId);
      OpenIssueSilences(next, events[1..], key, adminChatId);
      forall i | 0 <= i < |events| && events[i].Timer? && events[i].key == key
        ensures Step(Run(s, events[..i], adminChatId), events[i], adminChatId).alert == None
      {
        if i > 0 {
          assert events[..i][0] == events[0];
          assert events[..i][1..] == events[1..][..i - 1];
          assert Run(s, events[..i], adminChatId) == Run(next, events[1..][..i - 1], adminChatId);
          assert events[1..][i - 1] == events[i];
        }
      }
    }
  }

  /** One event that does not resolve `key` keeps its issue open, and a
      timer for `key` raises no alert. */
  lemma StepKeepsIssue(s: RuleState, e: Event, key: string, adminChatId: string)
    requires key in s.openIssues && !Resolves(e, key)
    ensures key in Step(s, e, adminChatId).state.openIssues
    ensures e.Timer? && e.key == key ==> Step(s, e, adminChatId).alert == None
  {
  }
}
