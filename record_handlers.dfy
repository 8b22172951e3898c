/** `handleRecordEvent`: the dispatcher for YCLIENTS `record` webhooks. The
    four admin rules run on every record event; client notifications run
    only for a well-formed payload whose client phone is linked to a
    Telegram chat, and an unlinked phone raises the "not linked" signal. */
module RecordHandlers {
  import opened Wrappers
  import opened Text
  import opened JsValue
  import opened RecordEvent
  import ClientsLinkRepo
  import Phone
  import MissingPhoneRule
  import NotConfirmedRule
  import RecordCanceledRule
  import NoShowRule
  import NotLinkedRule
  import RecordClientNotify
  import Dedup

  // ---------------------------------------------------------------------------
  // Links offered to the client

  /** `buildRecordLink(body)`: the record's short link, else its link, else a
      link built from the company and record ids, else `null`. */
  function BuildRecordLink(body: JsVal): (r: JsVal)
    ensures r == Null || Truthy(r)
    ensures Truthy(Get(Data(body), "short_link")) ==> r == Get(Data(body), "short_link")
    ensures r == Null <==>
      (&& !Truthy(Get(Data(body), "short_link")) && !Truthy(Get(Data(body), "link"))
       && !(Truthy(CompanyId(body)) && Truthy(Get(body, "resource_id"))))
  {
    Or(Get(Data(body), "short_link"),
      Or(Get(Data(body), "link"),
        if Truthy(CompanyId(body)) && Truthy(Get(body, "resource_id"))
        then Str(RecordUrl(ToStr(CompanyId(body)), ToStr(Get(body, "resource_id"))))
        else Null))
  }

  /** The built record link takes its path apart into the company id and the
      record id it was made from. */
  lemma RecordLinkNamesRecord(body: JsVal)
    requires !Truthy(Get(Data(body), "short_link")) && !Truthy(Get(Data(body), "link"))
    requires Truthy(CompanyId(body)) && Truthy(Get(body, "resource_id"))
    requires '/' !in ToStr(CompanyId(body)) && '/' !in ToStr(Get(body, "resource_id"))
    ensures BuildRecordLink(body).Str?
    ensures SplitOn(BuildRecordLink(body).s, '/')
         == ["https:", "", "yclients.com", "record", ToStr(CompanyId(body)), ToStr(Get(body, "resource_id"))]
  {
    RecordUrlParts(ToStr(CompanyId(body)), ToStr(Get(body, "resource_id")));
  }

  /** `https://yclients.com/record/${companyId}/${recordId}`, written as
      its six `/`-separated pieces. */
  function RecordUrl(company: string, recordId: string): string {
    Join(["https:", "", "yclients.com", "record", company, recordId], "/")
  }

  lemma RecordUrlParts(c: string, rid: string)
    requires '/' !in c && '/' !in rid
    ensures SplitOn(RecordUrl(c, rid), '/') == ["https:", "", "yclients.com", "record", c, rid]
  {
    SplitOnJoin(["https:", "", "yclients.com", "record", c, rid], '/');
  }

  /** `https://n${widgetId}.yclients.com/company/${companyId}/select-master/master-info/${companyId}/${staffId}`,
      written as its nine `/`-separated pieces. */
  function StaffUrl(widget: string, company: string, staff: string): string {
    Join(["https:", "", "n" + widget + ".yclients.com", "company", company,
          "select-master", "master-info", company, staff], "/")
  }

  lemma StaffUrlParts(widget: string, c: string, st: string)
    requires '/' !in widget && '/' !in c && '/' !in st
    ensures SplitOn(StaffUrl(widget, c, st), '/')
         == ["https:", "", "n" + widget + ".yclients.com", "company", c, "select-master", "master-info", c, st]
  {
    var host := "n" + widget + ".yclients.com";
    assert '/' !in host by {
      forall i | 0 <= i < |host| ensures host[i] != '/' {
        if 1 <= i < 1 + |widget| { assert host[i] == widget[i - 1]; }
      }
    }
    SplitOnJoin(["https:", "", host, "company", c, "select-master", "master-info", c, st], '/');
  }

  /** `buildStaffReviewLink({ widgetId, companyId, staffId })`: the staff
      member's page in the booking widget, or `null` when any part is missing. */
  function BuildStaffReviewLink(widgetId: JsVal, companyId: JsVal, staffId: JsVal): (r: JsVal)
    ensures r == Null <==> !Truthy(widgetId) || !Truthy(companyId) || !Truthy(staffId)
    ensures r != Null ==> r.Str?
  {
    if !Truthy(widgetId) || !Truthy(companyId) || !Truthy(staffId) then Null
    else
      Str(StaffUrl(ToStr(widgetId), ToStr(companyId), ToStr(staffId)))
  }

  /** The review link's path names the company twice and ends with the staff id. */
  lemma StaffReviewLinkNamesStaff(widget: string, company: int, staff: int)
    requires widget != "" && '/' !in widget && company != 0 && staff != 0
    ensures var r := BuildStaffReviewLink(Str(widget), Num(company), Num(staff));
      && r.Str?
      && SplitOn(r.s, '/') == ["https:", "", "n" + widget + ".yclients.com", "company", IntToString(company),
                               "select-master", "master-info", IntToString(company), IntToString(staff)]
  {
    IntToStringShape(company);
    IntToStringShape(staff);
    StaffUrlParts(widget, IntToString(company), IntToString(staff));
  }

  /** `extractStaffId(data)`: `data.staff.id`, else the first staff id of a
      composite record, else `null`. */
  function ExtractStaffId(data: JsVal): (r: JsVal)
    ensures r == Null || Truthy(r)
    ensures Truthy(Get(Get(data, "staff"), "id")) ==> r == Get(Get(data, "staff"), "id")
    ensures !Truthy(Get(Get(data, "staff"), "id")) ==>
      r == (if Truthy(Get(At(Get(Get(data, "composite"), "staff"), 0), "id"))
            then Get(At(Get(Get(data, "composite"), "staff"), 0), "id") else Null)
  {
    Or(Get(Get(data, "staff"), "id"), Or(Get(At(Get(Get(data, "composite"), "staff"), 0), "id"), Null))
  }

  /** `pickReviewLink({ body, fallbackStaffReviewLink })`: the webhook's own
      review link wins over the generated one. */
  function PickReviewLink(body: JsVal, fallback: JsVal): (r: JsVal)
    ensures r == Null || Truthy(r)
    ensures Truthy(Get(Data(body), "review_link")) ==> r == Get(Data(body), "review_link")
    ensures !Truthy(Get(Data(body), "review_link")) && Truthy(fallback) ==> r == fallback
    ensures r == Null <==> !Truthy(Get(Data(body), "review_link")) && !Truthy(fallback)
  {
    Or(Get(Data(body), "review_link"), Or(fallback, Null))
  }

  /** The review link the handler passes on: the webhook's link, else the
      staff page built from the widget id, `Number(company_id)` and the
      staff id (as a number when present). */
  function ReviewLinkFor(body: JsVal, widgetId: JsVal): JsVal {
    var staffId := ExtractStaffId(Data(body));
    PickReviewLink(body, BuildStaffReviewLink(widgetId, ToNumber(CompanyId(body)),
                                              if Truthy(staffId) then ToNumber(staffId) else Null))
  }

  /** Without a review link in the webhook, the client gets the staff page
      exactly when the widget id, the company and the staff id are all set. */
  lemma ReviewLinkFallsBackToStaffPage(body: JsVal, widget: string, company: int, staff: int)
    requires !Truthy(Get(Data(body), "review_link"))
    requires ToNumber(CompanyId(body)) == Num(company)
    requires ExtractStaffId(Data(body)) == Num(staff)
    ensures ReviewLinkFor(body, Str(widget)) == BuildStaffReviewLink(Str(widget), Num(company), Num(staff))
    ensures ReviewLinkFor(body, Str(widget)).Str? <==> widget != "" && company != 0 && staff != 0
  {
  }

  // ---------------------------------------------------------------------------
  // Routing

  /** Where `handleRecordEvent` ends up for one webhook body. */
  datatype Route =
    | NotRecord                                    // not a `record` resource: nothing runs
    | RuleThrew                                    // the missing-phone rule threw; the handler rejects there
    | BadPayload                                   // admin rules only: company, record id or data missing
    | PhoneMissing                                 // admin rules only: nowhere to write to
    | LookupFailed(error: ClientsLinkRepo.RepoError) // the chat lookup throws; the handler rejects
    | Unlinked                                     // admin rules and the "not linked" rule
    | Notify(chatId: string)                       // admin rules and the client notifications

  /** `getLinkedChatByPhone({ companyId: Number(company_id), phone })` */
  function ChatLookup(body: JsVal, rows: seq<ClientsLinkRepo.LinkRow>): ClientsLinkRepo.Result<Option<string>> {
    ClientsLinkRepo.LinkedChatByPhone(rows, ToNumber(CompanyId(body)), ClientPhone(body))
  }

  /** Where a record event goes after the admin rules, by the payload
      checks, the phone and the chat lookup. */
  function RouteOf(body: JsVal, rows: seq<ClientsLinkRepo.LinkRow>): (r: Route)
    ensures r == NotRecord <==> !IsRecord(body)
    ensures r != RuleThrew
    ensures r.Unlinked? || r.Notify? || r.LookupFailed? ==> Truthy(ClientPhone(body)) && Truthy(CompanyId(body))
    ensures r.Notify? ==> r.chatId != ""
  {
    if !IsRecord(body) then NotRecord
    else if !Truthy(CompanyId(body)) || !Truthy(Get(body, "resource_id")) || !Truthy(Data(body)) then BadPayload
    else if !Truthy(ClientPhone(body)) then PhoneMissing
    else
      var chat := ChatLookup(body, rows);
      if chat.Err? then LookupFailed(chat.error)
      else if chat.value.None? || chat.value.value == "" then Unlinked
      else Notify(chat.value.value)
  }

  /** Client notifications go only to the chat of a linked row for the
      record's company and the client's normalised phone, and to the most
      recently updated such row. */
  lemma NotifyOnlyLinkedChat(body: JsVal, rows: seq<ClientsLinkRepo.LinkRow>, chat: string)
    requires RouteOf(body, rows) == Notify(chat)
    ensures ClientsLinkRepo.Company(ToNumber(CompanyId(body))).Some?
    ensures Phone.NormalizePhone(ClientPhone(body)).Some?
    ensures var company := ClientsLinkRepo.Company(ToNumber(CompanyId(body))).value;
      var p := Phone.NormalizePhone(ClientPhone(body)).value;
      exists i :: 0 <= i < |rows| && ClientsLinkRepo.LinkedMatch(rows[i], company, p) && rows[i].tgChat == chat
        && forall j :: 0 <= j < |rows| && ClientsLinkRepo.LinkedMatch(rows[j], company, p) ==>
             ClientsLinkRepo.NotAfter(rows[j], rows[i])
  {
    ClientsLinkRepo.LinkedChatIsLatest(rows, ToNumber(CompanyId(body)), ClientPhone(body));
  }

  /** A well-formed record event with a phone and a valid company is routed
      to the "not linked" rule exactly when no linked row carries a chat for
      that company and phone. */
  lemma UnlinkedIffNoLinkedRow(body: JsVal, rows: seq<ClientsLinkRepo.LinkRow>)
    requires IsRecord(body) && Truthy(CompanyId(body)) && Truthy(Get(body, "resource_id")) && Truthy(Data(body))
    requires Truthy(ClientPhone(body)) && ClientsLinkRepo.Company(ToNumber(CompanyId(body))).Some?
    requires forall j :: 0 <= j < |rows| ==> rows[j].tgChat != ""
    ensures var company := ClientsLinkRepo.Company(ToNumber(CompanyId(body))).value;
      var p := Phone.NormalizePhone(ClientPhone(body)).value;
      RouteOf(body, rows) == Unlinked <==> forall j :: 0 <= j < |rows| ==> !ClientsLinkRepo.LinkedMatch(rows[j], company, p)
    ensures RouteOf(body, rows).Unlinked? || RouteOf(body, rows).Notify?
  {
    ClientsLinkRepo.LinkedChatIsLatest(rows, ToNumber(CompanyId(body)), ClientPhone(body));
  }

  /** Only a company id that `Number` cannot read as a non-zero integer makes
      the lookup throw; a missing phone or a bad payload stops earlier. */
  lemma LookupFailsOnlyOnBadCompany(body: JsVal, rows: seq<ClientsLinkRepo.LinkRow>)
    ensures RouteOf(body, rows).LookupFailed? <==>
      (&& IsRecord(body) && Truthy(CompanyId(body)) && Truthy(Get(body, "resource_id")) && Truthy(Data(body))
       && Truthy(ClientPhone(body)) && ClientsLinkRepo.Company(ToNumber(CompanyId(body))).None?)
  {
  }

  /** The alerts that were sent, in the order the rules ran. */
  function Sent(alerts: seq<Option<AdminAlert>>): (r: seq<AdminAlert>)
    ensures |r| <= |alerts|
    ensures forall a :: a in r <==> Some(a) in alerts
  {
    if alerts == [] then []
    else (if alerts[0].Some? then [alerts[0].value] else []) + Sent(alerts[1..])
  }

  /** The bot's record-event pipeline: the rules with their in-memory state,
      the client notifier and the link table it reads. */
  class Engine {
    const adminChatId: string
    const widgetId: JsVal
    const missingPhone: MissingPhoneRule.Rule
    const notConfirmed: NotConfirmedRule.Rule
    const canceled: RecordCanceledRule.Rule
    const noShow: NoShowRule.Rule
    const notLinked: NotLinkedRule.Rule
    const notifier: RecordClientNotify.Notifier
    const links: ClientsLinkRepo.LinkTable

    /** Every rule is in its valid state and the six alert ledgers are
        separate objects. */
    predicate Valid() {
      && missingPhone.Valid() && notConfirmed.Valid() && canceled.Valid()
      && noShow.Valid() && notLinked.Valid() && notifier.Valid()
      && missingPhone.resolvedSent != notConfirmed.sent && missingPhone.resolvedSent != canceled.sent
      && missingPhone.resolvedSent != noShow.sent && missingPhone.resolvedSent != notLinked.sent
      && missingPhone.resolvedSent != notifier.sentDedup
      && notConfirmed.sent != canceled.sent && notConfirmed.sent != noShow.sent
      && notConfirmed.sent != notLinked.sent && notConfirmed.sent != notifier.sentDedup
      && canceled.sent != noShow.sent && canceled.sent != notLinked.sent && canceled.sent != notifier.sentDedup
      && noShow.sent != notLinked.sent && noShow.sent != notifier.sentDedup
      && notLinked.sent != notifier.sentDedup
    }

    constructor (adminChatId: string, widgetId: JsVal, links: ClientsLinkRepo.LinkTable)
      ensures Valid() && this.adminChatId == adminChatId && this.widgetId == widgetId && this.links == links
    {
      this.adminChatId := adminChatId;
      this.widgetId := widgetId;
      this.links := links;
      missingPhone := new MissingPhoneRule.Rule();
      notConfirmed := new NotConfirmedRule.Rule();
      canceled := new RecordCanceledRule.Rule();
      noShow := new NoShowRule.Rule();
      notLinked := new NotLinkedRule.Rule();
      notifier := new RecordClientNotify.Notifier();
    }

    /** Step 1 of the handler: the four admin rules, in order. A throw in
        the missing-phone rule rejects the handler before the other three. */
    method RunAdminRules(body: JsVal, now: int) returns (alerts: seq<AdminAlert>, aborted: bool)
      requires Valid()
      modifies missingPhone, missingPhone.resolvedSent, notConfirmed, notConfirmed.sent, canceled.sent, noShow.sent
      ensures Valid()
      ensures var m := MissingPhoneRule.OnEvent(old(missingPhone.State()), body, adminChatId, now);
        && missingPhone.State() == m.state && aborted == m.aborted
        && (m.aborted ==>
              && alerts == []
              && notConfirmed.State() == old(notConfirmed.State())
              && canceled.sent.sent == old(canceled.sent.sent) && noShow.sent.sent == old(noShow.sent.sent))
      ensures var m := MissingPhoneRule.OnEvent(old(missingPhone.State()), body, adminChatId, now);
        var c := RecordCanceledRule.OnEvent(old(canceled.sent.sent), body, adminChatId, now);
        var n := NoShowRule.OnEvent(old(noShow.sent.sent), body, adminChatId, now);
        !m.aborted ==>
          && notConfirmed.State() == NotConfirmedRule.OnEvent(old(notConfirmed.State()), body, adminChatId, now)
          && canceled.sent.sent == c.sent && noShow.sent.sent == n.sent
          && alerts == Sent([m.alert, c.alert, n.alert])
      ensures notLinked.State() == old(notLinked.State()) && notifier.State() == old(notifier.State())
    {
      var a1;
      a1, aborted := missingPhone.Handle(body, adminChatId, now);
      if aborted {
        alerts := [];
        return;
      }
      ghost var mState := missingPhone.State();
      notConfirmed.Handle(body, adminChatId, now);
      assert missingPhone.State() == mState;
      ghost var ncState := notConfirmed.State();
      var a2 := canceled.Handle(body, adminChatId, now);
      assert missingPhone.State() == mState && notConfirmed.State() == ncState;
      ghost var cSent := canceled.sent.sent;
      var a3 := noShow.Handle(body, adminChatId, now);
      assert missingPhone.State() == mState && notConfirmed.State() == ncState && canceled.sent.sent == cSent;
      alerts := Sent([a1, a2, a3]);
    }

    /** Step 2 of the handler: the "not linked" rule or the client
        notifications, as the route says. */
    method RunClientSide(body: JsVal, route: Route, now: int, createdAt: Option<int>, delivered: bool)
      returns (message: Option<RecordClientNotify.ClientMessage>, failed: bool)
      requires Valid()
      modifies notLinked, notLinked.sent, notifier, notifier.sentDedup
      ensures Valid()
      ensures notLinked.State()
        == if route == Unlinked then NotLinkedRule.OnEvent(old(notLinked.State()), body, ClientPhone(body), adminChatId, now)
           else old(notLinked.State())
      ensures route.Notify? ==>
        RecordClientNotify.Outcome(notifier.State(), message, failed)
        == RecordClientNotify.OnEvent(old(notifier.State()), body, Str(route.chatId), BuildRecordLink(body),
                                      ReviewLinkFor(body, widgetId), now, createdAt, delivered)
      ensures !route.Notify? ==> notifier.State() == old(notifier.State()) && message == None && !failed
    {
      message := None;
      failed := false;
      match route
      case Unlinked =>
        notLinked.Handle(body, ClientPhone(body), adminChatId, now);
      case Notify(chat) =>
        message, failed := notifier.Handle(body, Str(chat), BuildRecordLink(body), ReviewLinkFor(body, widgetId),
                                           now, createdAt, delivered);
      case _ =>
    }

    /** `handleRecordEvent({ body, bot })` at time `now`. `createdAt` is the
        parsed `create_date` and `delivered` the outcome of the client send.
        Returns the route taken, the admin alerts sent and the client message. */
    method HandleRecordEvent(body: JsVal, now: int, createdAt: Option<int>, delivered: bool)
      returns (route: Route, alerts: seq<AdminAlert>, message: Option<RecordClientNotify.ClientMessage>, failed: bool)
      requires Valid()
      modifies missingPhone, missingPhone.resolvedSent, notConfirmed, notConfirmed.sent, canceled.sent,
               noShow.sent, notLinked, notLinked.sent, notifier, notifier.sentDedup
      ensures Valid()
      ensures !IsRecord(body) ==>
        && route == NotRecord && alerts == []
        && missingPhone.State() == old(missingPhone.State()) && notConfirmed.State() == old(notConfirmed.State())
        && canceled.sent.sent == old(canceled.sent.sent) && noShow.sent.sent == old(noShow.sent.sent)
      ensures IsRecord(body) ==>
        var m := MissingPhoneRule.OnEvent(old(missingPhone.State()), body, adminChatId, now);
        && missingPhone.State() == m.state
        && route == (if m.aborted then RuleThrew else RouteOf(body, links.rows))
        && (m.aborted ==>
              && alerts == []
              && notConfirmed.State() == old(notConfirmed.State())
              && canceled.sent.sent == old(canceled.sent.sent) && noShow.sent.sent == old(noShow.sent.sent))
      ensures IsRecord(body) ==>
        var m := MissingPhoneRule.OnEvent(old(missingPhone.State()), body, adminChatId, now);
        var c := RecordCanceledRule.OnEvent(old(canceled.sent.sent), body, adminChatId, now);
        var n := NoShowRule.OnEvent(old(noShow.sent.sent), body, adminChatId, now);
        !m.aborted ==>
          && notConfirmed.State() == NotConfirmedRule.OnEvent(old(notConfirmed.State()), body, adminChatId, now)
          && canceled.sent.sent == c.sent && noShow.sent.sent == n.sent
          && alerts == Sent([m.alert, c.alert, n.alert])
      ensures notLinked.State()
        == if route == Unlinked then NotLinkedRule.OnEvent(old(notLinked.State()), body, ClientPhone(body), adminChatId, now)
           else old(notLinked.State())
      ensures route.Notify? ==>
        RecordClientNotify.Outcome(notifier.State(), message, failed)
        == RecordClientNotify.OnEvent(old(notifier.State()), body, Str(route.chatId), BuildRecordLink(body),
                                      ReviewLinkFor(body, widgetId), now, createdAt, delivered)
      ensures !route.Notify? ==> notifier.State() == old(notifier.State()) && message == None && !failed
    {
      route := NotRecord;
      alerts := [];
      message := None;
      failed := false;
      if !IsRecord(body) {
        return;
      }
      var aborted;
      alerts, aborted := RunAdminRules(body, now);
      if aborted {
        route := RuleThrew;
        return;
      }
      route := RouteOf(body, links.rows);
      ghost var mState, ncState, cSent, nSent := missingPhone.State(), notConfirmed.State(), canceled.sent.sent, noShow.sent.sent;
      message, failed := RunClientSide(body, route, now, createdAt, delivered);
      assert missingPhone.State() == mState && notConfirmed.State() == ncState;
      assert canceled.sent.sent == cSent && noShow.sent.sent == nSent;
    }
  }
}
