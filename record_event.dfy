/** The parts of a YCLIENTS webhook body that the rules and the client
    notifier read, the record keys they build from it, the alerts the admin
    rules raise, and the date/time splitting that every rule file repeats. */
module RecordEvent {
  import opened Text
  import opened JsValue

  const Dash: string := "—"

  function Data(body: JsVal): JsVal { Get(body, "data") }
  function Client(body: JsVal): JsVal { Get(Data(body), "client") }
  function ClientPhone(body: JsVal): JsVal { Get(Client(body), "phone") }
  function CompanyId(body: JsVal): JsVal { Get(body, "company_id") }
  function ApiId(body: JsVal): JsVal { Get(Data(body), "api_id") }

  /** `body?.resource_id || body?.data?.id` */
  function RecordId(body: JsVal): JsVal { Or(Get(body, "resource_id"), Get(Data(body), "id")) }

  predicate IsRecord(body: JsVal) { Get(body, "resource") == Str("record") }

  /** `["create", "update"].includes(body?.status)` */
  predicate IsCreateOrUpdate(body: JsVal) {
    Get(body, "status") == Str("create") || Get(body, "status") == Str("update")
  }

  /** `body?.data?.deleted === true` */
  predicate IsDeletedFlag(body: JsVal) { Get(Data(body), "deleted") == Bool(true) }

  /** `${prefix}:${companyId}:${recordId}`: the key built from the record id only. */
  function RecordKey(prefix: string, body: JsVal): string {
    prefix + ":" + ToStr(CompanyId(body)) + ":" + ToStr(RecordId(body))
  }

  /** The key the record id is replaced in by `api_id` whenever that is truthy. */
  function StableKey(prefix: string, body: JsVal): (k: string)
    ensures Truthy(ApiId(body)) ==> k == prefix + ":" + ToStr(CompanyId(body)) + ":" + ToStr(ApiId(body))
    ensures !Truthy(ApiId(body)) ==> k == RecordKey(prefix, body)
  {
    prefix + ":" + ToStr(CompanyId(body)) + ":" + ToStr(if Truthy(ApiId(body)) then ApiId(body) else RecordId(body))
  }

  /** Two events of one company that carry the same truthy `api_id` share a
      stable key whatever their record ids; without `api_id` the record id
      decides. */
  lemma StableKeyPrefersApiId(prefix: string, b1: JsVal, b2: JsVal)
    requires CompanyId(b1) == CompanyId(b2)
    ensures Truthy(ApiId(b1)) && ApiId(b1) == ApiId(b2) ==> StableKey(prefix, b1) == StableKey(prefix, b2)
    ensures !Truthy(ApiId(b1)) && !Truthy(ApiId(b2)) && RecordId(b1) == RecordId(b2) ==>
      StableKey(prefix, b1) == StableKey(prefix, b2)
  {
  }

  /** The kinds of admin alert; an alert is its kind, the record key it is
      about, and for the not-linked alert the masked phone (else ""). */
  datatype AlertKind = NoPhone | PhoneAdded | NotConfirmed | Canceled | NoShow | NotLinked
  datatype AdminAlert = AdminAlert(kind: AlertKind, key: string, detail: string)

  /** The `{ date, time }` pair shown in messages. */
  datatype DateTime = DateTime(date: string, time: string)

  function OrDash(s: string): (r: string)
    ensures r != ""
  {
    if s == "" then Dash else s
  }

  /** `(s || "").split("+")[0].split("Z")[0]`: the time with its offset cut off. */
  function StripOffset(rest: string): (r: string)
    ensures 'Z' !in r
  {
    SplitOn(SplitOn(rest, '+')[0], 'Z')[0]
  }

  /** `formatDateTime(body)` of the rule files (and `formatDateTimeForSnap`
      of the client notifier, applied to `body.data`): a string `date` with
      a space is split there; else a string `datetime` with a `T` is split
      there and the offset is dropped; an empty part becomes "—" and the
      time is cut to five characters. */
  function SplitDateTime(d: JsVal): (r: DateTime)
    ensures r.date != "" && r.time != "" && |r.time| <= 5
  {
    if !Truthy(d) then DateTime(Dash, Dash)
    else if Get(d, "date").Str? && ' ' in Get(d, "date").s then
      var parts := SplitOn(Get(d, "date").s, ' ');
      DateTime(OrDash(parts[0]), Prefix(OrDash(parts[1]), 5))
    else if Get(d, "datetime").Str? && 'T' in Get(d, "datetime").s then
      var parts := SplitOn(Get(d, "datetime").s, 'T');
      DateTime(OrDash(parts[0]), Prefix(OrDash(StripOffset(parts[1])), 5))
    else DateTime(Dash, Dash)
  }

  /** `formatDateTime(body)` of the rules: the date and time of `body.data`. */
  function FormatDateTime(body: JsVal): (r: DateTime)
    ensures r.date != "" && r.time != "" && |r.time| <= 5
  {
    SplitDateTime(Data(body))
  }

  /** A `date` written as `D + " " + T` (no space in `D`, `D` non-empty)
      shows `D` and the first five characters of the first word of `T`;
      the `date` field wins over `datetime`. */
  lemma SplitDateTimeOfDate(fields: map<string, JsVal>, d: string, t: string)
    requires d != "" && ' ' !in d && ' ' !in t && t != ""
    requires "date" in fields && fields["date"] == Str(d + " " + t)
    ensures SplitDateTime(Obj(fields)) == DateTime(d, Prefix(t, 5))
  {
    var s := d + " " + t;
    assert s == d + [' '] + t;
    SplitOnJoined(d, ' ', t);
    SplitOnWithout(t, ' ');
    assert s[|d|] == ' ';
  }

  lemma NotInConcat(a: string, c: char, b: string, x: char)
    requires x !in a && x != c && x !in b
    ensures x !in a + [c] + b
  {
  }

  /** A `datetime` written as `D + "T" + hh:mm:ss + "+" + offset` (and no
      `date` with a space) shows `D` and `hh:mm`. */
  lemma SplitDateTimeOfIso(fields: map<string, JsVal>, d: string, t: string, offset: string)
    requires d != "" && 'T' !in d && t != "" && 'T' !in t && '+' !in t && 'Z' !in t && 'T' !in offset
    requires "date" !in fields && "datetime" in fields && fields["datetime"] == Str(d + "T" + t + "+" + offset)
    ensures SplitDateTime(Obj(fields)) == DateTime(d, Prefix(t, 5))
  {
    var rest := t + ['+'] + offset;
    var s := d + ['T'] + rest;
    assert fields["datetime"].s == s;
    assert s[|d|] == 'T';
    SplitOnJoined(d, 'T', rest);
    NotInConcat(t, '+', offset, 'T');
    SplitOnWithout(rest, 'T');
    assert SplitOn(s, 'T') == [d, rest];
    SplitOnJoined(t, '+', offset);
    SplitOnWithout(t, 'Z');
    assert StripOffset(rest) == t;
  }

  /** `items.map(s => s?.[name]).filter(Boolean)` */
  function TruthyField(items: seq<JsVal>, name: string): (r: seq<JsVal>)
    ensures |r| <= |items|
    ensures forall i :: 0 <= i < |r| ==> Truthy(r[i])
  {
    if items == [] then []
    else
      var t := Get(items[0], name);
      (if Truthy(t) then [t] else []) + TruthyField(items[1..], name)
  }

  /** Every truthy field value of the list is kept, and nothing else is. */
  lemma {:induction false} TruthyFieldKeepsExactly(items: seq<JsVal>, name: string, v: JsVal)
    ensures v in TruthyField(items, name) <==> Truthy(v) && exists i :: 0 <= i < |items| && Get(items[i], name) == v
  {
    if items != [] {
      TruthyFieldKeepsExactly(items[1..], name, v);
      if exists i :: 0 <= i < |items| && Get(items[i], name) == v {
        var i :| 0 <= i < |items| && Get(items[i], name) == v;
        if i > 0 {
          assert Get(items[1..][i - 1], name) == v;
        }
      }
      if exists j :: 0 <= j < |items[1..]| && Get(items[1..][j], name) == v {
        var j :| 0 <= j < |items[1..]| && Get(items[1..][j], name) == v;
        assert Get(items[j + 1], name) == v;
      }
    }
  }

  /** When every item has a truthy value, all of them are kept, in order. */
  lemma {:induction false} TruthyFieldKeepsOrder(items: seq<JsVal>, name: string)
    requires forall i :: 0 <= i < |items| ==> Truthy(Get(items[i], name))
    ensures |TruthyField(items, name)| == |items|
    ensures forall i :: 0 <= i < |items| ==> TruthyField(items, name)[i] == Get(items[i], name)
  {
    if items != [] {
      TruthyFieldKeepsOrder(items[1..], name);
    }
  }

  /** `Array.isArray(data?.services) ? … : []`, then the truthy titles. */
  function ServiceTitles(data: JsVal): seq<JsVal> {
    var services := Get(data, "services");
    if services.Arr? then TruthyField(services.items, "title") else []
  }

  /** The seven lower-case statuses that mean a cancellation. */
  predicate IsCancelStatus(st: string) {
    st == "delete" || st == "deleted" || st == "cancel" || st == "canceled"
    || st == "cancelled" || st == "remove" || st == "removed"
  }

  /** Every cancel status starts with `d`, `ca` or `r`. */
  lemma CancelStatusStart(st: string)
    ensures IsCancelStatus(st) ==> |st| >= 6 && (st[0] == 'd' || (st[0] == 'c' && st[1] == 'a') || st[0] == 'r')
  {
  }

  /** `isCanceledEvent(body)` / `isCanceled(body)`: the lower-cased
      `String(status || "")` is a cancel status, or it is "update" and the
      record carries `deleted === true`. */
  predicate IsCanceledEvent(body: JsVal) {
    var st := LowerAscii(ToStr(Or(Get(body, "status"), Str(""))));
    IsCancelStatus(st) || (st == "update" && IsDeletedFlag(body))
  }

  /** A plain "update" is a cancellation exactly when the record is
      flagged deleted; "create" never is. */
  lemma CanceledOnUpdate(body: JsVal)
    ensures Get(body, "status") == Str("update") ==> (IsCanceledEvent(body) <==> IsDeletedFlag(body))
    ensures Get(body, "status") == Str("create") ==> !IsCanceledEvent(body)
  {
    if Get(body, "status") == Str("update") {
      UpdateStatus(body);
    } else if Get(body, "status") == Str("create") {
      CreateStatus(body);
    }
  }

  lemma UpdateStatus(body: JsVal)
    requires Get(body, "status") == Str("update")
    ensures IsCanceledEvent(body) <==> IsDeletedFlag(body)
  {
    var st := LowerAscii(ToStr(Or(Get(body, "status"), Str(""))));
    LowerAsciiOfLower("update");
    assert st == "update";
    CancelStatusStart(st);
  }

  lemma CreateStatus(body: JsVal)
    requires Get(body, "status") == Str("create")
    ensures !IsCanceledEvent(body)
  {
    var st := LowerAscii(ToStr(Or(Get(body, "status"), Str(""))));
    LowerAsciiOfLower("create");
    assert st == "create";
    CancelStatusStart(st);
  }

  /** A missing, falsy, numeric or boolean status is never a cancellation. */
  lemma CanceledNeedsWord(body: JsVal)
    requires !Truthy(Get(body, "status")) || Get(body, "status").Num? || Get(body, "status").Bool?
    ensures !IsCanceledEvent(body)
  {
    var status := Get(body, "status");
    var st := LowerAscii(ToStr(Or(status, Str(""))));
    if status.Num? && Truthy(status) {
      var s := IntToString(status.n);
      IntToStringShape(status.n);
      assert st[0] == s[0];
      assert st[0] == '-' || IsDigit(st[0]);
      CancelStatusStart(st);
      assert st != "update" by {
        assert "update"[0] == 'u';
      }
    } else if !Truthy(status) {
      assert st == "";
    } else {
      assert status == Bool(true);
      LowerAsciiOfLower("true");
      assert st == "true";
      CancelStatusStart(st);
    }
  }

  /** The comparison ignores letter case: two string statuses that
      lower-case alike classify a record alike. */
  lemma CanceledEventIgnoresCase(b1: JsVal, b2: JsVal, s1: string, s2: string)
    requires Get(b1, "status") == Str(s1) && Get(b2, "status") == Str(s2)
    requires LowerAscii(s1) == LowerAscii(s2) && IsDeletedFlag(b1) == IsDeletedFlag(b2)
    ensures IsCanceledEvent(b1) <==> IsCanceledEvent(b2)
  {
    assert |s1| == |s2|;
    assert ToStr(Or(Str(s1), Str(""))) == s1;
    assert ToStr(Or(Str(s2), Str(""))) == s2;
  }
}
