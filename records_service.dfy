/** Reading and updating a YCLIENTS record: the full-update payload built
    from the record read back, its form-encoded twin, the JSON-then-FORM
    update with its fallback, and the client's confirmation of a record.
    The HTTP client is an oracle: each call is given the reply it gets. */
module RecordsService {
  import opened Text
  import opened JsValue
  import opened RecordEvent

  const DefaultError: string := "Произошла ошибка"
  const RequestFailed: string := "Ошибка запроса"

  /** `extractYclientsError(raw)` */
  datatype YcError = YcError(message: JsVal, errors: JsVal)

  function ExtractYclientsError(raw: JsVal): (r: YcError)
    ensures Truthy(r.message)
    ensures Truthy(Get(Get(raw, "meta"), "message")) ==> r.message == Get(Get(raw, "meta"), "message")
    ensures !Truthy(Get(Get(raw, "meta"), "message")) ==> r.message == Str(DefaultError)
  {
    YcError(Or(Get(Get(raw, "meta"), "message"), Str(DefaultError)), Get(Get(raw, "meta"), "errors"))
  }

  /** Some message of the list mentions "id", in any letter case. */
  function MentionsId(items: seq<JsVal>): (r: bool)
    ensures r <==> exists i :: 0 <= i < |items| && Contains(LowerAscii(ToStr(items[i])), "id")
  {
    if items == [] then false
    else if Contains(LowerAscii(ToStr(items[0])), "id") then true
    else
      var rest := MentionsId(items[1..]);
      assert forall i :: 1 <= i < |items| ==> items[i] == items[1..][i - 1];
      rest
  }

  /** `isIdMissing(raw)`: `meta.errors.id` is an array one of whose
      messages mentions "id". */
  function IsIdMissing(raw: JsVal): (r: bool)
    ensures !Get(Get(Get(raw, "meta"), "errors"), "id").Arr? ==> !r
    ensures Get(Get(Get(raw, "meta"), "errors"), "id").Arr? ==>
      (r <==> exists i :: 0 <= i < |Get(Get(Get(raw, "meta"), "errors"), "id").items|
                && Contains(LowerAscii(ToStr(Get(Get(Get(raw, "meta"), "errors"), "id").items[i])), "id"))
  {
    var idErr := Get(Get(Get(raw, "meta"), "errors"), "id");
    idErr.Arr? && MentionsId(idErr.items)
  }

  /** "Record ID is required" counts as an id error whatever its case. */
  lemma IdMissingIgnoresCase(raw: JsVal, m: string)
    requires Get(Get(Get(raw, "meta"), "errors"), "id") == Arr([Str("ID" + m)])
    ensures IsIdMissing(raw)
  {
    var s := "ID" + m;
    var low := LowerAscii(s);
    assert s[1..][0] == 'D';
    assert LowerAscii(s[1..])[0] == 'd';
    assert low[0] == 'i' && low[1] == 'd';
    assert low[0..2] == "id";
    assert OccursAt(low, "id", 0);
  }

  /** `buildUpdatePayloadFromRecord({ rec, recordId, patch })`: the full
      record as read, with the patch spread over it. */
  function BuildUpdatePayload(rec: JsVal, recordId: JsVal, patch: map<string, JsVal>): (r: JsVal)
    ensures r.Obj? && "id" in r.fields && "services" in r.fields
    ensures forall k :: k in patch ==> k in r.fields && r.fields[k] == patch[k]
  {
    Obj(RecordBase(rec, recordId) + patch)
  }

  /** The fields the update payload takes from the record before the patch. */
  function RecordBase(rec: JsVal, recordId: JsVal): map<string, JsVal> {
    var services := Get(rec, "services");
    map[
      "id" := Coalesce(Get(rec, "id"), recordId),
      "staff_id" := Get(rec, "staff_id"),
      "services" := Arr(if services.Arr? then TruthyField(services.items, "id") else []),
      "client" := Obj(map["id" := Get(Get(rec, "client"), "id")]),
      "seance_length" := Coalesce(Get(rec, "seance_length"), Get(rec, "length")),
      "datetime" := Get(rec, "datetime")]
  }

  /** The patch overrides every key it has; the other keys come from the
      record, with the record id standing in for a missing `id` and
      `length` for a missing `seance_length`, and the services reduced to
      their truthy ids, none when the record has no service list. */
  lemma UpdatePayloadFields(rec: JsVal, recordId: JsVal, patch: map<string, JsVal>)
    ensures var p := BuildUpdatePayload(rec, recordId, patch);
      && (forall k :: k in patch ==> Get(p, k) == patch[k])
      && ("id" !in patch ==> Get(p, "id") == (if IsNullish(Get(rec, "id")) then recordId else Get(rec, "id")))
      && ("seance_length" !in patch ==>
            Get(p, "seance_length") == (if IsNullish(Get(rec, "seance_length")) then Get(rec, "length") else Get(rec, "seance_length")))
      && ("staff_id" !in patch ==> Get(p, "staff_id") == Get(rec, "staff_id"))
      && ("datetime" !in patch ==> Get(p, "datetime") == Get(rec, "datetime"))
      && ("client" !in patch ==> Get(Get(p, "client"), "id") == Get(Get(rec, "client"), "id"))
      && ("services" !in patch && !Get(rec, "services").Arr? ==> Get(p, "services") == Arr([]))
      && ("services" !in patch && Get(rec, "services").Arr? ==>
            forall v :: v in Get(p, "services").items <==>
              Truthy(v) && exists i :: 0 <= i < |Get(rec, "services").items| && Get(Get(rec, "services").items[i], "id") == v)
  {
    var base := RecordBase(rec, recordId);
    var p := BuildUpdatePayload(rec, recordId, patch);
    assert p == Obj(base + patch);
    forall k | k !in patch && k in base
      ensures Get(p, k) == base[k]
    {
    }
    if "services" !in patch && Get(rec, "services").Arr? {
      BaseServices(rec, recordId);
    }
  }

  lemma BaseServices(rec: JsVal, recordId: JsVal)
    requires Get(rec, "services").Arr?
    ensures var items := RecordBase(rec, recordId)["services"].items;
      forall v :: v in items <==>
        Truthy(v) && exists i :: 0 <= i < |Get(rec, "services").items| && Get(Get(rec, "services").items[i], "id") == v
  {
    forall v {
      TruthyFieldKeepsExactly(Get(rec, "services").items, "id", v);
    }
  }

  /** One `name=value` pair of the form body, before percent-encoding. */
  type Pair = (string, string)

  predicate Absent(pairs: seq<Pair>, name: string) {
    forall i :: 0 <= i < |pairs| ==> pairs[i].0 != name
  }

  predicate HasName(pairs: seq<Pair>, name: string) {
    exists i :: 0 <= i < |pairs| && pairs[i].0 == name
  }

  /** The pairs after the first `name`, with every later `name` removed. */
  function Without(pairs: seq<Pair>, name: string): (r: seq<Pair>)
    ensures Absent(r, name)
  {
    if pairs == [] then []
    else (if pairs[0].0 == name then [] else [pairs[0]]) + Without(pairs[1..], name)
  }

  function ReplaceFirst(pairs: seq<Pair>, name: string, value: string): seq<Pair> {
    if pairs == [] then []
    else if pairs[0].0 == name then [(name, value)] + Without(pairs[1..], name)
    else [pairs[0]] + ReplaceFirst(pairs[1..], name, value)
  }

  /** `URLSearchParams.set`: replace the first pair of that name and drop
      the others, or append when there is none. */
  function SetParam(pairs: seq<Pair>, name: string, value: string): (r: seq<Pair>)
    ensures Absent(pairs, name) ==> r == pairs + [(name, value)]
  {
    if Absent(pairs, name) then pairs + [(name, value)] else ReplaceFirst(pairs, name, value)
  }

  /** `JSON.stringify(Number(v))`: a number's digits, `null` for NaN. */
  function JsonNumber(v: JsVal): string {
    match ToNumber(v)
    case Num(n) => IntToString(n)
    case _ => "null"
  }

  function JsonNumbers(items: seq<JsVal>): seq<string>
    decreases |items|
  {
    if items == [] then [] else [JsonNumber(items[0])] + JsonNumbers(items[1..])
  }

  /** One `services[]` pair per service id, in order. */
  function ServicePairs(ids: seq<JsVal>): (r: seq<Pair>)
    ensures |r| == |ids|
    ensures forall i :: 0 <= i < |r| ==> r[i] == ("services[]", ToStr(ids[i]))
    decreases |ids|
  {
    if ids == [] then [] else ServicePairs(ids[..|ids| - 1]) + [("services[]", ToStr(ids[|ids| - 1]))]
  }

  function ServicesOf(payload: JsVal): seq<JsVal> {
    var s := Get(payload, "services");
    if s.Arr? then s.items else []
  }

  /** The pair for an optional field: present unless the value is null or undefined. */
  function OptField(payload: JsVal, name: string): (r: seq<Pair>)
    ensures |r| <= 1 && forall i :: 0 <= i < |r| ==> r[i].0 == name
  {
    var v := Get(payload, name);
    if IsNullish(v) then [] else [(name, ToStr(v))]
  }

  function ClientPairs(payload: JsVal): seq<Pair> {
    var c := Get(Get(payload, "client"), "id");
    if IsNullish(c) then [] else [("client[id]", ToStr(c)), ("client", "{\"id\":" + JsonNumber(c) + "}")]
  }

  function ServicesMirror(services: seq<JsVal>): seq<Pair> {
    if |services| > 0 then [("services", "[" + Join(JsonNumbers(services), ",") + "]")] else []
  }

  function IdText(payload: JsVal, recordId: JsVal): string { ToStr(Coalesce(Get(payload, "id"), recordId)) }

  /** The part of the form before the services. */
  function FormHead(payload: JsVal, recordId: JsVal): seq<Pair> {
    Scalars(payload, recordId) + ClientPairs(payload)
  }

  /** The part of the form after the services. */
  function FormTail(payload: JsVal): seq<Pair> {
    OptField(payload, "attendance") + OptField(payload, "visit_attendance") + OptField(payload, "confirmed")
  }

  /** The pairs `buildFormFromPayload` produces, in order. */
  function FormPairs(payload: JsVal, recordId: JsVal): seq<Pair> {
    FormHead(payload, recordId) + ServicePairs(ServicesOf(payload)) + ServicesMirror(ServicesOf(payload)) + FormTail(payload)
  }

  /** `form.set(name, value)` for a name the form does not hold yet. */
  method SetFresh(form: seq<Pair>, name: string, value: string) returns (f: seq<Pair>)
    requires Absent(form, name)
    ensures f == form + [(name, value)]
  {
    f := SetParam(form, name, value);
  }

  /** `form.set(name, String(v))` when `v` is not null or undefined. */
  method SetIfPresent(form: seq<Pair>, payload: JsVal, name: string) returns (f: seq<Pair>)
    requires Absent(form, name)
    ensures f == form + OptField(payload, name)
  {
    f := form;
    if !IsNullish(Get(payload, name)) {
      f := SetFresh(f, name, ToStr(Get(payload, name)));
    }
  }

  lemma AbsentConcat(a: seq<Pair>, b: seq<Pair>, name: string)
    requires Absent(a, name) && Absent(b, name)
    ensures Absent(a + b, name)
  {
  }

  /** The `id` and optional scalar pairs. */
  function Scalars(payload: JsVal, recordId: JsVal): seq<Pair> {
    [("id", IdText(payload, recordId))] + OptField(payload, "staff_id") + OptField(payload, "seance_length")
    + OptField(payload, "datetime")
  }

  method BuildScalars(payload: JsVal, recordId: JsVal) returns (form: seq<Pair>)
    ensures form == Scalars(payload, recordId)
  {
    var idPair := [("id", IdText(payload, recordId))];
    form := SetFresh([], "id", IdText(payload, recordId));
    form := SetIfPresent(form, payload, "staff_id");
    AbsentConcat(idPair, OptField(payload, "staff_id"), "seance_length");
    form := SetIfPresent(form, payload, "seance_length");
    AbsentConcat(idPair + OptField(payload, "staff_id"), OptField(payload, "seance_length"), "datetime");
    form := SetIfPresent(form, payload, "datetime");
  }

  /** The client pairs after the scalars. */
  method AddClient(form: seq<Pair>, payload: JsVal) returns (f: seq<Pair>)
    requires Absent(form, "client[id]") && Absent(form, "client")
    ensures f == form + ClientPairs(payload)
  {
    f := form;
    var clientId := Get(Get(payload, "client"), "id");
    if !IsNullish(clientId) {
      f := SetFresh(f, "client[id]", ToStr(clientId));
      AbsentConcat(form, [("client[id]", ToStr(clientId))], "client");
      f := SetFresh(f, "client", "{\"id\":" + JsonNumber(clientId) + "}");
    }
  }

  /** The `services[]` pairs appended one by one. */
  method AppendServices(form: seq<Pair>, services: seq<JsVal>) returns (f: seq<Pair>)
    ensures f == form + ServicePairs(services)
  {
    f := form;
    var i := 0;
    while i < |services|
      invariant 0 <= i <= |services|
      invariant f == form + ServicePairs(services[..i])
    {
      f := f + [("services[]", ToStr(services[i]))];
      assert services[..i + 1][..i] == services[..i];
      i := i + 1;
    }
    assert services[..i] == services;
  }

  /** The optional status pairs at the end. */
  method AddTail(form: seq<Pair>, payload: JsVal) returns (f: seq<Pair>)
    requires Absent(form, "attendance") && Absent(form, "visit_attendance") && Absent(form, "confirmed")
    ensures f == form + FormTail(payload)
  {
    f := SetIfPresent(form, payload, "attendance");
    AbsentConcat(form, OptField(payload, "attendance"), "visit_attendance");
    AbsentConcat(form, OptField(payload, "attendance"), "confirmed");
    f := SetIfPresent(f, payload, "visit_attendance");
    AbsentConcat(form + OptField(payload, "attendance"), OptField(payload, "visit_attendance"), "confirmed");
    f := SetIfPresent(f, payload, "confirmed");
  }

  /** A name none of the scalar fields has is absent from them. */
  lemma ScalarsAbsent(payload: JsVal, recordId: JsVal, name: string)
    requires name != "id" && name != "staff_id" && name != "seance_length" && name != "datetime"
    ensures Absent(Scalars(payload, recordId), name)
  {
    var idPair := [("id", IdText(payload, recordId))];
    var a := OptField(payload, "staff_id");
    var b := OptField(payload, "seance_length");
    AbsentConcat(idPair, a, name);
    AbsentConcat(idPair + a, b, name);
    AbsentConcat(idPair + a + b, OptField(payload, "datetime"), name);
  }

  /** A name none of the head's fields has is absent from the head. */
  lemma HeadAbsent(payload: JsVal, recordId: JsVal, name: string)
    requires name != "id" && name != "staff_id" && name != "seance_length" && name != "datetime"
    requires name != "client[id]" && name != "client"
    ensures Absent(FormHead(payload, recordId), name)
  {
    ScalarsAbsent(payload, recordId, name);
    AbsentConcat(Scalars(payload, recordId), ClientPairs(payload), name);
  }

  /** The scalar and client pairs, set one by one. */
  method BuildHead(payload: JsVal, recordId: JsVal) returns (form: seq<Pair>)
    ensures form == FormHead(payload, recordId)
  {
    form := BuildScalars(payload, recordId);
    ScalarsAbsent(payload, recordId, "client[id]");
    ScalarsAbsent(payload, recordId, "client");
    form := AddClient(form, payload);
  }

  /** The service pairs carry only the names `services[]` and `services`. */
  lemma ServicesAbsent(services: seq<JsVal>, name: string)
    requires name != "services[]" && name != "services"
    ensures Absent(ServicePairs(services) + ServicesMirror(services), name)
  {
    AbsentConcat(ServicePairs(services), ServicesMirror(services), name);
  }

  /** The `services[]` pairs, then the `services` JSON mirror when there is a service. */
  method AddServices(form: seq<Pair>, services: seq<JsVal>) returns (f: seq<Pair>)
    requires Absent(form, "services")
    ensures f == form + ServicePairs(services) + ServicesMirror(services)
  {
    f := AppendServices(form, services);
    AbsentConcat(form, ServicePairs(services), "services");
    if |services| > 0 {
      f := SetFresh(f, "services", "[" + Join(JsonNumbers(services), ",") + "]");
    }
  }

  /** `buildFormFromPayload(payload, recordId)`, before percent-encoding. */
  method BuildFormFromPayload(payload: JsVal, recordId: JsVal) returns (form: seq<Pair>)
    ensures form == FormPairs(payload, recordId)
  {
    var head := BuildHead(payload, recordId);
    var services := ServicesOf(payload);
    HeadAbsent(payload, recordId, "services");
    form := AddServices(head, services);
    ghost var rest := ServicePairs(services) + ServicesMirror(services);
    assert form == head + rest;
    HeadAbsent(payload, recordId, "attendance");
    HeadAbsent(payload, recordId, "visit_attendance");
    HeadAbsent(payload, recordId, "confirmed");
    ServicesAbsent(services, "attendance");
    ServicesAbsent(services, "visit_attendance");
    ServicesAbsent(services, "confirmed");
    AbsentConcat(head, rest, "attendance");
    AbsentConcat(head, rest, "visit_attendance");
    AbsentConcat(head, rest, "confirmed");
    form := AddTail(form, payload);
  }

  lemma HasNameConcat(a: seq<Pair>, b: seq<Pair>, name: string)
    ensures HasName(a + b, name) <==> HasName(a, name) || HasName(b, name)
  {
    if HasName(a, name) {
      var i :| 0 <= i < |a| && a[i].0 == name;
      assert (a + b)[i] == a[i];
    }
    if HasName(a + b, name) {
      var i :| 0 <= i < |a + b| && (a + b)[i].0 == name;
      if i >= |a| {
        assert b[i - |a|] == (a + b)[i];
      }
    }
    if HasName(b, name) {
      var i :| 0 <= i < |b| && b[i].0 == name;
      assert (a + b)[|a| + i] == b[i];
    }
  }

  lemma OptFieldNames(payload: JsVal, o: string, name: string)
    ensures HasName(OptField(payload, o), name) <==> name == o && !IsNullish(Get(payload, o))
  {
    if name == o && !IsNullish(Get(payload, o)) {
      assert OptField(payload, o)[0].0 == name;
    }
  }

  lemma HeadNames(payload: JsVal, recordId: JsVal, name: string)
    ensures HasName(FormHead(payload, recordId), name) <==>
      || name == "id"
      || (name in {"staff_id", "seance_length", "datetime"} && !IsNullish(Get(payload, name)))
      || (name in {"client[id]", "client"} && !IsNullish(Get(Get(payload, "client"), "id")))
  {
    var idPair := [("id", IdText(payload, recordId))];
    var a := OptField(payload, "staff_id");
    var b := OptField(payload, "seance_length");
    var c := OptField(payload, "datetime");
    var cl := ClientPairs(payload);
    HasNameConcat(idPair + a + b + c, cl, name);
    HasNameConcat(idPair + a + b, c, name);
    HasNameConcat(idPair + a, b, name);
    HasNameConcat(idPair, a, name);
    assert idPair[0].0 == "id";
    assert HasName(idPair, name) <==> name == "id";
    OptFieldNames(payload, "staff_id", name);
    OptFieldNames(payload, "seance_length", name);
    OptFieldNames(payload, "datetime", name);
    if !IsNullish(Get(Get(payload, "client"), "id")) {
      assert cl[0].0 == "client[id]" && cl[1].0 == "client";
    }
  }

  lemma ServiceNames(ids: seq<JsVal>, name: string)
    ensures HasName(ServicePairs(ids) + ServicesMirror(ids), name) <==>
      name in {"services[]", "services"} && |ids| > 0
  {
    var sp := ServicePairs(ids);
    var mirror := ServicesMirror(ids);
    HasNameConcat(sp, mirror, name);
    assert HasName(sp, name) ==> name == "services[]";
    if |ids| > 0 {
      assert sp[0].0 == "services[]";
      assert mirror[0].0 == "services";
    }
  }

  lemma TailNames(payload: JsVal, name: string)
    ensures HasName(FormTail(payload), name) <==>
      name in {"attendance", "visit_attendance", "confirmed"} && !IsNullish(Get(payload, name))
  {
    var x := OptField(payload, "attendance");
    var y := OptField(payload, "visit_attendance");
    var z := OptField(payload, "confirmed");
    HasNameConcat(x + y, z, name);
    HasNameConcat(x, y, name);
    OptFieldNames(payload, "attendance", name);
    OptFieldNames(payload, "visit_attendance", name);
    OptFieldNames(payload, "confirmed", name);
  }

  /** Where each name of the form can come from. */
  lemma FormNames(payload: JsVal, recordId: JsVal, name: string)
    ensures HasName(FormPairs(payload, recordId), name) <==>
      || name == "id"
      || (name in {"staff_id", "seance_length", "datetime", "attendance", "visit_attendance", "confirmed"}
          && !IsNullish(Get(payload, name)))
      || (name in {"client[id]", "client"} && !IsNullish(Get(Get(payload, "client"), "id")))
      || (name in {"services[]", "services"} && |ServicesOf(payload)| > 0)
  {
    var ids := ServicesOf(payload);
    var head := FormHead(payload, recordId);
    var rest := ServicePairs(ids) + ServicesMirror(ids);
    var tail := FormTail(payload);
    assert FormPairs(payload, recordId) == head + rest + tail;
    HasNameConcat(head + rest, tail, name);
    HasNameConcat(head, rest, name);
    HeadNames(payload, recordId, name);
    ServiceNames(ids, name);
    TailNames(payload, name);
  }

  /** The form always starts with `id`, `client[id]` and `client` come
      together, and the `services` mirror is sent exactly when there are
      services. */
  lemma FormFields(payload: JsVal, recordId: JsVal)
    ensures var f := FormPairs(payload, recordId);
      && f[0] == ("id", IdText(payload, recordId))
      && (HasName(f, "client[id]") <==> HasName(f, "client"))
      && (HasName(f, "client") <==> !IsNullish(Get(Get(payload, "client"), "id")))
      && (HasName(f, "services") <==> |ServicesOf(payload)| > 0)
      && (HasName(f, "staff_id") <==> !IsNullish(Get(payload, "staff_id")))
      && (HasName(f, "attendance") <==> !IsNullish(Get(payload, "attendance")))
  {
    FormNames(payload, recordId, "client[id]");
    FormNames(payload, recordId, "client");
    FormNames(payload, recordId, "services");
    FormNames(payload, recordId, "staff_id");
    FormNames(payload, recordId, "attendance");
  }

  /** The service ids are sent one `services[]` pair each, in order, right
      after the head of the form. */
  lemma FormServicesInOrder(payload: JsVal, recordId: JsVal)
    ensures var f := FormPairs(payload, recordId);
      var ids := ServicesOf(payload);
      var k := |FormHead(payload, recordId)|;
      && k + |ids| <= |f|
      && forall i :: 0 <= i < |ids| ==> f[k + i] == ("services[]", ToStr(ids[i]))
  {
  }

  /** What the HTTP client gives back: a response, or an exception that may
      carry a response (`Undefined` status and data when it does not). */
  datatype Reply = Response(status: JsVal, data: JsVal) | Thrown(status: JsVal, data: JsVal, message: JsVal)

  /** The `{ ok, status, raw, data, message }` result; absent fields are `Undefined`. */
  datatype ApiResult = ApiResult(ok: bool, status: JsVal, raw: JsVal, data: JsVal, message: JsVal)

  predicate Succeeded(data: JsVal) { Get(data, "success") == Bool(true) }

  /** `getRecordFromYclients` (and `listRecordsFromYclients`) given the reply. */
  function ReadResult(reply: Reply): (r: ApiResult)
    ensures r.ok <==> reply.Response? && Succeeded(reply.data)
    ensures reply.Thrown? ==> r.status == (if Truthy(reply.status) then reply.status else Num(0))
    ensures reply.Thrown? ==> Truthy(r.message)
  {
    match reply
    case Response(status, data) => ApiResult(Succeeded(data), status, data, Get(data, "data"), Undefined)
    case Thrown(status, raw, message) =>
      ApiResult(false, Or(status, Num(0)), raw, Undefined,
                Or(Get(Get(raw, "meta"), "message"), Or(message, Str(RequestFailed))))
  }

  /** A request made to `PUT /record/{companyId}/{recordId}`. */
  datatype Request = JsonPut(payload: JsVal) | FormPut(form: seq<Pair>)

  /** The FORM leg's result given its reply. */
  function FormResult(reply: Reply): (r: ApiResult)
    ensures r.ok <==> reply.Response? && Succeeded(reply.data)
  {
    match reply
    case Response(status, data) =>
      if Succeeded(data) then ApiResult(true, status, data, Undefined, Undefined)
      else ApiResult(false, status, data, Undefined, ExtractYclientsError(data).message)
    case Thrown(status, raw, message) =>
      if Truthy(raw) then ApiResult(false, Or(status, Num(0)), raw, Undefined, ExtractYclientsError(raw).message)
      else ApiResult(false, Or(status, Num(0)), Null, Undefined, Or(message, Str(RequestFailed)))
  }

  datatype Update = Update(result: ApiResult, sent: seq<Request>)

  /** `updateRecord`: a JSON PUT; unless it answers `success: true`, one
      FORM PUT whose result is returned. */
  function UpdateSpec(payload: JsVal, recordId: JsVal, jsonReply: Reply, formReply: Reply): (u: Update)
    ensures 1 <= |u.sent| <= 2 && u.sent[0] == JsonPut(payload)
    ensures !u.result.ok ==> |u.sent| == 2
  {
    if jsonReply.Response? && Succeeded(jsonReply.data) then
      Update(ApiResult(true, jsonReply.status, jsonReply.data, Undefined, Undefined), [JsonPut(payload)])
    else
      Update(FormResult(formReply), [JsonPut(payload), FormPut(FormPairs(payload, recordId))])
  }

  method UpdateRecord(payload: JsVal, recordId: JsVal, jsonReply: Reply, formReply: Reply) returns (u: Update)
    ensures u == UpdateSpec(payload, recordId, jsonReply, formReply)
  {
    var sent := [JsonPut(payload)];
    if jsonReply.Response? && Succeeded(jsonReply.data) {
      return Update(ApiResult(true, jsonReply.status, jsonReply.data, Undefined, Undefined), sent);
    }
    var form := BuildFormFromPayload(payload, recordId);
    sent := sent + [FormPut(form)];
    return Update(FormResult(formReply), sent);
  }

  /** A successful JSON attempt is the only request; anything else (a
      non-success body or an exception) leads to exactly one FORM attempt,
      and the update succeeds exactly when that attempt does. */
  lemma UpdateFallsBackOnce(payload: JsVal, recordId: JsVal, jsonReply: Reply, formReply: Reply)
    ensures var u := UpdateSpec(payload, recordId, jsonReply, formReply);
      && (jsonReply.Response? && Succeeded(jsonReply.data) ==> u.sent == [JsonPut(payload)] && u.result.ok)
      && (!(jsonReply.Response? && Succeeded(jsonReply.data)) ==>
            && |u.sent| == 2 && u.sent[1] == FormPut(FormPairs(payload, recordId))
            && (u.result.ok <==> formReply.Response? && Succeeded(formReply.data)))
      && u.sent[0] == JsonPut(payload)
  {
  }

  /** `String(env || "").trim() === "1"` */
  predicate SetVisit(env: JsVal) { Trim(ToStr(Or(env, Str("")))) == "1" }

  function ConfirmPatch(env: JsVal): map<string, JsVal> {
    if SetVisit(env) then map["attendance" := Num(2), "visit_attendance" := Num(2)] else map["attendance" := Num(2)]
  }

  /** `{ ...upd, builtPayload }`; a failed read returns the read result with
      no payload. */
  datatype Confirm = Confirm(result: ApiResult, builtPayload: JsVal, sent: seq<Request>)

  function ConfirmSpec(recordId: JsVal, readReply: Reply, env: JsVal, jsonReply: Reply, formReply: Reply): (c: Confirm)
    ensures |c.sent| <= 2
    ensures c.sent != [] <==> ReadResult(readReply).ok
    ensures c.result.ok ==> ReadResult(readReply).ok
  {
    var check := ReadResult(readReply);
    if !check.ok then Confirm(check, Undefined, [])
    else
      var rec := Or(check.data, Get(check.raw, "data"));
      var payload := BuildUpdatePayload(rec, recordId, ConfirmPatch(env));
      var u := UpdateSpec(payload, recordId, jsonReply, formReply);
      Confirm(u.result, payload, u.sent)
  }

  /** `confirmRecordInYclients({ companyId, recordId })` */
  method ConfirmRecordInYclients(recordId: JsVal, readReply: Reply, env: JsVal, jsonReply: Reply, formReply: Reply)
    returns (c: Confirm)
    ensures c == ConfirmSpec(recordId, readReply, env, jsonReply, formReply)
  {
    var check := ReadResult(readReply);
    if !check.ok {
      return Confirm(check, Undefined, []);
    }
    var rec := Or(check.data, Get(check.raw, "data"));
    var payload := BuildUpdatePayload(rec, recordId, ConfirmPatch(env));
    var u := UpdateRecord(payload, recordId, jsonReply, formReply);
    return Confirm(u.result, payload, u.sent);
  }

  /** A failed read is returned as it is and nothing is written. After a
      good read the payload sets `attendance` to 2, and `visit_attendance`
      to 2 only when the setting is "1", and is attached to the result. */
  lemma ConfirmWritesAttendance(recordId: JsVal, readReply: Reply, env: JsVal, jsonReply: Reply, formReply: Reply)
    ensures var c := ConfirmSpec(recordId, readReply, env, jsonReply, formReply);
      && (!ReadResult(readReply).ok ==> c.result == ReadResult(readReply) && c.sent == [])
      && (ReadResult(readReply).ok ==>
            && Get(c.builtPayload, "attendance") == Num(2)
            && (SetVisit(env) ==> Get(c.builtPayload, "visit_attendance") == Num(2))
            && |c.sent| >= 1 && c.sent[0] == JsonPut(c.builtPayload))
  {
    var check := ReadResult(readReply);
    var c := ConfirmSpec(recordId, readReply, env, jsonReply, formReply);
    if check.ok {
      var rec := Or(check.data, Get(check.raw, "data"));
      var patch := ConfirmPatch(env);
      var payload := BuildUpdatePayload(rec, recordId, patch);
      var u := UpdateSpec(payload, recordId, jsonReply, formReply);
      assert c.builtPayload == payload && c.sent == u.sent;
      assert u.sent[0] == JsonPut(payload);
      assert patch["attendance"] == Num(2);
      if SetVisit(env) {
        assert patch["visit_attendance"] == Num(2);
      }
    }
  }

  /** Without the setting the payload carries no `visit_attendance` at all:
      the full update does not copy it from the record read. */
  lemma ConfirmOmitsVisitAttendance(recordId: JsVal, readReply: Reply, env: JsVal, jsonReply: Reply, formReply: Reply)
    requires ReadResult(readReply).ok && !SetVisit(env)
    ensures Get(ConfirmSpec(recordId, readReply, env, jsonReply, formReply).builtPayload, "visit_attendance") == Undefined
  {
    var check := ReadResult(readReply);
    var rec := Or(check.data, Get(check.raw, "data"));
    PayloadLacksVisit(rec, recordId, env);
    assert ConfirmSpec(recordId, readReply, env, jsonReply, formReply).builtPayload
      == BuildUpdatePayload(rec, recordId, ConfirmPatch(env));
  }

  /** Neither the record's fields nor the plain confirm patch name
      `visit_attendance`. */
  lemma PayloadLacksVisit(rec: JsVal, recordId: JsVal, env: JsVal)
    requires !SetVisit(env)
    ensures Get(BuildUpdatePayload(rec, recordId, ConfirmPatch(env)), "visit_attendance") == Undefined
  {
    assert "visit_attendance" !in RecordBase(rec, recordId) + ConfirmPatch(env);
  }
}
