/** The YCLIENTS client lookup: the spellings of a phone to try, and the
    shaping of the search reply into a client id or nothing. */
module ClientsService {
  import opened Wrappers
  import opened Text
  import opened JsValue

  /** `phoneVariants(phone)`: a `Set` filled in order and read back as an
      array, so the result keeps the order of first insertion. */
  method PhoneVariants(phone: string) returns (v: seq<string>)
    ensures |v| >= 1 && v[0] == phone
    ensures forall i, j :: 0 <= i < j < |v| ==> v[i] != v[j]
    ensures var digits := DigitsOnly(phone);
      && (digits in v <==> digits != "" || phone == "")
      && (|digits| == 11 && digits[0] == '7' ==> ("8" + digits[1..]) in v && ("+7" + digits[1..]) in v)
      && (!(|digits| == 11 && digits[0] == '7') ==> |v| <= 2)
      && (forall s :: s in v ==>
            (s == phone || s == digits
             || (|digits| == 11 && digits[0] == '7' && (s == "8" + digits[1..] || s == "+7" + digits[1..]))))
  {
    var digits := DigitsOnly(phone);
    if |digits| == 11 && digits[0] == '7' {
      var rest := digits[1..];
      assert ("8" + rest)[0] == '8' && ("+7" + rest)[0] == '+';
      assert "8" + rest != digits && "+7" + rest != digits && "8" + rest != "+7" + rest;
    }
    v := [phone];
    if digits != "" && digits !in v {
      v := v + [digits];
    }
    if |digits| == 11 && digits[0] == '7' && ("8" + digits[1..]) !in v {
      v := v + ["8" + digits[1..]];
    }
    if |digits| == 11 && digits[0] == '7' && ("+7" + digits[1..]) !in v {
      v := v + ["+7" + digits[1..]];
    }
  }

  /** What the search call did: threw, or answered with a body. */
  datatype SearchReply = Threw | Answered(body: JsVal)

  /** The result `{ id, raw }`. */
  datatype FoundClient = FoundClient(id: JsVal, raw: JsVal)

  /** The digits searched for (`None` when no call is made) and the result. */
  datatype Lookup = Lookup(query: Option<string>, client: Option<FoundClient>)

  /** `findClientByPhone({ phone })` given what the search returns. Reading
      `.id` of a `null` first item throws inside the `try`, so it also
      yields `null`. */
  function FindClientByPhone(phone: JsVal, reply: SearchReply): (r: Lookup)
    ensures DigitsOnly(ToStr(Or(phone, Str("")))) == "" ==> r == Lookup(None, None)
    ensures DigitsOnly(ToStr(Or(phone, Str("")))) != "" ==> r.query == Some(DigitsOnly(ToStr(Or(phone, Str("")))))
    ensures reply.Threw? ==> r.client.None?
  {
    var digits := DigitsOnly(ToStr(Or(phone, Str(""))));
    if digits == "" then Lookup(None, None)
    else
      match reply
      case Threw => Lookup(Some(digits), None)
      case Answered(body) =>
        var items := Or(Get(body, "data"), Arr([]));
        if items.Arr? && |items.items| > 0 then
          var first := items.items[0];
          if IsNullish(first) then Lookup(Some(digits), None)
          else Lookup(Some(digits), Some(FoundClient(Get(first, "id"), first)))
        else Lookup(Some(digits), None)
  }

  /** A non-empty result list gives its first item's id (unless that item is
      `null`); an empty or missing list gives nothing. */
  lemma FindClientFirstItem(phone: JsVal, body: JsVal)
    requires DigitsOnly(ToStr(Or(phone, Str("")))) != ""
    ensures var r := FindClientByPhone(phone, Answered(body));
      var items := Get(body, "data");
      && (items.Arr? && |items.items| > 0 && !IsNullish(items.items[0]) ==>
            r.client == Some(FoundClient(Get(items.items[0], "id"), items.items[0])))
      && (!Truthy(items) || items == Arr([]) ==> r.client.None?)
  {
  }
}
