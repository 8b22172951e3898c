/** The JavaScript values the bot receives (parsed JSON webhook bodies,
    API replies, database rows) and the coercions the source applies to
    them: truthiness, `||`, `??`, optional property reads, `String(v)` and
    `Number(v)`. Numbers are integers; `NaN` is the one non-finite number. */
module JsValue {
  import opened Text

  datatype JsVal =
    | Undefined
    | Null
    | Bool(b: bool)
    | Num(n: int)
    | NaN
    | Str(s: string)
    | Arr(items: seq<JsVal>)
    | Obj(fields: map<string, JsVal>)

  /** `v?.name` */
  function Get(v: JsVal, name: string): JsVal {
    match v
    case Obj(m) => if name in m then m[name] else Undefined
    case Arr(xs) => if name == "length" then Num(|xs|) else Undefined
    case Str(s) => if name == "length" then Num(|s|) else Undefined
    case _ => Undefined
  }

  /** `v?.[i]` */
  function At(v: JsVal, i: nat): JsVal {
    match v
    case Arr(xs) => if i < |xs| then xs[i] else Undefined
    case Str(s) => if i < |s| then Str([s[i]]) else Undefined
    case _ => Undefined
  }

  /** `Boolean(v)` */
  predicate Truthy(v: JsVal) {
    match v
    case Undefined => false
    case Null => false
    case Bool(b) => b
    case Num(n) => n != 0
    case NaN => false
    case Str(s) => s != ""
    case Arr(_) => true
    case Obj(_) => true
  }

  /** `a || b` */
  function Or(a: JsVal, b: JsVal): (r: JsVal)
    ensures Truthy(a) ==> r == a
    ensures !Truthy(a) ==> r == b
  {
    if Truthy(a) then a else b
  }

  /** `v == null` (loose equality), i.e. null or undefined. */
  predicate IsNullish(v: JsVal) { v.Null? || v.Undefined? }

  /** `a ?? b` */
  function Coalesce(a: JsVal, b: JsVal): (r: JsVal)
    ensures IsNullish(a) ==> r == b
    ensures !IsNullish(a) ==> r == a
  {
    if IsNullish(a) then b else a
  }

  /** `String(v)`; array elements that are null or undefined print as "".
      Only strings and arrays can print blank. */
  function ToStr(v: JsVal): (r: string)
    ensures !v.Str? && !v.Arr? ==> r != "" && !IsJsWhitespace(r[0])
  {
    match v
    case Undefined => "undefined"
    case Null => "null"
    case Bool(b) => if b then "true" else "false"
    case Num(n) => IntToStringShape(n); IntToString(n)
    case NaN => "NaN"
    case Str(s) => s
    case Arr(xs) =>
      Join(seq(|xs|, i requires 0 <= i < |xs| => if IsNullish(xs[i]) then "" else ToStr(xs[i])), ",")
    case Obj(_) => "[object Object]"
  }

  /** `Number(s)` for a string: surrounding whitespace is ignored, the empty
      string is 0, an optional sign followed by decimal digits is that
      integer, and anything else is NaN. */
  function StringToNumber(s: string): (r: JsVal)
    ensures r.Num? || r.NaN?
  {
    var t := Trim(s);
    if t == "" then Num(0)
    else if |t| >= 2 && t[0] == '-' && AllDigits(t[1..]) then Num(-(ParseNat(t[1..]) as int))
    else if |t| >= 2 && t[0] == '+' && AllDigits(t[1..]) then Num(ParseNat(t[1..]))
    else if AllDigits(t) then Num(ParseNat(t))
    else NaN
  }

  /** `Number(v)` */
  function ToNumber(v: JsVal): (r: JsVal)
    ensures r.Num? || r.NaN?
  {
    match v
    case Undefined => NaN
    case Null => Num(0)
    case Bool(b) => Num(if b then 1 else 0)
    case Num(n) => v
    case NaN => NaN
    case Str(s) => StringToNumber(s)
    case Arr(_) => StringToNumber(ToStr(v))
    case Obj(_) => NaN
  }

  /** Reading back the decimal form of an integer gives the integer. */
  lemma NumberOfIntString(n: int)
    ensures StringToNumber(IntToString(n)) == Num(n)
  {
    IntToStringShape(n);
    if n < 0 {
      NumberOfNegString(-n);
    } else {
      NumberOfNatString(n);
    }
  }

  lemma NumberOfNatString(m: nat)
    ensures StringToNumber(NatToString(m)) == Num(m)
  {
    var s := NatToString(m);
    TrimOfDigits(s);
    ParseNatToString(m);
    assert s[0] != '-' && s[0] != '+';
  }

  lemma NumberOfNegString(m: nat)
    requires m > 0
    ensures StringToNumber("-" + NatToString(m)) == Num(-(m as int))
  {
    var d := NatToString(m);
    var s := "-" + d;
    assert s[1..] == d;
    TrimOfDigits(s);
    ParseNatToString(m);
  }

  lemma NumberOfString(n: int)
    ensures ToNumber(Str(ToStr(Num(n)))) == Num(n)
  {
    NumberOfIntString(n);
  }

  /** `isEmpty(value)` of the rule files: null, undefined, or a value whose
      string form is blank. */
  predicate IsEmpty(v: JsVal) {
    v.Null? || v.Undefined? || Trim(ToStr(v)) == ""
  }

  /** `safe(value, fallback)` */
  function Safe(v: JsVal, fallback: string): (r: string)
    ensures IsEmpty(v) ==> r == fallback
    ensures !IsEmpty(v) ==> r == ToStr(v) && Trim(r) != ""
  {
    if IsEmpty(v) then fallback else ToStr(v)
  }

  /** Which values count as empty: null and undefined, strings made only of
      whitespace, and arrays printing as blank; never a number, boolean,
      NaN or plain object. */
  lemma IsEmptyCases(v: JsVal)
    ensures v.Str? ==> (IsEmpty(v) <==> AllWhitespace(v.s))
    ensures v.Num? || v.Bool? || v.NaN? || v.Obj? ==> !IsEmpty(v)
    ensures v == Arr([]) ==> IsEmpty(v)
  {
    TrimEmptyIffBlank(ToStr(v));
  }

  /** `||` and `isEmpty` disagree: `false`, `0` and `NaN` are falsy but not
      empty, and a blank string or `[]` is truthy but empty; null, undefined
      and "" are both. */
  lemma FalsyVersusEmpty(v: JsVal)
    ensures !Truthy(v) ==> (IsEmpty(v) <==> !(v.Bool? || v.Num? || v.NaN?))
    ensures Truthy(v) && IsEmpty(v) ==> v.Str? || v.Arr?
    ensures v == Str(" ") ==> Truthy(v) && IsEmpty(v)
  {
    IsEmptyCases(v);
    if v == Str(" ") {
      assert AllWhitespace(v.s) by { assert IsJsWhitespace(v.s[0]); }
    }
  }
}
