/** Phone normalisation to the `+<digits>` form the link table stores. */
module Phone {
  import opened Wrappers
  import opened Text
  import opened JsValue

  /** The digits after the Russian trunk-prefix fix: 11 digits starting
      with 8 become 7 followed by the same ten digits. */
  function FixTrunk(digits: string): (r: string)
    requires AllDigits(digits)
    ensures AllDigits(r) && |r| == |digits|
  {
    if |digits| == 11 && digits[0] == '8' then "7" + digits[1..] else digits
  }

  /** `normalizePhone(raw)`: `null` for a falsy value; otherwise the digits
      of `String(raw)`, trunk-fixed, with "+7" put in front of ten digits and
      "+" in front of anything else. */
  function NormalizePhone(raw: JsVal): (r: Option<string>)
    ensures r.None? <==> !Truthy(raw)
    ensures r.Some? ==> |r.value| >= 1 && r.value[0] == '+' && AllDigits(r.value[1..])
  {
    if !Truthy(raw) then None
    else
      var digits := FixTrunk(DigitsOnly(ToStr(raw)));
      if |digits| == 11 && digits[0] == '7' then Some("+" + digits)
      else if |digits| == 10 then Some("+7" + digits)
      else Some("+" + digits)
  }

  /** The Russian cases: `8XXXXXXXXXX` and `7XXXXXXXXXX` both give
      `+7XXXXXXXXXX`, and ten digits get `+7` in front. */
  lemma NormalizeRussian(raw: JsVal)
    requires Truthy(raw)
    ensures var d := DigitsOnly(ToStr(raw));
      && (|d| == 11 && (d[0] == '8' || d[0] == '7') ==> NormalizePhone(raw) == Some("+7" + d[1..]))
      && (|d| == 10 ==> NormalizePhone(raw) == Some("+7" + d))
  {
    var d := DigitsOnly(ToStr(raw));
    if |d| == 11 && d[0] == '7' {
      assert "+" + d == "+7" + d[1..];
    } else if |d| == 11 && d[0] == '8' {
      var f := FixTrunk(d);
      assert f == "7" + d[1..];
      assert |f| == 11 && f[0] == '7';
      assert "+" + f == "+7" + d[1..];
    }
  }

  /** A string that has no digit normalises to "+", which is truthy, so
      callers testing the result for emptiness never see one. */
  lemma NoDigitsGivesPlus(s: string)
    requires s != "" && DigitsOnly(s) == ""
    ensures NormalizePhone(Str(s)) == Some("+")
  {
    assert Truthy(Str(s));
    assert ToStr(Str(s)) == s;
    assert FixTrunk(DigitsOnly(s)) == "";
    assert "+" + "" == "+";
  }

  /** Normalising a normalised phone gives it back. */
  lemma NormalizeIdempotent(raw: JsVal)
    requires Truthy(raw)
    ensures var p := NormalizePhone(raw).value; NormalizePhone(Str(p)) == Some(p)
  {
    var digits := FixTrunk(DigitsOnly(ToStr(raw)));
    var tail := if |digits| == 11 && digits[0] == '7' then digits
                else if |digits| == 10 then "7" + digits
                else digits;
    assert NormalizePhone(raw).value == "+" + tail;
    if |digits| == 10 {
      assert |tail| == 11 && tail[0] == '7';
    } else if !(|digits| == 11 && digits[0] == '7') {
      assert !(|digits| == 11 && digits[0] == '8');
    }
    PlusDigitsFixed(tail);
  }

  /** `+` and digits that neither need the trunk fix nor are ten long
      normalise to themselves. */
  lemma PlusDigitsFixed(tail: string)
    requires AllDigits(tail) && |tail| != 10 && !(|tail| == 11 && tail[0] == '8')
    ensures NormalizePhone(Str("+" + tail)) == Some("+" + tail)
  {
    var p := "+" + tail;
    assert Truthy(Str(p)) && ToStr(Str(p)) == p;
    DigitsOnlyAppend("+", tail);
    DigitsOnlyOfDigits(tail);
    assert DigitsOnly("+") == "";
    assert DigitsOnly(p) == tail;
    assert FixTrunk(tail) == tail;
  }
}
