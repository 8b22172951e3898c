/** The confirmed rule: a stub that filters update events of confirmed
    records and then does nothing; it keeps no state and sends nothing. */
module ConfirmedRule {
  import opened JsValue
  import opened RecordEvent
  import NotConfirmedRule

  /** `a === 2 || va === 2 || c === 1` over the `Number` readings. */
  predicate LooksConfirmed(data: JsVal) {
    ToNumber(Get(data, "attendance")) == Num(2) || ToNumber(Get(data, "visit_attendance")) == Num(2)
    || ToNumber(Get(data, "confirmed")) == Num(1)
  }

  /** Whether `confirmedRule` gets past every guard. Nothing follows in
      either case, so this verdict is the whole behaviour. */
  function Reaches(body: JsVal, adminChatId: string): (r: bool)
    ensures adminChatId == "" ==> !r
    ensures !IsRecord(body) || Get(body, "status") != Str("update") || IsDeletedFlag(body) ==> !r
  {
    adminChatId != "" && IsRecord(body) && Get(body, "status") == Str("update") && !IsDeletedFlag(body)
    && LooksConfirmed(Data(body))
  }

  /** A record the not-confirmed rule treats as confirmed also passes this
      rule's test, which is looser (it also takes attendance 2). */
  lemma AgreesWithNotConfirmed(body: JsVal)
    requires NotConfirmedRule.IsConfirmed(NotConfirmedRule.Confirmed(body))
    ensures LooksConfirmed(Data(body))
  {
    NotConfirmedRule.IsConfirmedIsStrict(NotConfirmedRule.Confirmed(body));
  }
}
