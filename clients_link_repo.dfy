/** The `clients_link` table: one row per (company, Telegram user) linking a
    Telegram chat to a normalised phone, `pending` until the client is found
    in YCLIENTS and then `linked`. Rows are kept in insertion order; `now()`
    of the database is the `now` parameter of each write. */
module ClientsLinkRepo {
  import opened Wrappers
  import opened Text
  import opened JsValue
  import Phone

  /** `toBigIntString(v)`: null, undefined and NaN give nothing, a number its
      decimal form, anything else its trimmed string form unless blank. */
  function ToBigIntString(v: JsVal): (r: Option<string>)
    ensures IsNullish(v) || v.NaN? ==> r.None?
    ensures r.Some? ==> r.value != ""
  {
    match v
    case Undefined => None
    case Null => None
    case NaN => None
    case Num(n) => Some(IntToString(n))
    case _ => var s := Trim(ToStr(v)); if s == "" then None else Some(s)
  }

  /** A number id round-trips: the string handed to the database reads back
      as the same integer, and a string id is passed on trimmed. */
  lemma BigIntStringOfNumber(n: int, s: string)
    ensures ToNumber(Str(ToBigIntString(Num(n)).value)) == Num(n)
    ensures ToBigIntString(Str(s)).None? <==> Trim(s) == ""
    ensures ToBigIntString(Str(s)).Some? ==> ToBigIntString(Str(s)).value == Trim(s)
  {
    NumberOfIntString(n);
  }

  /** `toInt(v)` with the `null` fallback: `Number(v)` when finite. */
  function ToInt(v: JsVal): (r: Option<int>)
    ensures r.Some? <==> ToNumber(v).Num?
    ensures r.Some? ==> ToNumber(v) == Num(r.value)
  {
    match ToNumber(v)
    case Num(n) => Some(n)
    case _ => None
  }

  /** `toInt(v, fallback)` with a number fallback. */
  function ToIntOr(v: JsVal, fallback: int): (r: int)
    ensures ToNumber(v).NaN? ==> r == fallback
    ensures ToNumber(v).Num? ==> r == ToNumber(v).n
  {
    match ToInt(v)
    case Some(n) => n
    case None => fallback
  }

  /** `const company = toInt(companyId); if (!company) throw …`: the company
      must be a finite, non-zero number. */
  function Company(companyId: JsVal): (r: Option<int>)
    ensures r.Some? ==> r.value != 0
  {
    match ToInt(companyId)
    case Some(n) => if n == 0 then None else Some(n)
    case None => None
  }

  /** Which companies are accepted: numbers and numeric strings other than
      zero; `null`, `""` and non-numeric strings are not. */
  lemma CompanyCases(n: int)
    ensures Company(Num(n)) == (if n == 0 then None else Some(n))
    ensures Company(Str(IntToString(n))) == Company(Num(n))
    ensures Company(Null) == None && Company(Str("")) == None && Company(Undefined) == None
  {
    NumberOfIntString(n);
  }

  /** The reasons a repository call throws. */
  datatype RepoError = InvalidCompany | EmptyPhone | InvalidTelegramUser | InvalidTelegramChat | InvalidYclientsClient

  datatype Result<T> = Ok(value: T) | Err(error: RepoError)

  datatype LinkStatus = Pending | Linked

  datatype LinkRow = LinkRow(id: nat, companyId: int, phone: string, tgUser: string, tgChat: string,
                             status: LinkStatus, ycClientId: Option<string>,
                             createdAt: int, updatedAt: int, linkedAt: Option<int>)

  /** The unique constraint on (company_id, telegram_user_id). */
  predicate Unique(rows: seq<LinkRow>) {
    forall i, j :: 0 <= i < j < |rows| ==> !(rows[i].companyId == rows[j].companyId && rows[i].tgUser == rows[j].tgUser)
  }

  /** Ids come from a sequence: increasing in insertion order and below the next one. */
  predicate IdsBelow(rows: seq<LinkRow>, nextId: nat) {
    && (forall i :: 0 <= i < |rows| ==> rows[i].id < nextId)
    && (forall i, j :: 0 <= i < j < |rows| ==> rows[i].id < rows[j].id)
  }

  /** Rows are inserted at the time they are created, so creation times
      never decrease along the table. */
  predicate CreatedInOrder(rows: seq<LinkRow>) {
    forall i, j :: 0 <= i < j < |rows| ==> rows[i].createdAt <= rows[j].createdAt
  }

  predicate TableInvariant(rows: seq<LinkRow>, nextId: nat) {
    Unique(rows) && IdsBelow(rows, nextId) && CreatedInOrder(rows)
  }

  /** The database clock does not run backwards: `now` is not earlier than
      any time already written. */
  predicate NotBefore(rows: seq<LinkRow>, now: int) {
    forall i :: 0 <= i < |rows| ==> rows[i].createdAt <= now && rows[i].updatedAt <= now
  }

  /** Appending a fresh row for a new (company, user) keeps the invariant. */
  lemma AppendKeeps(rows: seq<LinkRow>, nextId: nat, row: LinkRow, now: int)
    requires TableInvariant(rows, nextId) && NotBefore(rows, now)
    requires FindUser(rows, row.companyId, row.tgUser).None?
    requires row.id == nextId && row.createdAt == now && row.updatedAt == now
    ensures TableInvariant(rows + [row], nextId + 1) && NotBefore(rows + [row], now)
  {
    var rs := rows + [row];
    forall i, j | 0 <= i < j < |rs|
      ensures !(rs[i].companyId == rs[j].companyId && rs[i].tgUser == rs[j].tgUser)
      ensures rs[i].id < rs[j].id && rs[i].createdAt <= rs[j].createdAt
    {
      if j == |rows| {
        assert rs[i] == rows[i] && rs[j] == row;
      }
    }
  }

  /** Rewriting a row without touching its key, id or creation time keeps
      the invariant. */
  lemma ReplaceKeeps(rows: seq<LinkRow>, nextId: nat, i: nat, row: LinkRow, now: int)
    requires TableInvariant(rows, nextId) && NotBefore(rows, now) && i < |rows|
    requires row.companyId == rows[i].companyId && row.tgUser == rows[i].tgUser
    requires row.id == rows[i].id && row.createdAt == rows[i].createdAt && row.updatedAt <= now
    ensures TableInvariant(rows[i := row], nextId) && NotBefore(rows[i := row], now)
  {
  }

  /** The row of (company, user), if any. */
  function FindUser(rows: seq<LinkRow>, company: int, user: string): (r: Option<nat>)
    ensures r.Some? ==> r.value < |rows| && rows[r.value].companyId == company && rows[r.value].tgUser == user
    ensures r.None? ==> forall i :: 0 <= i < |rows| ==> !(rows[i].companyId == company && rows[i].tgUser == user)
    decreases |rows|
  {
    if rows == [] then None
    else if rows[|rows| - 1].companyId == company && rows[|rows| - 1].tgUser == user then Some(|rows| - 1)
    else FindUser(rows[..|rows| - 1], company, user)
  }

  /** The table after a write, its next id, and what the call returns. */
  datatype Write<T> = Write(rows: seq<LinkRow>, nextId: nat, result: Result<T>)

  /** The arguments `upsertClientLink` writes, once checked. */
  datatype LinkArgs = LinkArgs(company: int, phone: string, user: string, chat: string)

  /** The checks of `upsertClientLink`, in the source's order: company,
      phone, user, chat. */
  function CheckUpsert(companyId: JsVal, phone: JsVal, telegramUserId: JsVal, telegramChatId: JsVal): Result<LinkArgs> {
    var company := Company(companyId);
    var p := Phone.NormalizePhone(phone);
    var user := ToBigIntString(telegramUserId);
    var chat := ToBigIntString(telegramChatId);
    if company.None? then Err(InvalidCompany)
    else if p.None? then Err(EmptyPhone)
    else if user.None? then Err(InvalidTelegramUser)
    else if chat.None? then Err(InvalidTelegramChat)
    else Ok(LinkArgs(company.value, p.value, user.value, chat.value))
  }

  /** `upsertClientLink`: validate, then insert a `pending` row or, on a
      conflict over (company, user), replace only the phone, the chat and
      `updated_at`. */
  function Upsert(rows: seq<LinkRow>, nextId: nat, companyId: JsVal, phone: JsVal,
                  telegramUserId: JsVal, telegramChatId: JsVal, now: int): (w: Write<LinkRow>)
    ensures var c := CheckUpsert(companyId, phone, telegramUserId, telegramChatId);
      && (c.Err? ==> w == Write(rows, nextId, Err(c.error)))
      && (c.Ok? ==>
            && w.result.Ok? && w.result.value in w.rows && w.result.value.updatedAt == now
            && w.result.value.companyId == c.value.company && w.result.value.tgUser == c.value.user
            && w.result.value.phone == c.value.phone && w.result.value.tgChat == c.value.chat)
  {
    match CheckUpsert(companyId, phone, telegramUserId, telegramChatId)
    case Err(e) => Write(rows, nextId, Err(e))
    case Ok(a) => Store(rows, nextId, a.company, a.phone, a.user, a.chat, now)
  }

  /** The `INSERT … ON CONFLICT DO UPDATE` itself, on checked arguments. */
  function Store(rows: seq<LinkRow>, nextId: nat, company: int, p: string, user: string, chat: string, now: int): (w: Write<LinkRow>)
    ensures w.result.Ok? && w.result.value in w.rows
    ensures var row := w.result.value;
      row.companyId == company && row.tgUser == user && row.phone == p && row.tgChat == chat && row.updatedAt == now
  {
    match FindUser(rows, company, user)
    case None =>
      var row := LinkRow(nextId, company, p, user, chat, Pending, None, now, now, None);
      Write(rows + [row], nextId + 1, Ok(row))
    case Some(i) =>
      var row := rows[i].(phone := p, tgChat := chat, updatedAt := now);
      assert rows[i := row][i] == row;
      Write(rows[i := row], nextId, Ok(row))
  }

  /** The insert keeps the unique constraint, the id sequence and the
      creation order of the table. */
  lemma StoreKeepsInvariant(rows: seq<LinkRow>, nextId: nat, company: int, p: string, user: string, chat: string, now: int)
    requires TableInvariant(rows, nextId) && NotBefore(rows, now)
    ensures var w := Store(rows, nextId, company, p, user, chat, now);
      TableInvariant(w.rows, w.nextId) && NotBefore(w.rows, now)
  {
    var w := Store(rows, nextId, company, p, user, chat, now);
    match FindUser(rows, company, user)
    case None =>
      AppendKeeps(rows, nextId, w.result.value, now);
    case Some(i) =>
      ReplaceKeeps(rows, nextId, i, w.result.value, now);
  }

  /** `markClientLinked`: validate, then set the YCLIENTS id, `linked` and
      both times on the row of (company, user); `null` when there is none. */
  function MarkLinked(rows: seq<LinkRow>, nextId: nat, companyId: JsVal, telegramUserId: JsVal,
                      yclientsClientId: JsVal, now: int): (w: Write<Option<LinkRow>>)
    ensures w.nextId == nextId && |w.rows| == |rows|
    ensures w.result.Ok? && w.result.value.Some? ==>
      w.result.value.value in w.rows && w.result.value.value.status == Linked && w.result.value.value.linkedAt == Some(now)
  {
    var company := Company(companyId);
    var user := ToBigIntString(telegramUserId);
    var yc := ToBigIntString(yclientsClientId);
    if company.None? then Write(rows, nextId, Err(InvalidCompany))
    else if user.None? then Write(rows, nextId, Err(InvalidTelegramUser))
    else if yc.None? then Write(rows, nextId, Err(InvalidYclientsClient))
    else
      match FindUser(rows, company.value, user.value)
      case None => Write(rows, nextId, Ok(None))
      case Some(i) =>
        var row := rows[i].(ycClientId := Some(yc.value), status := Linked, linkedAt := Some(now), updatedAt := now);
        assert rows[i := row][i] == row;
        Write(rows[i := row], nextId, Ok(Some(row)))
  }

  class LinkTable {
    var rows: seq<LinkRow>
    var nextId: nat

    predicate Valid()
      reads this
    {
      TableInvariant(rows, nextId)
    }

    constructor ()
      ensures Valid() && rows == []
    {
      rows := [];
      nextId := 1;
    }

    /** The index of the row of (company, user), scanning the table. */
    method Lookup(company: int, user: string) returns (r: Option<nat>)
      ensures r == FindUser(rows, company, user)
    {
      var n := |rows|;
      assert rows[..n] == rows;
      while n > 0
        invariant 0 <= n <= |rows|
        invariant FindUser(rows, company, user) == FindUser(rows[..n], company, user)
        decreases n
      {
        if rows[n - 1].companyId == company && rows[n - 1].tgUser == user {
          assert rows[..n][n - 1] == rows[n - 1];
          return Some(n - 1);
        }
        assert rows[..n][..n - 1] == rows[..n - 1];
        n := n - 1;
      }
      return None;
    }

    method UpsertClientLink(companyId: JsVal, phone: JsVal, telegramUserId: JsVal, telegramChatId: JsVal, now: int)
      returns (r: Result<LinkRow>)
      requires Valid() && NotBefore(rows, now)
      modifies this
      ensures Valid()
      ensures Write(rows, nextId, r) == Upsert(old(rows), old(nextId), companyId, phone, telegramUserId, telegramChatId, now)
    {
      var args := CheckUpsert(companyId, phone, telegramUserId, telegramChatId);
      if args.Err? {
        return Err(args.error);
      }
      var row := StoreRow(args.value.company, args.value.phone, args.value.user, args.value.chat, now);
      return Ok(row);
    }

    /** The `INSERT … ON CONFLICT DO UPDATE` on checked arguments. */
    method StoreRow(company: int, p: string, user: string, chat: string, now: int) returns (row: LinkRow)
      requires Valid() && NotBefore(rows, now)
      modifies this
      ensures Valid()
      ensures Write(rows, nextId, Ok(row)) == Store(old(rows), old(nextId), company, p, user, chat, now)
    {
      StoreKeepsInvariant(rows, nextId, company, p, user, chat, now);
      var found := Lookup(company, user);
      if found.None? {
        row := LinkRow(nextId, company, p, user, chat, Pending, None, now, now, None);
        rows := rows + [row];
        nextId := nextId + 1;
        return;
      }
      var i := found.value;
      row := rows[i].(phone := p, tgChat := chat, updatedAt := now);
      rows := rows[i := row];
    }

    method MarkClientLinked(companyId: JsVal, telegramUserId: JsVal, yclientsClientId: JsVal, now: int)
      returns (r: Result<Option<LinkRow>>)
      requires Valid() && NotBefore(rows, now)
      modifies this
      ensures Valid() && nextId == old(nextId)
      ensures var w := MarkLinked(old(rows), old(nextId), companyId, telegramUserId, yclientsClientId, now);
        rows == w.rows && nextId == w.nextId && r == w.result
    {
      var company := Company(companyId);
      if company.None? { return Err(InvalidCompany); }
      var user := ToBigIntString(telegramUserId);
      if user.None? { return Err(InvalidTelegramUser); }
      var yc := ToBigIntString(yclientsClientId);
      if yc.None? { return Err(InvalidYclientsClient); }
      var found := Lookup(company.value, user.value);
      if found.None? {
        return Ok(None);
      }
      var i := found.value;
      var row := rows[i].(ycClientId := Some(yc.value), status := Linked, linkedAt := Some(now), updatedAt := now);
      ReplaceKeeps(rows, nextId, i, row, now);
      rows := rows[i := row];
      return Ok(Some(row));
    }
  }

  /** A rejected upsert throws before the table is touched; the checks run
      in the source's order: company, phone, user, chat. */
  lemma UpsertRejects(rows: seq<LinkRow>, nextId: nat, companyId: JsVal, phone: JsVal,
                      telegramUserId: JsVal, telegramChatId: JsVal, now: int)
    ensures var w := Upsert(rows, nextId, companyId, phone, telegramUserId, telegramChatId, now);
      && (w.result.Err? ==> w.rows == rows && w.nextId == nextId)
      && (w.result == Err(InvalidCompany) <==> Company(companyId).None?)
      && (w.result == Err(EmptyPhone) <==> Company(companyId).Some? && !Truthy(phone))
      && (w.result.Err? <==>
            (Company(companyId).None? || !Truthy(phone)
             || ToBigIntString(telegramUserId).None? || ToBigIntString(telegramChatId).None?))
  {
  }

  /** A first upsert for (company, user) appends a `pending` row with the
      normalised phone and a fresh id; a repeated one keeps the row's id,
      status, YCLIENTS id and creation and link times, and changes only its
      phone, chat and `updated_at`. No other row changes. */
  lemma UpsertInsertsOrUpdates(rows: seq<LinkRow>, nextId: nat, companyId: JsVal, phone: JsVal,
                               telegramUserId: JsVal, telegramChatId: JsVal, now: int)
    requires Company(companyId).Some? && Truthy(phone)
    requires ToBigIntString(telegramUserId).Some? && ToBigIntString(telegramChatId).Some?
    ensures var w := Upsert(rows, nextId, companyId, phone, telegramUserId, telegramChatId, now);
      var company := Company(companyId).value;
      var user := ToBigIntString(telegramUserId).value;
      var chat := ToBigIntString(telegramChatId).value;
      var p := Phone.NormalizePhone(phone).value;
      && w.result.Ok?
      && w.result.value.companyId == company && w.result.value.tgUser == user
      && w.result.value.phone == p && w.result.value.tgChat == chat && w.result.value.updatedAt == now
      && (FindUser(rows, company, user).None? ==>
            && w.rows == rows + [w.result.value] && w.nextId == nextId + 1
            && w.result.value.status == Pending && w.result.value.id == nextId && w.result.value.createdAt == now)
      && (FindUser(rows, company, user).Some? ==>
            var i := FindUser(rows, company, user).value;
            && |w.rows| == |rows| && w.nextId == nextId && w.rows[i] == w.result.value
            && w.result.value == rows[i].(phone := p, tgChat := chat, updatedAt := now)
            && (forall k :: 0 <= k < |rows| && k != i ==> w.rows[k] == rows[k]))
  {
  }

  /** Upserts keep the table invariant. */
  lemma UpsertKeepsInvariant(rows: seq<LinkRow>, nextId: nat, companyId: JsVal, phone: JsVal,
                             telegramUserId: JsVal, telegramChatId: JsVal, now: int)
    requires TableInvariant(rows, nextId) && NotBefore(rows, now)
    ensures var w := Upsert(rows, nextId, companyId, phone, telegramUserId, telegramChatId, now);
      TableInvariant(w.rows, w.nextId) && NotBefore(w.rows, now)
  {
    match CheckUpsert(companyId, phone, telegramUserId, telegramChatId)
    case Err(_) =>
    case Ok(a) => StoreKeepsInvariant(rows, nextId, a.company, a.phone, a.user, a.chat, now);
  }

  /** `markClientLinked` links exactly the row of (company, user), keeping
      its phone and chat, and returns it; with no such row it returns `null`
      and changes nothing. */
  lemma MarkLinkedOnlyMatching(rows: seq<LinkRow>, nextId: nat, companyId: JsVal, telegramUserId: JsVal,
                               yclientsClientId: JsVal, now: int)
    requires Company(companyId).Some? && ToBigIntString(telegramUserId).Some? && ToBigIntString(yclientsClientId).Some?
    ensures var w := MarkLinked(rows, nextId, companyId, telegramUserId, yclientsClientId, now);
      var found := FindUser(rows, Company(companyId).value, ToBigIntString(telegramUserId).value);
      && w.result.Ok? && w.nextId == nextId
      && (found.None? ==> w.result.value.None? && w.rows == rows)
      && (found.Some? ==>
            var i := found.value;
            && w.result.value == Some(w.rows[i]) && |w.rows| == |rows|
            && w.rows[i].status == Linked && w.rows[i].ycClientId == Some(ToBigIntString(yclientsClientId).value)
            && w.rows[i].phone == rows[i].phone && w.rows[i].tgChat == rows[i].tgChat && w.rows[i].id == rows[i].id
            && (forall k :: 0 <= k < |rows| && k != i ==> w.rows[k] == rows[k]))
  {
  }

  /** A `linked` row of the company with the phone. */
  predicate LinkedMatch(row: LinkRow, company: int, p: string) {
    row.companyId == company && row.phone == p && row.status == Linked
  }

  /** The `ORDER BY updated_at DESC, id DESC` order: `a` sorts after `b`. */
  predicate NotAfter(a: LinkRow, b: LinkRow) {
    a.updatedAt < b.updatedAt || (a.updatedAt == b.updatedAt && a.id <= b.id)
  }

  /** The first row of that order among the matching rows of `rows[..n]`. */
  function Latest(rows: seq<LinkRow>, company: int, p: string, n: nat): (r: Option<nat>)
    requires n <= |rows|
    ensures r.Some? ==> r.value < n && LinkedMatch(rows[r.value], company, p)
    ensures r.Some? ==> forall j :: 0 <= j < n && LinkedMatch(rows[j], company, p) ==> NotAfter(rows[j], rows[r.value])
    ensures r.None? <==> forall j :: 0 <= j < n ==> !LinkedMatch(rows[j], company, p)
    decreases n
  {
    if n == 0 then None
    else
      var prev := Latest(rows, company, p, n - 1);
      if !LinkedMatch(rows[n - 1], company, p) then prev
      else if prev.None? || NotAfter(rows[prev.value], rows[n - 1]) then Some(n - 1)
      else prev
  }

  /** `getLinkedChatByPhone`: the chat of the most recently updated linked
      row for the company and the normalised phone. */
  function LinkedChatByPhone(rows: seq<LinkRow>, companyId: JsVal, phone: JsVal): (r: Result<Option<string>>)
    ensures r.Err? <==> Company(companyId).None?
    ensures r.Ok? && r.value.Some? ==>
      exists i :: 0 <= i < |rows| && rows[i].status == Linked && rows[i].tgChat == r.value.value
  {
    var company := Company(companyId);
    if company.None? then Err(InvalidCompany)
    else
      match Phone.NormalizePhone(phone)
      case None => Ok(None)
      case Some(p) =>
        match Latest(rows, company.value, p, |rows|)
        case None => Ok(None)
        case Some(i) => Ok(Some(rows[i].tgChat))
  }

  /** A falsy phone gives `null`; otherwise the answer is the chat of a
      linked row with that company and phone that no other such row
      outranks, and `null` exactly when there is none. */
  lemma LinkedChatIsLatest(rows: seq<LinkRow>, companyId: JsVal, phone: JsVal)
    requires Company(companyId).Some?
    ensures !Truthy(phone) ==> LinkedChatByPhone(rows, companyId, phone) == Ok(None)
    ensures Truthy(phone) ==>
      var company := Company(companyId).value;
      var p := Phone.NormalizePhone(phone).value;
      var r := LinkedChatByPhone(rows, companyId, phone);
      && r.Ok?
      && (r.value.None? <==> forall j :: 0 <= j < |rows| ==> !LinkedMatch(rows[j], company, p))
      && (r.value.Some? ==>
            exists i :: (0 <= i < |rows| && LinkedMatch(rows[i], company, p) && rows[i].tgChat == r.value.value
              && forall j :: 0 <= j < |rows| && LinkedMatch(rows[j], company, p) ==> NotAfter(rows[j], rows[i])))
  {
    if Truthy(phone) {
      var company := Company(companyId).value;
      var p := Phone.NormalizePhone(phone).value;
      var l := Latest(rows, company, p, |rows|);
      var r := LinkedChatByPhone(rows, companyId, phone);
      assert r == Ok(if l.None? then None else Some(rows[l.value].tgChat));
      if l.Some? {
        var i := l.value;
        assert 0 <= i < |rows| && LinkedMatch(rows[i], company, p) && rows[i].tgChat == r.value.value;
      }
    }
  }

  /** `Math.max(1, toInt(limit, 20))` */
  function PendingLimit(limit: JsVal): (r: nat)
    ensures r >= 1
    ensures ToNumber(limit).NaN? ==> r == 20
    ensures ToNumber(limit).Num? && ToNumber(limit).n >= 1 ==> r == ToNumber(limit).n
  {
    var n := ToIntOr(limit, 20);
    if n < 1 then 1 else n
  }

  predicate PendingOf(row: LinkRow, company: int) {
    row.companyId == company && row.status == Pending
  }

  /** The pending rows of the company, in table order. */
  function PendingRows(rows: seq<LinkRow>, company: int): (r: seq<LinkRow>)
    ensures forall x :: x in r <==> x in rows && PendingOf(x, company)
    ensures CreatedInOrder(rows) ==> CreatedInOrder(r)
    decreases |rows|
  {
    if rows == [] then []
    else
      var rest := PendingRows(rows[1..], company);
      assert forall x :: x in rows[1..] ==> x in rows;
      if PendingOf(rows[0], company) then
        HeadBeforeRest(rows, rest);
        [rows[0]] + rest
      else rest
  }

  /** The first row of a table in creation order is not later than any row
      taken from the rest of it. */
  lemma HeadBeforeRest(rows: seq<LinkRow>, rest: seq<LinkRow>)
    requires rows != [] && forall x :: x in rest ==> x in rows[1..]
    requires CreatedInOrder(rows) ==> CreatedInOrder(rest)
    ensures CreatedInOrder(rows) ==> CreatedInOrder([rows[0]] + rest)
  {
    if CreatedInOrder(rows) {
      var r := [rows[0]] + rest;
      forall i, j | 0 <= i < j < |r|
        ensures r[i].createdAt <= r[j].createdAt
      {
        if i == 0 {
          assert r[j] in rows[1..];
          var k :| 0 <= k < |rows[1..]| && rows[1..][k] == r[j];
          assert rows[k + 1] == r[j];
        } else {
          assert r[i] == rest[i - 1] && r[j] == rest[j - 1];
        }
      }
    }
  }

  /** `getPendingLinks`: at most `limit` (at least one) pending rows of the
      company, the oldest first. */
  function PendingLinks(rows: seq<LinkRow>, companyId: JsVal, limit: JsVal): (r: Result<seq<LinkRow>>)
    ensures r.Err? <==> Company(companyId).None?
    ensures r.Ok? ==> |r.value| <= PendingLimit(limit) && forall x :: x in r.value ==> x.status == Pending
  {
    var company := Company(companyId);
    if company.None? then Err(InvalidCompany)
    else
      var all := PendingRows(rows, company.value);
      var taken := if |all| <= PendingLimit(limit) then all else all[..PendingLimit(limit)];
      assert forall x :: x in taken ==> x in all;
      Ok(taken)
  }

  /** `ORDER BY created_at ASC LIMIT $2`: only pending rows of the company
      come back, as many as the limit allows, sorted by creation time, and no
      pending row left out is older than one returned. */
  lemma PendingLinksSelects(rows: seq<LinkRow>, nextId: nat, companyId: JsVal, limit: JsVal)
    requires TableInvariant(rows, nextId) && Company(companyId).Some?
    ensures var r := PendingLinks(rows, companyId, limit);
      var company := Company(companyId).value;
      var all := PendingRows(rows, company);
      && r.Ok?
      && 1 <= PendingLimit(limit)
      && |r.value| == (if |all| <= PendingLimit(limit) then |all| else PendingLimit(limit))
      && r.value <= all
      && (forall x :: x in r.value ==> x in rows && PendingOf(x, company))
      && CreatedInOrder(r.value)
      && (forall i, y :: 0 <= i < |r.value| && y in rows && PendingOf(y, company) && y !in r.value ==>
            r.value[i].createdAt <= y.createdAt)
      && (|all| <= PendingLimit(limit) ==>
            forall x :: x in rows && PendingOf(x, company) ==> x in r.value)
  {
    var company := Company(companyId).value;
    var all := PendingRows(rows, company);
    var r := PendingLinks(rows, companyId, limit).value;
    if |all| > PendingLimit(limit) {
      assert r == all[..PendingLimit(limit)];
      forall x | x in r ensures x in all { }
      forall i, y | 0 <= i < |r| && y in rows && PendingOf(y, company) && y !in r
        ensures r[i].createdAt <= y.createdAt
      {
        assert y in all;
        var k :| 0 <= k < |all| && all[k] == y;
        assert r[i] == all[i];
      }
    }
  }
}
