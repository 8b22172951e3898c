/** The four messages sent to a client about a record (created, confirmed,
    changed, canceled), built from the record's `data` and the links the
    caller passes. A message is its lines joined with "\n". */
module RecordMessages {
  import opened Text
  import opened JsValue
  import opened RecordEvent

  const EntryText: string := "справа от главных ворот"
  const YandexUrl: string := "https://yandex.ru/maps/-/CDXGBROx"
  const GisUrl: string := "https://go.2gis.com/wgazr"

  /** `formatServices(data)`: the truthy titles joined with ", ", or "—". */
  function FormatServices(data: JsVal): (r: string)
    ensures ServiceTitles(data) == [] ==> r == Dash
    ensures |ServiceTitles(data)| == 1 ==> r == ToStr(ServiceTitles(data)[0])
  {
    var titles := ServiceTitles(data);
    if titles == [] then Dash else Join(seq(|titles|, i requires 0 <= i < |titles| => ToStr(titles[i])), ", ")
  }

  function SafeText(s: string): string { Safe(Str(s), Dash) }

  /** `formatDateTime(data)` of the messages: like the rules' splitting, but
      each part goes through `safe`, so a blank part also becomes "—". */
  function MessageDateTime(data: JsVal): (r: DateTime)
    ensures r.date != "" && |r.time| <= 5
  {
    if !Truthy(data) then DateTime(Dash, Dash)
    else if Get(data, "date").Str? && ' ' in Get(data, "date").s then
      var parts := SplitOn(Get(data, "date").s, ' ');
      DateTime(SafeText(parts[0]), Prefix(SafeText(parts[1]), 5))
    else if Get(data, "datetime").Str? && 'T' in Get(data, "datetime").s then
      var parts := SplitOn(Get(data, "datetime").s, 'T');
      DateTime(SafeText(parts[0]), Prefix(SafeText(StripOffset(parts[1])), 5))
    else DateTime(Dash, Dash)
  }

  /** `safe` and `|| "—"` differ only on blank text. */
  lemma SafeTextOfNonBlank(s: string)
    requires !AllWhitespace(s)
    ensures SafeText(s) == OrDash(s) == s
  {
    TrimEmptyIffBlank(s);
  }

  /** A `date` of the form `D + " " + T` shows `D` and the first five
      characters of `T`, as in the rules, when `D` and `T` are not blank. */
  lemma MessageDateTimeOfDate(fields: map<string, JsVal>, d: string, t: string)
    requires ' ' !in d && ' ' !in t && !AllWhitespace(d) && !AllWhitespace(t)
    requires "date" in fields && fields["date"] == Str(d + " " + t)
    ensures MessageDateTime(Obj(fields)) == DateTime(d, Prefix(t, 5)) == SplitDateTime(Obj(fields))
  {
    var s := d + " " + t;
    assert s == d + [' '] + t;
    SplitOnJoined(d, ' ', t);
    SplitOnWithout(t, ' ');
    assert s[|d|] == ' ';
    SafeTextOfNonBlank(d);
    SafeTextOfNonBlank(t);
    SplitDateTimeOfDate(fields, d, t);
  }

  const ReviewPlea: string := "😊" + " Если вам понравилось, пожалуйста оставьте отзыв"
  const RecordLinkHead: string := "🤓 Запись можно посмотреть здесь: "
  const ReviewHead: string := "⭐ Отзыв: "

  /** The lines of `buildFooter({ recordLink, reviewLink })`. */
  function FooterLines(recordLink: JsVal, reviewLink: JsVal): seq<string> {
    (if Truthy(recordLink) then [RecordLinkHead + ToStr(recordLink)] else [])
    + ["🚪 Вход: " + EntryText, "", ReviewPlea]
    + (if Truthy(reviewLink) then [ReviewHead + ToStr(reviewLink)] else [])
    + ["Яндекс.Карты: " + YandexUrl, "2Гис: " + GisUrl]
  }

  /** `buildFooter`, pushing one line at a time. */
  method BuildFooter(recordLink: JsVal, reviewLink: JsVal) returns (text: string)
    ensures text == Join(FooterLines(recordLink, reviewLink), "\n")
  {
    var lines: seq<string> := [];
    if Truthy(recordLink) {
      lines := lines + [RecordLinkHead + ToStr(recordLink)];
    }
    lines := lines + ["🚪 Вход: " + EntryText];
    lines := lines + [""];
    lines := lines + [ReviewPlea];
    if Truthy(reviewLink) {
      lines := lines + [ReviewHead + ToStr(reviewLink)];
    }
    lines := lines + ["Яндекс.Карты: " + YandexUrl];
    lines := lines + ["2Гис: " + GisUrl];
    assert lines == FooterLines(recordLink, reviewLink);
    text := Join(lines, "\n");
  }

  predicate HasLine(lines: seq<string>, head: string) {
    exists i :: 0 <= i < |lines| && StartsWith(lines[i], head)
  }

  lemma StartsWithFirst(s: string, head: string)
    requires StartsWith(s, head) && head != []
    ensures s != [] && s[0] == head[0]
  {
    assert s[..|head|][0] == s[0];
  }

  /** No line starts with `head` when no line begins with its first character. */
  lemma NoLineWithHead(lines: seq<string>, head: string)
    requires head != []
    requires forall i :: 0 <= i < |lines| ==> lines[i] == [] || lines[i][0] != head[0]
    ensures !HasLine(lines, head)
  {
    forall i | 0 <= i < |lines| ensures !StartsWith(lines[i], head) {
      if StartsWith(lines[i], head) {
        StartsWithFirst(lines[i], head);
      }
    }
  }

  /** The footer has the record-link line exactly when a record link is
      given, and the review line exactly when a review link is given. */
  lemma FooterOptionalLines(recordLink: JsVal, reviewLink: JsVal)
    ensures var lines := FooterLines(recordLink, reviewLink);
      && (HasLine(lines, RecordLinkHead) <==> Truthy(recordLink))
      && (HasLine(lines, ReviewHead) <==> Truthy(reviewLink))
  {
    var lines := FooterLines(recordLink, reviewLink);
    var k := if Truthy(recordLink) then 1 else 0;
    var fixedChars := ['🚪', '😊', 'Я', '2'];
    assert forall i :: (0 <= i < |lines| && i != k + 1 && !(Truthy(recordLink) && i == 0)
      && !(Truthy(reviewLink) && i == k + 3)) ==> lines[i] != [] && lines[i][0] in fixedChars;
    if Truthy(recordLink) {
      assert StartsWith(lines[0], RecordLinkHead);
    } else {
      NoLineWithHead(lines, RecordLinkHead);
    }
    if Truthy(reviewLink) {
      assert StartsWith(lines[k + 3], ReviewHead);
    } else {
      NoLineWithHead(lines, ReviewHead);
    }
  }

  /** The entry line and both map lines are always there, the 2GIS line
      last, and the footer has five lines plus one per link given. */
  lemma FooterFixedLines(recordLink: JsVal, reviewLink: JsVal)
    ensures var lines := FooterLines(recordLink, reviewLink);
      && ("🚪 Вход: " + EntryText) in lines
      && ("Яндекс.Карты: " + YandexUrl) in lines && ("2Гис: " + GisUrl) in lines
      && lines[|lines| - 2] == "Яндекс.Карты: " + YandexUrl && lines[|lines| - 1] == "2Гис: " + GisUrl
      && |lines| == 5 + (if Truthy(recordLink) then 1 else 0) + (if Truthy(reviewLink) then 1 else 0)
  {
  }

  /** `options.recordLink || data?.short_link || null` */
  function MessageLink(data: JsVal, optionLink: JsVal): (r: JsVal)
    ensures Truthy(optionLink) ==> r == optionLink
    ensures !Truthy(optionLink) && Truthy(Get(data, "short_link")) ==> r == Get(data, "short_link")
    ensures !Truthy(optionLink) && !Truthy(Get(data, "short_link")) ==> r == Null
  {
    Or(Or(optionLink, Get(data, "short_link")), Null)
  }

  const ConfirmedHeader: string := "✅ Ваша запись подтверждена"
  const ChangedHeader: string := "✏️ Ваша запись изменена"
  const CanceledHeader: string := "❌ Ваша запись отменена"
  const DetailsHead: string := "🔗 Детали: "

  /** The lines of the confirmed/changed/canceled messages after
      `filter(Boolean)`: the blank separator is always dropped, and the
      details line is kept only when there is a link. */
  function StatusLines(header: string, data: JsVal, optionLink: JsVal): seq<string> {
    var dt := MessageDateTime(data);
    var link := MessageLink(data, optionLink);
    [header, "🧼 Услуга: *" + FormatServices(data) + "*", "📅 Дата: *" + dt.date + "*", "🕒 Время: *" + dt.time + "*"]
    + (if Truthy(link) then [DetailsHead + ToStr(link)] else [])
  }

  /** `formatRecordConfirmedMessage`: opens with the confirmed header. */
  function ConfirmedMessage(data: JsVal, optionLink: JsVal): (r: string)
    ensures StartsWith(r, ConfirmedHeader)
  {
    var lines := StatusLines(ConfirmedHeader, data, optionLink);
    JoinStartsWithFirst(lines, "\n");
    Join(lines, "\n")
  }

  /** `formatRecordChangedMessage`: opens with the changed header. */
  function ChangedMessage(data: JsVal, optionLink: JsVal): (r: string)
    ensures StartsWith(r, ChangedHeader)
  {
    var lines := StatusLines(ChangedHeader, data, optionLink);
    JoinStartsWithFirst(lines, "\n");
    Join(lines, "\n")
  }

  /** `formatRecordCanceledMessage`: opens with the canceled header. */
  function CanceledMessage(data: JsVal, optionLink: JsVal): (r: string)
    ensures StartsWith(r, CanceledHeader)
  {
    var lines := StatusLines(CanceledHeader, data, optionLink);
    JoinStartsWithFirst(lines, "\n");
    Join(lines, "\n")
  }

  lemma {:induction false} JoinStartsWithFirst(lines: seq<string>, sep: string)
    requires lines != []
    ensures StartsWith(Join(lines, sep), lines[0])
  {
    if |lines| > 1 {
      var j := Join(lines, sep);
      assert j == lines[0] + (sep + Join(lines[1..], sep));
      assert j[..|lines[0]|] == lines[0];
    }
  }

  /** Each status message starts with its fixed header and has a details
      line exactly when the options or the record carry a link. */
  lemma StatusMessageShape(header: string, data: JsVal, optionLink: JsVal)
    requires header == ConfirmedHeader || header == ChangedHeader || header == CanceledHeader
    ensures var lines := StatusLines(header, data, optionLink);
      && StartsWith(Join(lines, "\n"), header)
      && (HasLine(lines, DetailsHead) <==> Truthy(optionLink) || Truthy(Get(data, "short_link")))
  {
    var lines := StatusLines(header, data, optionLink);
    JoinStartsWithFirst(lines, "\n");
    var link := MessageLink(data, optionLink);
    if Truthy(link) {
      assert StartsWith(lines[4], DetailsHead);
    } else {
      forall i | 0 <= i < |lines| ensures !StartsWith(lines[i], DetailsHead) {
        if StartsWith(lines[i], DetailsHead) {
          StartsWithFirst(lines[i], DetailsHead);
        }
      }
    }
  }

  /** `formatRecordCreateMessage(data, { recordLink, staffReviewLink })`;
      the built-in review link is `null`, so only the option supplies one.
      The message ends with the footer built from the same links. */
  function CreateMessage(data: JsVal, optionLink: JsVal, staffReviewLink: JsVal): (m: string)
    ensures var footer := Join(FooterLines(MessageLink(data, optionLink), Or(staffReviewLink, Null)), "\n");
      |footer| <= |m| && m[|m| - |footer|..] == footer
  {
    var dt := MessageDateTime(data);
    var reviewLink := Or(Or(staffReviewLink, Null), Null);
    "Здравствуйте, вы были записаны через администратора на услугу *" + FormatServices(data) + "* "
    + "на *" + dt.date + "* в *" + dt.time + "*.\n"
    + "Все верно?\n\n"
    + Join(FooterLines(MessageLink(data, optionLink), reviewLink), "\n")
  }
}
