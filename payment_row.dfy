/**
 * One row of a participant's payment history (`PaymentRow.tsx`): the label
 * of the period paid and the link to the uploaded receipt.
 */
module PaymentRow {
  import opened Wrappers
  import opened JsText

  /** `import.meta.env.VITE_API_BASE_URL || "http://localhost:8000"` */
  function ApiBaseUrl(configured: Option<string>): (r: string)
    ensures configured.Some? && configured.value != [] ==> r == configured.value
    ensures configured.None? || configured.value == [] ==> r == "http://localhost:8000"
  {
    if configured.Some? && configured.value != [] then configured.value else "http://localhost:8000"
  }

  /**
   * `getStorageUrl`: no link for a missing or empty path, otherwise the
   * path under the API's `/storage/` directory.
   */
  function GetStorageUrl(baseUrl: string, path: Option<string>): (r: Option<string>)
    ensures r.None? <==> path.None? || path.value == []
    ensures r.Some? ==> StartsWith(r.value, baseUrl + "/storage/") && EndsWith(r.value, path.value)
    ensures r.Some? ==> |r.value| == |baseUrl| + 9 + |path.value|
  {
    if path.None? || path.value == [] then None
    else
      var url := baseUrl + "/storage/" + path.value;
      assert url[..|baseUrl + "/storage/"|] == baseUrl + "/storage/";
      assert url[|url| - |path.value|..] == path.value;
      Some(url)
  }

  /** The month as shown: its decimal digits padded to two with `0`. */
  function MonthPart(month: int): string {
    PadStart(IntToString(month), 2, '0')
  }

  /**
   * The parts of the period label, in order: the year; the month when it is
   * not zero; `S<week>` when the week is not zero; `#<sequence>`.
   */
  function PeriodParts(year: int, month: int, weekOfMonth: int, sequence: int): (parts: seq<string>)
    ensures 2 <= |parts| <= 4
    ensures parts[0] == IntToString(year) && parts[|parts| - 1] == "#" + IntToString(sequence)
    ensures |parts| == 2 + (if month != 0 then 1 else 0) + (if weekOfMonth != 0 then 1 else 0)
    ensures month != 0 ==> parts[1] == MonthPart(month)
    ensures weekOfMonth != 0 ==> parts[|parts| - 2] == "S" + IntToString(weekOfMonth)
  {
    [IntToString(year)]
    + (if month != 0 then [MonthPart(month)] else [])
    + (if weekOfMonth != 0 then ["S" + IntToString(weekOfMonth)] else [])
    + ["#" + IntToString(sequence)]
  }

  /**
   * `periodLabel`: push the parts one by one and join them with ` / `. The
   * label starts with the year and ends with `#<sequence>`.
   */
  method PeriodLabel(year: int, month: int, weekOfMonth: int, sequence: int) returns (text: string)
    ensures text == Join(PeriodParts(year, month, weekOfMonth, sequence), " / ")
    ensures StartsWith(text, IntToString(year))
    ensures EndsWith(text, "#" + IntToString(sequence))
  {
    var parts := [IntToString(year)];
    if month != 0 {
      parts := parts + [PadStart(IntToString(month), 2, '0')];
    }
    if weekOfMonth != 0 {
      parts := parts + ["S" + IntToString(weekOfMonth)];
    }
    parts := parts + ["#" + IntToString(sequence)];
    assert parts == PeriodParts(year, month, weekOfMonth, sequence);
    text := Join(parts, " / ");
  }

  /**
   * The month part of a month from 1 on is at least two characters long and
   * reads back, with `parseInt`, as that month.
   */
  lemma {:induction false} MonthPartReadsBack(month: int)
    requires month >= 1
    ensures |MonthPart(month)| >= 2
    ensures ParseInt(MonthPart(month)) == Num(month)
  {
    var digits := IntToString(month);
    if month >= 10 {
      ParseIntOfIntToString(month);
    } else {
      var part := MonthPart(month);
      assert digits == [DigitChar(month)];
      assert part == "0" + digits;
      assert !IsJsWhitespace(part[0]);
      assert TrimStart(part) == part;
      DecimalPrefixOfDigits(part);
      assert DecimalValue(part) == 10 * DecimalValue("0") + DigitValue(part[1]);
    }
  }
}
