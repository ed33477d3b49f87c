/**
 * The display helpers of `src/lib/utils.ts`: the phone mask shown next to a
 * member, the payment-interval label and the payment-status label.
 */
module Utils {
  import opened Wrappers
  import opened JsText

  // ------------------------------------------------------------ formatPhone

  /**
   * `r` has the shape of `mask`: each `D` of the mask is a digit of `r`, every
   * other character of the mask appears in `r` as it is.
   */
  predicate FitsMask(r: string, mask: string) {
    |r| == |mask| &&
    forall i :: 0 <= i < |r| ==> if mask[i] == 'D' then IsDigit(r[i]) else r[i] == mask[i]
  }

  const MobileMask := "(DD) DDDDD-DDDD"
  const FixedLineMask := "(DD) DDDD-DDDD"

  /**
   * `formatPhone`: the digits of `phone` laid out as `(DD) DDDDD-DDDD` when
   * there are eleven of them, as `(DD) DDDD-DDDD` when there are ten, and
   * `phone` itself, untouched, otherwise.
   */
  function FormatPhone(phone: string): (r: string)
    ensures |OnlyDigits(phone)| == 11 ==> FitsMask(r, MobileMask)
    ensures |OnlyDigits(phone)| == 10 ==> FitsMask(r, FixedLineMask)
    ensures |OnlyDigits(phone)| != 10 && |OnlyDigits(phone)| != 11 ==> r == phone
  {
    var cleaned := OnlyDigits(phone);
    if |cleaned| == 11 then
      "(" + cleaned[..2] + ") " + cleaned[2..7] + "-" + cleaned[7..]
    else if |cleaned| == 10 then
      "(" + cleaned[..2] + ") " + cleaned[2..6] + "-" + cleaned[6..]
    else
      phone
  }

  /** A piece of mask text contributes no digit. */
  lemma NoDigitsIn(pre: string, mask: string)
    requires forall i :: 0 <= i < |mask| ==> !IsDigit(mask[i])
    ensures OnlyDigits(pre + mask) == OnlyDigits(pre)
  {
    OnlyDigitsAppend(pre, mask);
  }

  /** `(a) b-c` keeps exactly the digits of `a`, `b` and `c`, in order. */
  lemma {:induction false} MaskedDigits(a: string, b: string, c: string)
    requires AllDigits(a) && AllDigits(b) && AllDigits(c)
    ensures OnlyDigits("(" + a + ") " + b + "-" + c) == a + b + c
  {
    var open := "(";
    var close := ") ";
    var dash := "-";
    NoDigitsIn([], open);
    assert [] + open == open;
    OnlyDigitsAppend(open, a);
    OnlyDigitsOfDigits(a);
    NoDigitsIn(open + a, close);
    OnlyDigitsAppend(open + a + close, b);
    OnlyDigitsOfDigits(b);
    NoDigitsIn(open + a + close + b, dash);
    OnlyDigitsAppend(open + a + close + b + dash, c);
    OnlyDigitsOfDigits(c);
  }

  /** Formatting never adds, drops or reorders a digit. */
  lemma FormatPhoneKeepsDigits(phone: string)
    ensures OnlyDigits(FormatPhone(phone)) == OnlyDigits(phone)
  {
    var cleaned := OnlyDigits(phone);
    if |cleaned| == 11 {
      MaskedDigits(cleaned[..2], cleaned[2..7], cleaned[7..]);
      assert cleaned[..2] + cleaned[2..7] + cleaned[7..] == cleaned;
    } else if |cleaned| == 10 {
      MaskedDigits(cleaned[..2], cleaned[2..6], cleaned[6..]);
      assert cleaned[..2] + cleaned[2..6] + cleaned[6..] == cleaned;
    }
  }

  /** A formatted phone is formatted again to itself. */
  lemma FormatPhoneIdempotent(phone: string)
    ensures FormatPhone(FormatPhone(phone)) == FormatPhone(phone)
  {
    FormatPhoneKeepsDigits(phone);
    var r := FormatPhone(phone);
    var cleaned := OnlyDigits(phone);
    if |cleaned| == 11 {
      assert r == "(" + cleaned[..2] + ") " + cleaned[2..7] + "-" + cleaned[7..];
    } else if |cleaned| == 10 {
      assert r == "(" + cleaned[..2] + ") " + cleaned[2..6] + "-" + cleaned[6..];
    }
  }

  // ------------------------------------------------------- getIntervalLabel

  /** The Portuguese noun of each interval the label table knows. */
  function IntervalNoun(interval: string): (r: Option<string>)
    ensures r.Some? <==> interval in {"week", "month", "year"}
  {
    if interval == "week" then Some("semana")
    else if interval == "month" then Some("mês")
    else if interval == "year" then Some("ano")
    else None
  }

  /**
   * `getIntervalLabel`: "por semana" / "por mês" / "por ano" for a count of
   * one, "<count>x por …" for any other count, and the interval itself when
   * the table has no entry for it.
   */
  function GetIntervalLabel(interval: string, count: int): (r: string)
    ensures IntervalNoun(interval).None? ==> r == interval
    ensures IntervalNoun(interval).Some? ==> EndsWith(r, "por " + IntervalNoun(interval).value)
    ensures IntervalNoun(interval).Some? ==> (StartsWith(r, "por ") <==> count == 1)
    ensures IntervalNoun(interval).Some? && count != 1 ==> StartsWith(r, IntToString(count) + "x ")
    ensures IntervalNoun(interval).Some? && count == 1 ==> r == "por " + IntervalNoun(interval).value
    ensures IntervalNoun(interval).Some? && count != 1 ==> r == IntToString(count) + "x por " + IntervalNoun(interval).value
  {
    var entry := IntervalNoun(interval);
    if entry.None? then interval
    else
      var text := CountedLabel(count, entry.value);
      if text != [] then text else interval
  }

  /** One entry of the table: `por <noun>` for a count of one, `<count>x por <noun>` otherwise. */
  function CountedLabel(count: int, noun: string): (text: string)
    ensures text != [] && EndsWith(text, "por " + noun)
    ensures StartsWith(text, "por ") <==> count == 1
    ensures count != 1 ==> StartsWith(text, IntToString(count) + "x ")
    ensures count == 1 ==> text == "por " + noun
    ensures count != 1 ==> text == IntToString(count) + "x por " + noun
  {
    if count == 1 then "por " + noun
    else
      var digits := IntToString(count);
      var text := digits + "x por " + noun;
      assert text[0] == digits[0] && digits[0] != 'p' by {
        if count >= 0 { assert IsDigit(digits[0]); }
      }
      assert text[|text| - |"por " + noun|..] == "por " + noun;
      assert text[..|digits + "x "|] == digits + "x ";
      text
  }

  // ---------------------------------------------------------- getStatusLabel

  /** The status table of `getStatusLabel`. */
  function StatusLabelEntry(status: string): (r: Option<string>)
    ensures r.Some? ==> r.value != []
  {
    if status == "pending" then Some("Pendente")
    else if status == "accepted" then Some("Confirmado")
    else if status == "removed" then Some("Removido")
    else if status == "processing" then Some("Processando")
    else if status == "completed" then Some("Concluído")
    else if status == "failed" then Some("Falhou")
    else None
  }

  /**
   * `getStatusLabel`: "-" for a null or empty status, the table's label for
   * the six known statuses, and the status itself for any other.
   */
  function GetStatusLabel(status: Option<string>): (r: string)
    ensures status.None? || status == Some("") ==> r == "-"
    ensures r != []
    ensures status.Some? && StatusLabelEntry(status.value).Some? ==> r == StatusLabelEntry(status.value).value
    ensures status.Some? && status.value != "" && StatusLabelEntry(status.value).None? ==> r == status.value
  {
    match status
    case None => "-"
    case Some(s) =>
      if s == [] then "-"
      else match StatusLabelEntry(s)
        case Some(text) => if text != [] then text else s
        case None => s
  }
}
