/**
 * The "register payment" dialog of a project page (`NewPaymentModal.tsx`):
 * the period fields, the receipt with its size cap, the validation before
 * submitting, the multipart fields sent, and the option lists of the
 * sequence and week selectors.
 */
module NewPaymentModal {
  import opened Wrappers
  import opened JsText

  /** The largest receipt accepted: 10 MB. */
  const MaxReceiptBytes: nat := 10 * 1024 * 1024

  /** A chosen file: only its name and size matter here. */
  datatype ReceiptFile = ReceiptFile(name: string, size: nat)

  /** The five text fields of the dialog. */
  datatype PaymentFields = PaymentFields(
    year: string,
    month: string,
    weekOfMonth: string,
    sequence: string,
    paidAt: string)

  /** The interval needs a month (`week` or `month`). */
  predicate NeedsMonth(interval: string) {
    interval == "week" || interval == "month"
  }

  /** The interval needs a week of the month (`week`). */
  predicate NeedsWeek(interval: string) {
    interval == "week"
  }

  // ------------------------------------------------------------ validation

  /** The rule table of `handleSubmit`: `key` is reported for these fields. */
  predicate PaymentReports(interval: string, f: PaymentFields, key: string) {
    || (key == "year" && f.year == [])
    || (key == "month" && NeedsMonth(interval) && f.month == [])
    || (key == "weekOfMonth" && NeedsWeek(interval) && f.weekOfMonth == [])
    || (key == "sequence" && f.sequence == [])
    || (key == "paidAt" && f.paidAt == [])
  }

  function PaymentErrorMessage(key: string): string {
    if key == "year" then "Selecione o ano"
    else if key == "month" then "Selecione o mês"
    else if key == "weekOfMonth" then "Selecione a semana"
    else if key == "sequence" then "Selecione a sequência"
    else if key == "paidAt" then "Informe a data do pagamento"
    else ""
  }

  /** The error map `handleSubmit` fills: exactly the reported keys, each with its message. */
  method CollectPaymentErrors(interval: string, f: PaymentFields) returns (newErrors: map<string, string>)
    ensures forall key :: key in newErrors <==> PaymentReports(interval, f, key)
    ensures forall key :: key in newErrors ==> newErrors[key] == PaymentErrorMessage(key)
  {
    newErrors := map[];
    if f.year == [] {
      newErrors := newErrors["year" := "Selecione o ano"];
    }
    if (interval == "week" || interval == "month") && f.month == [] {
      newErrors := newErrors["month" := "Selecione o mês"];
    }
    if interval == "week" && f.weekOfMonth == [] {
      newErrors := newErrors["weekOfMonth" := "Selecione a semana"];
    }
    if f.sequence == [] {
      newErrors := newErrors["sequence" := "Selecione a sequência"];
    }
    if f.paidAt == [] {
      newErrors := newErrors["paidAt" := "Informe a data do pagamento"];
    }
  }

  // ---------------------------------------------------------- the request

  /** One field of the multipart request. */
  datatype FormEntry = TextEntry(name: string, text: string) | FileEntry(name: string, file: ReceiptFile)

  /**
   * The fields sent, in order: year, sequence and payment date always; the
   * month for `week` and `month`; the week for `week`; the receipt when one
   * was chosen.
   */
  function RequestEntries(interval: string, f: PaymentFields, receipt: Option<ReceiptFile>): (r: seq<FormEntry>)
    ensures |r| >= 3 && r[..3] == [TextEntry("year", f.year), TextEntry("sequence", f.sequence), TextEntry("paid_at", f.paidAt)]
  {
    [TextEntry("year", f.year), TextEntry("sequence", f.sequence), TextEntry("paid_at", f.paidAt)]
    + (if NeedsMonth(interval) then [TextEntry("month", f.month)] else [])
    + (if NeedsWeek(interval) then [TextEntry("week_of_month", f.weekOfMonth)] else [])
    + (match receipt case Some(file) => [FileEntry("receipt", file)] case None => [])
  }

  /** Some entry of `entries` is named `name`. */
  predicate HasEntry(entries: seq<FormEntry>, name: string) {
    exists i :: 0 <= i < |entries| && entries[i].name == name
  }

  /**
   * The month is sent exactly for `week` and `month`, the week exactly for
   * `week`, the receipt exactly when one was chosen; no name is sent twice,
   * and each of these entries carries its field's value or the chosen file.
   */
  lemma {:induction false} RequestEntriesByInterval(interval: string, f: PaymentFields, receipt: Option<ReceiptFile>)
    ensures var r := RequestEntries(interval, f, receipt);
      && (HasEntry(r, "month") <==> NeedsMonth(interval))
      && (HasEntry(r, "week_of_month") <==> NeedsWeek(interval))
      && (HasEntry(r, "receipt") <==> receipt.Some?)
      && (forall i, j :: 0 <= i < j < |r| ==> r[i].name != r[j].name)
      && (forall i :: 0 <= i < |r| && r[i].name == "month" ==> r[i] == TextEntry("month", f.month))
      && (forall i :: 0 <= i < |r| && r[i].name == "week_of_month" ==> r[i] == TextEntry("week_of_month", f.weekOfMonth))
      && (forall i :: 0 <= i < |r| && r[i].name == "receipt" ==> receipt.Some? && r[i] == FileEntry("receipt", receipt.value))
  {
    var r := RequestEntries(interval, f, receipt);
    var m := if NeedsMonth(interval) then 1 else 0;
    var w := if NeedsWeek(interval) then 1 else 0;
    assert |r| == 3 + m + w + (if receipt.Some? then 1 else 0);
    if NeedsMonth(interval) {
      assert r[3].name == "month";
    }
    if NeedsWeek(interval) {
      assert r[4].name == "week_of_month";
    }
    if receipt.Some? {
      assert r[|r| - 1].name == "receipt";
    }
  }

  /** When nothing is reported, every text sent is non-empty. */
  lemma {:induction false} SentTextsFilled(interval: string, f: PaymentFields, receipt: Option<ReceiptFile>)
    requires forall key :: !PaymentReports(interval, f, key)
    ensures forall e :: e in RequestEntries(interval, f, receipt) && e.TextEntry? ==> e.text != []
  {
    assert !PaymentReports(interval, f, "year");
    assert !PaymentReports(interval, f, "month");
    assert !PaymentReports(interval, f, "weekOfMonth");
    assert !PaymentReports(interval, f, "sequence");
    assert !PaymentReports(interval, f, "paidAt");
  }

  /**
   * The payment-options query: the year through `parseInt`, and the month
   * through `parseInt` only for the `week` interval.
   */
  function OptionsQuery(interval: string, f: PaymentFields): (r: (ParsedInt, Option<ParsedInt>))
    ensures r.1.Some? <==> interval == "week"
    ensures r.0 == ParseInt(f.year)
  {
    (ParseInt(f.year), if interval == "week" then Some(ParseInt(f.month)) else None)
  }

  // ------------------------------------------------------- select options

  /** An entry of a `<Select>`. */
  datatype SelectOption = SelectOption(value: string, text: string)

  /** The server's answer to the payment-options query, as far as the selectors use it. */
  datatype PaymentOptions = PaymentOptions(sequenceMin: int, sequenceMax: int, weeks: seq<Week>)

  datatype Week = Week(value: int, text: string)

  /** `Array.from({ length: n })` makes an empty array for a negative `n`. */
  function ArrayLength(n: int): (r: nat)
    ensures n >= 0 ==> r == n
    ensures n < 0 ==> r == 0
  {
    if n < 0 then 0 else n
  }

  /**
   * `sequenceOptions`: `#min` … `#max` once the options are loaded, a single
   * `#1` before.
   */
  function SequenceOptions(options: Option<PaymentOptions>): (r: seq<SelectOption>)
    ensures options.None? ==> r == [SelectOption("1", "#1")]
    ensures options.Some? ==> |r| == ArrayLength(options.value.sequenceMax - options.value.sequenceMin + 1)
    ensures options.Some? ==> forall i :: 0 <= i < |r| ==>
      r[i] == SelectOption(IntToString(options.value.sequenceMin + i), "#" + IntToString(options.value.sequenceMin + i))
  {
    match options
    case None => [SelectOption("1", "#1")]
    case Some(o) =>
      seq(ArrayLength(o.sequenceMax - o.sequenceMin + 1),
          i => SelectOption(IntToString(o.sequenceMin + i), "#" + IntToString(o.sequenceMin + i)))
  }

  /**
   * Read back with `parseInt`, the sequence options are the consecutive
   * integers `min` … `max`, ascending, each labelled `#` and its value.
   */
  lemma SequenceOptionsAscending(options: PaymentOptions)
    ensures var r := SequenceOptions(Some(options));
      && |r| == (if options.sequenceMin <= options.sequenceMax then options.sequenceMax - options.sequenceMin + 1 else 0)
      && (forall i :: 0 <= i < |r| ==> ParseInt(r[i].value) == Num(options.sequenceMin + i))
      && (forall i :: 0 <= i < |r| ==> r[i].text == "#" + r[i].value)
  {
    var r := SequenceOptions(Some(options));
    forall i | 0 <= i < |r| ensures ParseInt(r[i].value) == Num(options.sequenceMin + i) {
      assert r[i].value == IntToString(options.sequenceMin + i);
      ParseIntOfIntToString(options.sequenceMin + i);
    }
    forall i | 0 <= i < |r| ensures r[i].text == "#" + r[i].value {
      assert r[i] == SelectOption(IntToString(options.sequenceMin + i), "#" + IntToString(options.sequenceMin + i));
    }
  }

  /** The fixed week list used while the server has not sent one. */
  const DefaultWeekOptions: seq<SelectOption> := [
    SelectOption("1", "1ª Semana"), SelectOption("2", "2ª Semana"), SelectOption("3", "3ª Semana"),
    SelectOption("4", "4ª Semana"), SelectOption("5", "5ª Semana")
  ]

  /** `weekOptions`: the server's weeks in order, or the fixed list of five weeks. */
  function WeekOptions(options: Option<PaymentOptions>): (r: seq<SelectOption>)
    ensures options.None? ==> r == DefaultWeekOptions
    ensures options.Some? ==> |r| == |options.value.weeks|
    ensures options.Some? ==> forall i :: 0 <= i < |r| ==>
      r[i] == SelectOption(IntToString(options.value.weeks[i].value), options.value.weeks[i].text)
  {
    match options
    case None => DefaultWeekOptions
    case Some(o) => seq(|o.weeks|, i requires 0 <= i < |o.weeks| => SelectOption(IntToString(o.weeks[i].value), o.weeks[i].text))
  }

  // ------------------------------------------------------------ the dialog

  /** The dialog's state. */
  class NewPaymentDialog {
    const paymentInterval: string
    var year: string
    var month: string
    var weekOfMonth: string
    var sequence: string
    var paidAt: string
    var receipt: Option<ReceiptFile>
    var errors: map<string, string>

    function Fields(): PaymentFields
      reads this
    {
      PaymentFields(year, month, weekOfMonth, sequence, paidAt)
    }

    /**
     * The dialog opens on the current year and month (from the clock), the
     * first week and sequence, today's date, no receipt and no error.
     */
    constructor(paymentInterval: string, currentYear: int, currentMonth: int, today: string)
      ensures this.paymentInterval == paymentInterval
      ensures Fields() == PaymentFields(IntToString(currentYear), IntToString(currentMonth), "1", "1", today)
      ensures receipt.None? && errors == map[]
    {
      this.paymentInterval := paymentInterval;
      year := IntToString(currentYear);
      month := IntToString(currentMonth);
      weekOfMonth := "1";
      sequence := "1";
      paidAt := today;
      receipt := None;
      errors := map[];
    }

    /**
     * `handleFileChange`: a file over the cap is rejected (a toast, `rejected`)
     * and the receipt stays as it was; otherwise a chosen file becomes the
     * receipt.
     */
    method HandleFileChange(file: Option<ReceiptFile>) returns (rejected: bool)
      modifies this
      ensures rejected <==> file.Some? && file.value.size > MaxReceiptBytes
      ensures file.Some? && !rejected ==> receipt == file
      ensures file.None? || rejected ==> receipt == old(receipt)
      ensures Fields() == old(Fields()) && errors == old(errors)
    {
      rejected := false;
      if file.Some? {
        if file.value.size > 10 * 1024 * 1024 {
          rejected := true;
          return;
        }
        receipt := file;
      }
    }

    /**
     * `handleSubmit`: clear the errors; when a required field is empty,
     * store the errors and send nothing; otherwise send the fields.
     */
    method HandleSubmit() returns (sent: Option<seq<FormEntry>>)
      modifies this
      ensures Fields() == old(Fields()) && receipt == old(receipt)
      ensures sent.None? <==> exists key :: PaymentReports(paymentInterval, Fields(), key)
      ensures forall key :: key in errors <==> PaymentReports(paymentInterval, Fields(), key)
      ensures forall key :: key in errors ==> errors[key] == PaymentErrorMessage(key)
      ensures sent.Some? ==> sent.value == RequestEntries(paymentInterval, Fields(), receipt)
    {
      errors := map[];
      var newErrors := CollectPaymentErrors(paymentInterval, Fields());
      if |newErrors| > 0 {
        errors := newErrors;
        var key :| key in newErrors;
        return None;
      }
      var entries := [TextEntry("year", year), TextEntry("sequence", sequence), TextEntry("paid_at", paidAt)];
      if paymentInterval == "week" || paymentInterval == "month" {
        entries := entries + [TextEntry("month", month)];
      }
      if paymentInterval == "week" {
        entries := entries + [TextEntry("week_of_month", weekOfMonth)];
      }
      if receipt.Some? {
        entries := entries + [FileEntry("receipt", receipt.value)];
      }
      assert forall key :: !PaymentReports(paymentInterval, Fields(), key) by {
        assert newErrors == map[];
      }
      sent := Some(entries);
    }
  }
}
