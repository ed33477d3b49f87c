/**
 * The reports tab of a project's admin page (`ReportsTab.tsx`): the body of
 * the generate-report request, the badge shown for a report's status, and
 * the generate dialog that closes only when the request succeeds.
 */
module ReportsTab {
  import opened Wrappers
  import opened JsText
  import Utils

  /** The body of the generate-report request; an absent key is `None`. */
  datatype ReportPayload = ReportPayload(
    year: ParsedInt,
    statusScope: string,
    month: Option<ParsedInt>,
    weekOfMonth: Option<ParsedInt>)

  /**
   * The rule of `handleGenerate`: year and status scope always; the month
   * only for the `week` and `month` intervals and only when one is chosen;
   * the week only for the `week` interval and only when one is chosen,
   * whether or not a month is.
   */
  function ReportPayloadFor(interval: string, year: string, month: string, weekOfMonth: string, statusScope: string)
    : (p: ReportPayload)
    ensures p.year == ParseInt(year) && p.statusScope == statusScope
    ensures p.month.Some? <==> (interval == "week" || interval == "month") && month != []
    ensures p.month.Some? ==> p.month.value == ParseInt(month)
    ensures p.weekOfMonth.Some? <==> interval == "week" && weekOfMonth != []
    ensures p.weekOfMonth.Some? ==> p.weekOfMonth.value == ParseInt(weekOfMonth)
  {
    ReportPayload(
      ParseInt(year),
      statusScope,
      if (interval == "week" || interval == "month") && month != [] then Some(ParseInt(month)) else None,
      if interval == "week" && weekOfMonth != [] then Some(ParseInt(weekOfMonth)) else None)
  }

  /** A yearly project's report never carries a month or a week. */
  lemma YearlyReportHasNoPeriod(year: string, month: string, weekOfMonth: string, statusScope: string)
    ensures var p := ReportPayloadFor("year", year, month, weekOfMonth, statusScope);
      p.month.None? && p.weekOfMonth.None?
  {
  }

  /**
   * `handleGenerate` builds the body step by step: the required keys first,
   * then each optional key when its condition holds.
   */
  method BuildReportPayload(interval: string, year: string, month: string, weekOfMonth: string, statusScope: string)
    returns (payload: ReportPayload)
    ensures payload == ReportPayloadFor(interval, year, month, weekOfMonth, statusScope)
  {
    payload := ReportPayload(ParseInt(year), statusScope, None, None);
    if interval == "week" || interval == "month" {
      if month != [] {
        payload := payload.(month := Some(ParseInt(month)));
      }
    }
    if interval == "week" && weekOfMonth != [] {
      payload := payload.(weekOfMonth := Some(ParseInt(weekOfMonth)));
    }
  }

  // ------------------------------------------------------------- the badge

  datatype BadgeVariant = SuccessBadge | WarningBadge | ErrorBadge | DefaultBadge

  datatype Badge = Badge(variant: BadgeVariant, text: string)

  /**
   * `getReportStatusBadge`: completed, processing and failed get their own
   * colour and Portuguese text; any other status the default badge showing
   * the status itself.
   */
  function ReportStatusBadge(status: string): (b: Badge)
    ensures b.variant == SuccessBadge <==> status == "completed"
    ensures b.variant == WarningBadge <==> status == "processing"
    ensures b.variant == ErrorBadge <==> status == "failed"
    ensures b.variant == DefaultBadge ==> b.text == status
  {
    if status == "completed" then Badge(SuccessBadge, "Concluído")
    else if status == "processing" then Badge(WarningBadge, "Processando")
    else if status == "failed" then Badge(ErrorBadge, "Falhou")
    else Badge(DefaultBadge, status)
  }

  /**
   * The badge's text agrees with the status label of the shared helpers for
   * every non-empty status except the three member statuses (pending,
   * accepted, removed), which the badge shows raw.
   */
  lemma {:induction false} BadgeTextIsStatusLabel(status: string)
    requires status != [] && status != "pending" && status != "accepted" && status != "removed"
    ensures ReportStatusBadge(status).text == Utils.GetStatusLabel(Some(status))
  {
    if status != "completed" && status != "processing" && status != "failed" {
      assert Utils.StatusLabelEntry(status).None?;
    }
  }

  // ---------------------------------------------------------- the dialog

  /** The tab's state: whether the generate dialog is open, and its fields. */
  class ReportsPanel {
    const paymentInterval: string
    var showGenerate: bool
    var year: string
    var month: string
    var weekOfMonth: string
    var statusScope: string

    /** The dialog starts closed on the current year (from the clock), no month, no week, accepted payments only. */
    constructor(paymentInterval: string, currentYear: int)
      ensures this.paymentInterval == paymentInterval && !showGenerate
      ensures year == IntToString(currentYear) && month == [] && weekOfMonth == []
      ensures statusScope == "accepted_only"
    {
      this.paymentInterval := paymentInterval;
      showGenerate := false;
      year := IntToString(currentYear);
      month := [];
      weekOfMonth := [];
      statusScope := "accepted_only";
    }

    /** The "Gerar Relatório" button. */
    method OpenGenerate()
      modifies this
      ensures showGenerate
      ensures year == old(year) && month == old(month) && weekOfMonth == old(weekOfMonth)
      ensures statusScope == old(statusScope)
    {
      showGenerate := true;
    }

    /**
     * `handleGenerate`: send the body; the dialog closes when the server
     * accepts it (`accepted`) and stays as it was when the request fails.
     */
    method HandleGenerate(accepted: bool) returns (sent: ReportPayload)
      modifies this
      ensures sent == ReportPayloadFor(paymentInterval, year, month, weekOfMonth, statusScope)
      ensures accepted ==> !showGenerate
      ensures !accepted ==> showGenerate == old(showGenerate)
      ensures year == old(year) && month == old(month) && weekOfMonth == old(weekOfMonth)
      ensures statusScope == old(statusScope)
    {
      sent := BuildReportPayload(paymentInterval, year, month, weekOfMonth, statusScope);
      if accepted {
        showGenerate := false;
      }
    }
  }
}
