/** The credit assessment card of src/components/customers/CreditCheckSection.tsx: the expiry
    rule, the banner and the visibility of the refresh button, the warning icon and the report. */
module CreditCheckSection {
  import opened Wrappers
  import opened Types
  import Text
  import CustomerDetail

  /** `isExpired`: a completed check whose completion date lies more than thirty days back. */
  predicate IsExpired(check: CreditCheck, now: Millis) {
    check.status == CheckCompleted &&
    match TimeOf(check.completedDate)
    case Some(t) => t < now - CustomerDetail.ThirtyDaysMs
    case None => false
  }

  /** For a completed check the card's expiry rule and the detail pane's request rule agree. */
  lemma ExpiredIffRequestable(check: CreditCheck, now: Millis)
    requires check.status == CheckCompleted
    ensures IsExpired(check, now) <==> CustomerDetail.CanRequestCreditCheck(Some(check), now)
  {
  }

  /** The Refresh button: for completed and failed checks. */
  predicate ShowsRefresh(check: CreditCheck) {
    check.status == CheckCompleted || check.status == CheckFailed
  }

  /** The Refresh button calls the request handler directly, so for a fresh completed report it
      is offered while the detail pane's request button is disabled. */
  lemma RefreshBypassesRequestRule(check: CreditCheck, now: Millis)
    requires check.status == CheckCompleted && !IsExpired(check, now)
    ensures ShowsRefresh(check)
    ensures CustomerDetail.RequestButtonDisabled(false, Some(check), now)
  {
  }

  /** The warning icon: a pending check or an expired report. */
  predicate ShowsWarning(check: CreditCheck, now: Millis) {
    check.status == CheckPending || IsExpired(check, now)
  }

  /** The report details: a completed, unexpired check that carries a report. */
  predicate ShowsReport(check: CreditCheck, now: Millis) {
    check.status == CheckCompleted && check.report.Some? && !IsExpired(check, now)
  }

  /** The report and the warning are never shown together. */
  lemma ReportExcludesWarning(check: CreditCheck, now: Millis)
    ensures !(ShowsReport(check, now) && ShowsWarning(check, now))
  {
  }

  function CheckStatusName(status: CheckStatus): string {
    match status
    case CheckPending => "pending"
    case CheckInProgress => "in_progress"
    case CheckCompleted => "completed"
    case CheckFailed => "failed"
  }

  /** The banner heading. */
  function Heading(check: CreditCheck, now: Millis): (r: string)
    ensures check.status == CheckCompleted && IsExpired(check, now) ==> r == "Report Expired"
    ensures check.status == CheckInProgress ==> r == "Check in Progress"
    ensures check.status == CheckCompleted && !IsExpired(check, now) ==> r == "Completed"
    ensures check.status == CheckPending ==> r == "Pending"
    ensures check.status == CheckFailed ==> r == "Failed"
  {
    if check.status == CheckCompleted && IsExpired(check, now) then "Report Expired"
    else if check.status == CheckInProgress then "Check in Progress"
    else
      var name := CheckStatusName(check.status);
      assert Text.UpperChar('c') == 'C' && Text.UpperChar('p') == 'P' && Text.UpperChar('f') == 'F';
      Text.Capitalize(name)
  }

  datatype Tone = Green | Red | Blue | Yellow

  /** The banner colour: green for a fresh completed report, red for a failure, blue while in
      progress, and yellow for a pending check or an expired report. */
  function BannerTone(check: CreditCheck, now: Millis): (r: Tone)
    ensures r == Yellow <==> ShowsWarning(check, now)
    ensures r == Green <==> check.status == CheckCompleted && !IsExpired(check, now)
  {
    if check.status == CheckCompleted && !IsExpired(check, now) then Green
    else if check.status == CheckFailed then Red
    else if check.status == CheckInProgress then Blue
    else Yellow
  }
}
