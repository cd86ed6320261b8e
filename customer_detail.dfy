/** The customer detail pane of src/components/customers/CustomerDetail.tsx: when a new credit
    check may be requested, and the request flag around the awaited request. */
module CustomerDetail {
  import opened Wrappers
  import opened Types
  import UseCustomerData

  /** Thirty days in milliseconds. */
  const ThirtyDaysMs: int := 30 * 24 * 60 * 60 * 1000

  lemma ThirtyDaysValue()
    ensures ThirtyDaysMs == 2592000000
  {
  }

  /** `canRequestCreditCheck`. The completion date goes through `new Date(..).getTime()`: a
      missing date is NaN, never before anything, while a `null` one is the epoch. */
  function CanRequestCreditCheck(check: Option<CreditCheck>, now: Millis): (r: bool)
    ensures check.None? ==> r
    ensures check.Some? && check.value.status == CheckFailed ==> r
    ensures check.Some? && check.value.status == CheckCompleted ==>
              (r <==> TimeOf(check.value.completedDate).Some? &&
                      TimeOf(check.value.completedDate).value < now - ThirtyDaysMs)
    ensures check.Some? && (check.value.status == CheckPending || check.value.status == CheckInProgress) ==> !r
  {
    check.None? ||
    check.value.status == CheckFailed ||
    (check.value.status == CheckCompleted &&
     match TimeOf(check.value.completedDate)
     case Some(t) => t < now - ThirtyDaysMs
     case None => false)
  }

  /** Once a request is allowed it stays allowed as time goes on. */
  lemma CanRequestMonotone(check: Option<CreditCheck>, now: Millis, later: Millis)
    requires now <= later && CanRequestCreditCheck(check, now)
    ensures CanRequestCreditCheck(check, later)
  {
  }

  /** A check completed at time `t` may be re-requested from `t + ThirtyDaysMs + 1` on and not
      before. */
  lemma CompletedCheckWaitsThirtyDays(check: CreditCheck, t: Millis, now: Millis)
    requires check.status == CheckCompleted && check.completedDate == At(t)
    ensures CanRequestCreditCheck(Some(check), now) <==> now > t + ThirtyDaysMs
  {
  }

  /** A completed check stored with a `null` completion date counts as completed at the epoch, so
      it may be re-requested from thirty days after the epoch on; one without the field never
      may. */
  lemma CompletedCheckWithoutDate(check: CreditCheck, now: Millis)
    requires check.status == CheckCompleted
    ensures check.completedDate == Null ==> (CanRequestCreditCheck(Some(check), now) <==> now > ThirtyDaysMs)
    ensures check.completedDate == Undefined ==> !CanRequestCreditCheck(Some(check), now)
  {
  }

  /** `customer.creditScore ? <score> : <request panel>`: the request panel is shown when the
      score is missing or zero. */
  predicate ShowsRequestPanel(creditScore: Option<int>) {
    creditScore.None? || creditScore.value == 0
  }

  /** The request panel of a loaded customer shows exactly when the row's `credit_score` is
      null or 0; the image fallback plays no part. */
  lemma RequestPanelFollowsRowScore(row: UseCustomerData.CustomerRow, encode: string -> string)
    ensures ShowsRequestPanel(UseCustomerData.ToCustomer(row, encode).creditScore) <==>
            row.creditScore.None? || row.creditScore.value == 0
  {
  }

  /** `disabled={isRequestingCheck || !canRequestCreditCheck}`. */
  predicate RequestButtonDisabled(isRequesting: bool, check: Option<CreditCheck>, now: Millis) {
    isRequesting || !CanRequestCreditCheck(check, now)
  }

  /** A customer with a check pending or in progress can never press the button. */
  lemma ButtonDisabledWhileCheckRuns(isRequesting: bool, check: CreditCheck, now: Millis)
    requires check.status == CheckPending || check.status == CheckInProgress
    ensures RequestButtonDisabled(isRequesting, Some(check), now)
  {
  }

  /** The `isRequestingCheck` state, together with the customer ids handed to
      `onRequestCreditCheck` so far. */
  class CreditCheckRequest {
    var isRequestingCheck: bool
    var requested: seq<string>

    constructor ()
      ensures !isRequestingCheck && requested == []
    {
      isRequestingCheck := false;
      requested := [];
    }

    /** `handleCreditCheck`: set the flag, await the request for the customer, swallow a
        rejection, and clear the flag in `finally`. */
    method HandleCreditCheck(customerId: string, outcome: Settled)
      modifies this
      ensures !isRequestingCheck
      ensures requested == old(requested) + [customerId]
    {
      isRequestingCheck := true;
      requested := requested + [customerId];
      match outcome {
        case Resolved =>
        case Rejected(_) =>
      }
      isRequestingCheck := false;
    }
  }
}
