/** The loan progress tracker of src/components/LoanProgressTracker.tsx: a fixed seven-step
    catalog, the current/next step derived from it, the expand/collapse state of the step list and
    the "progress" button's processing flag. Step icons and styling are left out. */
module LoanProgressTracker {
  import opened Wrappers
  import Seqs

  datatype StepStatus = Completed | InProgress | Pending | Failed

  datatype Substep = Substep(id: string, title: string, status: StepStatus)

  datatype Step = Step(
    id: string,
    title: string,
    description: string,
    status: StepStatus,
    substeps: seq<Substep>)

  /** The hard-coded `loanSteps` array. */
  const LoanSteps: seq<Step> := [
    Step("initial_contact", "Initial Contact", "First contact and basic information collection",
      Completed, [
        Substep("basic_info", "Collect basic information", Completed),
        Substep("loan_requirements", "Understand loan requirements", Completed)]),
    Step("identity_verification", "Identity Verification", "Verify identity and perform credit checks",
      InProgress, [
        Substep("id_docs", "Verify identification documents", InProgress),
        Substep("credit_check", "Perform credit assessment", Pending)]),
    Step("document_collection", "Document Collection", "Gather and verify required documentation",
      Pending, [
        Substep("income_docs", "Income verification documents", Pending),
        Substep("bank_statements", "Bank statements", Pending),
        Substep("tax_returns", "Tax returns", Pending)]),
    Step("assessment", "Loan Assessment", "Evaluate loan application and financial position",
      Pending, [
        Substep("income_assessment", "Income assessment", Pending),
        Substep("expense_analysis", "Expense analysis", Pending),
        Substep("serviceability", "Serviceability calculation", Pending)]),
    Step("property_valuation", "Property Valuation", "Property assessment and valuation",
      Pending, [
        Substep("property_details", "Property details collection", Pending),
        Substep("valuation_report", "Valuation report", Pending)]),
    Step("final_approval", "Final Approval", "Final review and loan approval",
      Pending, [
        Substep("final_review", "Final application review", Pending),
        Substep("approval_decision", "Approval decision", Pending)]),
    Step("documentation", "Documentation", "Prepare and sign loan documentation",
      Pending, [
        Substep("prepare_docs", "Prepare loan documents", Pending),
        Substep("client_signing", "Client signing", Pending)])
  ]

  // ---- Current and next step --------------------------------------------------------------

  /** The index `steps.find(step => step.status === 'in_progress')` stops at, searching from `k`. */
  function FirstInProgressFrom(steps: seq<Step>, k: nat): (r: Option<nat>)
    requires k <= |steps|
    ensures r.Some? ==> k <= r.value < |steps| && steps[r.value].status == InProgress
    ensures r.Some? ==> forall j | k <= j < r.value :: steps[j].status != InProgress
    ensures r.None? ==> forall j | k <= j < |steps| :: steps[j].status != InProgress
    decreases |steps| - k
  {
    if k == |steps| then None
    else if steps[k].status == InProgress then Some(k)
    else FirstInProgressFrom(steps, k + 1)
  }

  /** The position of `currentStep`: the first in-progress step, or 0 when there is none
      (`find(...) || loanSteps[0]`). */
  function CurrentIndex(steps: seq<Step>): (i: nat)
    requires |steps| > 0
    ensures i < |steps|
    ensures forall j | 0 <= j < i :: steps[j].status != InProgress
    ensures steps[i].status == InProgress ||
            (i == 0 && forall j | 0 <= j < |steps| :: steps[j].status != InProgress)
  {
    match FirstInProgressFrom(steps, 0)
    case Some(i) => i
    case None => 0
  }

  function CurrentStep(steps: seq<Step>): Step
    requires |steps| > 0
  {
    steps[CurrentIndex(steps)]
  }

  /** `steps.findIndex(step => step.id === id)`, searching from `k`; -1 when absent. */
  function IndexOfIdFrom(steps: seq<Step>, id: string, k: nat): (r: int)
    requires k <= |steps|
    ensures r == -1 || k <= r < |steps|
    ensures r == -1 <==> forall j | k <= j < |steps| :: steps[j].id != id
    ensures r != -1 ==> steps[r].id == id && forall j | k <= j < r :: steps[j].id != id
    decreases |steps| - k
  {
    if k == |steps| then -1
    else if steps[k].id == id then k
    else IndexOfIdFrom(steps, id, k + 1)
  }

  /** `nextStep`: the step after the first one carrying the current step's id, or None (`null`)
      when that is the last step. */
  function NextStep(steps: seq<Step>): Option<Step>
    requires |steps| > 0
  {
    var k := IndexOfIdFrom(steps, CurrentStep(steps).id, 0) + 1;
    if k < |steps| then Some(steps[k]) else None
  }

  /** The progress button is rendered only when there is a next step (`{nextStep && ...}`). */
  predicate ShowsProgressButton(steps: seq<Step>)
    requires |steps| > 0
  {
    NextStep(steps).Some?
  }

  predicate DistinctIds(steps: seq<Step>) {
    forall i, j | 0 <= i < j < |steps| :: steps[i].id != steps[j].id
  }

  /** With distinct step ids, the next step is the one right after the current step, and there is
      none (so no progress button) exactly when the current step is the last one. */
  lemma NextStepFollowsCurrent(steps: seq<Step>)
    requires |steps| > 0 && DistinctIds(steps)
    ensures var i := CurrentIndex(steps);
            (NextStep(steps).None? <==> i == |steps| - 1) &&
            (i + 1 < |steps| ==> NextStep(steps) == Some(steps[i + 1]))
    ensures ShowsProgressButton(steps) <==> CurrentIndex(steps) < |steps| - 1
  {
    var i := CurrentIndex(steps);
    var k := IndexOfIdFrom(steps, steps[i].id, 0);
    assert k == i;
  }

  /** Without distinct ids the lookup by id may land on an earlier step of the same id, so the
      next step is never further than the one right after the current step. */
  lemma NextStepNotBeyondCurrent(steps: seq<Step>)
    requires |steps| > 0
    ensures var k := IndexOfIdFrom(steps, CurrentStep(steps).id, 0);
            0 <= k <= CurrentIndex(steps) && steps[k].id == CurrentStep(steps).id
  {
  }

  /** On the hard-coded catalog the current step is identity verification and the next one is
      document collection, so the progress button is shown. */
  lemma CatalogCurrentAndNext()
    ensures |LoanSteps| == 7 && DistinctIds(LoanSteps)
    ensures CurrentIndex(LoanSteps) == 1
    ensures CurrentStep(LoanSteps).id == "identity_verification"
    ensures NextStep(LoanSteps).Some? && NextStep(LoanSteps).value.id == "document_collection"
    ensures ShowsProgressButton(LoanSteps)
  {
    assert LoanSteps[0].status != InProgress;
    assert LoanSteps[1].status == InProgress;
    NextStepFollowsCurrent(LoanSteps);
  }

  // ---- Description of the next action -------------------------------------------------------

  const DefaultActionDescription: string := "Process next stage of the loan application"

  /** The step ids with a dedicated description. */
  const DescribedStepIds: set<string> := {"identity_verification", "document_collection",
    "assessment", "property_valuation", "final_approval", "documentation"}

  /** `getActionDescription`, a switch on the next step's id. */
  function ActionDescription(nextStepId: string): (r: string)
    ensures r == DefaultActionDescription <==> nextStepId !in DescribedStepIds
    ensures nextStepId == "initial_contact" ==> r == DefaultActionDescription
  {
    if nextStepId == "identity_verification" then
      "System will process ID documents and initiate credit checks"
    else if nextStepId == "document_collection" then
      "Automated document collection and verification process"
    else if nextStepId == "assessment" then
      "Comprehensive assessment of income and expenses"
    else if nextStepId == "property_valuation" then
      "Property valuation and market analysis"
    else if nextStepId == "final_approval" then
      "Final review of all verifications and assessments"
    else if nextStepId == "documentation" then
      "Preparation of required loan documentation"
    else DefaultActionDescription
  }

  // ---- Expand / collapse ---------------------------------------------------------------------

  /** The functional update `toggleStep` passes to `setExpandedSteps`: drop every occurrence of a
      present id, append an absent one. */
  function Toggle(expanded: seq<string>, stepId: string): seq<string> {
    if stepId in expanded then Seqs.RemoveAll(expanded, stepId) else expanded + [stepId]
  }

  /** Toggling flips the membership of `stepId` and leaves the membership of every other id as it
      was; an absent id is appended at the end; a present id loses all its occurrences, the other
      ids keep theirs, and their order is kept: removal from two runs one after the other is the
      removal from the first followed by the removal from the second. */
  lemma ToggleMembership(expanded: seq<string>, more: seq<string>, stepId: string, other: string)
    ensures stepId in Toggle(expanded, stepId) <==> stepId !in expanded
    ensures other != stepId ==> (other in Toggle(expanded, stepId) <==> other in expanded)
    ensures stepId !in expanded ==> Toggle(expanded, stepId) == expanded + [stepId]
    ensures stepId in expanded ==>
              multiset(Toggle(expanded, stepId))[other] ==
              if other == stepId then 0 else multiset(expanded)[other]
    ensures stepId in expanded && stepId in more ==>
              Toggle(expanded + more, stepId) == Toggle(expanded, stepId) + Toggle(more, stepId)
  {
    Seqs.FilterMembership(expanded, Seqs.Differs(stepId), stepId);
    Seqs.FilterMembership(expanded, Seqs.Differs(stepId), other);
    Seqs.RemoveAllCount(expanded, stepId, other);
    Seqs.FilterAppend(expanded, more, Seqs.Differs(stepId));
  }

  /** Toggling an absent id twice gives back the original list. */
  lemma ToggleTwiceAbsent(expanded: seq<string>, stepId: string)
    requires stepId !in expanded
    ensures Toggle(Toggle(expanded, stepId), stepId) == expanded
  {
    var once := expanded + [stepId];
    assert stepId in once;
    Seqs.FilterAppend(expanded, [stepId], Seqs.Differs(stepId));
    assert Seqs.RemoveAll([stepId], stepId) == [];
    Seqs.RemoveAllAbsent(expanded, stepId);
  }

  /** Toggling a present id twice does not restore the list: it moves the id to the end. */
  lemma ToggleTwicePresent(expanded: seq<string>, stepId: string)
    requires stepId in expanded
    ensures Toggle(Toggle(expanded, stepId), stepId) == Seqs.RemoveAll(expanded, stepId) + [stepId]
  {
    Seqs.FilterMembership(expanded, Seqs.Differs(stepId), stepId);
  }

  /** Toggling keeps a duplicate-free list duplicate-free. */
  lemma ToggleNoDuplicates(expanded: seq<string>, stepId: string)
    requires Seqs.NoDuplicates(expanded)
    ensures Seqs.NoDuplicates(Toggle(expanded, stepId))
  {
    if stepId in expanded {
      Seqs.FilterNoDuplicates(expanded, Seqs.Differs(stepId));
    } else {
      var r := expanded + [stepId];
      forall i, j | 0 <= i < j < |r|
        ensures r[i] != r[j]
      {
        if j == |expanded| {
          assert r[i] in expanded;
        }
      }
    }
  }

  /** The list after toggling each id of `ids` in turn. */
  function ToggleAll(expanded: seq<string>, ids: seq<string>): seq<string>
    decreases ids
  {
    if ids == [] then expanded else ToggleAll(Toggle(expanded, ids[0]), ids[1..])
  }

  /** From the initial empty list, every sequence of toggles leaves the list duplicate-free. */
  lemma {:induction false} ToggleAllNoDuplicates(expanded: seq<string>, ids: seq<string>)
    requires Seqs.NoDuplicates(expanded)
    ensures Seqs.NoDuplicates(ToggleAll(expanded, ids))
    decreases ids
  {
    if ids != [] {
      ToggleNoDuplicates(expanded, ids[0]);
      ToggleAllNoDuplicates(Toggle(expanded, ids[0]), ids[1..]);
    }
  }

  /** The `LoanProgressTracker` component's state: the expanded step ids, and the statuses it has
      reported through `onUpdateStatus`. */
  class Tracker {
    var expandedSteps: seq<string>
    var reportedStatuses: seq<string>

    ghost predicate Valid()
      reads this
    {
      Seqs.NoDuplicates(expandedSteps)
    }

    constructor ()
      ensures Valid()
      ensures expandedSteps == [] && reportedStatuses == []
    {
      expandedSteps := [];
      reportedStatuses := [];
    }

    /** Whether a step's substeps are shown (`expandedSteps.includes(step.id)`). */
    predicate IsExpanded(stepId: string)
      reads this
    {
      stepId in expandedSteps
    }

    method ToggleStep(stepId: string)
      requires Valid()
      modifies this
      ensures Valid()
      ensures expandedSteps == Toggle(old(expandedSteps), stepId)
      ensures IsExpanded(stepId) <==> !old(IsExpanded(stepId))
      ensures reportedStatuses == old(reportedStatuses)
    {
      ToggleNoDuplicates(expandedSteps, stepId);
      ToggleMembership(expandedSteps, [], stepId, stepId);
      expandedSteps := Toggle(expandedSteps, stepId);
    }

    /** `handleProgressLoan`: after a delay, report the status 'progressed'. Nothing guards it. */
    method ProgressLoan()
      modifies this
      ensures reportedStatuses == old(reportedStatuses) + ["progressed"]
      ensures expandedSteps == old(expandedSteps)
    {
      reportedStatuses := reportedStatuses + ["progressed"];
    }
  }

  // ---- The progress button ---------------------------------------------------------------------

  /** `SmartProgressButton`'s state: the processing flag and what it wrote to the error log. */
  class ProgressButton {
    var isProcessing: bool
    var errorLog: seq<string>

    constructor ()
      ensures !isProcessing && errorLog == []
    {
      isProcessing := false;
      errorLog := [];
    }

    /** The button is disabled while a progress action is running. */
    predicate Disabled()
      reads this
    {
      isProcessing
    }

    /** `handleProgress`: set the flag, await `onProgress`, log a rejection instead of rethrowing
        it, and clear the flag in `finally`. */
    method HandleProgress(onProgress: Settled)
      modifies this
      ensures !isProcessing && !Disabled()
      ensures errorLog == old(errorLog) + (if onProgress.Rejected? then [onProgress.error] else [])
    {
      isProcessing := true;
      if onProgress.Rejected? {
        errorLog := errorLog + [onProgress.error];
      }
      isProcessing := false;
    }
  }
}
