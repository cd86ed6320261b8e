/** The call-flow editor of src/components/agent/CallFlow.tsx: a list of flow steps held in
    component state and replaced one edit at a time. Step ids are `String(length + 1)` and are not
    unique, so every edit addresses all steps that carry the id. */
module CallFlow {
  import opened Wrappers
  import Seqs
  import Text

  datatype StepType = Greeting | Question | Collect | Verify | Handoff

  datatype FlowStep = FlowStep(
    id: string,
    kind: StepType,
    content: string,
    validation: Option<seq<string>>,
    nextStep: Option<string>)

  /** A `Partial<FlowStep>`: an outer None is a key that is not in the object; an outer Some
      carries the value spread over the step (for the optional fields that value may itself be
      `undefined`, the inner None). */
  datatype StepUpdate = StepUpdate(
    id: Option<string>,
    kind: Option<StepType>,
    content: Option<string>,
    validation: Option<Option<seq<string>>>,
    nextStep: Option<Option<string>>)

  const NoUpdate := StepUpdate(None, None, None, None, None)

  /** The initial `steps` state. */
  const InitialSteps: seq<FlowStep> := [
    FlowStep("1", Greeting,
      "Hello, thank you for calling our mortgage assistance line. How can I help you today?",
      None, None),
    FlowStep("2", Collect, "Could you please tell me your full name?", Some(["name"]), None),
    FlowStep("3", Collect,
      "What type of mortgage are you interested in? For example, first home buyer, refinancing, or investment property?",
      Some(["loan_type"]), None)
  ]

  /** `{ ...step, ...updates }`: every key present in the update overwrites the step's field, every
      other field is kept. */
  function Merge(step: FlowStep, u: StepUpdate): (r: FlowStep)
    ensures r.id == (if u.id.Some? then u.id.value else step.id)
    ensures r.kind == (if u.kind.Some? then u.kind.value else step.kind)
    ensures r.content == (if u.content.Some? then u.content.value else step.content)
    ensures r.validation == (if u.validation.Some? then u.validation.value else step.validation)
    ensures r.nextStep == (if u.nextStep.Some? then u.nextStep.value else step.nextStep)
  {
    FlowStep(
      u.id.GetOr(step.id),
      u.kind.GetOr(step.kind),
      u.content.GetOr(step.content),
      u.validation.GetOr(step.validation),
      u.nextStep.GetOr(step.nextStep))
  }

  /** Spreading an empty update changes nothing; spreading the same update twice is the same as
      spreading it once. */
  lemma MergeLaws(step: FlowStep, u: StepUpdate)
    ensures Merge(step, NoUpdate) == step
    ensures Merge(Merge(step, u), u) == Merge(step, u)
  {
  }

  /** The step `addStep` appends to a list of `count` steps. */
  function NewStep(count: nat): FlowStep {
    FlowStep(Text.NatToString(count + 1), Question, "New step content", None, None)
  }

  /** `steps.filter(step => step.id !== id)`. */
  function RemoveById(steps: seq<FlowStep>, id: string): seq<FlowStep> {
    Seqs.Filter(steps, IdDiffers(id))
  }

  function IdDiffers(id: string): FlowStep -> bool {
    (step: FlowStep) => step.id != id
  }

  /** No step with the id survives; every step with another id keeps its number of occurrences;
      the survivors keep their order (the filter distributes over concatenation). */
  lemma RemoveByIdSpec(steps: seq<FlowStep>, id: string, step: FlowStep)
    ensures forall i | 0 <= i < |RemoveById(steps, id)| :: RemoveById(steps, id)[i].id != id
    ensures multiset(RemoveById(steps, id))[step] ==
            if step.id == id then 0 else multiset(steps)[step]
    ensures forall more: seq<FlowStep> ::
              RemoveById(steps + more, id) == RemoveById(steps, id) + RemoveById(more, id)
  {
    Seqs.FilterCount(steps, IdDiffers(id), step);
    forall more: seq<FlowStep>
      ensures RemoveById(steps + more, id) == RemoveById(steps, id) + RemoveById(more, id)
    {
      Seqs.FilterAppend(steps, more, IdDiffers(id));
    }
  }

  /** Removing an id no step carries leaves the list unchanged. */
  lemma RemoveUnknownId(steps: seq<FlowStep>, id: string)
    requires forall i | 0 <= i < |steps| :: steps[i].id != id
    ensures RemoveById(steps, id) == steps
  {
    Seqs.FilterKeepsAll(steps, IdDiffers(id));
  }

  /** `steps.map(step => step.id === id ? { ...step, ...updates } : step)`. */
  function UpdateById(steps: seq<FlowStep>, id: string, u: StepUpdate): (r: seq<FlowStep>)
    ensures |r| == |steps|
    ensures forall i | 0 <= i < |steps| ::
              r[i] == if steps[i].id == id then Merge(steps[i], u) else steps[i]
  {
    if steps == [] then []
    else [if steps[0].id == id then Merge(steps[0], u) else steps[0]] + UpdateById(steps[1..], id, u)
  }

  /** Updating an id no step carries leaves the list unchanged. */
  lemma UpdateUnknownId(steps: seq<FlowStep>, id: string, u: StepUpdate)
    requires forall i | 0 <= i < |steps| :: steps[i].id != id
    ensures UpdateById(steps, id, u) == steps
  {
  }

  /** The validation list the checkbox handler computes from the rendered step's list:
      checking appends the type (to `[]` when the list was undefined), unchecking filters every
      occurrence out (and leaves an undefined list undefined). */
  function NewValidation(current: Option<seq<string>>, vtype: string, checked: bool)
    : (r: Option<seq<string>>)
    ensures checked ==> r == Some(current.GetOr([]) + [vtype])
    ensures !checked ==> (r.None? <==> current.None?)
    ensures !checked && r.Some? ==>
              vtype !in r.value &&
              forall other | other != vtype :: multiset(r.value)[other] == multiset(current.value)[other]
  {
    if checked then Some(current.GetOr([]) + [vtype])
    else match current
      case None => None
      case Some(v) =>
        var r := Seqs.RemoveAll(v, vtype);
        Seqs.FilterMembership(v, Seqs.Differs(vtype), vtype);
        assert forall other | other != vtype :: multiset(r)[other] == multiset(v)[other] by {
          forall other | other != vtype ensures multiset(r)[other] == multiset(v)[other] {
            Seqs.RemoveAllCount(v, vtype, other);
          }
        }
        Some(r)
  }

  /** `step.validation?.includes(type)`: the checkbox is ticked when the list is defined and holds
      the type. */
  predicate IsChecked(validation: Option<seq<string>>, vtype: string) {
    validation.Some? && vtype in validation.value
  }

  /** After the handler runs, the checkbox shows exactly the state the user asked for. */
  lemma CheckboxFollowsChange(current: Option<seq<string>>, vtype: string, checked: bool)
    ensures IsChecked(NewValidation(current, vtype, checked), vtype) == checked
  {
  }

  /** Checking a type that is not yet listed and then unchecking it restores a defined list, but
      turns an undefined list into the empty list. */
  lemma CheckThenUncheck(current: Option<seq<string>>, vtype: string)
    requires current.Some? ==> vtype !in current.value
    ensures NewValidation(NewValidation(current, vtype, true), vtype, false) ==
            Some(current.GetOr([]))
  {
    var v := current.GetOr([]);
    assert NewValidation(current, vtype, true) == Some(v + [vtype]);
    Seqs.FilterAppend(v, [vtype], Seqs.Differs(vtype));
    assert Seqs.RemoveAll([vtype], vtype) == [];
    Seqs.RemoveAllAbsent(v, vtype);
    assert Seqs.RemoveAll(v + [vtype], vtype) == v;
  }

  /** The `steps` state of the `CallFlow` component. */
  class Editor {
    var steps: seq<FlowStep>

    constructor ()
      ensures steps == InitialSteps
    {
      steps := InitialSteps;
    }

    /** `addStep`: append one question step whose id is the decimal of the new length. */
    method AddStep()
      modifies this
      ensures steps == old(steps) + [NewStep(|old(steps)|)]
      ensures steps[|steps| - 1].id == Text.NatToString(|steps|)
    {
      steps := steps + [NewStep(|steps|)];
    }

    /** `removeStep`: drop every step with the id. */
    method RemoveStep(id: string)
      modifies this
      ensures steps == RemoveById(old(steps), id)
    {
      steps := RemoveById(steps, id);
    }

    /** `updateStep`: spread the update over every step with the id. */
    method UpdateStep(id: string, u: StepUpdate)
      modifies this
      ensures steps == UpdateById(old(steps), id, u)
    {
      steps := UpdateById(steps, id, u);
    }

    /** The validation checkbox's `onChange` on the rendered `step`: compute the new list from
        that step's own list and update every step with its id. */
    method ChangeValidation(step: FlowStep, vtype: string, checked: bool)
      modifies this
      ensures steps == UpdateById(old(steps), step.id,
                StepUpdate(None, None, None, Some(NewValidation(step.validation, vtype, checked)), None))
    {
      var newValidation := NewValidation(step.validation, vtype, checked);
      UpdateStep(step.id, StepUpdate(None, None, None, Some(newValidation), None));
    }
  }

  /** Ids collide: removing step '1' from the initial steps and then adding a step yields two
      steps with id '3'. */
  method RemoveThenAdd() returns (ids: seq<string>)
    ensures ids == ["2", "3", "3"]
  {
    var editor := new Editor();
    editor.RemoveStep("1");
    RemoveFirstInitial();
    editor.AddStep();
    assert Text.NatToString(3) == "3";
    ids := [editor.steps[0].id, editor.steps[1].id, editor.steps[2].id];
  }

  lemma RemoveFirstInitial()
    ensures RemoveById(InitialSteps, "1") == InitialSteps[1..]
  {
    var rest := InitialSteps[1..];
    assert InitialSteps == [InitialSteps[0]] + rest;
    Seqs.FilterAppend([InitialSteps[0]], rest, IdDiffers("1"));
    assert RemoveById([InitialSteps[0]], "1") == [];
    assert rest[0].id == "2" && rest[1].id == "3";
    RemoveUnknownId(rest, "1");
  }
}
