/** The BA's five-step "new BRD" wizard: the step counter, moved by the Next and
    Previous buttons and by clicks on the step list, the form it edits and the
    draft it stores on submission. */
module NewBrd {
  import opened Options

  /** The wizard's form. */
  datatype BrdForm = BrdForm(
    projectName: string, businessArea: string, priority: string, problem: string,
    objectives: string, scopeIn: string, scopeOut: string, risks: string,
    dataRequired: string, assumptions: string, stakeholders: string)

  const DefaultForm := BrdForm("", "", "medium", "", "", "", "", "", "", "", "")

  datatype FormField =
    | FProjectName | FBusinessArea | FPriority | FProblem | FObjectives | FScopeIn
    | FScopeOut | FRisks | FDataRequired | FAssumptions | FStakeholders

  function GetField(f: BrdForm, k: FormField): string {
    match k
    case FProjectName => f.projectName
    case FBusinessArea => f.businessArea
    case FPriority => f.priority
    case FProblem => f.problem
    case FObjectives => f.objectives
    case FScopeIn => f.scopeIn
    case FScopeOut => f.scopeOut
    case FRisks => f.risks
    case FDataRequired => f.dataRequired
    case FAssumptions => f.assumptions
    case FStakeholders => f.stakeholders
  }

  /** `{ ...prev, [field]: value }`: only the named field takes the new value. */
  function SetField(f: BrdForm, k: FormField, v: string): (r: BrdForm)
    ensures GetField(r, k) == v
    ensures forall j :: j != k ==> GetField(r, j) == GetField(f, j)
  {
    match k
    case FProjectName => f.(projectName := v)
    case FBusinessArea => f.(businessArea := v)
    case FPriority => f.(priority := v)
    case FProblem => f.(problem := v)
    case FObjectives => f.(objectives := v)
    case FScopeIn => f.(scopeIn := v)
    case FScopeOut => f.(scopeOut := v)
    case FRisks => f.(risks := v)
    case FDataRequired => f.(dataRequired := v)
    case FAssumptions => f.(assumptions := v)
    case FStakeholders => f.(stakeholders := v)
  }

  /** The number of steps, and so the last step's id. */
  const StepCount := 5

  /** `progressPercentage`: how far along the steps the wizard is, in percent. */
  function ProgressPercentage(step: int): (p: real)
    ensures 1 <= step <= StepCount ==> 0.0 <= p <= 100.0
    ensures p == 0.0 <==> step == 1
    ensures p == 100.0 <==> step == StepCount
  {
    (step - 1) as real / (StepCount - 1) as real * 100.0
  }

  /** The further the step, the larger the progress. */
  lemma ProgressIncreases(a: int, b: int)
    requires a < b
    ensures ProgressPercentage(a) < ProgressPercentage(b)
  {
  }

  /** Submission needs a project name, a problem and objectives. */
  predicate MissingRequired(f: BrdForm) {
    f.projectName == "" || f.problem == "" || f.objectives == ""
  }

  class Wizard {
    var currentStep: int
    var form: BrdForm
    /** The stored "newBRDDraft". */
    var savedDraft: Option<BrdForm>

    /** The step is always one of the wizard's steps. */
    predicate Valid()
      reads this
    {
      1 <= currentStep <= StepCount
    }

    /** The wizard opens on the first step with the default form. */
    constructor(stored: Option<BrdForm>)
      ensures Valid()
      ensures currentStep == 1 && form == DefaultForm && savedDraft == stored
    {
      currentStep := 1;
      form := DefaultForm;
      savedDraft := stored;
    }

    /** `handleNext`: one step on, unless on the last step. */
    method Next()
      requires Valid()
      modifies this
      ensures Valid()
      ensures old(currentStep) < StepCount ==> currentStep == old(currentStep) + 1
      ensures old(currentStep) == StepCount ==> currentStep == StepCount
      ensures form == old(form) && savedDraft == old(savedDraft)
    {
      if currentStep < StepCount {
        currentStep := currentStep + 1;
      }
    }

    /** `handlePrev`: one step back, unless on the first step. */
    method Prev()
      requires Valid()
      modifies this
      ensures Valid()
      ensures old(currentStep) > 1 ==> currentStep == old(currentStep) - 1
      ensures old(currentStep) == 1 ==> currentStep == 1
      ensures form == old(form) && savedDraft == old(savedDraft)
    {
      if currentStep > 1 {
        currentStep := currentStep - 1;
      }
    }

    /** A click on step `id` of the step list: any step up to the one after the
        current one can be reached; a click further ahead is ignored. */
    method ClickStep(id: int)
      requires Valid() && 1 <= id <= StepCount
      modifies this
      ensures Valid()
      ensures id <= old(currentStep) + 1 ==> currentStep == id
      ensures id > old(currentStep) + 1 ==> currentStep == old(currentStep)
      ensures currentStep <= old(currentStep) + 1
      ensures form == old(form) && savedDraft == old(savedDraft)
    {
      if id <= currentStep + 1 {
        currentStep := id;
      }
    }

    /** `handleInputChange`. */
    method InputChange(k: FormField, v: string)
      modifies this
      ensures form == SetField(old(form), k, v)
      ensures currentStep == old(currentStep) && savedDraft == old(savedDraft)
    {
      form := SetField(form, k, v);
    }

    /** `handleSubmit`: refused while a required field is empty; otherwise the
        form is stored as the draft. */
    method Submit()
      modifies this
      ensures MissingRequired(old(form)) ==> savedDraft == old(savedDraft)
      ensures !MissingRequired(old(form)) ==> savedDraft == Some(old(form))
      ensures currentStep == old(currentStep) && form == old(form)
    {
      if MissingRequired(form) {
        return;
      }
      savedDraft := Some(form);
    }
  }

  /** What the user does to move through the wizard. */
  datatype Action = PressNext | PressPrev | Click(id: int)

  /** A client scenario, not a member of the page: any run of Next, Prev and step
      clicks stays within the steps, gets at most one step further per action, and
      leaves the form alone. */
  method Navigate(w: Wizard, actions: seq<Action>)
    requires w.Valid()
    requires forall i :: 0 <= i < |actions| && actions[i].Click? ==> 1 <= actions[i].id <= StepCount
    modifies w
    ensures w.Valid()
    ensures w.currentStep <= old(w.currentStep) + |actions|
    ensures w.form == old(w.form)
  {
    var i := 0;
    while i < |actions|
      invariant 0 <= i <= |actions|
      invariant w.Valid()
      invariant w.currentStep <= old(w.currentStep) + i
      invariant w.form == old(w.form)
    {
      match actions[i] {
        case PressNext => w.Next();
        case PressPrev => w.Prev();
        case Click(id) => w.ClickStep(id);
      }
      i := i + 1;
    }
  }
}
