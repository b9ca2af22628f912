/** The component's two pieces of mutable state, `currentStep` and `formData`,
    and the handlers that overwrite them. Each method is tied to the
    transition it performs in the session model. */
module Wizard {
  import opened Form
  import opened Validation
  import opened Navigation

  class WizardSession {
    var currentStep: int
    var formData: FormData

    /** The step index never leaves 1..6. */
    ghost predicate Valid()
      reads this
    {
      1 <= currentStep <= TotalSteps
    }

    /** The current state as a session value. */
    function Snapshot(): Session
      reads this
    {
      Session(currentStep, formData)
    }

    /** `useState(1)` and the all-empty `useState<FormData>`. */
    constructor ()
      ensures Valid()
      ensures Snapshot() == InitialSession
    {
      currentStep := 1;
      formData := InitialForm;
    }

    /** `updateFormData(field, value)` for a string-valued field. */
    method Update(f: Field, v: string)
      requires Valid()
      modifies this
      ensures Valid()
      ensures currentStep == old(currentStep)
      ensures formData == UpdateField(old(formData), f, v)
      ensures Snapshot() == Apply(old(Snapshot()), Edit(f, v)).next
    {
      formData := UpdateField(formData, f, v);
    }

    /** `handleCheckboxChange(reason, checked)`. */
    method ToggleReason(reason: string, checked: bool)
      requires Valid()
      modifies this
      ensures Valid()
      ensures currentStep == old(currentStep)
      ensures checked ==> formData.mainReasons == old(formData.mainReasons) + [reason]
      ensures !checked ==> formData.mainReasons == Without(old(formData.mainReasons), reason)
      ensures forall g :: Get(formData, g) == Get(old(formData), g)
      ensures Snapshot() == Apply(old(Snapshot()), Navigation.ToggleReason(reason, checked)).next
    {
      var currentReasons := formData.mainReasons;
      if checked {
        formData := WithReasons(formData, currentReasons + [reason]);
      } else {
        formData := WithReasons(formData, Without(currentReasons, reason));
      }
    }

    /** `nextStep`; `rejected` stands for the "Unvollständige Angaben" toast,
        which only a direct call can raise: the rendered "Weiter" is disabled
        on an incomplete step. */
    method Next() returns (rejected: bool)
      requires Valid()
      modifies this
      ensures Valid()
      ensures formData == old(formData)
      ensures rejected <==> !ValidateStep(old(currentStep), formData)
      ensures currentStep == old(currentStep) + 1 <==> !rejected && old(currentStep) < TotalSteps
      ensures currentStep == old(currentStep) || currentStep == old(currentStep) + 1
      ensures Apply(old(Snapshot()), Forward) == Transition(Snapshot(), rejected)
    {
      var valid := ValidateStep(currentStep, formData);
      if valid && currentStep < TotalSteps {
        currentStep := currentStep + 1;
        rejected := false;
      } else if !valid {
        rejected := true;
      } else {
        rejected := false;
      }
    }

    /** `prevStep`: back one step unless on step 1, whatever the form holds. */
    method Prev()
      requires Valid()
      modifies this
      ensures Valid()
      ensures formData == old(formData)
      ensures old(currentStep) > 1 ==> currentStep == old(currentStep) - 1
      ensures old(currentStep) == 1 ==> currentStep == 1
      ensures Snapshot() == Apply(old(Snapshot()), Back).next
    {
      if currentStep > 1 {
        currentStep := currentStep - 1;
      }
    }

    /** `handleSubmit`: the record it logs is the current form; the toast it
        shows carries fixed text. */
    method Submit() returns (record: FormData)
      requires Valid()
      ensures record == Navigation.Submit(Snapshot())
      ensures forall g :: Get(record, g) == Get(formData, g)
      ensures record.mainReasons == formData.mainReasons
    {
      record := formData;
    }
  }

  /** On a fresh session a call of `nextStep` is rejected, as the session's
      contracts alone show. */
  method FreshSessionRejects() returns (rejected: bool, step: int)
    ensures rejected && step == 1
  {
    var w := new WizardSession();
    rejected := w.Next();
    step := w.currentStep;
  }

  /** Filling in the four step-1 answers lets `nextStep` through to step 2, and
      "Zurück" returns to step 1 with the answers in place. */
  method Walkthrough(n: string, e: string, c: string, i: string)
      returns (rejected: bool, midStep: int, finalStep: int, record: FormData)
    requires TextTrim.NotBlank(n) && TextTrim.NotBlank(e) && TextTrim.NotBlank(c) && TextTrim.NotBlank(i)
    ensures !rejected && midStep == 2 && finalStep == 1
    ensures record.name == n && record.email == e && record.companyName == c && record.industry == i
  {
    var w := new WizardSession();
    w.Update(Name, n);
    w.Update(Email, e);
    w.Update(CompanyName, c);
    w.Update(Industry, i);
    assert w.formData == InitialForm.(name := n, email := e, companyName := c, industry := i);
    rejected := w.Next();
    midStep := w.currentStep;
    w.Prev();
    finalStep := w.currentStep;
    record := w.formData;
  }
}
