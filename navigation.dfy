/** The navigation state machine of the wizard: `nextStep`, `prevStep`, field
    edits and checkbox changes as transitions of a session value, and runs of
    such events from the initial session. */
module Navigation {
  import opened TextTrim
  import opened Form
  import opened Validation

  /** `currentStep` together with `formData`. */
  datatype Session = Session(step: int, form: FormData)

  /** One user action the engine reacts to. `Forward` is a call of `nextStep`,
      the handler of "Weiter"; `Back` is a call of `prevStep`, the handler of
      "Zurück". The rendered "Weiter" is disabled whenever `nextStep` would
      reject, so a rejecting `Forward` is a direct call of the handler. */
  datatype Event =
    | Edit(field: Field, value: string)
    | ToggleReason(reason: string, checked: bool)
    | Forward
    | Back

  /** The session after an event, and whether the "incomplete step"
      notification was raised. */
  datatype Transition = Transition(next: Session, rejected: bool)

  /** The session the component mounts with. */
  const InitialSession: Session := Session(1, InitialForm)

  predicate InBounds(s: Session) {
    1 <= s.step <= TotalSteps
  }

  /** `nextStep`: advance when the step is complete and not the last one;
      notify when it is incomplete; otherwise do nothing. */
  function NextStep(s: Session): Transition {
    if ValidateStep(s.step, s.form) && s.step < TotalSteps then
      Transition(Session(s.step + 1, s.form), false)
    else if !ValidateStep(s.step, s.form) then
      Transition(s, true)
    else
      Transition(s, false)
  }

  /** `prevStep`: go back one step unless already on step 1. */
  function PrevStep(s: Session): Transition {
    if s.step > 1 then Transition(Session(s.step - 1, s.form), false)
    else Transition(s, false)
  }

  function Apply(s: Session, e: Event): Transition {
    match e
    case Edit(f, v) => Transition(Session(s.step, UpdateField(s.form, f, v)), false)
    case ToggleReason(r, c) =>
      Transition(Session(s.step, WithReasons(s.form, CheckboxChange(s.form.mainReasons, r, c))), false)
    case Forward => NextStep(s)
    case Back => PrevStep(s)
  }

  /** The session after a sequence of events, applied in order. */
  function Run(s: Session, es: seq<Event>): Session
    decreases |es|
  {
    if es == [] then s else Run(Apply(s, es[0]).next, es[1..])
  }

  /** The three cases of `nextStep`: it advances by exactly one iff the step
      is complete and not the last; an incomplete step is rejected with the
      session untouched; a complete last step changes nothing and raises nothing. */
  lemma NextStepCases(s: Session)
    ensures NextStep(s).next.step == s.step + 1 <==> ValidateStep(s.step, s.form) && s.step < TotalSteps
    ensures NextStep(s).next.form == s.form
    ensures NextStep(s).rejected <==> !ValidateStep(s.step, s.form)
    ensures NextStep(s).rejected ==> NextStep(s).next == s
    ensures ValidateStep(s.step, s.form) && s.step == TotalSteps ==> NextStep(s) == Transition(s, false)
  {
  }

  /** `prevStep` is never blocked by the form's contents and never touches it. */
  lemma PrevStepCases(s: Session)
    ensures s.step > 1 ==> PrevStep(s).next.step == s.step - 1
    ensures s.step == 1 ==> PrevStep(s).next == s
    ensures PrevStep(s).next.form == s.form && !PrevStep(s).rejected
  {
  }

  /** Edits never move the wizard, and only moves raise the notification. */
  lemma EditsKeepStep(s: Session, e: Event)
    requires !e.Forward? && !e.Back?
    ensures Apply(s, e).next.step == s.step && !Apply(s, e).rejected
  {
  }

  /** Every event keeps the step within 1..6 and moves it by at most one. */
  lemma ApplyKeepsBounds(s: Session, e: Event)
    requires InBounds(s)
    ensures InBounds(Apply(s, e).next)
    ensures s.step - 1 <= Apply(s, e).next.step <= s.step + 1
  {
  }

  lemma {:induction false} RunKeepsBounds(s: Session, es: seq<Event>)
    requires InBounds(s)
    ensures InBounds(Run(s, es))
    decreases |es|
  {
    if es != [] {
      ApplyKeepsBounds(s, es[0]);
      RunKeepsBounds(Apply(s, es[0]).next, es[1..]);
    }
  }

  /** No sequence of actions from the initial session leaves 1..6. */
  lemma ReachableInBounds(es: seq<Event>)
    ensures InBounds(Run(InitialSession, es))
  {
    RunKeepsBounds(InitialSession, es);
  }

  /** `nextStep` called on the fresh form is rejected and changes nothing. */
  lemma FirstForwardRejected()
    ensures NextStep(InitialSession) == Transition(InitialSession, true)
  {
    InitialFormValidity(1);
  }

  /** Changing `hasProduct` keeps `productDescription`: hiding the field is not
      clearing it. */
  lemma HasProductKeepsDescription(s: Session, v: string)
    ensures Apply(s, Edit(HasProduct, v)).next.form.productDescription == s.form.productDescription
  {
    assert Get(s.form, ProductDescription) == s.form.productDescription;
  }

  /** A run that starts with one event applies it first. */
  lemma RunCons(s: Session, e: Event, es: seq<Event>)
    ensures Run(s, [e] + es) == Run(Apply(s, e).next, es)
  {
    assert ([e] + es)[1..] == es;
  }

  /** Filling in the four required answers of step 1 on a fresh form. */
  lemma FillStep1(n: string, e: string, c: string, i: string)
    ensures Run(InitialSession, [Edit(Name, n), Edit(Email, e), Edit(CompanyName, c), Edit(Industry, i)])
         == Session(1, InitialForm.(name := n, email := e, companyName := c, industry := i))
  {
    var f1 := InitialForm.(name := n);
    var f2 := f1.(email := e);
    var f3 := f2.(companyName := c);
    var f4 := f3.(industry := i);
    assert Run(Session(1, f3), [Edit(Industry, i)]) == Session(1, f4) by {
      RunCons(Session(1, f3), Edit(Industry, i), []);
    }
    assert Run(Session(1, f2), [Edit(CompanyName, c), Edit(Industry, i)]) == Session(1, f4) by {
      RunCons(Session(1, f2), Edit(CompanyName, c), [Edit(Industry, i)]);
    }
    assert Run(Session(1, f1), [Edit(Email, e), Edit(CompanyName, c), Edit(Industry, i)]) == Session(1, f4) by {
      RunCons(Session(1, f1), Edit(Email, e), [Edit(CompanyName, c), Edit(Industry, i)]);
    }
    RunCons(InitialSession, Edit(Name, n), [Edit(Email, e), Edit(CompanyName, c), Edit(Industry, i)]);
  }

  /** Start empty, fail to advance (the session stays as it was), fill in
      step 1, advance to step 2, go back: step 1 again with the four answers
      still in place. */
  lemma EndToEndScenario(n: string, e: string, c: string, i: string)
    requires NotBlank(n) && NotBlank(e) && NotBlank(c) && NotBlank(i)
    ensures NextStep(InitialSession) == Transition(InitialSession, true)
    ensures
      var filled := Run(InitialSession, [Edit(Name, n), Edit(Email, e), Edit(CompanyName, c), Edit(Industry, i)]);
      var forward := NextStep(filled);
      var back := PrevStep(forward.next);
      filled.step == 1 && forward == Transition(Session(2, filled.form), false) &&
      back == Transition(filled, false) &&
      back.next.form.name == n && back.next.form.email == e &&
      back.next.form.companyName == c && back.next.form.industry == i
  {
    FirstForwardRejected();
    FillStep1(n, e, c, i);
    var fd := InitialForm.(name := n, email := e, companyName := c, industry := i);
    assert ValidStep1(fd);
  }

  /** Earlier steps are not re-validated: after advancing past step 1, its
      name can be cleared and the wizard stays on step 2. */
  lemma NoRetroactiveRevalidation(s: Session)
    requires s.step == 1 && ValidateStep(1, s.form)
    ensures
      var later := Run(s, [Forward, Edit(Name, "")]);
      later.step == 2 && !ValidateStep(1, later.form)
  {
    var cleared := s.form.(name := "");
    RunCons(s, Forward, [Edit(Name, "")]);
    RunCons(Session(2, s.form), Edit(Name, ""), []);
    assert !NotBlank(cleared.name);
  }

  /** `k` calls of `nextStep`. */
  function Presses(k: nat): (es: seq<Event>)
    ensures |es| == k && forall j :: 0 <= j < k ==> es[j] == Forward
  {
    if k == 0 then [] else [Forward] + Presses(k - 1)
  }

  /** When the current step and all later ones are complete, calling `nextStep`
      once per remaining step (each time with "Weiter" enabled) lands on the terminal step with the form intact. */
  lemma {:induction false} ForwardThroughComplete(s: Session)
    requires InBounds(s)
    requires forall k :: s.step <= k < TotalSteps ==> ValidateStep(k, s.form)
    ensures Run(s, Presses(TotalSteps - s.step)) == Session(TotalSteps, s.form)
    decreases TotalSteps - s.step
  {
    if s.step < TotalSteps {
      RunCons(s, Forward, Presses(TotalSteps - s.step - 1));
      ForwardThroughComplete(Session(s.step + 1, s.form));
    }
  }

  /** `handleSubmit` hands on the current record unchanged. */
  function Submit(s: Session): (record: FormData)
    ensures forall g :: Get(record, g) == Get(s.form, g)
    ensures record.mainReasons == s.form.mainReasons
  {
    s.form
  }

  /** A form on which every step is complete can be walked from step 1 to
      the terminal step, and what is submitted there is exactly that form. */
  lemma SubmissionSnapshot(fd: FormData)
    requires forall k :: 1 <= k < TotalSteps ==> ValidateStep(k, fd)
    ensures Run(Session(1, fd), Presses(TotalSteps - 1)).step == TotalSteps
    ensures Submit(Run(Session(1, fd), Presses(TotalSteps - 1))) == fd
  {
    ForwardThroughComplete(Session(1, fd));
  }
}
