/** The per-step completeness checks `validateStep1` ... `validateStep6` and
    the dispatcher `validateCurrentStep`. */
module Validation {
  import opened TextTrim
  import opened Form

  /** The number of steps of the wizard; the last one is the terminal step. */
  const TotalSteps: int := 6

  /** The step whose checkbox group fills `mainReasons`. */
  const ReasonsStep: int := 3

  /** Step 1: name, e-mail, company name and industry are non-empty once trimmed. */
  predicate ValidStep1(fd: FormData)
    ensures ValidStep1(fd) <==>
      NotBlank(fd.name) && NotBlank(fd.email) && NotBlank(fd.companyName) && NotBlank(fd.industry)
  {
    TrimNonEmptyIff(fd.name);
    TrimNonEmptyIff(fd.email);
    TrimNonEmptyIff(fd.companyName);
    TrimNonEmptyIff(fd.industry);
    Trim(fd.name) != "" && Trim(fd.email) != "" && Trim(fd.companyName) != "" && Trim(fd.industry) != ""
  }

  /** Step 2: team size, revenue and the "has a product" answer are chosen (no trimming). */
  predicate ValidStep2(fd: FormData) {
    fd.teamSize != "" && fd.revenue != "" && fd.hasProduct != ""
  }

  /** Step 3: at least one reason is ticked. */
  predicate ValidStep3(fd: FormData) {
    |fd.mainReasons| > 0
  }

  /** Step 4: the tech-team answer and the timeline are chosen. */
  predicate ValidStep4(fd: FormData) {
    fd.hasTechTeam != "" && fd.timeline != ""
  }

  /** Step 5: the budget and the agency-experience answer are chosen. */
  predicate ValidStep5(fd: FormData) {
    fd.budget != "" && fd.hasWorkedWithAgencies != ""
  }

  /** Step 6 has no required field. */
  predicate ValidStep6(fd: FormData) {
    true
  }

  /** `validateCurrentStep`: the validator of the given step, and `false` for
      any index outside 1..6. The terminal step is always complete. */
  predicate ValidateStep(step: int, fd: FormData)
    ensures ValidateStep(step, fd) ==> 1 <= step <= TotalSteps
    ensures step == TotalSteps ==> ValidateStep(step, fd)
  {
    match step
    case 1 => ValidStep1(fd)
    case 2 => ValidStep2(fd)
    case 3 => ValidStep3(fd)
    case 4 => ValidStep4(fd)
    case 5 => ValidStep5(fd)
    case 6 => ValidStep6(fd)
    case _ => false
  }

  /** The schema: the string fields each step requires. */
  function RequiredFields(step: int): set<Field> {
    match step
    case 1 => {Name, Email, CompanyName, Industry}
    case 2 => {TeamSize, Revenue, HasProduct}
    case 4 => {HasTechTeam, Timeline}
    case 5 => {Budget, HasWorkedWithAgencies}
    case _ => {}
  }

  /** What counts as an answer on a step: on step 1 a value with a visible
      character, elsewhere any non-empty value. */
  ghost predicate Answered(step: int, v: string) {
    if step == 1 then NotBlank(v) else v != ""
  }

  /** Every required field of the step answered. */
  ghost predicate RequiredAnswered(step: int, fd: FormData) {
    forall f :: f in RequiredFields(step) ==> Answered(step, Get(fd, f))
  }

  /** The validators agree with the schema: a step in range is complete exactly
      when each of its required fields is answered and, on the reasons step, the
      list is non-empty. */
  lemma ValidateBySchema(step: int, fd: FormData)
    ensures ValidateStep(step, fd) <==>
      1 <= step <= TotalSteps && RequiredAnswered(step, fd) &&
      (step == ReasonsStep ==> |fd.mainReasons| > 0)
  {
    var req := RequiredFields(step);
    if step == 1 {
      assert req == {Name, Email, CompanyName, Industry};
      assert RequiredAnswered(step, fd) <==>
        Answered(1, fd.name) && Answered(1, fd.email) &&
        Answered(1, fd.companyName) && Answered(1, fd.industry)
      by {
        assert Get(fd, Name) == fd.name && Get(fd, Email) == fd.email;
        assert Get(fd, CompanyName) == fd.companyName && Get(fd, Industry) == fd.industry;
      }
    } else if step == 2 {
      assert req == {TeamSize, Revenue, HasProduct};
      assert RequiredAnswered(step, fd) <==>
        fd.teamSize != "" && fd.revenue != "" && fd.hasProduct != ""
      by {
        assert Get(fd, TeamSize) == fd.teamSize && Get(fd, Revenue) == fd.revenue;
        assert Get(fd, HasProduct) == fd.hasProduct;
      }
    } else if step == 4 {
      assert req == {HasTechTeam, Timeline};
      assert RequiredAnswered(step, fd) <==> fd.hasTechTeam != "" && fd.timeline != "" by {
        assert Get(fd, HasTechTeam) == fd.hasTechTeam && Get(fd, Timeline) == fd.timeline;
      }
    } else if step == 5 {
      assert req == {Budget, HasWorkedWithAgencies};
      assert RequiredAnswered(step, fd) <==> fd.budget != "" && fd.hasWorkedWithAgencies != "" by {
        assert Get(fd, Budget) == fd.budget;
        assert Get(fd, HasWorkedWithAgencies) == fd.hasWorkedWithAgencies;
      }
    } else {
      assert req == {};
    }
  }

  /** A validator reads nothing but its step's required fields (and, on the
      reasons step, the reasons list). */
  lemma ValidateReadsOnlyRequired(step: int, a: FormData, b: FormData)
    requires forall f :: f in RequiredFields(step) ==> Get(a, f) == Get(b, f)
    requires step == ReasonsStep ==> a.mainReasons == b.mainReasons
    ensures ValidateStep(step, a) == ValidateStep(step, b)
  {
    ValidateBySchema(step, a);
    ValidateBySchema(step, b);
  }

  /** Editing a field a step does not require leaves that step's verdict alone;
      in particular `productDescription` never affects any step. */
  lemma UpdateOutsideRequired(step: int, fd: FormData, f: Field, v: string)
    requires f !in RequiredFields(step)
    ensures ValidateStep(step, UpdateField(fd, f, v)) == ValidateStep(step, fd)
  {
    ValidateReadsOnlyRequired(step, UpdateField(fd, f, v), fd);
  }

  /** Changing the reasons list only matters on the reasons step. */
  lemma ReasonsOnlyMatterOnStep3(step: int, fd: FormData, reasons: seq<string>)
    requires step != ReasonsStep
    ensures ValidateStep(step, WithReasons(fd, reasons)) == ValidateStep(step, fd)
  {
    ValidateReadsOnlyRequired(step, WithReasons(fd, reasons), fd);
  }

  /** On the empty initial form only the terminal step is complete. */
  lemma InitialFormValidity(step: int)
    ensures ValidateStep(step, InitialForm) <==> step == TotalSteps
  {
    if step == 1 {
      assert !NotBlank(InitialForm.name);
    }
  }
}
