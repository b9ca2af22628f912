/** What a step shows: which fields are rendered (including the one
    conditional reveal, `productDescription` when `hasProduct` is "ja") and
    the state of the two navigation buttons. */
module Screen {
  import opened Form
  import opened Validation
  import opened Navigation

  /** `renderCurrentStep`: steps 1..6 render themselves; any other index falls
      back to step 1's screen. */
  function RenderedStep(step: int): (r: int)
    ensures 1 <= r <= TotalSteps
    ensures 1 <= step <= TotalSteps ==> r == step
    ensures !(1 <= step <= TotalSteps) ==> r == 1
  {
    if 1 <= step <= TotalSteps then step else 1
  }

  /** The step whose screen holds a field's widget. */
  function HomeStep(f: Field): (k: int)
    ensures 1 <= k <= TotalSteps
  {
    match f
    case Name | Email | Phone | CompanyName | CompanyStage | Website | Linkedin | Industry => 1
    case TeamSize | Revenue | HasProduct | ProductDescription => 2
    case PainPoint | FutureGoals | Priority => 3
    case HasTechTeam | TechPreferences | HasIdeas | Timeline => 4
    case Budget | HasWorkedWithAgencies => 5
    case AdditionalComments => 6
  }

  /** The string fields rendered for a step. The product description appears
      only when the product question was answered "ja"; every required field
      of a step is among its rendered fields. */
  function VisibleFields(step: int, fd: FormData): (r: set<Field>)
    ensures ProductDescription in r <==> RenderedStep(step) == 2 && fd.hasProduct == "ja"
    ensures 1 <= step <= TotalSteps ==> RequiredFields(step) <= r
  {
    match RenderedStep(step)
    case 1 => {Name, Email, Phone, CompanyName, CompanyStage, Website, Linkedin, Industry}
    case 2 => {TeamSize, Revenue, HasProduct} + (if fd.hasProduct == "ja" then {ProductDescription} else {})
    case 3 => {PainPoint, FutureGoals, Priority}
    case 4 => {HasTechTeam, TechPreferences, HasIdeas, Timeline}
    case 5 => {Budget, HasWorkedWithAgencies}
    case 6 => {AdditionalComments}
  }

  /** The reasons checkbox group is part of step 3's screen only. */
  predicate ReasonsShown(step: int) {
    RenderedStep(step) == ReasonsStep
  }

  /** The checkbox group that fills `mainReasons` is on screen exactly on the
      reasons step, which is the only step whose verdict the list can change:
      "Weiter" is never blocked by a list the user cannot see. */
  lemma ReasonsShownWhereValidated(step: int, fd: FormData, reasons: seq<string>)
    requires 1 <= step <= TotalSteps
    ensures ReasonsShown(step) <==> step == ReasonsStep
    ensures !ReasonsShown(step) ==> ValidateStep(step, WithReasons(fd, reasons)) == ValidateStep(step, fd)
  {
    if step != ReasonsStep {
      ReasonsOnlyMatterOnStep3(step, fd, reasons);
    }
  }

  /** Each field is shown on its home step and nowhere else; the product
      description additionally needs `hasProduct == "ja"`. */
  lemma VisibleBySchema(step: int, fd: FormData, f: Field)
    requires 1 <= step <= TotalSteps
    ensures f in VisibleFields(step, fd) <==>
      HomeStep(f) == step && (f == ProductDescription ==> fd.hasProduct == "ja")
  {
  }

  /** The reveal rule reads only `hasProduct`, an answer of step 2 itself. */
  lemma VisibleReadsOnlyHasProduct(step: int, a: FormData, b: FormData)
    requires a.hasProduct == b.hasProduct
    ensures VisibleFields(step, a) == VisibleFields(step, b)
  {
  }

  /** Setting `productDescription` to "X" under "ja" and then switching the
      answer to "nein" hides the field but keeps "X"; switching back to "ja"
      shows it again with "X". */
  lemma HiddenFieldPersists(fd: FormData)
    ensures
      var shown := UpdateField(UpdateField(fd, HasProduct, "ja"), ProductDescription, "X");
      var hidden := UpdateField(shown, HasProduct, "nein");
      var again := UpdateField(hidden, HasProduct, "ja");
      ProductDescription in VisibleFields(2, shown) &&
      ProductDescription !in VisibleFields(2, hidden) && hidden.productDescription == "X" &&
      ProductDescription in VisibleFields(2, again) && again.productDescription == "X"
  {
    var shown := UpdateField(UpdateField(fd, HasProduct, "ja"), ProductDescription, "X");
    var hidden := UpdateField(shown, HasProduct, "nein");
    var again := UpdateField(hidden, HasProduct, "ja");
    assert Get(shown, HasProduct) == shown.hasProduct && Get(shown, ProductDescription) == shown.productDescription;
    assert Get(hidden, HasProduct) == hidden.hasProduct && Get(hidden, ProductDescription) == hidden.productDescription;
    assert Get(again, HasProduct) == again.hasProduct && Get(again, ProductDescription) == again.productDescription;
  }

  /** The forward control: "Weiter" (enabled or not) before the last step,
      "Absenden" on it. */
  datatype ForwardControl = Weiter(enabled: bool) | Absenden

  function ForwardButton(s: Session): ForwardControl {
    if s.step < TotalSteps then Weiter(ValidateStep(s.step, s.form)) else Absenden
  }

  /** The toast branch of `nextStep` is unreachable through the rendered
      button: whenever "Weiter" is enabled, `nextStep` does not reject. */
  lemma EnabledWeiterNeverRejects(s: Session)
    ensures ForwardButton(s) == Weiter(true) ==> !NextStep(s).rejected
  {
  }

  /** On the fresh form "Weiter" is disabled, so no toast appears there. */
  lemma FreshFormWeiterDisabled()
    ensures ForwardButton(InitialSession) == Weiter(false)
  {
    InitialFormValidity(1);
  }

  /** "Zurück" is disabled exactly on step 1. */
  predicate BackEnabled(s: Session) {
    s.step != 1
  }

  /** The forward control and `nextStep` never diverge: "Weiter" is enabled
      exactly when pressing it advances, disabled exactly when `nextStep`
      would reject, and "Absenden" replaces it exactly on the terminal step. */
  lemma ForwardButtonAgreesWithNext(s: Session)
    requires InBounds(s)
    ensures ForwardButton(s) == Weiter(true) <==> NextStep(s).next.step == s.step + 1
    ensures ForwardButton(s) == Weiter(false) <==> NextStep(s).rejected
    ensures ForwardButton(s) == Absenden <==> s.step == TotalSteps
  {
  }

  /** "Zurück" is enabled exactly when `prevStep` moves back. */
  lemma BackButtonAgreesWithPrev(s: Session)
    requires InBounds(s)
    ensures BackEnabled(s) <==> PrevStep(s).next.step == s.step - 1
  {
  }
}
