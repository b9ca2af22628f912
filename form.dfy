/** The wizard's form record (`FormData`), its initial value, the
    copy-with-one-field-replaced update and the edit of the `mainReasons`
    checkbox list. */
module Form {

  /** The keys of the 22 single-string answers of the form. The remaining key,
      `mainReasons`, holds a list and is edited through `WithReasons`. */
  datatype Field =
    | Name | Email | Phone | CompanyName | CompanyStage | Website | Linkedin | Industry
    | TeamSize | Revenue | HasProduct | ProductDescription
    | PainPoint | FutureGoals | Priority
    | HasTechTeam | TechPreferences | HasIdeas | Timeline
    | Budget | HasWorkedWithAgencies
    | AdditionalComments

  /** Every answer of one wizard session. Options chosen through selects and
      radio groups are stored as the plain strings the widgets report. */
  datatype FormData = FormData(
    name: string, email: string, phone: string, companyName: string,
    companyStage: string, website: string, linkedin: string, industry: string,
    teamSize: string, revenue: string, hasProduct: string, productDescription: string,
    mainReasons: seq<string>, painPoint: string, futureGoals: string, priority: string,
    hasTechTeam: string, techPreferences: string, hasIdeas: string, timeline: string,
    budget: string, hasWorkedWithAgencies: string,
    additionalComments: string)

  /** The state the form starts in: every string empty, no reason chosen. */
  const InitialForm: FormData :=
    FormData("", "", "", "", "", "", "", "", "", "", "", "",
             [], "", "", "", "", "", "", "", "", "", "")

  /** `formData[field]` for a string-valued key. */
  function Get(fd: FormData, f: Field): string {
    match f
    case Name => fd.name
    case Email => fd.email
    case Phone => fd.phone
    case CompanyName => fd.companyName
    case CompanyStage => fd.companyStage
    case Website => fd.website
    case Linkedin => fd.linkedin
    case Industry => fd.industry
    case TeamSize => fd.teamSize
    case Revenue => fd.revenue
    case HasProduct => fd.hasProduct
    case ProductDescription => fd.productDescription
    case PainPoint => fd.painPoint
    case FutureGoals => fd.futureGoals
    case Priority => fd.priority
    case HasTechTeam => fd.hasTechTeam
    case TechPreferences => fd.techPreferences
    case HasIdeas => fd.hasIdeas
    case Timeline => fd.timeline
    case Budget => fd.budget
    case HasWorkedWithAgencies => fd.hasWorkedWithAgencies
    case AdditionalComments => fd.additionalComments
  }

  /** Every key of the initial form is empty and no reason is chosen. */
  lemma InitialFormEmpty()
    ensures forall g :: Get(InitialForm, g) == ""
    ensures InitialForm.mainReasons == []
  {
  }

  /** `{ ...prev, [field]: value }` for a string-valued key: the named field
      holds `v` afterwards, every other field is as before. */
  function UpdateField(fd: FormData, f: Field, v: string): (r: FormData)
    ensures Get(r, f) == v
    ensures forall g :: g != f ==> Get(r, g) == Get(fd, g)
    ensures r.mainReasons == fd.mainReasons
  {
    match f
    case Name => fd.(name := v)
    case Email => fd.(email := v)
    case Phone => fd.(phone := v)
    case CompanyName => fd.(companyName := v)
    case CompanyStage => fd.(companyStage := v)
    case Website => fd.(website := v)
    case Linkedin => fd.(linkedin := v)
    case Industry => fd.(industry := v)
    case TeamSize => fd.(teamSize := v)
    case Revenue => fd.(revenue := v)
    case HasProduct => fd.(hasProduct := v)
    case ProductDescription => fd.(productDescription := v)
    case PainPoint => fd.(painPoint := v)
    case FutureGoals => fd.(futureGoals := v)
    case Priority => fd.(priority := v)
    case HasTechTeam => fd.(hasTechTeam := v)
    case TechPreferences => fd.(techPreferences := v)
    case HasIdeas => fd.(hasIdeas := v)
    case Timeline => fd.(timeline := v)
    case Budget => fd.(budget := v)
    case HasWorkedWithAgencies => fd.(hasWorkedWithAgencies := v)
    case AdditionalComments => fd.(additionalComments := v)
  }

  /** `{ ...prev, mainReasons: reasons }`: the list is replaced and every
      string field is as before. */
  function WithReasons(fd: FormData, reasons: seq<string>): (r: FormData)
    ensures r.mainReasons == reasons
    ensures forall g :: Get(r, g) == Get(fd, g)
  {
    fd.(mainReasons := reasons)
  }

  /** Two records that agree on every key are the same record, so the
      contracts of `UpdateField` and `WithReasons` determine their results. */
  lemma FormExtensionality(a: FormData, b: FormData)
    requires forall g :: Get(a, g) == Get(b, g)
    requires a.mainReasons == b.mainReasons
    ensures a == b
  {
    assert Get(a, Name) == Get(b, Name) && Get(a, Email) == Get(b, Email);
    assert Get(a, Phone) == Get(b, Phone) && Get(a, CompanyName) == Get(b, CompanyName);
    assert Get(a, CompanyStage) == Get(b, CompanyStage) && Get(a, Website) == Get(b, Website);
    assert Get(a, Linkedin) == Get(b, Linkedin) && Get(a, Industry) == Get(b, Industry);
    assert Get(a, TeamSize) == Get(b, TeamSize) && Get(a, Revenue) == Get(b, Revenue);
    assert Get(a, HasProduct) == Get(b, HasProduct);
    assert Get(a, ProductDescription) == Get(b, ProductDescription);
    assert Get(a, PainPoint) == Get(b, PainPoint) && Get(a, FutureGoals) == Get(b, FutureGoals);
    assert Get(a, Priority) == Get(b, Priority) && Get(a, HasTechTeam) == Get(b, HasTechTeam);
    assert Get(a, TechPreferences) == Get(b, TechPreferences) && Get(a, HasIdeas) == Get(b, HasIdeas);
    assert Get(a, Timeline) == Get(b, Timeline) && Get(a, Budget) == Get(b, Budget);
    assert Get(a, HasWorkedWithAgencies) == Get(b, HasWorkedWithAgencies);
    assert Get(a, AdditionalComments) == Get(b, AdditionalComments);
  }

  /** Writing back the value a field already holds changes nothing. */
  lemma UpdateSameValue(fd: FormData, f: Field)
    ensures UpdateField(fd, f, Get(fd, f)) == fd
  {
    FormExtensionality(UpdateField(fd, f, Get(fd, f)), fd);
  }

  /** Of two writes to the same field, the later one wins. */
  lemma UpdateLastWriteWins(fd: FormData, f: Field, v: string, w: string)
    ensures UpdateField(UpdateField(fd, f, v), f, w) == UpdateField(fd, f, w)
  {
    FormExtensionality(UpdateField(UpdateField(fd, f, v), f, w), UpdateField(fd, f, w));
  }

  /** Writes to two different fields do not interfere: their order is irrelevant. */
  lemma UpdatesCommute(fd: FormData, f: Field, v: string, g: Field, w: string)
    requires f != g
    ensures UpdateField(UpdateField(fd, f, v), g, w) == UpdateField(UpdateField(fd, g, w), f, v)
  {
    FormExtensionality(UpdateField(UpdateField(fd, f, v), g, w), UpdateField(UpdateField(fd, g, w), f, v));
  }

  /** `s.filter(r => r !== x)`: every occurrence of `x` removed, the other
      entries kept with their multiplicities. */
  function Without(s: seq<string>, x: string): (r: seq<string>)
    ensures multiset(r) == multiset(s)[x := 0]
    ensures x !in r
  {
    if s == [] then []
    else
      assert s == [s[0]] + s[1..];
      if s[0] == x then Without(s[1..], x)
      else [s[0]] + Without(s[1..], x)
  }

  /** Filtering a concatenation filters each part: the entries that survive
      keep their original relative order. */
  lemma {:induction false} WithoutConcat(a: seq<string>, b: seq<string>, x: string)
    ensures Without(a + b, x) == Without(a, x) + Without(b, x)
    decreases |a|
  {
    if a == [] {
      assert a + b == b;
    } else {
      assert (a + b)[1..] == a[1..] + b;
      WithoutConcat(a[1..], b, x);
    }
  }

  /** A list that does not contain `x` passes the filter unchanged. */
  lemma {:induction false} WithoutAbsent(s: seq<string>, x: string)
    requires x !in s
    ensures Without(s, x) == s
    decreases |s|
  {
    if s != [] {
      WithoutAbsent(s[1..], x);
    }
  }

  /** `handleCheckboxChange(reason, checked)` on the current list: a check
      appends the reason at the end, an uncheck filters out all its occurrences. */
  function CheckboxChange(reasons: seq<string>, reason: string, checked: bool): (r: seq<string>)
    ensures checked ==> |r| == |reasons| + 1 && r[..|reasons|] == reasons && r[|reasons|] == reason
    ensures !checked ==> multiset(r) == multiset(reasons)[reason := 0]
  {
    if checked then reasons + [reason] else Without(reasons, reason)
  }

  /** The checkbox of a reason is shown ticked when the list includes it. */
  predicate ReasonChecked(reasons: seq<string>, reason: string) {
    reason in reasons
  }

  /** A click on a reason's checkbox reports the negation of what it shows. */
  function ClickReason(reasons: seq<string>, reason: string): (r: seq<string>)
    ensures ReasonChecked(r, reason) <==> !ReasonChecked(reasons, reason)
  {
    CheckboxChange(reasons, reason, !ReasonChecked(reasons, reason))
  }

  /** No entry occurs twice. */
  predicate NoDuplicates(s: seq<string>) {
    forall i, j :: 0 <= i < j < |s| ==> s[i] != s[j]
  }

  /** A check arriving for an absent reason leaves exactly one occurrence of it. */
  lemma CheckAbsentOnce(reasons: seq<string>, reason: string)
    requires reason !in reasons
    ensures multiset(CheckboxChange(reasons, reason, true))[reason] == 1
  {
    assert multiset(reasons)[reason] == 0;
  }

  /** Checking an absent reason and then unchecking it restores the list. */
  lemma CheckThenUncheck(reasons: seq<string>, reason: string)
    requires reason !in reasons
    ensures CheckboxChange(CheckboxChange(reasons, reason, true), reason, false) == reasons
  {
    WithoutConcat(reasons, [reason], reason);
    WithoutAbsent(reasons, reason);
  }

  /** Clicking the same checkbox twice, starting unticked, restores the list. */
  lemma ClickTwiceRestores(reasons: seq<string>, reason: string)
    requires !ReasonChecked(reasons, reason)
    ensures ClickReason(ClickReason(reasons, reason), reason) == reasons
  {
    CheckThenUncheck(reasons, reason);
  }

  /** Filtering keeps a list free of duplicates. */
  lemma {:induction false} WithoutKeepsNoDuplicates(s: seq<string>, x: string)
    requires NoDuplicates(s)
    ensures NoDuplicates(Without(s, x))
    decreases |s|
  {
    if s != [] {
      assert NoDuplicates(s[1..]) by {
        forall i, j | 0 <= i < j < |s[1..]| ensures s[1..][i] != s[1..][j] {
          assert s[1..][i] == s[i + 1] && s[1..][j] == s[j + 1];
        }
      }
      WithoutKeepsNoDuplicates(s[1..], x);
      if s[0] != x {
        var t := Without(s[1..], x);
        assert s[0] !in t by {
          assert s[0] !in s[1..];
          assert multiset(t)[s[0]] == multiset(s[1..])[s[0]];
        }
      }
    }
  }

  /** Since the widget sends "check" only for an unticked reason, clicks never
      create a duplicate entry. */
  lemma ClickKeepsNoDuplicates(reasons: seq<string>, reason: string)
    requires NoDuplicates(reasons)
    ensures NoDuplicates(ClickReason(reasons, reason))
  {
    if ReasonChecked(reasons, reason) {
      WithoutKeepsNoDuplicates(reasons, reason);
    }
  }

  /** The handler itself does not deduplicate: two "check" events for the same
      reason store it twice. */
  lemma DoubleCheckStoresTwice(reason: string)
    ensures CheckboxChange(CheckboxChange([], reason, true), reason, true) == [reason, reason]
  {
  }
}
