# VERA IT client onboarding wizard: navigation, validation and form state

This project models the engine of the six-step onboarding form
`VeraClientForm`. The model has four parts:

- **The form record** `FormData`. It has 22 string answers and the list
  `mainReasons`, and every field starts empty. `updateFormData` copies the
  record with one field replaced. `handleCheckboxChange` appends a reason on
  "check" and filters out every occurrence of it on "uncheck".
- **The step validators** `validateStep1` … `validateStep6` and the dispatcher
  `validateCurrentStep`, which returns `false` for any step outside 1..6.
- **The navigation state machine.** It holds `currentStep` (1..6) and
  `formData`. `nextStep` advances only from a complete step, and notifies when
  the step is incomplete. `prevStep` goes back without validating.
- **The screen logic.** `productDescription` is revealed only when `hasProduct`
  is `"ja"`. The "Weiter"/"Absenden" and "Zurück" buttons are enabled by the
  same conditions as the handlers.

Modules:

- `TextTrim` (text.dfy): JavaScript's `String.prototype.trim` over an explicit
  white-space predicate.
- `Form` (form.dfy): the record and the two edit operations.
- `Validation` (validation.dfy): the validators, and a schema table of the
  required fields per step.
- `Navigation` (navigation.dfy): the session as a value. `Apply` performs one
  user event and `Run` performs a sequence of them.
- `Screen` (screen.dfy): the visible fields of each step and the button states.
- `Wizard` (wizard.dfy): the class `WizardSession`. It holds the component's two
  mutable state variables. Each handler is a method, and its contract ties the
  new state to the `Navigation` transition. Two client methods derive the
  scenario from those contracts alone.

The notification toast becomes the boolean `rejected`. `Navigation.Forward` is a call of `nextStep`, the "Weiter" handler. The rendered "Weiter" is disabled exactly when `nextStep` would reject (`Screen.EnabledWeiterNeverRejects`), so the rejection and its toast happen only when `nextStep` is called directly, never through the rendered button. The "unknown key" case
of `updateFormData` cannot occur, because keys are the enumeration `Field`. The
code never deduplicates `mainReasons`: two "check" events store a reason twice
(`Form.DoubleCheckStoresTwice`). The model follows the code here, not a
deduplicating design. Duplicates never arise through the widget: a checkbox
shows ticked exactly when its reason is in the list, so it sends "check" only
for an absent reason (`Form.ClickKeepsNoDuplicates`).

## Model

| member | source | states |
|---|---|---|
| `TextTrim.Trim` | src/components/VeraClientForm.tsx:104-107 | the result is the slice of the input left after cutting JS white space off both ends; it is empty iff every character is white space, and otherwise starts and ends with a non-white-space character |
| `TextTrim.TrimNonEmptyIff` | src/components/VeraClientForm.tsx:104-107 | `s.trim() !== ''` iff `s` has a visible character |
| `Form.UpdateField` | src/components/VeraClientForm.tsx:81-83 | the named field holds the new value; every other string field and `mainReasons` are unchanged |
| `Form.WithReasons` | src/components/VeraClientForm.tsx:81-83 | writing the `mainReasons` key replaces the list and leaves every string field unchanged |
| `Form.FormExtensionality` | src/components/VeraClientForm.tsx:13-48 | two records that agree on all 23 keys are equal, so the update contracts determine their results |
| `Form.InitialFormEmpty` | src/components/VeraClientForm.tsx:53-77 | the mounted `InitialForm` holds the empty string on every one of the 22 string keys and an empty reasons list |
| `Form.UpdateSameValue` | src/components/VeraClientForm.tsx:81-83 | writing back a field's current value is a no-op |
| `Form.UpdateLastWriteWins` | src/components/VeraClientForm.tsx:81-83 | of two writes to one field the later one wins |
| `Form.UpdatesCommute` | src/components/VeraClientForm.tsx:81-83 | writes to different fields commute |
| `Form.Without` | src/components/VeraClientForm.tsx:90 | the filter removes every occurrence of the reason and keeps every other entry with its multiplicity |
| `Form.WithoutConcat` | src/components/VeraClientForm.tsx:90 | filtering distributes over concatenation, so survivors keep their original order |
| `Form.WithoutAbsent` | src/components/VeraClientForm.tsx:90 | a list without the reason passes the filter unchanged |
| `Form.CheckboxChange` | src/components/VeraClientForm.tsx:85-92 | on check the old list is a prefix and the reason is appended last; on uncheck all occurrences go and other counts stay |
| `Form.ClickReason` | src/components/VeraClientForm.tsx:372-376 | a click flips whether the checkbox shows the reason as ticked |
| `Form.CheckAbsentOnce` | src/components/VeraClientForm.tsx:87-88 | checking an absent reason leaves exactly one occurrence |
| `Form.CheckThenUncheck` | src/components/VeraClientForm.tsx:85-92 | checking an absent reason and unchecking it restores the list |
| `Form.ClickTwiceRestores` | src/components/VeraClientForm.tsx:372-376 | two clicks on an unticked reason restore the list |
| `Form.WithoutKeepsNoDuplicates` | src/components/VeraClientForm.tsx:90 | filtering preserves absence of duplicates |
| `Form.ClickKeepsNoDuplicates` | src/components/VeraClientForm.tsx:372-376 | clicks through the widget never create a duplicate reason |
| `Form.DoubleCheckStoresTwice` | src/components/VeraClientForm.tsx:87-88 | the handler itself does not deduplicate: two checks store the reason twice |
| `Validation.ValidStep1` | src/components/VeraClientForm.tsx:103-108 | step 1 is complete iff name, e-mail, company name and industry each have a visible character |
| `Validation.ValidStep2` | src/components/VeraClientForm.tsx:110-114 | see `ValidateBySchema`: step 2 is complete iff team size, revenue and the product answer are each non-empty, with no trimming |
| `Validation.ValidStep3` | src/components/VeraClientForm.tsx:116-118 | see `ValidateBySchema`: step 3 is complete iff at least one reason is ticked |
| `Validation.ValidStep4` | src/components/VeraClientForm.tsx:120-123 | see `ValidateBySchema`: step 4 is complete iff the tech-team answer and the timeline are non-empty |
| `Validation.ValidStep5` | src/components/VeraClientForm.tsx:125-128 | see `ValidateBySchema`: step 5 is complete iff the budget and the agency answer are non-empty |
| `Validation.ValidStep6` | src/components/VeraClientForm.tsx:130-132 | see `ValidateStep` and `ValidateBySchema`: step 6 requires nothing and is always complete |
| `Validation.ValidateStep` | src/components/VeraClientForm.tsx:134-144 | true only for steps 1..6; the terminal step 6 is always complete |
| `Validation.ValidateBySchema` | src/components/VeraClientForm.tsx:103-144 | each validator is "every required field of the step answered (trimmed on step 1, compared with '' elsewhere), plus a non-empty reasons list on step 3" |
| `Validation.ValidateReadsOnlyRequired` | src/components/VeraClientForm.tsx:103-132 | a validator's verdict depends only on its step's required fields (and the reasons on step 3) |
| `Validation.UpdateOutsideRequired` | src/components/VeraClientForm.tsx:103-132 | editing a field a step does not require never changes that step's verdict |
| `Validation.ReasonsOnlyMatterOnStep3` | src/components/VeraClientForm.tsx:116-118 | changing `mainReasons` only affects step 3 |
| `Validation.InitialFormValidity` | src/components/VeraClientForm.tsx:53-77 | on the empty initial form only step 6 validates |
| `Navigation.NextStep` | src/components/VeraClientForm.tsx:146-156 | see `NextStepCases` |
| `Navigation.PrevStep` | src/components/VeraClientForm.tsx:158-162 | see `PrevStepCases` |
| `Navigation.Apply` | src/components/VeraClientForm.tsx:81-162 | see `EditsKeepStep` and `ApplyKeepsBounds`: edits keep the step, moves change it by at most one within 1..6 |
| `Navigation.NextStepCases` | src/components/VeraClientForm.tsx:146-156 | advances by exactly 1 iff the step validates and is below 6; rejection iff invalid, with the session unchanged; a valid step 6 changes nothing and raises nothing |
| `Navigation.PrevStepCases` | src/components/VeraClientForm.tsx:158-162 | above step 1 goes back exactly one step; at step 1 nothing changes; never touches the form, never notifies |
| `Navigation.EditsKeepStep` | src/components/VeraClientForm.tsx:81-92 | field edits and checkbox changes never move the step and never notify |
| `Navigation.ApplyKeepsBounds` | src/components/VeraClientForm.tsx:146-162 | every event keeps the step in 1..6 and moves it by at most one |
| `Navigation.RunKeepsBounds` | src/components/VeraClientForm.tsx:146-162 | any sequence of events from an in-bounds session stays in 1..6 |
| `Navigation.ReachableInBounds` | src/components/VeraClientForm.tsx:52-79 | from the mounted state (step 1, empty form) no sequence of actions leaves 1..6 |
| `Navigation.FirstForwardRejected` | src/components/VeraClientForm.tsx:146-156 | `nextStep` called on the fresh form is rejected and changes nothing |
| `Navigation.HasProductKeepsDescription` | src/components/VeraClientForm.tsx:320 | changing `hasProduct` never alters `productDescription` |
| `Navigation.EndToEndScenario` | src/components/VeraClientForm.tsx:146-162 | rejected first advance; after filling step 1, advance to 2; back to 1 with the four answers kept |
| `Navigation.NoRetroactiveRevalidation` | src/components/VeraClientForm.tsx:146-156 | after advancing, step 1's data can be invalidated and the wizard stays on step 2 |
| `Navigation.ForwardThroughComplete` | src/components/VeraClientForm.tsx:146-156 | from any step, calling `nextStep` once per remaining step on a complete form reaches step 6 with the form intact |
| `Navigation.Submit` | src/components/VeraClientForm.tsx:94-100 | the submitted record has exactly the form's values on every key |
| `Navigation.SubmissionSnapshot` | src/components/VeraClientForm.tsx:94-100 | a complete form walked from step 1 reaches step 6 and is submitted unchanged |
| `Screen.RenderedStep` | src/components/VeraClientForm.tsx:592-602 | steps 1..6 render themselves; any other index renders step 1's screen |
| `Screen.VisibleFields` | src/components/VeraClientForm.tsx:173-602 | `productDescription` is visible iff step 2 is shown and `hasProduct == "ja"`; every required field of a step is visible on it |
| `Screen.VisibleBySchema` | src/components/VeraClientForm.tsx:173-590 | a field is shown exactly on its home step (`productDescription` only with "ja") |
| `Screen.VisibleReadsOnlyHasProduct` | src/components/VeraClientForm.tsx:336 | the reveal rule reads no answer but `hasProduct` |
| `Screen.HiddenFieldPersists` | src/components/VeraClientForm.tsx:336-347 | "X" under "ja", then "nein": hidden but still "X"; back to "ja": shown with "X" |
| `Screen.ReasonsShown` | src/components/VeraClientForm.tsx:351-385 | see `ReasonsShownWhereValidated` |
| `Screen.ReasonsShownWhereValidated` | src/components/VeraClientForm.tsx:351-385 | the reasons checkboxes are on screen exactly on step 3, the only step whose verdict the reasons list can change |
| `Screen.ForwardButton` | src/components/VeraClientForm.tsx:646-664 | see `ForwardButtonAgreesWithNext` |
| `Screen.EnabledWeiterNeverRejects` | src/components/VeraClientForm.tsx:646-654 | whenever "Weiter" is enabled, `nextStep` does not reject, so the toast branch of :149-154 is unreachable through the button |
| `Screen.FreshFormWeiterDisabled` | src/components/VeraClientForm.tsx:646-654 | on the fresh form "Weiter" is disabled |
| `Screen.BackEnabled` | src/components/VeraClientForm.tsx:641 | see `BackButtonAgreesWithPrev` |
| `Screen.ForwardButtonAgreesWithNext` | src/components/VeraClientForm.tsx:646-664 | "Weiter" enabled iff `nextStep` advances, disabled iff it rejects; "Absenden" exactly on step 6 |
| `Screen.BackButtonAgreesWithPrev` | src/components/VeraClientForm.tsx:638-644 | "Zurück" enabled iff `prevStep` moves back |
| `Wizard.WizardSession.constructor` | src/components/VeraClientForm.tsx:52-77 | a new session is at step 1 with every field empty |
| `Wizard.WizardSession.Update` | src/components/VeraClientForm.tsx:81-83 | the form becomes the one-field update of the old form; the step is kept |
| `Wizard.WizardSession.ToggleReason` | src/components/VeraClientForm.tsx:85-92 | appends on check, filters on uncheck, leaves every string field and the step alone |
| `Wizard.WizardSession.Next` | src/components/VeraClientForm.tsx:146-156 | the form is untouched; `rejected` iff the step is invalid; +1 iff valid and below 6 |
| `Wizard.WizardSession.Prev` | src/components/VeraClientForm.tsx:158-162 | the form is untouched; step decremented iff above 1 |
| `Wizard.WizardSession.Submit` | src/components/VeraClientForm.tsx:94-100 | returns the current form unchanged |
| `Wizard.FreshSessionRejects` | src/components/VeraClientForm.tsx:52-156 | from the session contracts alone: `nextStep` called on a fresh session is rejected and stays on step 1 |
| `Wizard.Walkthrough` | src/components/VeraClientForm.tsx:146-162 | from the session contracts alone: filled step 1 is accepted and advances to step 2, and "Zurück" returns to step 1 with the four answers kept |

## Left out

- The JSX markup, labels, icons, logo and card layout of the step screens are not modelled; which fields and controls each screen shows is (`Screen.VisibleFields`, `Screen.ReasonsShown`, the button states). The select and radio option lists, and the eight checkbox labels of step 3, are not modelled either: the stored fields accept any string, and the validators test only emptiness.
- The toast notifications and the `console.log` in `handleSubmit` are I/O. A rejected advance is the boolean `rejected`. Submission returns the form; there is no transport and no timestamp.
- The progress-bar width `(currentStep / totalSteps) * 100` is floating-point display arithmetic and is not modelled.
- The "Sonstiges" checkbox is bound to no state and is not modelled.
- `TextTrim.IsWhitespace` lists JavaScript's WhiteSpace and LineTerminator characters, with the Space_Separator category as of current Unicode. This is an approximation: an engine built on another Unicode version may differ. JavaScript's UTF-16 code units are modelled as Unicode scalar values.
- `updateFormData` takes the union type `string | string[]`. The model splits it by key: `Form.UpdateField` for the 22 string keys and `Form.WithReasons` for `mainReasons`. Mixing a list into a string key, which TypeScript would accept, is not modelled.
- React's batched, asynchronous `setState` is not modelled. Neither is the stale `formData` that `handleCheckboxChange` reads inside one render. Each event is applied to the state left by the previous one.
