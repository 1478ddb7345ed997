/** `validateCurrentStep` of src/pages/Index.tsx: whether the wizard may leave a step.
    Steps 0, 2 and 3 test plain JavaScript truthiness of strings (a non-empty string passes,
    even one made only of spaces); steps 1 and 4 test lists with `some(x => x.trim())`. */
module Validation {
  import opened Text
  import opened Srs
  import opened Editor

  const StepCount: int := 6
  /** The last step, Review & Generate. */
  const ReviewStep: int := 5

  function ValidateStep(step: int, d: SrsData): bool {
    match step
    case 0 =>
      var p := d.projectInfo;
      p.companyName != "" && p.name != "" && p.description != "" && p.scope != ""
    case 1 =>
      AnyHasText(d.functionalRequirements.userStories) &&
      AnyHasText(d.functionalRequirements.systemFeatures)
    case 2 =>
      d.nonFunctionalRequirements.performance != "" && d.nonFunctionalRequirements.security != ""
    case 3 =>
      d.systemArchitecture.overview != "" && d.systemArchitecture.dataFlow != ""
    case 4 =>
      AnyHasText(d.constraints.technical) || AnyHasText(d.constraints.business)
    case _ => true
  }

  /** Some entry of the list holds a character that is not whitespace: `Text.AnyHasTextIff` and
      `Text.HasTextIff` combined into one statement about characters. */
  ghost predicate SomeEntryHasText(xs: seq<string>) {
    exists i, k :: 0 <= i < |xs| && 0 <= k < |xs[i]| && !IsWhitespace(xs[i][k])
  }

  lemma SomeIff(xs: seq<string>)
    ensures AnyHasText(xs) <==> SomeEntryHasText(xs)
  {
    AnyHasTextIff(xs);
    if AnyHasText(xs) {
      var i :| 0 <= i < |xs| && HasText(xs[i]);
      HasTextIff(xs[i]);
    } else {
      forall i | 0 <= i < |xs| ensures forall k :: 0 <= k < |xs[i]| ==> IsWhitespace(xs[i][k]) {
        HasTextIff(xs[i]);
      }
    }
  }

  /** What each step demands, in both directions, with list entries judged by their characters. */
  lemma ValidateStepMeaning(step: int, d: SrsData)
    ensures step == 0 ==> (ValidateStep(step, d) <==>
      |d.projectInfo.companyName| > 0 && |d.projectInfo.name| > 0 &&
      |d.projectInfo.description| > 0 && |d.projectInfo.scope| > 0)
    ensures step == 1 ==> (ValidateStep(step, d) <==>
      SomeEntryHasText(d.functionalRequirements.userStories) &&
      SomeEntryHasText(d.functionalRequirements.systemFeatures))
    ensures step == 2 ==> (ValidateStep(step, d) <==>
      |d.nonFunctionalRequirements.performance| > 0 && |d.nonFunctionalRequirements.security| > 0)
    ensures step == 3 ==> (ValidateStep(step, d) <==>
      |d.systemArchitecture.overview| > 0 && |d.systemArchitecture.dataFlow| > 0)
    ensures step == 4 ==> (ValidateStep(step, d) <==>
      SomeEntryHasText(d.constraints.technical) || SomeEntryHasText(d.constraints.business))
    ensures !(0 <= step <= 4) ==> ValidateStep(step, d)
  {
    SomeIff(d.functionalRequirements.userStories);
    SomeIff(d.functionalRequirements.systemFeatures);
    SomeIff(d.constraints.technical);
    SomeIff(d.constraints.business);
  }

  /** The regulatory constraints play no part in step 4, nor in any other step. */
  lemma RegulatoryIgnored(step: int, d: SrsData, xs: seq<string>)
    ensures ValidateStep(step, SetList(d, Regulatory, xs)) == ValidateStep(step, d)
  {
  }

  /** Whitespace is enough for the truthiness tests: a project name of one space passes step 0,
      although the same space as the only user story would not pass step 1. */
  lemma WhitespacePassesTruthinessTests(d: SrsData)
    requires d.projectInfo == ProjectInfo(" ", " ", "", " ", "", " ")
    requires d.functionalRequirements.userStories == [" "]
    ensures ValidateStep(0, d)
    ensures !ValidateStep(1, d)
  {
    BlankEntriesHaveNoText();
  }

  /** No required field of step 0 is sticky: blanking any one of them fails the step. */
  lemma BlankingProjectFieldFails(d: SrsData, f: ProjectField)
    requires f in {CompanyName, Name, Description, Scope}
    ensures !ValidateStep(0, SetProjectField(d, f, ""))
  {
  }

  /** Blanking the performance or the security requirements fails step 2. */
  lemma BlankingNonFunctionalFieldFails(d: SrsData, f: NonFunctionalField)
    requires f in {Performance, Security}
    ensures !ValidateStep(2, SetNonFunctionalField(d, f, ""))
  {
  }

  /** Blanking the overview or the data flow fails step 3. */
  lemma BlankingArchitectureFieldFails(d: SrsData, f: ArchitectureField)
    requires f in {Overview, DataFlow}
    ensures !ValidateStep(3, SetArchitectureField(d, f, ""))
  {
  }

  /** Resetting the user stories or the system features to `['']` fails step 1. */
  lemma BlankingStoriesOrFeaturesFails(d: SrsData, f: ListField)
    requires f in {UserStories, SystemFeatures}
    ensures !ValidateStep(1, SetList(d, f, [""]))
  {
    BlankEntriesHaveNoText();
  }

  /** Technical and business constraints of one blank entry each fail step 4, whatever the
      regulatory constraints say. */
  lemma BlankConstraintsFail(d: SrsData)
    ensures !ValidateStep(4, SetList(SetList(d, Technical, [""]), Business, [" "]))
  {
    BlankEntriesHaveNoText();
  }
}
