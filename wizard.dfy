/** The project creation wizard: a five-step form with a bounded step
    counter, per-step validation, a technology picker and a saved draft
    (js/wizard.js). */
module Wizard {
  import opened Common
  import opened Records
  import opened Store

  const TotalSteps := 5

  /** The form data a fresh wizard starts from. */
  const InitialData := WizardData("", "business", "", "", ["html", "css"], "business-basic", true)

  /** Why a step may not be left, one per message of the source. */
  datatype StepError = MissingName | NameTooShort | MissingType | MissingTechnology | MissingTemplate

  /** `validateCurrentStep`; step 1 reads the name field as typed. */
  function ValidateStep(step: int, nameInput: string, data: WizardData): (r: Option<StepError>)
    ensures step == 1 ==> (r.None? <==> Utf16Length(Trim(nameInput)) >= 3)
    ensures step == 1 && Trim(nameInput) == "" ==> r == Some(MissingName)
    ensures step == 2 ==> (r.None? <==> data.projectType != "")
    ensures step == 3 ==> (r.None? <==> |data.technologies| > 0)
    ensures step == 4 ==> (r.None? <==> data.template != "")
    ensures step < 1 || step > 4 ==> r.None?
  {
    if step == 1 then
      var name := Trim(nameInput);
      if name == "" then Some(MissingName)
      else if Utf16Length(name) < 3 then Some(NameTooShort)
      else None
    else if step == 2 then (if data.projectType == "" then Some(MissingType) else None)
    else if step == 3 then (if |data.technologies| == 0 then Some(MissingTechnology) else None)
    else if step == 4 then (if data.template == "" then Some(MissingTemplate) else None)
    else None
  }

  predicate NoDuplicates(xs: seq<string>)
  {
    forall i, j :: 0 <= i < j < |xs| ==> xs[i] != xs[j]
  }

  function Other(tech: string): string -> bool
  {
    (t: string) => t != tech
  }

  /** The technology list after a tag is clicked: a newly selected tag is
      pushed when absent, a deselected one is removed wherever it occurs. */
  function Toggled(techs: seq<string>, tech: string, selected: bool): (r: seq<string>)
    ensures selected ==> tech in r && forall t :: t in techs ==> t in r
    ensures selected ==> forall t :: t in r ==> t in techs || t == tech
    ensures selected && tech in techs ==> r == techs
    ensures selected && tech !in techs ==> r == techs + [tech]
    ensures !selected ==> forall t :: t in r <==> t in techs && t != tech
    ensures !selected ==> IsSubsequence(r, techs)
    ensures !selected ==> forall t :: multiset(r)[t] == if t == tech then 0 else multiset(techs)[t]
    ensures NoDuplicates(techs) ==> NoDuplicates(r)
  {
    if selected then
      if tech in techs then techs else techs + [tech]
    else
      var r := Filter(techs, Other(tech));
      assert forall t :: t in r ==> Other(tech)(t);
      FilterIsSubsequence(techs, Other(tech));
      FilterMultiplicity(techs, Other(tech));
      NoDuplicatesSubsequence(r, techs);
      r
  }

  /** Deleting elements cannot create a duplicate. */
  lemma {:induction false} NoDuplicatesSubsequence(xs: seq<string>, ys: seq<string>)
    requires IsSubsequence(xs, ys)
    ensures NoDuplicates(ys) ==> NoDuplicates(xs)
    decreases |ys|
  {
    if |xs| > 0 && NoDuplicates(ys) {
      if xs[0] == ys[0] && IsSubsequence(xs[1..], ys[1..]) {
        NoDuplicatesSubsequence(xs[1..], ys[1..]);
        SubsequenceMembers(xs[1..], ys[1..]);
        assert xs[0] !in ys[1..];
        forall i, j | 0 <= i < j < |xs|
          ensures xs[i] != xs[j]
        {
          if i == 0 {
            assert xs[j] == xs[1..][j - 1];
          } else {
            assert xs[i] == xs[1..][i - 1] && xs[j] == xs[1..][j - 1];
          }
        }
      } else {
        NoDuplicatesSubsequence(xs, ys[1..]);
      }
    }
  }

  lemma {:induction false} SubsequenceMembers(xs: seq<string>, ys: seq<string>)
    requires IsSubsequence(xs, ys)
    ensures forall t :: t in xs ==> t in ys
    decreases |ys|
  {
    if |xs| > 0 {
      if xs[0] == ys[0] && IsSubsequence(xs[1..], ys[1..]) {
        SubsequenceMembers(xs[1..], ys[1..]);
        assert forall t :: t in xs ==> t == xs[0] || t in xs[1..];
      } else {
        SubsequenceMembers(xs, ys[1..]);
      }
    }
  }

  /** Clicking the same tag on and off removes it again, when it was absent before. */
  lemma ToggleOnOff(techs: seq<string>, tech: string)
    requires tech !in techs
    ensures Toggled(Toggled(techs, tech, true), tech, false) == techs
  {
    var on := techs + [tech];
    FilterSnoc(techs, tech, Other(tech));
    FilterAll(techs, Other(tech));
  }

  /** The width of the progress bar, in percent, for a step. */
  function ProgressPercent(step: int): (r: int)
    ensures step == 1 ==> r == 0
    ensures step == TotalSteps ==> r == 100
    ensures 1 <= step <= TotalSteps ==> 0 <= r <= 100 && r * (TotalSteps - 1) == (step - 1) * 100
  {
    (step - 1) * 100 / (TotalSteps - 1)
  }

  /** Which navigation buttons `updateNavigation` shows. */
  datatype NavState = NavState(prevDisabled: bool, nextShown: bool, finishShown: bool)

  function Navigation(step: int): (r: NavState)
    ensures r.prevDisabled <==> step == 1
    ensures r.finishShown <==> step == TotalSteps
    ensures r.nextShown <==> !r.finishShown
  {
    NavState(step == 1, step != TotalSteps, step == TotalSteps)
  }

  // ------------------------------------------------------------------
  // Review labels
  // ------------------------------------------------------------------

  const TypeLabels: map<string, string> := map[
    "business" := "Business Website", "portfolio" := "Portfolio", "ecommerce" := "E-commerce Store",
    "blog" := "Blog", "landing" := "Landing Page", "other" := "Other"]

  const GoalLabels: map<string, string> := map[
    "business" := "Grow my business", "portfolio" := "Showcase my work",
    "ecommerce" := "Sell products online", "blog" := "Share content/blog",
    "community" := "Build a community", "personal" := "Personal website"]

  const TechLabels: map<string, string> := map[
    "html" := "HTML5", "css" := "CSS3", "javascript" := "JavaScript", "bootstrap" := "Bootstrap",
    "tailwind" := "Tailwind CSS", "react" := "React", "vue" := "Vue.js", "git" := "Git",
    "github" := "GitHub", "vscode" := "VS Code", "figma" := "Figma"]

  const TemplateLabels: map<string, string> := map[
    "blank" := "Blank Canvas", "business-basic" := "Business Basic",
    "portfolio-modern" := "Modern Portfolio", "blog-minimal" := "Minimal Blog"]

  function FormatType(t: string): (r: string)
    ensures t in TypeLabels ==> r == TypeLabels[t]
    ensures t !in TypeLabels ==> r == t
  {
    Lookup(TypeLabels, t, t)
  }

  function FormatGoal(goal: string): (r: string)
    ensures goal in GoalLabels ==> r == GoalLabels[goal]
    ensures goal !in GoalLabels && goal != "" ==> r == goal
    ensures goal == "" ==> r == "Not specified"
    ensures r != ""
  {
    Lookup(GoalLabels, goal, if goal == "" then "Not specified" else goal)
  }

  function FormatTemplate(template: string): (r: string)
    ensures template in TemplateLabels ==> r == TemplateLabels[template]
    ensures template !in TemplateLabels ==> r == template
  {
    Lookup(TemplateLabels, template, template)
  }

  function TechLabel(tech: string): string
  {
    Lookup(TechLabels, tech, tech)
  }

  /** Each technology's label, in order, joined with ", ". */
  function FormatTech(techs: seq<string>): (r: string)
    ensures forall k :: 0 <= k < |techs| ==> Contains(r, TechLabel(techs[k]))
    ensures |techs| == 0 ==> r == ""
    ensures |techs| == 1 ==> r == TechLabel(techs[0])
  {
    var labels := seq(|techs|, i requires 0 <= i < |techs| => TechLabel(techs[i]));
    forall k | 0 <= k < |techs|
      ensures Contains(Join(labels, ", "), TechLabel(techs[k]))
    {
      JoinContainsParts(labels, ", ", k);
    }
    Join(labels, ", ")
  }

  /** `formatTech` of a longer list ends with the new label. */
  lemma FormatTechSnoc(techs: seq<string>, tech: string)
    requires |techs| > 0
    ensures FormatTech(techs + [tech]) == FormatTech(techs) + ", " + TechLabel(tech)
  {
    var ls := seq(|techs|, i requires 0 <= i < |techs| => TechLabel(techs[i]));
    var all := techs + [tech];
    assert seq(|all|, i requires 0 <= i < |all| => TechLabel(all[i])) == ls + [TechLabel(tech)];
    JoinSnoc(ls, TechLabel(tech), ", ");
  }

  // ------------------------------------------------------------------
  // The wizard
  // ------------------------------------------------------------------

  /** The form data `loadSavedData` ends with: the saved draft when there is one. */
  function Loaded(items: map<string, Value>, current: WizardData): WizardData
  {
    match DraftIn(items)
    case None => current
    case Some(d) => d
  }

  /** Saving the draft and loading it back restores the same form data. */
  lemma SaveThenLoad(items: map<string, Value>, data: WizardData, other: WizardData)
    ensures Loaded(items[DraftKey := Draft(data)], other) == data
  {
  }

  class ProjectWizard {
    const store: LocalStore
    var currentStep: int
    var projectData: WizardData

    ghost predicate Valid()
      reads this
    {
      1 <= currentStep <= TotalSteps
    }

    /** A wizard on step 1 with the initial data, or the saved draft. */
    constructor (store: LocalStore)
      ensures this.store == store && Valid()
      ensures currentStep == 1 && projectData == Loaded(store.items, InitialData)
    {
      this.store := store;
      currentStep := 1;
      projectData := InitialData;
      new;
      LoadSavedData();
    }

    method SaveStepData()
      modifies store
      ensures store.items == old(store.items)[DraftKey := Draft(projectData)]
    {
      store.SetItem(DraftKey, Draft(projectData));
    }

    method LoadSavedData()
      modifies this
      ensures currentStep == old(currentStep)
      ensures projectData == Loaded(store.items, old(projectData))
    {
      var saved := DraftIn(store.items);
      if saved.Some? {
        projectData := saved.value;
      }
    }

    /** `nextStep`: a step that fails validation is not left and nothing
        is saved; otherwise the draft is saved and the counter advances
        unless this is the last step. */
    method NextStep(nameInput: string) returns (err: Option<StepError>)
      requires Valid()
      modifies this, store
      ensures Valid() && projectData == old(projectData)
      ensures err == ValidateStep(old(currentStep), nameInput, projectData)
      ensures err.Some? ==> currentStep == old(currentStep) && store.items == old(store.items)
      ensures err.None? ==> store.items == old(store.items)[DraftKey := Draft(projectData)]
      ensures err.None? ==> currentStep == if old(currentStep) < TotalSteps then old(currentStep) + 1 else old(currentStep)
    {
      err := ValidateStep(currentStep, nameInput, projectData);
      if err.Some? {
        return;
      }
      SaveStepData();
      if currentStep < TotalSteps {
        currentStep := currentStep + 1;
      }
    }

    /** `prevStep`: back one step, except on the first. */
    method PrevStep()
      requires Valid()
      modifies this
      ensures Valid() && projectData == old(projectData)
      ensures currentStep == if old(currentStep) > 1 then old(currentStep) - 1 else old(currentStep)
    {
      if currentStep > 1 {
        currentStep := currentStep - 1;
      }
    }

    /** A technology tag was clicked and is now `selected` or not. */
    method ToggleTech(tech: string, selected: bool)
      modifies this
      ensures currentStep == old(currentStep)
      ensures projectData == old(projectData).(technologies := Toggled(old(projectData.technologies), tech, selected))
    {
      if selected {
        if tech !in projectData.technologies {
          projectData := projectData.(technologies := projectData.technologies + [tech]);
        }
      } else {
        projectData := projectData.(technologies := Filter(projectData.technologies, Other(tech)));
      }
    }
  }
}
