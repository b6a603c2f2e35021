/** The five-step data-entry wizard: its fixed step sequence, the progress it
    reports, and the component state (current step and the two text buffers)
    that its handlers update. Profile changes go through the application's
    `setCVData`, built by the snapshot functions of `ProfileEdits`. */
module InputForm {
  import opened Builtins
  import opened App
  import ProfileEdits

  datatype FormStep = PersonalStep | SummaryStep | ExperienceStep | EducationStep | SkillsStep

  /** `STEPS`: the order in which the wizard visits the steps. */
  const STEPS: seq<FormStep> := [PersonalStep, SummaryStep, ExperienceStep, EducationStep, SkillsStep]

  /** The title shown on the step's button. */
  function StepTitle(step: FormStep): string {
    match step
    case PersonalStep => "Personal Info"
    case SummaryStep => "Professional Summary"
    case ExperienceStep => "Work Experience"
    case EducationStep => "Education"
    case SkillsStep => "Skills & Achievements"
  }

  /** No two steps share a title. */
  lemma StepTitlesDistinct(a: FormStep, b: FormStep)
    ensures StepTitle(a) == StepTitle(b) ==> a == b
  {
  }

  /** `currentStepIndex`, i.e. `STEPS.findIndex(step => step.id === currentStep)`:
      the first (and only) position of the step. */
  function StepIndex(step: FormStep): (i: nat)
    ensures i < |STEPS| && STEPS[i] == step
    ensures forall j :: 0 <= j < i ==> STEPS[j] != step
  {
    match step
    case PersonalStep => 0
    case SummaryStep => 1
    case ExperienceStep => 2
    case EducationStep => 3
    case SkillsStep => 4
  }

  /** `progress` = `((currentStepIndex + 1) / STEPS.length) * 100`, which is a
      whole multiple of 20 for every step. */
  function ProgressPercent(step: FormStep): (p: nat)
    ensures p as real == ((StepIndex(step) + 1) as real / |STEPS| as real) * 100.0
    ensures p in {20, 40, 60, 80, 100}
    ensures step == SkillsStep <==> p == 100
  {
    (StepIndex(step) + 1) * 20
  }

  /** The step `nextStep` moves to, or `None` on the last step, where
      `nextStep` hands over to `onNext` instead. */
  function StepAfter(step: FormStep): (r: Option<FormStep>)
    ensures r.None? <==> StepIndex(step) == |STEPS| - 1
    ensures r.Some? ==> StepIndex(r.value) == StepIndex(step) + 1
  {
    var i := StepIndex(step) + 1;
    if i < |STEPS| then Some(STEPS[i]) else None
  }

  /** The step `prevStep` moves to, or `None` on the first step, where
      `prevStep` does nothing. */
  function StepBefore(step: FormStep): (r: Option<FormStep>)
    ensures r.None? <==> StepIndex(step) == 0
    ensures r.Some? ==> StepIndex(r.value) + 1 == StepIndex(step)
  {
    var i := StepIndex(step) - 1;
    if i >= 0 then Some(STEPS[i]) else None
  }

  /** Going forward and back again returns to the same step, and so does
      going back and forward again. */
  lemma {:induction false} StepAfterBefore(step: FormStep)
    ensures StepAfter(step).Some? ==> StepBefore(StepAfter(step).value) == Some(step)
    ensures StepBefore(step).Some? ==> StepAfter(StepBefore(step).value) == Some(step)
  {
    match step
    case PersonalStep =>
    case SummaryStep =>
    case ExperienceStep =>
    case EducationStep =>
    case SkillsStep =>
  }

  /** The state `InputForm` keeps in its own hooks, together with the
      application whose profile (`cvData`/`setCVData`) and screen callbacks
      (`onNext`, `onBack`) it was given. */
  class Wizard {
    const app: AppState
    var currentStep: FormStep
    var newSkill: string
    var newAchievement: string

    constructor (app: AppState)
      ensures this.app == app
      ensures currentStep == PersonalStep && newSkill == "" && newAchievement == ""
    {
      this.app := app;
      currentStep := PersonalStep;
      newSkill := "";
      newAchievement := "";
    }

    /** The progress bar's value for the current step. */
    function Progress(): (p: nat)
      reads this
      ensures p == 20 * (StepIndex(currentStep) + 1)
      ensures currentStep == SkillsStep <==> p == 100
    {
      ProgressPercent(currentStep)
    }

    /** Only the profile may have changed: the step, both input boxes, the
        screen and the template are as before. */
    twostate predicate OnlyProfileChanged()
      reads this, app
    {
      && currentStep == old(currentStep) && newSkill == old(newSkill) && newAchievement == old(newAchievement)
      && app.currentScreen == old(app.currentScreen) && app.selectedTemplate == old(app.selectedTemplate)
    }

    /** `nextStep`: before the last step, move one step on; on the last step,
        stay and call `onNext`, which shows the preview. */
    method NextStep()
      modifies this, app
      ensures StepIndex(old(currentStep)) < |STEPS| - 1 ==>
        StepIndex(currentStep) == StepIndex(old(currentStep)) + 1 && app.currentScreen == old(app.currentScreen)
      ensures StepIndex(old(currentStep)) == |STEPS| - 1 ==>
        currentStep == old(currentStep) && app.Shown() == Preview
      ensures old(Progress()) < 100 ==> Progress() == old(Progress()) + 20
      ensures newSkill == old(newSkill) && newAchievement == old(newAchievement)
      ensures app.cvData == old(app.cvData) && app.selectedTemplate == old(app.selectedTemplate)
    {
      match StepAfter(currentStep)
      case Some(s) => currentStep := s;
      case None => app.FormNext();
    }

    /** `prevStep`: move one step back; on the first step nothing happens. */
    method PrevStep()
      modifies this
      ensures StepIndex(old(currentStep)) > 0 ==> StepIndex(currentStep) + 1 == StepIndex(old(currentStep))
      ensures StepIndex(old(currentStep)) == 0 ==> currentStep == old(currentStep)
      ensures newSkill == old(newSkill) && newAchievement == old(newAchievement)
    {
      match StepBefore(currentStep)
      case Some(s) => currentStep := s;
      case None =>
    }

    /** A step button's `onClick`: any step may be chosen, completed or not. */
    method SelectStep(step: FormStep)
      modifies this
      ensures currentStep == step
      ensures newSkill == old(newSkill) && newAchievement == old(newAchievement)
    {
      currentStep := step;
    }

    /** The header's back button: `onBack` returns to the landing page. */
    method Back()
      modifies app
      ensures app.Shown() == Landing
      ensures app.cvData == old(app.cvData) && app.selectedTemplate == old(app.selectedTemplate)
    {
      app.FormBack();
    }

    method EditPersonalInfo(f: ProfileEdits.PersonalField, value: string)
      modifies app
      ensures app.cvData == ProfileEdits.EditPersonalInfo(old(app.cvData), f, value)
      ensures OnlyProfileChanged()
    {
      app.SetCVData(ProfileEdits.EditPersonalInfo(app.cvData, f, value));
    }

    /** The summary text area's `onChange`. */
    method EditSummary(value: string)
      modifies app
      ensures app.cvData == old(app.cvData).(summary := value)
      ensures OnlyProfileChanged()
    {
      app.SetCVData(app.cvData.(summary := value));
    }

    method AddExperience(id: string)
      modifies app
      ensures app.cvData == ProfileEdits.AddExperience(old(app.cvData), id)
      ensures OnlyProfileChanged()
    {
      app.SetCVData(ProfileEdits.AddExperience(app.cvData, id));
    }

    method UpdateExperience(id: string, f: ProfileEdits.ExperienceField, v: ProfileEdits.FieldValue)
      requires ProfileEdits.ExperienceValueFits(f, v)
      modifies app
      ensures app.cvData == ProfileEdits.UpdateExperience(old(app.cvData), id, f, v)
      ensures OnlyProfileChanged()
    {
      app.SetCVData(ProfileEdits.UpdateExperience(app.cvData, id, f, v));
    }

    method RemoveExperience(id: string)
      modifies app
      ensures app.cvData == ProfileEdits.RemoveExperience(old(app.cvData), id)
      ensures OnlyProfileChanged()
    {
      app.SetCVData(ProfileEdits.RemoveExperience(app.cvData, id));
    }

    method AddEducation(id: string)
      modifies app
      ensures app.cvData == ProfileEdits.AddEducation(old(app.cvData), id)
      ensures OnlyProfileChanged()
    {
      app.SetCVData(ProfileEdits.AddEducation(app.cvData, id));
    }

    method UpdateEducation(id: string, f: ProfileEdits.EducationField, v: ProfileEdits.FieldValue)
      requires ProfileEdits.EducationValueFits(f, v)
      modifies app
      ensures app.cvData == ProfileEdits.UpdateEducation(old(app.cvData), id, f, v)
      ensures OnlyProfileChanged()
    {
      app.SetCVData(ProfileEdits.UpdateEducation(app.cvData, id, f, v));
    }

    method RemoveEducation(id: string)
      modifies app
      ensures app.cvData == ProfileEdits.RemoveEducation(old(app.cvData), id)
      ensures OnlyProfileChanged()
    {
      app.SetCVData(ProfileEdits.RemoveEducation(app.cvData, id));
    }

    /** The skill input's `onChange`. */
    method EditNewSkill(text: string)
      modifies this
      ensures newSkill == text
      ensures currentStep == old(currentStep) && newAchievement == old(newAchievement)
    {
      newSkill := text;
    }

    /** `addSkill`: non-blank input is appended trimmed and the input box is
        cleared; blank input leaves both the profile and the box alone. */
    method AddSkill()
      modifies this, app
      ensures !AllWhitespace(old(newSkill)) ==>
        app.cvData.skills == old(app.cvData.skills) + [Trim(old(newSkill))] && newSkill == ""
      ensures AllWhitespace(old(newSkill)) ==> app.cvData == old(app.cvData) && newSkill == old(newSkill)
      ensures app.cvData == ProfileEdits.AddSkill(old(app.cvData), old(newSkill))
      ensures currentStep == old(currentStep) && newAchievement == old(newAchievement)
      ensures app.currentScreen == old(app.currentScreen) && app.selectedTemplate == old(app.selectedTemplate)
    {
      if Trim(newSkill) != "" {
        app.SetCVData(ProfileEdits.AddSkill(app.cvData, newSkill));
        newSkill := "";
      }
    }

    method RemoveSkill(index: int)
      modifies app
      ensures app.cvData == ProfileEdits.RemoveSkill(old(app.cvData), index)
      ensures OnlyProfileChanged()
    {
      app.SetCVData(ProfileEdits.RemoveSkill(app.cvData, index));
    }

    /** The achievement input's `onChange`. */
    method EditNewAchievement(text: string)
      modifies this
      ensures newAchievement == text
      ensures currentStep == old(currentStep) && newSkill == old(newSkill)
    {
      newAchievement := text;
    }

    /** `addAchievement`: as `AddSkill`, with the achievement input box. */
    method AddAchievement()
      modifies this, app
      ensures !AllWhitespace(old(newAchievement)) ==>
        app.cvData.achievements == old(app.cvData.achievements) + [Trim(old(newAchievement))] && newAchievement == ""
      ensures AllWhitespace(old(newAchievement)) ==> app.cvData == old(app.cvData) && newAchievement == old(newAchievement)
      ensures app.cvData == ProfileEdits.AddAchievement(old(app.cvData), old(newAchievement))
      ensures currentStep == old(currentStep) && newSkill == old(newSkill)
      ensures app.currentScreen == old(app.currentScreen) && app.selectedTemplate == old(app.selectedTemplate)
    {
      if Trim(newAchievement) != "" {
        app.SetCVData(ProfileEdits.AddAchievement(app.cvData, newAchievement));
        newAchievement := "";
      }
    }

    method RemoveAchievement(index: int)
      modifies app
      ensures app.cvData == ProfileEdits.RemoveAchievement(old(app.cvData), index)
      ensures OnlyProfileChanged()
    {
      app.SetCVData(ProfileEdits.RemoveAchievement(app.cvData, index));
    }
  }
}
