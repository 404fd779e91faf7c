/**
 * The onboarding wizard (WelcomeDialog.tsx): the current step out of three
 * (profile, preferences, skills) and the answers collected so far.
 */
module WelcomeDialog {
  import opened ProfileLists

  const StepCount := 3

  datatype WorkType = RemoteWork | HybridWork | OnsiteWork

  datatype WelcomeForm = WelcomeForm(jobTitle: string, experience: string, location: string, workType: WorkType,
                                     salary: string, skills: seq<string>)

  /** The three text inputs of the first two steps. */
  datatype TextField = JobTitleField | ExperienceField | LocationField

  const InitialForm := WelcomeForm("", "", "", HybridWork, "", [])

  /** Back: one step back, never below the first. */
  function BackStep(step: nat): (r: nat)
    ensures step == 0 ==> r == 0
    ensures step > 0 ==> r + 1 == step
  {
    if step == 0 then 0 else step - 1
  }

  /** Continue: one step on below the last step; on the last step the wizard asks to close instead. */
  datatype ContinueResult = ContinueResult(step: nat, close: bool)

  function ContinueStep(step: nat): (r: ContinueResult)
    ensures r.close <==> step >= StepCount - 1
    ensures !r.close ==> r.step == step + 1
    ensures r.close ==> r.step == step
  {
    if step < StepCount - 1 then ContinueResult(step + 1, false) else ContinueResult(step, true)
  }

  /** Back and Continue keep the step within the wizard, and undo each other away from its ends. */
  lemma StepNavigation(step: nat)
    requires step < StepCount
    ensures BackStep(step) < StepCount && ContinueStep(step).step < StepCount
    ensures 0 < step ==> ContinueStep(BackStep(step)) == ContinueResult(step, false)
    ensures step < StepCount - 1 ==> BackStep(ContinueStep(step).step) == step
    ensures ContinueStep(step).close <==> step == StepCount - 1
  {
  }

  /** Segment `i` of the progress bar is highlighted. */
  function Progress(step: nat): (r: seq<bool>)
    ensures |r| == StepCount
    ensures forall i :: 0 <= i < StepCount ==> (r[i] <==> i <= step)
  {
    seq(StepCount, i requires 0 <= i < StepCount => i <= step)
  }

  function CountTrue(bs: seq<bool>): nat {
    if bs == [] then 0 else (if bs[0] then 1 else 0) + CountTrue(bs[1..])
  }

  /** A prefix of highlighted segments followed by plain ones has as many highlighted as the prefix is long. */
  lemma {:induction false} CountPrefix(bs: seq<bool>, k: nat)
    requires k <= |bs|
    requires forall i :: 0 <= i < |bs| ==> (bs[i] <==> i < k)
    ensures CountTrue(bs) == k
  {
    if bs != [] {
      var k' := if k == 0 then 0 else k - 1;
      assert forall i :: 0 <= i < |bs[1..]| ==> (bs[1..][i] <==> i < k');
      CountPrefix(bs[1..], k');
    }
  }

  /** On step `s` exactly the first `s + 1` segments are highlighted. */
  lemma ProgressCount(step: nat)
    requires step < StepCount
    ensures CountTrue(Progress(step)) == step + 1
  {
    CountPrefix(Progress(step), step + 1);
  }

  /** The primary button's label. */
  function ContinueLabel(step: nat): (r: string)
    ensures r == "Get Started" <==> step == StepCount - 1
  {
    if step == StepCount - 1 then "Get Started" else "Continue"
  }

  /** The skills without `skill`: every copy of it goes. */
  function RemoveSkill(skills: seq<string>, skill: string): seq<string> {
    Without(skills, (s: string) => s == skill)
  }

  /** Removing a skill takes out all its copies and keeps the others in order; removing a just-added new skill undoes the addition. */
  lemma RemoveSkillSpec(skills: seq<string>, skill: string)
    ensures skill !in RemoveSkill(skills, skill)
    ensures forall s :: s != skill ==> multiset(RemoveSkill(skills, skill))[s] == multiset(skills)[s]
    ensures skill !in skills ==> RemoveSkill(skills + [skill], skill) == skills
  {
    var drop := (s: string) => s == skill;
    WithoutCount(skills, drop);
    if skill !in skills {
      WithoutConcat(skills, [skill], drop);
      WithoutNothing(skills, drop);
      assert Without([skill], drop) == [];
    }
  }

  class Wizard {
    var currentStep: nat
    var formData: WelcomeForm

    ghost predicate Valid()
      reads this
    {
      currentStep < StepCount
    }

    constructor()
      ensures currentStep == 0 && formData == InitialForm && Valid()
    {
      currentStep := 0;
      formData := InitialForm;
    }

    /** The Back button. */
    method Back()
      requires Valid()
      modifies this
      ensures Valid() && currentStep == BackStep(old(currentStep)) && formData == old(formData)
    {
      currentStep := if currentStep == 0 then 0 else currentStep - 1;
    }

    /** The Continue button: a step on, or, on the last step, `onClose` with the step unchanged. */
    method Continue() returns (close: bool)
      requires Valid()
      modifies this
      ensures Valid() && ContinueResult(currentStep, close) == ContinueStep(old(currentStep))
      ensures formData == old(formData)
    {
      if currentStep < StepCount - 1 {
        currentStep := currentStep + 1;
        close := false;
      } else {
        close := true;
      }
    }

    /** Enter in the skill input: a non-empty entry is appended (duplicates included). */
    method SkillEnter(input: string)
      modifies this
      ensures input != "" ==> formData == old(formData).(skills := old(formData).skills + [input])
      ensures input == "" ==> formData == old(formData)
      ensures currentStep == old(currentStep)
    {
      if input != "" {
        formData := formData.(skills := formData.skills + [input]);
      }
    }

    /** A skill chip's remove button. */
    method SkillRemove(skill: string)
      modifies this
      ensures formData == old(formData).(skills := RemoveSkill(old(formData).skills, skill))
      ensures currentStep == old(currentStep)
    {
      formData := formData.(skills := RemoveSkill(formData.skills, skill));
    }

    /** A text input's `onChange`: `{...formData, [field]: value}`. */
    method EditText(field: TextField, v: string)
      modifies this
      ensures field == JobTitleField ==> formData == old(formData).(jobTitle := v)
      ensures field == ExperienceField ==> formData == old(formData).(experience := v)
      ensures field == LocationField ==> formData == old(formData).(location := v)
      ensures currentStep == old(currentStep)
    {
      match field
      case JobTitleField => formData := formData.(jobTitle := v);
      case ExperienceField => formData := formData.(experience := v);
      case LocationField => formData := formData.(location := v);
    }

    /** A work-type button. */
    method SelectWorkType(t: WorkType)
      modifies this
      ensures formData == old(formData).(workType := t) && currentStep == old(currentStep)
    {
      formData := formData.(workType := t);
    }
  }
}
