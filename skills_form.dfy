/**
 * The add-skill dialog (SkillsForm.tsx): the skill being entered, and the
 * submit flow that rejects a name the profile already has.
 */
module SkillsForm {
  import opened Wrappers
  import opened Text
  import opened ProfileTypes

  const FirstCategory := "Programming Languages"
  const DuplicateSkill := "This skill already exists in your profile"
  const SaveFailed := "Failed to add skill. Please try again."

  /** `existingSkills.some(skill => skill.name.toLowerCase() === name.toLowerCase())` */
  predicate IsDuplicate(existing: seq<Skill>, name: string) {
    exists i :: 0 <= i < |existing| && Lower(existing[i].name) == Lower(name)
  }

  /**
   * The test ignores letter case on either side, and a skill once added is
   * then a duplicate of itself (and of its name in any letter case).
   */
  lemma DuplicateSpec(existing: seq<Skill>, name: string, s: Skill)
    ensures IsDuplicate(existing, name) <==> IsDuplicate(existing, Lower(name))
    ensures IsDuplicate(existing + [s], Lower(s.name))
    ensures IsDuplicate(existing, name) ==> IsDuplicate(existing + [s], name)
  {
    LowerIdempotent(name);
    LowerIdempotent(s.name);
    var t := existing + [s];
    assert t[|existing|] == s;
    if IsDuplicate(existing, name) {
      var i :| 0 <= i < |existing| && Lower(existing[i].name) == Lower(name);
      assert t[i] == existing[i];
    }
  }

  class Form {
    var formData: Skill
    var saving: bool
    var error: Option<string>

    /** The form opens empty in the first category with no endorsements; `id` stands for `crypto.randomUUID()`. */
    constructor(id: string)
      ensures formData == Skill(id, "", FirstCategory, 0) && !saving && error.None?
    {
      formData := Skill(id, "", FirstCategory, 0);
      saving := false;
      error := None;
    }

    /** The name input's `onChange`: only the skill's name changes. */
    method NameChange(v: string)
      modifies this
      ensures formData == old(formData).(name := v)
      ensures saving == old(saving) && error == old(error)
    {
      formData := formData.(name := v);
    }

    /** The category select's `onChange`: only the skill's category changes. */
    method CategoryChange(v: string)
      modifies this
      ensures formData == old(formData).(category := v)
      ensures saving == old(saving) && error == old(error)
    {
      formData := formData.(category := v);
    }

    /**
     * `handleSubmit` up to the `await`: a duplicate name shows the duplicate
     * error and stops with `saving` untouched; otherwise saving is on, the
     * error cleared, and `onSave(formData)` is to be called.
     */
    method BeginSubmit(existing: seq<Skill>) returns (proceed: bool)
      modifies this
      ensures proceed <==> !IsDuplicate(existing, old(formData).name)
      ensures !proceed ==> error == Some(DuplicateSkill) && saving == old(saving)
      ensures proceed ==> error.None? && saving
      ensures formData == old(formData)
    {
      if IsDuplicate(existing, formData.name) {
        error := Some(DuplicateSkill);
        return false;
      }
      saving := true;
      error := None;
      proceed := true;
    }

    /**
     * `handleSubmit` after the `await`: the dialog is to be closed when
     * `onSave` resolved; when it rejected, the failure is shown instead.
     * Saving is off either way.
     */
    method EndSubmit(saved: bool) returns (close: bool)
      modifies this
      ensures close == saved
      ensures saved ==> error == old(error)
      ensures !saved ==> error == Some(SaveFailed)
      ensures !saving && formData == old(formData)
    {
      if !saved {
        error := Some(SaveFailed);
      }
      close := saved;
      saving := false;
    }
  }
}
