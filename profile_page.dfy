/**
 * The profile page (Profile.tsx): five lists held in component state, the
 * "saving achievement" flag, the edit dialog's visibility, and the handlers
 * that update them; saving the profile goes to the auth store.
 */
module ProfilePage {
  import opened Wrappers
  import opened ProfileTypes
  import opened ProfileLists
  import opened AuthStore
  import opened EditProfileDialog

  const PlaceholderExperience := WorkExperience("1", "", "", None, "", None, false, "", "")
  const PlaceholderEducation := Education("1", "", "", None, "", "", "", Some(""), None, None)
  const PlaceholderSkill := Skill("1", "", "", 0)

  /** `{...achievement, endorsements: achievement.endorsements + 1}` for every achievement with the id. */
  function Endorse(achievements: seq<Achievement>, id: string): seq<Achievement> {
    UpdateWhere(achievements, (a: Achievement) => a.id == id,
                (a: Achievement) => a.(endorsements := a.endorsements + 1))
  }

  function TotalEndorsements(achievements: seq<Achievement>): int {
    if achievements == [] then 0 else achievements[0].endorsements + TotalEndorsements(achievements[1..])
  }

  function CountWithId(achievements: seq<Achievement>, id: string): nat {
    CountWhere(achievements, (a: Achievement) => a.id == id)
  }

  /**
   * Endorsing adds exactly one to each achievement with the id and changes
   * nothing else, so the total grows by the number of such achievements.
   */
  lemma {:induction false} EndorseSpec(achievements: seq<Achievement>, id: string)
    ensures var r := Endorse(achievements, id);
            |r| == |achievements|
            && (forall i :: 0 <= i < |r| ==>
                  if achievements[i].id == id
                  then r[i] == achievements[i].(endorsements := achievements[i].endorsements + 1)
                  else r[i] == achievements[i])
            && TotalEndorsements(r) == TotalEndorsements(achievements) + CountWithId(achievements, id)
  {
    if achievements != [] {
      EndorseSpec(achievements[1..], id);
      assert Endorse(achievements, id)[1..] == Endorse(achievements[1..], id);
    }
  }

  /** The update `handleSaveProfile` passes to `updateProfile`: the dialog's six fields, and nothing else. */
  function ProfilePatch(data: ProfileFormData): UserPatch {
    NoChange.(name := Set(Some(data.name)), title := Set(Some(data.title)), email := Set(data.email),
              phone := Set(Some(data.phone)), location := Set(Some(data.location)),
              summary := Set(Some(data.summary)))
  }

  /**
   * Saving the profile writes the six form fields onto a signed-in user and
   * keeps every other field of the user and the sign-in flag; without a user
   * the state is unchanged.
   */
  lemma SaveProfileSpec(auth: AuthState, data: ProfileFormData)
    ensures var r := UpdateProfile(auth, ProfilePatch(data));
            r.isAuthenticated == auth.isAuthenticated
            && (auth.user.None? ==> r == auth)
            && (auth.user.Some? ==>
                  r.user.Some?
                  && var u, v := auth.user.value, r.user.value;
                     v.name == Some(data.name) && v.title == Some(data.title) && v.email == data.email
                     && v.phone == Some(data.phone) && v.location == Some(data.location)
                     && v.summary == Some(data.summary)
                     && v == u.(name := v.name, title := v.title, email := v.email, phone := v.phone,
                                location := v.location, summary := v.summary))
  {
  }

  class Page {
    var experiences: seq<WorkExperience>
    var educations: seq<Education>
    var achievements: seq<Achievement>
    var savingAchievement: bool
    var skills: seq<Skill>
    var certifications: seq<Certification>
    var showEditDialog: bool

    /** Experience, education and skills start with one blank entry with id "1"; achievements and certifications empty. */
    constructor()
      ensures experiences == [PlaceholderExperience] && educations == [PlaceholderEducation]
      ensures skills == [PlaceholderSkill] && achievements == [] && certifications == []
      ensures !savingAchievement && !showEditDialog
    {
      experiences := [PlaceholderExperience];
      educations := [PlaceholderEducation];
      achievements := [];
      savingAchievement := false;
      skills := [PlaceholderSkill];
      certifications := [];
      showEditDialog := false;
    }

    /** `handleSaveEducation` */
    method SaveEducation(e: Education)
      modifies this
      ensures educations == old(educations) + [e]
      ensures experiences == old(experiences) && achievements == old(achievements) && skills == old(skills)
      ensures certifications == old(certifications)
      ensures savingAchievement == old(savingAchievement) && showEditDialog == old(showEditDialog)
    {
      educations := educations + [e];
    }

    /** `handleDeleteEducation` */
    method DeleteEducation(id: string)
      modifies this
      ensures educations == Without(old(educations), (e: Education) => e.id == id)
      ensures experiences == old(experiences) && achievements == old(achievements) && skills == old(skills)
      ensures certifications == old(certifications)
      ensures savingAchievement == old(savingAchievement) && showEditDialog == old(showEditDialog)
    {
      educations := Without(educations, (e: Education) => e.id == id);
    }

    /** `handleSaveExperience` */
    method SaveExperience(e: WorkExperience)
      modifies this
      ensures experiences == old(experiences) + [e]
      ensures educations == old(educations) && achievements == old(achievements) && skills == old(skills)
      ensures certifications == old(certifications)
      ensures savingAchievement == old(savingAchievement) && showEditDialog == old(showEditDialog)
    {
      experiences := experiences + [e];
    }

    /** `handleDeleteExperience` */
    method DeleteExperience(id: string)
      modifies this
      ensures experiences == Without(old(experiences), (e: WorkExperience) => e.id == id)
      ensures educations == old(educations) && achievements == old(achievements) && skills == old(skills)
      ensures certifications == old(certifications)
      ensures savingAchievement == old(savingAchievement) && showEditDialog == old(showEditDialog)
    {
      experiences := Without(experiences, (e: WorkExperience) => e.id == id);
    }

    /** `handleSaveAchievement` up to the one-second `await`: the saving flag is on. */
    method BeginSaveAchievement()
      modifies this
      ensures savingAchievement
      ensures achievements == old(achievements) && experiences == old(experiences) && educations == old(educations)
      ensures skills == old(skills) && certifications == old(certifications) && showEditDialog == old(showEditDialog)
    {
      savingAchievement := true;
    }

    /** `handleSaveAchievement` after the delay: the achievement is appended and the flag is off (the `finally`). */
    method EndSaveAchievement(a: Achievement)
      modifies this
      ensures achievements == old(achievements) + [a] && !savingAchievement
      ensures experiences == old(experiences) && educations == old(educations)
      ensures skills == old(skills) && certifications == old(certifications) && showEditDialog == old(showEditDialog)
    {
      achievements := achievements + [a];
      savingAchievement := false;
    }

    /** `handleEndorse` */
    method EndorseAchievement(id: string)
      modifies this
      ensures achievements == Endorse(old(achievements), id)
      ensures experiences == old(experiences) && educations == old(educations) && skills == old(skills)
      ensures certifications == old(certifications)
      ensures savingAchievement == old(savingAchievement) && showEditDialog == old(showEditDialog)
    {
      achievements := Endorse(achievements, id);
    }

    /** `handleSaveProfile`: the six fields go to `updateProfile`, then the dialog closes. */
    method SaveProfile(data: ProfileFormData, auth: AuthState) returns (auth': AuthState)
      modifies this
      ensures auth' == UpdateProfile(auth, ProfilePatch(data))
      ensures !showEditDialog
      ensures experiences == old(experiences) && educations == old(educations) && achievements == old(achievements)
      ensures skills == old(skills) && certifications == old(certifications)
      ensures savingAchievement == old(savingAchievement)
    {
      auth' := UpdateProfile(auth, ProfilePatch(data));
      showEditDialog := false;
    }

    /** `handleSaveSkill` */
    method SaveSkill(s: Skill)
      modifies this
      ensures skills == old(skills) + [s]
      ensures experiences == old(experiences) && educations == old(educations) && achievements == old(achievements)
      ensures certifications == old(certifications)
      ensures savingAchievement == old(savingAchievement) && showEditDialog == old(showEditDialog)
    {
      skills := skills + [s];
    }

    /** `handleDeleteSkill` */
    method DeleteSkill(id: string)
      modifies this
      ensures skills == Without(old(skills), (s: Skill) => s.id == id)
      ensures experiences == old(experiences) && educations == old(educations) && achievements == old(achievements)
      ensures certifications == old(certifications)
      ensures savingAchievement == old(savingAchievement) && showEditDialog == old(showEditDialog)
    {
      skills := Without(skills, (s: Skill) => s.id == id);
    }

    /** `handleSaveCertification` */
    method SaveCertification(c: Certification)
      modifies this
      ensures certifications == old(certifications) + [c]
      ensures experiences == old(experiences) && educations == old(educations) && achievements == old(achievements)
      ensures skills == old(skills)
      ensures savingAchievement == old(savingAchievement) && showEditDialog == old(showEditDialog)
    {
      certifications := certifications + [c];
    }

    /** `handleDeleteCertification` */
    method DeleteCertification(id: string)
      modifies this
      ensures certifications == Without(old(certifications), (c: Certification) => c.id == id)
      ensures experiences == old(experiences) && educations == old(educations) && achievements == old(achievements)
      ensures skills == old(skills)
      ensures savingAchievement == old(savingAchievement) && showEditDialog == old(showEditDialog)
    {
      certifications := Without(certifications, (c: Certification) => c.id == id);
    }
  }

  /**
   * Submitting the edit dialog of the page: the dialog shows the validation
   * errors, and the page's lists stay as they were. An invalid form leaves the
   * store, the dialog flag and the submitting flag as they were; a valid one
   * updates the profile with the form, closes the dialog, and ends with
   * submitting off.
   */
  method SubmitProfile(dialog: Dialog, page: Page, auth: AuthState) returns (auth': AuthState, close: bool)
    modifies dialog, page
    ensures var d := old(dialog.formData);
            var valid := !Text.AllSpace(d.name) && !Text.AllSpace(d.email) && EmailPatternMatches(d.email);
            (valid ==> auth' == UpdateProfile(auth, ProfilePatch(d)) && close && !page.showEditDialog
                       && !dialog.isSubmitting)
            && (!valid ==> auth' == auth && !close && page.showEditDialog == old(page.showEditDialog)
                           && dialog.isSubmitting == old(dialog.isSubmitting))
    ensures dialog.formData == old(dialog.formData)
    ensures page.experiences == old(page.experiences) && page.educations == old(page.educations)
    ensures page.achievements == old(page.achievements) && page.skills == old(page.skills)
    ensures page.certifications == old(page.certifications)
    ensures page.savingAchievement == old(page.savingAchievement)
    ensures var d := dialog.formData;
      && dialog.errors.Keys <= {NameField, EmailField}
      && (NameField in dialog.errors <==> Text.AllSpace(d.name))
      && (NameField in dialog.errors ==> dialog.errors[NameField] == NameRequired)
      && (EmailField in dialog.errors <==> Text.AllSpace(d.email) || !EmailPatternMatches(d.email))
      && (EmailField in dialog.errors ==>
            dialog.errors[EmailField] == if Text.AllSpace(d.email) then EmailRequired else InvalidEmail)
  {
    var proceed := dialog.BeginSubmit();
    if proceed {
      auth' := page.SaveProfile(dialog.formData, auth);
      close := dialog.EndSubmit(true);
    } else {
      auth' := auth;
      close := false;
    }
  }
}
