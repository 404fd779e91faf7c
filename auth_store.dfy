/**
 * The authentication store (authStore.ts): whether someone is signed in and
 * their profile. Each action is one state-to-state function; `{...a, ...b}`
 * on the user record is a field-by-field override by the fields `b` has.
 */
module AuthStore {
  import opened Wrappers

  datatype Availability = ActivelyLooking | Open | NotLooking
  datatype Visibility = Public | Connections | Private

  datatype ExperienceItem = ExperienceItem(id: string, title: string, company: string, startDate: string,
                                           endDate: Option<string>, description: string)
  datatype EducationItem = EducationItem(id: string, degree: string, school: string, startYear: string,
                                         endYear: string, field: string)
  datatype CertificationItem = CertificationItem(id: string, name: string, issuer: string, issueDate: string,
                                                 expiryDate: Option<string>)

  /**
   * `privacySettings`. All three fields are declared required, but the object
   * built by `updatePrivacySettings` for a user without one has only
   * `hideJobSearch`, so each field is optional here.
   */
  datatype PrivacySettings = PrivacySettings(hideJobSearch: Option<bool>, profileVisibility: Option<Visibility>,
                                             activityVisibility: Option<Visibility>)

  datatype User = User(
    email: string,
    name: Option<string>,
    title: Option<string>,
    bio: Option<string>,
    phone: Option<string>,
    location: Option<string>,
    company: Option<string>,
    summary: Option<string>,
    picture: Option<string>,
    skills: Option<seq<string>>,
    connections: Option<int>,
    followers: Option<int>,
    following: Option<int>,
    availability: Option<Availability>,
    experience: Option<seq<ExperienceItem>>,
    education: Option<seq<EducationItem>>,
    certifications: Option<seq<CertificationItem>>,
    privacySettings: Option<PrivacySettings>)

  /** One field of a partial update: the update either has the key (with this value) or does not. */
  datatype Patch<T> = Keep | Set(value: T)

  function Apply<T>(p: Patch<T>, current: T): T {
    match p
    case Keep => current
    case Set(v) => v
  }

  /** `Partial<User>`: for each field, whether the update carries it and with what value. */
  datatype UserPatch = UserPatch(
    email: Patch<string>,
    name: Patch<Option<string>>,
    title: Patch<Option<string>>,
    bio: Patch<Option<string>>,
    phone: Patch<Option<string>>,
    location: Patch<Option<string>>,
    company: Patch<Option<string>>,
    summary: Patch<Option<string>>,
    picture: Patch<Option<string>>,
    skills: Patch<Option<seq<string>>>,
    connections: Patch<Option<int>>,
    followers: Patch<Option<int>>,
    following: Patch<Option<int>>,
    availability: Patch<Option<Availability>>,
    experience: Patch<Option<seq<ExperienceItem>>>,
    education: Patch<Option<seq<EducationItem>>>,
    certifications: Patch<Option<seq<CertificationItem>>>,
    privacySettings: Patch<Option<PrivacySettings>>)

  const NoChange := UserPatch(Keep, Keep, Keep, Keep, Keep, Keep, Keep, Keep, Keep, Keep, Keep, Keep, Keep,
                              Keep, Keep, Keep, Keep, Keep)

  /** `{...user, ...data}` */
  function Merge(u: User, d: UserPatch): User {
    User(Apply(d.email, u.email), Apply(d.name, u.name), Apply(d.title, u.title), Apply(d.bio, u.bio),
         Apply(d.phone, u.phone), Apply(d.location, u.location), Apply(d.company, u.company),
         Apply(d.summary, u.summary), Apply(d.picture, u.picture), Apply(d.skills, u.skills),
         Apply(d.connections, u.connections), Apply(d.followers, u.followers), Apply(d.following, u.following),
         Apply(d.availability, u.availability), Apply(d.experience, u.experience),
         Apply(d.education, u.education), Apply(d.certifications, u.certifications),
         Apply(d.privacySettings, u.privacySettings))
  }

  function Then<T>(first: Patch<T>, second: Patch<T>): Patch<T> {
    if second.Set? then second else first
  }

  /** `{...d1, ...d2}`: one partial update followed by another. */
  function Combine(d1: UserPatch, d2: UserPatch): UserPatch {
    UserPatch(Then(d1.email, d2.email), Then(d1.name, d2.name), Then(d1.title, d2.title), Then(d1.bio, d2.bio),
              Then(d1.phone, d2.phone), Then(d1.location, d2.location), Then(d1.company, d2.company),
              Then(d1.summary, d2.summary), Then(d1.picture, d2.picture), Then(d1.skills, d2.skills),
              Then(d1.connections, d2.connections), Then(d1.followers, d2.followers),
              Then(d1.following, d2.following), Then(d1.availability, d2.availability),
              Then(d1.experience, d2.experience), Then(d1.education, d2.education),
              Then(d1.certifications, d2.certifications), Then(d1.privacySettings, d2.privacySettings))
  }

  datatype AuthState = AuthState(isAuthenticated: bool, user: Option<User>)

  /** The store's invariant: signed in exactly when there is a user. */
  predicate Consistent(s: AuthState) {
    s.isAuthenticated <==> s.user.Some?
  }

  const InitialState := AuthState(false, None)

  /** `setUser(user)`: `{user, isAuthenticated: !!user}`; any user object is truthy. */
  function SetUser(s: AuthState, user: Option<User>): (r: AuthState)
    ensures r.user == user && (r.isAuthenticated <==> user.Some?)
    ensures Consistent(r)
  {
    AuthState(user.Some?, user)
  }

  /** `updateProfile(data)`: override `data`'s fields on the user, if there is one. */
  function UpdateProfile(s: AuthState, d: UserPatch): (r: AuthState)
    ensures r.isAuthenticated == s.isAuthenticated
    ensures r.user.Some? <==> s.user.Some?
    ensures Consistent(s) ==> Consistent(r)
  {
    AuthState(s.isAuthenticated, if s.user.Some? then Some(Merge(s.user.value, d)) else None)
  }

  /** `{...privacySettings, ...settings}` where `settings` is `{hideJobSearch}` and a missing object spreads as `{}`. */
  function MergePrivacy(current: Option<PrivacySettings>, hideJobSearch: bool): (r: PrivacySettings)
    ensures r.hideJobSearch == Some(hideJobSearch)
    ensures current.Some? ==>
              r.profileVisibility == current.value.profileVisibility
              && r.activityVisibility == current.value.activityVisibility
    ensures current.None? ==> r.profileVisibility.None? && r.activityVisibility.None?
  {
    match current
    case None => PrivacySettings(Some(hideJobSearch), None, None)
    case Some(p) => p.(hideJobSearch := Some(hideJobSearch))
  }

  /** `updatePrivacySettings(settings)`: merge into `privacySettings` of the user, if there is one. */
  function UpdatePrivacySettings(s: AuthState, hideJobSearch: bool): (r: AuthState)
    ensures r.isAuthenticated == s.isAuthenticated
    ensures r.user.Some? <==> s.user.Some?
    ensures Consistent(s) ==> Consistent(r)
  {
    if s.user.None? then s
    else
      var u := s.user.value;
      var merged := MergePrivacy(u.privacySettings, hideJobSearch);
      AuthState(s.isAuthenticated, Some(u.(privacySettings := Some(merged))))
  }

  /** `signOut()` */
  function SignOut(s: AuthState): (r: AuthState)
    ensures !r.isAuthenticated && r.user == None
    ensures Consistent(r)
  {
    AuthState(false, None)
  }

  /** The store starts signed out, and every action keeps "signed in iff there is a user". */
  lemma ConsistentAlways(s: AuthState, u: Option<User>, d: UserPatch, hiding: bool)
    requires Consistent(s)
    ensures Consistent(InitialState) && !InitialState.isAuthenticated && InitialState.user == None
    ensures Consistent(SetUser(s, u)) && Consistent(UpdateProfile(s, d))
    ensures Consistent(UpdatePrivacySettings(s, hiding)) && Consistent(SignOut(s))
  {
  }

  /** An update with no fields changes nothing. */
  lemma UpdateNothing(s: AuthState)
    ensures UpdateProfile(s, NoChange) == s
  {
  }

  /** Two updates in a row are the one update carrying both, the later one winning. */
  lemma UpdateProfileTwice(s: AuthState, d1: UserPatch, d2: UserPatch)
    ensures UpdateProfile(UpdateProfile(s, d1), d2) == UpdateProfile(s, Combine(d1, d2))
  {
  }

  /**
   * `updatePrivacySettings` is `updateProfile` with only `privacySettings`
   * changed: every other user field and every other privacy field is kept.
   */
  lemma PrivacyIsProfileUpdate(s: AuthState, hiding: bool)
    requires s.user.Some?
    ensures UpdatePrivacySettings(s, hiding) ==
      UpdateProfile(s, NoChange.(privacySettings := Set(Some(MergePrivacy(s.user.value.privacySettings, hiding)))))
  {
  }
}
