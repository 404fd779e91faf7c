/** The profile records (profile.ts); optional properties are `Option`s. */
module ProfileTypes {
  import opened Wrappers

  datatype Skill = Skill(id: string, name: string, category: string, endorsements: int)

  datatype Certification = Certification(id: string, name: string, issuer: string, issueDate: string,
                                         expiryDate: Option<string>, credentialId: Option<string>,
                                         credentialUrl: Option<string>, logo: Option<string>)

  datatype AchievementType = Performance | Leadership | Award

  datatype Achievement = Achievement(id: string, title: string, kind: AchievementType, metric: Option<string>,
                                     description: string, date: string, endorsements: int,
                                     verifiedBy: Option<string>)

  datatype Education = Education(id: string, degree: string, school: string, logo: Option<string>,
                                 startYear: string, endYear: string, field: string,
                                 description: Option<string>, location: Option<string>, gpa: Option<string>)

  datatype WorkExperience = WorkExperience(id: string, title: string, company: string, logo: Option<string>,
                                           startDate: string, endDate: Option<string>, current: bool,
                                           description: string, location: string)
}
