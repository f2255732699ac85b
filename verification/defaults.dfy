/** The factory values the builder starts from and the forms append. */
module Defaults {
  import opened Wrappers
  import opened Resume

  /** The placeholder summary of a fresh resume. */
  const DefaultSummary: string := "Experienced professional seeking new opportunities..."

  /** The initial aggregate: every list empty, every personal string empty
      except the placeholder summary. */
  function DefaultResumeData(): (d: ResumeData)
    ensures d.education == [] && d.workExperience == [] && d.skills == []
    ensures d.projects == [] && d.certifications == []
    ensures d.personalInfo.firstName == "" && d.personalInfo.lastName == ""
    ensures d.personalInfo.email == "" && d.personalInfo.phone == "" && d.personalInfo.address == ""
    ensures d.personalInfo.linkedIn == Some("") && d.personalInfo.portfolio == Some("")
    ensures d.personalInfo.summary.Some? && |d.personalInfo.summary.value| > 0
  {
    ResumeData(
      PersonalInfo("", "", "", "", "", Some(""), Some(""), Some(DefaultSummary)),
      [], [], [], [], [])
  }

  /** The template selected before the user picks one. */
  function DefaultTemplate(): (t: Template)
    ensures t.id == "modern" && t.color == "blue"
  {
    Template("modern", "Modern", "Clean and professional design with modern typography",
             "Professional", "blue", "modern-preview")
  }

  /** A blank education row: not in progress, no GPA, id still to be assigned. */
  function DefaultEducation(): (e: Education)
    ensures e.id == "" && !e.currentlyStudying && e.gpa == None
    ensures e.institution == "" && e.degree == "" && e.fieldOfStudy == ""
    ensures e.startDate == "" && e.endDate == "" && e.description == ""
  {
    Education("", "", "", "", "", "", None, "", false)
  }

  /** A blank work row: no achievements, not current, no location. */
  function DefaultWorkExperience(): (w: WorkExperience)
    ensures w.id == "" && !w.currentlyWorking && w.achievements == [] && w.location == None
    ensures w.company == "" && w.position == "" && w.description == ""
    ensures w.startDate == "" && w.endDate == ""
  {
    WorkExperience("", "", "", None, "", "", false, "", [])
  }

  /** A blank skill: intermediate, technical, years unset. */
  function DefaultSkill(): (s: Skill)
    ensures s.id == "" && s.name == ""
    ensures s.level == Intermediate && s.category == "Technical" && s.yearsOfExperience == None
  {
    Skill("", "", Intermediate, "Technical", None)
  }
}
