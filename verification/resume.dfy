/** The resume aggregate and its entities. Optional TypeScript fields
    (`field?: T`) become `Option<T>`; ordered arrays become sequences. */
module Resume {
  import opened Wrappers

  /** The closed proficiency enumeration of a skill, in increasing order. */
  datatype Level = Beginner | Intermediate | Advanced | Expert

  datatype PersonalInfo = PersonalInfo(
    firstName: string,
    lastName: string,
    email: string,
    phone: string,
    address: string,
    linkedIn: Option<string>,
    portfolio: Option<string>,
    summary: Option<string>)

  datatype Education = Education(
    id: string,
    institution: string,
    degree: string,
    fieldOfStudy: string,
    startDate: string,
    endDate: string,
    gpa: Option<string>,
    description: string,
    currentlyStudying: bool)

  datatype WorkExperience = WorkExperience(
    id: string,
    company: string,
    position: string,
    location: Option<string>,
    startDate: string,
    endDate: string,
    currentlyWorking: bool,
    description: string,
    achievements: seq<string>)

  /** `yearsOfExperience` is a JavaScript number; it is kept as an exact real. */
  datatype Skill = Skill(
    id: string,
    name: string,
    level: Level,
    category: string,
    yearsOfExperience: Option<real>)

  datatype Project = Project(
    id: string,
    name: string,
    description: string,
    technologies: seq<string>,
    startDate: string,
    endDate: string,
    url: Option<string>)

  datatype Certification = Certification(
    id: string,
    name: string,
    issuer: string,
    issueDate: string,
    expirationDate: Option<string>,
    url: Option<string>)

  /** The aggregate: personal information plus five ordered lists. */
  datatype ResumeData = ResumeData(
    personalInfo: PersonalInfo,
    education: seq<Education>,
    workExperience: seq<WorkExperience>,
    skills: seq<Skill>,
    projects: seq<Project>,
    certifications: seq<Certification>)

  /** A template descriptor. The id is free text, not a closed union, so every
      consumer has to handle ids outside the catalogue. */
  datatype Template = Template(
    id: string,
    name: string,
    description: string,
    category: string,
    color: string,
    preview: string)

  /** The string literal of a proficiency level, as stored in a skill. */
  function LevelName(l: Level): (r: string)
    ensures r in {"Beginner", "Intermediate", "Advanced", "Expert"}
  {
    match l
    case Beginner => "Beginner"
    case Intermediate => "Intermediate"
    case Advanced => "Advanced"
    case Expert => "Expert"
  }

  /** Reads a level back from its literal; any other string is not a level. */
  function LevelFromName(s: string): (r: Option<Level>)
    ensures r.None? <==> s !in {"Beginner", "Intermediate", "Advanced", "Expert"}
  {
    if s == "Beginner" then Some(Beginner)
    else if s == "Intermediate" then Some(Intermediate)
    else if s == "Advanced" then Some(Advanced)
    else if s == "Expert" then Some(Expert)
    else None
  }

  /** The four literals name the four levels one-to-one. */
  lemma LevelNameRoundTrip(l: Level, s: string)
    ensures LevelFromName(LevelName(l)) == Some(l)
    ensures LevelFromName(s) == Some(l) ==> LevelName(l) == s
  {
  }
}
