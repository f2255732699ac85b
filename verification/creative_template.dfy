/** The Creative template as an outline: a sidebar with the name, a blank
    position line, the contact items and the grouped skills, and a main
    column with summary, experience, education and projects. Certifications
    and achievements are not rendered. */
module CreativeTemplate {
  import opened Wrappers
  import opened Resume
  import opened Outline
  import Helpers

  /** The em dash joining position and company, degree and institution. */
  const Dash: string := " \U{2014} "

  /** The name and the line under it, which prints an untyped `position`
      property. `PersonalInfo` has no such field, so the line is empty for
      every aggregate the model can represent; an aggregate loaded without a
      shape check could carry one, and that case is not modelled. */
  function NameSection(p: PersonalInfo): (r: Section)
    ensures r.lines == [p.firstName + " " + p.lastName, ""]
  {
    Section(Sidebar, NameBlock, [p.firstName + " " + p.lastName, ""])
  }

  /** Email, phone and LinkedIn, each only when non-empty and without labels. */
  function Contacts(p: PersonalInfo): (r: seq<string>)
    ensures |r| == Flag(p.email != "") + Flag(p.phone != "") + Flag(Shown(p.linkedIn))
    ensures forall x :: x in r <==>
              || (p.email != "" && x == p.email)
              || (p.phone != "" && x == p.phone)
              || (Shown(p.linkedIn) && x == p.linkedIn.value)
    ensures p.email != "" ==> r[0] == p.email
    ensures Shown(p.linkedIn) ==> r[|r| - 1] == p.linkedIn.value
  {
    assert Shown(p.linkedIn) ==> "" + p.linkedIn.value == p.linkedIn.value;
    LineIf(p.email != "", p.email) + LineIf(p.phone != "", p.phone) + LabelledIf(p.linkedIn, "")
  }

  /** One job: "position — company", the date range, the description. */
  function JobLines(e: WorkExperience, fmt: string -> string): seq<string>
  {
    [e.position + Dash + e.company, DateRange(e.startDate, e.endDate, e.currentlyWorking, fmt)]
      + LineIf(e.description != "", e.description)
  }

  /** One school: "degree — institution" and the date range. */
  function SchoolLines(e: Education, fmt: string -> string): seq<string>
  {
    [e.degree + Dash + e.institution, DateRange(e.startDate, e.endDate, e.currentlyStudying, fmt)]
  }

  /** One project: its name and description. */
  function ProjectLines(pr: Project): seq<string>
  {
    [pr.name, pr.description]
  }

  function JobEntries(xs: seq<WorkExperience>, fmt: string -> string): seq<string>
  {
    FlatMap(xs, e => JobLines(e, fmt))
  }

  function SchoolEntries(xs: seq<Education>, fmt: string -> string): seq<string>
  {
    FlatMap(xs, e => SchoolLines(e, fmt))
  }

  /** The sidebar's Contact block, present even when it has no lines. */
  function ContactSection(p: PersonalInfo): Section
  {
    Section(Sidebar, ContactBlock, Contacts(p))
  }

  /** The sidebar's Skills block, present even when there are no skills. */
  function SkillsSection(d: ResumeData): Section
  {
    Section(Sidebar, SkillsBlock, SkillLines(d.skills))
  }

  function ExperienceSection(d: ResumeData, fmt: string -> string): (r: seq<Section>)
    ensures forall h :: HasSection(r, h) <==> h == ExperienceBlock && |d.workExperience| > 0
  {
    SectionIf(|d.workExperience| > 0, Section(Main, ExperienceBlock, JobEntries(d.workExperience, fmt)))
  }

  function EducationSection(d: ResumeData, fmt: string -> string): (r: seq<Section>)
    ensures forall h :: HasSection(r, h) <==> h == EducationBlock && |d.education| > 0
  {
    SectionIf(|d.education| > 0, Section(Main, EducationBlock, SchoolEntries(d.education, fmt)))
  }

  function ProjectsSection(d: ResumeData): (r: seq<Section>)
    ensures forall h :: HasSection(r, h) <==> h == ProjectsBlock && |d.projects| > 0
  {
    SectionIf(|d.projects| > 0, Section(Main, ProjectsBlock, FlatMap(d.projects, ProjectLines)))
  }

  /** The rendered outline: three sidebar sections, then the main column. */
  function Render(d: ResumeData, fmt: string -> string): (o: seq<Section>)
    ensures |o| >= 3 && o[0] == NameSection(d.personalInfo)
  {
    [NameSection(d.personalInfo)] + [ContactSection(d.personalInfo)] + [SkillsSection(d)]
      + SummarySection(d.personalInfo, Main) + ExperienceSection(d, fmt)
      + EducationSection(d, fmt) + ProjectsSection(d)
  }

  /** Which headings the Creative template shows: the name block, Contact and
      Skills always (Skills even with no skills); the main sections when their
      data is there; never Work Experience under that name, nor Certifications. */
  predicate Shows(d: ResumeData, h: Heading)
  {
    match h
    case NameBlock => true
    case ContactBlock => true
    case SkillsBlock => true
    case SummaryBlock => Shown(d.personalInfo.summary)
    case ExperienceBlock => |d.workExperience| > 0
    case EducationBlock => |d.education| > 0
    case ProjectsBlock => |d.projects| > 0
    case WorkBlock => false
    case CertificationsBlock => false
  }

  lemma Sections(d: ResumeData, fmt: string -> string, h: Heading)
    ensures HasSection(Render(d, fmt), h) <==> Shows(d, h)
  {
    HasSectionSingle(NameSection(d.personalInfo), h);
    HasSectionSingle(ContactSection(d.personalInfo), h);
    HasSectionSingle(SkillsSection(d), h);
    HasSectionParts([NameSection(d.personalInfo)], [ContactSection(d.personalInfo)], [SkillsSection(d)],
      SummarySection(d.personalInfo, Main), ExperienceSection(d, fmt), EducationSection(d, fmt),
      ProjectsSection(d), h);
  }

  /** Certifications never reach the outline: changing them changes nothing. */
  lemma IgnoresCertifications(d: ResumeData, certs: seq<Certification>, fmt: string -> string)
    ensures Render(d.(certifications := certs), fmt) == Render(d, fmt)
  {
  }

  /** Neither do the address and the portfolio. */
  lemma IgnoresAddressAndPortfolio(d: ResumeData, address: string, portfolio: Option<string>,
                                   fmt: string -> string)
    ensures Render(d.(personalInfo := d.personalInfo.(address := address, portfolio := portfolio)), fmt)
            == Render(d, fmt)
  {
    var p := d.personalInfo;
    var q := p.(address := address, portfolio := portfolio);
    assert Contacts(q) == Contacts(p) && NameSection(q) == NameSection(p);
    assert SummarySection(q, Main) == SummarySection(p, Main);
  }

  /** Replacing a job's achievements changes nothing either. */
  lemma IgnoresAchievements(d: ResumeData, i: int, achievements: seq<string>, fmt: string -> string)
    requires 0 <= i < |d.workExperience|
    ensures Render(d.(workExperience := d.workExperience[i := d.workExperience[i].(achievements := achievements)]), fmt)
            == Render(d, fmt)
  {
    var w := d.workExperience[i];
    assert JobLines(w.(achievements := achievements), fmt) == JobLines(w, fmt);
    FlatMapReplace(d.workExperience, i, w.(achievements := achievements), e => JobLines(e, fmt));
  }

  /** While a job is current its stored end date does not show. */
  lemma JobEndHiddenWhileCurrent(d: ResumeData, i: int, end: string, fmt: string -> string)
    requires 0 <= i < |d.workExperience| && d.workExperience[i].currentlyWorking
    ensures Render(d.(workExperience := d.workExperience[i := d.workExperience[i].(endDate := end)]), fmt)
            == Render(d, fmt)
  {
    var w := d.workExperience[i];
    DateRangeIgnoresEnd(w.startDate, end, w.endDate, fmt);
    FlatMapReplace(d.workExperience, i, w.(endDate := end), e => JobLines(e, fmt));
  }

  /** While the person is still studying, a school's stored end date does not show. */
  lemma SchoolEndHiddenWhileStudying(d: ResumeData, j: int, end: string, fmt: string -> string)
    requires 0 <= j < |d.education| && d.education[j].currentlyStudying
    ensures Render(d.(education := d.education[j := d.education[j].(endDate := end)]), fmt)
            == Render(d, fmt)
  {
    var s := d.education[j];
    DateRangeIgnoresEnd(s.startDate, end, s.endDate, fmt);
    FlatMapReplace(d.education, j, s.(endDate := end), e => SchoolLines(e, fmt));
  }
}
