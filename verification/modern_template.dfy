/** The Modern template as an outline: a header with the name and contact
    items, the summary across the full width below it, then work experience,
    education and projects in the main column, skills and certifications in
    the sidebar. */
module ModernTemplate {
  import opened Wrappers
  import opened Resume
  import opened Outline
  import Helpers

  /** The separator the certification line carries before the expiry date,
      kept exactly as the source spells it (a mis-decoded bullet). */
  const ExpirySeparator: string := " \U{00E2}\U{20AC}\U{00A2} Expires: "

  /** Email, phone and address as they are; LinkedIn and portfolio labelled. */
  function Contacts(p: PersonalInfo): (r: seq<string>)
    ensures |r| == Flag(p.email != "") + Flag(p.phone != "") + Flag(p.address != "")
                   + Flag(Shown(p.linkedIn)) + Flag(Shown(p.portfolio))
    ensures forall x :: x in r <==>
              || (p.email != "" && x == p.email)
              || (p.phone != "" && x == p.phone)
              || (p.address != "" && x == p.address)
              || (Shown(p.linkedIn) && x == "LinkedIn: " + p.linkedIn.value)
              || (Shown(p.portfolio) && x == "Portfolio: " + p.portfolio.value)
    ensures p.email != "" ==> r[0] == p.email
    ensures Shown(p.portfolio) ==> r[|r| - 1] == "Portfolio: " + p.portfolio.value
  {
    LineIf(p.email != "", p.email) + LineIf(p.phone != "", p.phone) + LineIf(p.address != "", p.address)
      + LabelledIf(p.linkedIn, "LinkedIn: ") + LabelledIf(p.portfolio, "Portfolio: ")
  }

  /** The header: the name line, then the contact items. */
  function HeaderSection(p: PersonalInfo): Section
  {
    Section(Header, NameBlock, [p.firstName + " " + p.lastName] + Contacts(p))
  }

  /** One job: position, date range, company, location, description, achievements. */
  function WorkLines(e: WorkExperience, fmt: string -> string): seq<string>
  {
    [e.position, DateRange(e.startDate, e.endDate, e.currentlyWorking, fmt), e.company]
      + LabelledIf(e.location, "") + LineIf(e.description != "", e.description)
      + e.achievements
  }

  /** The jobs' lines, one job after another in list order. */
  function WorkEntries(xs: seq<WorkExperience>, fmt: string -> string): seq<string>
  {
    FlatMap(xs, e => WorkLines(e, fmt))
  }

  /** One school: degree, date range, institution, GPA, field, description. */
  function EducationLines(e: Education, fmt: string -> string): seq<string>
  {
    [e.degree, DateRange(e.startDate, e.endDate, e.currentlyStudying, fmt), e.institution]
      + LabelledIf(e.gpa, "GPA: ") + [e.fieldOfStudy] + LineIf(e.description != "", e.description)
  }

  /** The schools' lines, one school after another in list order. */
  function EducationEntries(xs: seq<Education>, fmt: string -> string): seq<string>
  {
    FlatMap(xs, e => EducationLines(e, fmt))
  }

  /** One project: name, both dates formatted, description, technologies. */
  function ProjectLines(pr: Project, fmt: string -> string): seq<string>
  {
    [pr.name, Helpers.FormatDate(pr.startDate, fmt) + " - " + Helpers.FormatDate(pr.endDate, fmt),
     pr.description] + pr.technologies
  }

  /** "Issued: <date>", followed by the expiry part only when an expiry date is set. */
  function IssuedLine(c: Certification, fmt: string -> string): (r: string)
    ensures |r| >= |"Issued: " + Helpers.FormatDate(c.issueDate, fmt)|
    ensures r[..|"Issued: " + Helpers.FormatDate(c.issueDate, fmt)|] == "Issued: " + Helpers.FormatDate(c.issueDate, fmt)
  {
    var issued := "Issued: " + Helpers.FormatDate(c.issueDate, fmt);
    if Shown(c.expirationDate) then issued + ExpirySeparator + Helpers.FormatDate(c.expirationDate.value, fmt)
    else issued
  }

  /** The expiry suffix appears iff the certification has an expiry date,
      and then it names that date. */
  lemma ExpirySuffixIffExpiring(c: Certification, fmt: string -> string)
    ensures Shown(c.expirationDate) <==> |IssuedLine(c, fmt)| > |"Issued: " + Helpers.FormatDate(c.issueDate, fmt)|
    ensures Shown(c.expirationDate) ==>
              IssuedLine(c, fmt)[|"Issued: " + Helpers.FormatDate(c.issueDate, fmt)|..]
              == ExpirySeparator + Helpers.FormatDate(c.expirationDate.value, fmt)
  {
  }

  function CertificationLines(c: Certification, fmt: string -> string): seq<string>
  {
    [c.name, c.issuer, IssuedLine(c, fmt)]
  }

  function WorkSection(d: ResumeData, fmt: string -> string): (r: seq<Section>)
    ensures forall h :: HasSection(r, h) <==> h == WorkBlock && |d.workExperience| > 0
  {
    SectionIf(|d.workExperience| > 0,
      Section(Main, WorkBlock, WorkEntries(d.workExperience, fmt)))
  }

  function EducationSection(d: ResumeData, fmt: string -> string): (r: seq<Section>)
    ensures forall h :: HasSection(r, h) <==> h == EducationBlock && |d.education| > 0
  {
    SectionIf(|d.education| > 0,
      Section(Main, EducationBlock, EducationEntries(d.education, fmt)))
  }

  function ProjectsSection(d: ResumeData, fmt: string -> string): (r: seq<Section>)
    ensures forall h :: HasSection(r, h) <==> h == ProjectsBlock && |d.projects| > 0
  {
    SectionIf(|d.projects| > 0,
      Section(Main, ProjectsBlock, FlatMap(d.projects, pr => ProjectLines(pr, fmt))))
  }

  function SkillsSection(d: ResumeData): (r: seq<Section>)
    ensures forall h :: HasSection(r, h) <==> h == SkillsBlock && |d.skills| > 0
  {
    SectionIf(|d.skills| > 0, Section(Sidebar, SkillsBlock, SkillLines(d.skills)))
  }

  function CertificationsSection(d: ResumeData, fmt: string -> string): (r: seq<Section>)
    ensures forall h :: HasSection(r, h) <==> h == CertificationsBlock && |d.certifications| > 0
  {
    SectionIf(|d.certifications| > 0,
      Section(Sidebar, CertificationsBlock, FlatMap(d.certifications, c => CertificationLines(c, fmt))))
  }

  /** The rendered outline. The header always leads and names the person. */
  function Render(d: ResumeData, fmt: string -> string): (o: seq<Section>)
    ensures |o| >= 1 && o[0].area == Header && o[0].heading == NameBlock && |o[0].lines| >= 1
    ensures o[0].lines[0] == d.personalInfo.firstName + " " + d.personalInfo.lastName
  {
    [HeaderSection(d.personalInfo)] + SummarySection(d.personalInfo, Banner)
      + WorkSection(d, fmt) + EducationSection(d, fmt) + ProjectsSection(d, fmt)
      + SkillsSection(d) + CertificationsSection(d, fmt)
  }

  /** A non-empty summary comes right after the header, across the full
      width of the page rather than in one of the columns. */
  lemma SummaryFollowsHeader(d: ResumeData, fmt: string -> string)
    requires Shown(d.personalInfo.summary)
    ensures |Render(d, fmt)| >= 2
    ensures Render(d, fmt)[1] == Section(Banner, SummaryBlock, [d.personalInfo.summary.value])
  {
  }

  /** Which headings the Modern template shows for `d`: the name block always,
      the summary when non-empty, each list-backed section when its list is
      non-empty, and never the Creative template's Contact or Experience. */
  predicate Shows(d: ResumeData, h: Heading)
  {
    match h
    case NameBlock => true
    case SummaryBlock => Shown(d.personalInfo.summary)
    case WorkBlock => |d.workExperience| > 0
    case EducationBlock => |d.education| > 0
    case ProjectsBlock => |d.projects| > 0
    case SkillsBlock => |d.skills| > 0
    case CertificationsBlock => |d.certifications| > 0
    case ContactBlock => false
    case ExperienceBlock => false
  }

  /** A section appears under a heading iff its data is there. */
  lemma Sections(d: ResumeData, fmt: string -> string, h: Heading)
    ensures HasSection(Render(d, fmt), h) <==> Shows(d, h)
  {
    HasSectionParts([HeaderSection(d.personalInfo)], SummarySection(d.personalInfo, Banner),
      WorkSection(d, fmt), EducationSection(d, fmt), ProjectsSection(d, fmt),
      SkillsSection(d), CertificationsSection(d, fmt), h);
  }

  /** Jobs render in list order: a job added at the end of the list adds its
      lines, achievements included, at the end of the Work Experience section. */
  lemma WorkEntriesAppend(xs: seq<WorkExperience>, x: WorkExperience, fmt: string -> string)
    ensures WorkEntries(xs + [x], fmt) == WorkEntries(xs, fmt) + WorkLines(x, fmt)
    ensures |WorkLines(x, fmt)| >= 3 + |x.achievements|
    ensures WorkLines(x, fmt)[..3] == [x.position, DateRange(x.startDate, x.endDate, x.currentlyWorking, fmt), x.company]
    ensures WorkLines(x, fmt)[|WorkLines(x, fmt)| - |x.achievements|..] == x.achievements
  {
    FlatMapAppend(xs, x, e => WorkLines(e, fmt));
    WorkLinesShape(x, fmt);
  }

  /** A job's lines open with title, dates and company and close with its
      achievements, with at most the location and description between. */
  lemma WorkLinesShape(x: WorkExperience, fmt: string -> string)
    ensures |WorkLines(x, fmt)| >= 3 + |x.achievements|
    ensures WorkLines(x, fmt)[..3] == [x.position, DateRange(x.startDate, x.endDate, x.currentlyWorking, fmt), x.company]
    ensures WorkLines(x, fmt)[|WorkLines(x, fmt)| - |x.achievements|..] == x.achievements
  {
    var head := [x.position, DateRange(x.startDate, x.endDate, x.currentlyWorking, fmt), x.company];
    var middle := LabelledIf(x.location, "") + LineIf(x.description != "", x.description);
    var lines := head + middle + x.achievements;
    assert WorkLines(x, fmt) == lines;
    assert lines[..3] == head;
    assert lines[|lines| - |x.achievements|..] == x.achievements;
  }

  /** While a job is current, its stored end date does not show: changing it
      leaves the whole outline as it was ("Present" is printed instead). */
  lemma JobEndHiddenWhileCurrent(d: ResumeData, i: int, end: string, fmt: string -> string)
    requires 0 <= i < |d.workExperience| && d.workExperience[i].currentlyWorking
    ensures Render(d.(workExperience := d.workExperience[i := d.workExperience[i].(endDate := end)]), fmt)
            == Render(d, fmt)
  {
    var w := d.workExperience[i];
    DateRangeIgnoresEnd(w.startDate, end, w.endDate, fmt);
    FlatMapReplace(d.workExperience, i, w.(endDate := end), e => WorkLines(e, fmt));
  }

  /** The same for a school while the person is still studying there. */
  lemma SchoolEndHiddenWhileStudying(d: ResumeData, j: int, end: string, fmt: string -> string)
    requires 0 <= j < |d.education| && d.education[j].currentlyStudying
    ensures Render(d.(education := d.education[j := d.education[j].(endDate := end)]), fmt)
            == Render(d, fmt)
  {
    var s := d.education[j];
    DateRangeIgnoresEnd(s.startDate, end, s.endDate, fmt);
    FlatMapReplace(d.education, j, s.(endDate := end), e => EducationLines(e, fmt));
  }
}
