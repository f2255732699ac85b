/** The export generators: PDF page tiling as exact arithmetic, and the
    plain-text DOCX placeholder and the HTML page as string builders. The
    canvas rasterisation, the PDF library and the download machinery are
    outside the model; only what is computed from the resume is here. */
module Generators {
  import opened Wrappers
  import opened Resume
  import opened Strings

  /** A4 width and height in millimetres, as the exporter hard-codes them. */
  const PageWidth: real := 210.0
  const PageHeight: real := 295.0

  /** The MIME types the DOCX and HTML blobs are declared with. */
  const DocxMime: string := "application/vnd.openxmlformats-officedocument.wordprocessingml.document"
  const HtmlMime: string := "text/html"

  // ---------------------------------------------------------------- PDF

  /** The printed height of the canvas image once scaled to the page width. */
  function ImageHeight(canvasWidth: real, canvasHeight: real): (h: real)
    requires canvasWidth > 0.0
    ensures h * canvasWidth == canvasHeight * PageWidth
    ensures canvasHeight >= 0.0 ==> h >= 0.0
  {
    canvasHeight * PageWidth / canvasWidth
  }

  /** The number of pages an image of height `h` needs: one, plus one more
      for every full page height it still has left, so an exact multiple of
      the page height ends with a page that shows nothing new. */
  function PageCount(h: real): (n: nat)
    requires h >= 0.0
    ensures (n - 1) as real * PageHeight <= h < n as real * PageHeight
  {
    1 + (h / PageHeight).Floor
  }

  /** Page counts are pinned down by the bracket `PageCount` ensures. */
  lemma PageCountUnique(h: real, n: nat)
    requires h >= 0.0
    requires (n - 1) as real * PageHeight <= h < n as real * PageHeight
    ensures n == PageCount(h)
  {
  }

  /** The vertical offset at which page `k` (from 0) draws the image. */
  function PageOffset(k: nat): real
  {
    -(k as real) * PageHeight
  }

  /** An image exactly `m` pages tall gets `m + 1` pages, and the last one
      draws the image wholly above its top edge, so it comes out blank. */
  lemma ExactMultipleAddsBlankPage(m: nat)
    requires m >= 1
    ensures PageCount(m as real * PageHeight) == m + 1
    ensures PageOffset(m) + m as real * PageHeight == 0.0
  {
  }

  /** The tiling loop of the PDF exporter: the first page draws the image at
      offset 0; while some height is left, a new page draws the same image
      shifted up by one more page height. Returns the scaled image height and
      the offset of every page, in page order. */
  method TilePages(canvasWidth: real, canvasHeight: real) returns (imgHeight: real, offsets: seq<real>)
    requires canvasWidth > 0.0 && canvasHeight >= 0.0
    ensures imgHeight * canvasWidth == canvasHeight * PageWidth
    ensures |offsets| == PageCount(imgHeight)
    ensures forall k :: 0 <= k < |offsets| ==> offsets[k] == PageOffset(k)
  {
    imgHeight := ImageHeight(canvasWidth, canvasHeight);
    var heightLeft := imgHeight;
    var position := 0.0;
    offsets := [position];
    heightLeft := heightLeft - PageHeight;
    while heightLeft >= 0.0
      invariant |offsets| >= 1
      invariant heightLeft == imgHeight - |offsets| as real * PageHeight
      invariant (|offsets| - 1) as real * PageHeight <= imgHeight
      invariant forall k :: 0 <= k < |offsets| ==> offsets[k] == PageOffset(k)
      decreases heightLeft.Floor + 1
    {
      position := heightLeft - imgHeight;
      offsets := offsets + [position];
      heightLeft := heightLeft - PageHeight;
    }
    PageCountUnique(imgHeight, |offsets|);
  }

  // --------------------------------------------------------------- DOCX

  /** The raw end date of the placeholder text: "Present" while in progress,
      otherwise the stored date unformatted (possibly empty). */
  function RawEnd(end: string, inProgress: bool): (r: string)
    ensures inProgress ==> r == "Present"
    ensures !inProgress ==> r == end
  {
    if inProgress then "Present" else end
  }

  /** One work-experience block of the placeholder text. */
  function WorkBlock(e: WorkExperience): string
  {
    "\n      " + e.position + " at " + e.company
    + "\n      " + e.startDate + " - " + RawEnd(e.endDate, e.currentlyWorking)
    + "\n      " + e.description
    + "\n    "
  }

  /** One education block of the placeholder text. */
  function EducationBlock(e: Education): string
  {
    "\n      " + e.degree + " in " + e.fieldOfStudy
    + "\n      " + e.institution
    + "\n      " + e.startDate + " - " + RawEnd(e.endDate, e.currentlyStudying)
    + "\n    "
  }

  /** `workExperience.map(...)`: one block per entry, in list order. */
  function WorkBlocks(ws: seq<WorkExperience>): (r: seq<string>)
    ensures |r| == |ws|
    ensures forall k :: 0 <= k < |ws| ==> r[k] == WorkBlock(ws[k])
  {
    seq(|ws|, k requires 0 <= k < |ws| => WorkBlock(ws[k]))
  }

  /** `education.map(...)`: one block per entry, in list order. */
  function EducationBlocks(es: seq<Education>): (r: seq<string>)
    ensures |r| == |es|
    ensures forall k :: 0 <= k < |es| ==> r[k] == EducationBlock(es[k])
  {
    seq(|es|, k requires 0 <= k < |es| => EducationBlock(es[k]))
  }

  /** The three opening lines of the text. */
  function NameLine(p: PersonalInfo): string
  {
    "Resume for " + p.firstName + " " + p.lastName
  }

  function EmailLine(p: PersonalInfo): string
  {
    "Email: " + p.email
  }

  function PhoneLine(p: PersonalInfo): string
  {
    "Phone: " + p.phone
  }

  /** The opening lines: name, email, phone. */
  function DocxHeader(p: PersonalInfo): string
  {
    "\n    " + NameLine(p) + "\n    " + EmailLine(p) + "\n    " + PhoneLine(p)
  }

  /** The summary paragraph; an absent summary becomes the empty string. */
  function DocxSummary(p: PersonalInfo): string
  {
    "\n    \n    PROFESSIONAL SUMMARY\n    " + p.summary.GetOr("")
  }

  /** The work section: its heading, then the blocks joined by newlines. */
  function DocxWork(ws: seq<WorkExperience>): string
  {
    "\n    \n    WORK EXPERIENCE\n    " + Join(WorkBlocks(ws), "\n")
  }

  /** The education section: its heading, then the blocks joined by newlines. */
  function DocxEducation(es: seq<Education>): string
  {
    "\n    \n    EDUCATION\n    " + Join(EducationBlocks(es), "\n")
  }

  /** The whole placeholder text written into the ".docx" file. Skills,
      projects, certifications, achievements, location, GPA, address and
      the profile links are not part of it. */
  function DocxContent(d: ResumeData): string
  {
    DocxHeader(d.personalInfo) + DocxSummary(d.personalInfo)
    + DocxWork(d.workExperience) + DocxEducation(d.education) + "\n  "
  }

  /** Adding a work entry appends exactly its block to the work section,
      after a newline separator when the list was not empty. */
  lemma DocxWorkSnoc(ws: seq<WorkExperience>, w: WorkExperience)
    ensures |ws| == 0 ==> DocxWork(ws + [w]) == DocxWork([]) + WorkBlock(w)
    ensures |ws| > 0 ==> DocxWork(ws + [w]) == DocxWork(ws) + "\n" + WorkBlock(w)
  {
    assert WorkBlocks(ws + [w]) == WorkBlocks(ws) + [WorkBlock(w)];
    if |ws| > 0 {
      JoinSnoc(WorkBlocks(ws), "\n", WorkBlock(w));
    }
  }

  /** Adding an education entry appends exactly its block. */
  lemma DocxEducationSnoc(es: seq<Education>, e: Education)
    ensures |es| == 0 ==> DocxEducation(es + [e]) == DocxEducation([]) + EducationBlock(e)
    ensures |es| > 0 ==> DocxEducation(es + [e]) == DocxEducation(es) + "\n" + EducationBlock(e)
  {
    assert EducationBlocks(es + [e]) == EducationBlocks(es) + [EducationBlock(e)];
    if |es| > 0 {
      JoinSnoc(EducationBlocks(es), "\n", EducationBlock(e));
    }
  }

  /** Work entry `k` has its block in the text. */
  lemma DocxListsWorkEntry(d: ResumeData, k: nat)
    requires k < |d.workExperience|
    ensures Contains(DocxContent(d), WorkBlock(d.workExperience[k]))
  {
    var p := d.personalInfo;
    var ws := WorkBlocks(d.workExperience);
    JoinContains(ws, "\n", k);
    ContainsExtendLeft("\n    \n    WORK EXPERIENCE\n    ", Join(ws, "\n"), ws[k]);
    ContainsExtendLeft(DocxHeader(p) + DocxSummary(p), DocxWork(d.workExperience), ws[k]);
    ContainsExtendRight(DocxHeader(p) + DocxSummary(p) + DocxWork(d.workExperience),
                        DocxEducation(d.education), ws[k]);
    ContainsExtendRight(DocxHeader(p) + DocxSummary(p) + DocxWork(d.workExperience) + DocxEducation(d.education),
                        "\n  ", ws[k]);
  }

  /** Education entry `k` has its block in the text. */
  lemma DocxListsEducationEntry(d: ResumeData, k: nat)
    requires k < |d.education|
    ensures Contains(DocxContent(d), EducationBlock(d.education[k]))
  {
    var p := d.personalInfo;
    var es := EducationBlocks(d.education);
    JoinContains(es, "\n", k);
    ContainsExtendLeft("\n    \n    EDUCATION\n    ", Join(es, "\n"), es[k]);
    ContainsExtendLeft(DocxHeader(p) + DocxSummary(p) + DocxWork(d.workExperience),
                       DocxEducation(d.education), es[k]);
    ContainsExtendRight(DocxHeader(p) + DocxSummary(p) + DocxWork(d.workExperience) + DocxEducation(d.education),
                        "\n  ", es[k]);
  }

  /** The text opens with the name line and the email and phone lines. */
  lemma DocxOpensWithContact(d: ResumeData)
    ensures Contains(DocxContent(d), NameLine(d.personalInfo))
    ensures Contains(DocxContent(d), EmailLine(d.personalInfo))
    ensures Contains(DocxContent(d), PhoneLine(d.personalInfo))
  {
    var p := d.personalInfo;
    var h := DocxHeader(p);
    var rest1 := DocxSummary(p);
    var rest2 := DocxWork(d.workExperience);
    var rest3 := DocxEducation(d.education);
    var n := "\n    " + NameLine(p);
    var e := n + "\n    " + EmailLine(p);
    ContainsSuffix("\n    ", NameLine(p));
    ContainsExtendRight(n, "\n    ", NameLine(p));
    ContainsExtendRight(n + "\n    ", EmailLine(p), NameLine(p));
    ContainsExtendRight(e, "\n    ", NameLine(p));
    ContainsExtendRight(e + "\n    ", PhoneLine(p), NameLine(p));
    ContainsSuffix(n + "\n    ", EmailLine(p));
    ContainsExtendRight(e, "\n    ", EmailLine(p));
    ContainsExtendRight(e + "\n    ", PhoneLine(p), EmailLine(p));
    ContainsSuffix(e + "\n    ", PhoneLine(p));
    forall y | y in [NameLine(p), EmailLine(p), PhoneLine(p)]
      ensures Contains(DocxContent(d), y)
    {
      ContainsExtendRight(h, rest1, y);
      ContainsExtendRight(h + rest1, rest2, y);
      ContainsExtendRight(h + rest1 + rest2, rest3, y);
      ContainsExtendRight(h + rest1 + rest2 + rest3, "\n  ", y);
    }
    assert NameLine(p) in [NameLine(p), EmailLine(p), PhoneLine(p)];
    assert EmailLine(p) in [NameLine(p), EmailLine(p), PhoneLine(p)];
    assert PhoneLine(p) in [NameLine(p), EmailLine(p), PhoneLine(p)];
  }

  /** A current job's stored end date never reaches the text. */
  lemma DocxCurrentJobIgnoresEnd(d: ResumeData, i: nat, end: string)
    requires i < |d.workExperience| && d.workExperience[i].currentlyWorking
    ensures DocxContent(d.(workExperience := d.workExperience[i := d.workExperience[i].(endDate := end)])) == DocxContent(d)
  {
    var ws := d.workExperience;
    var ws' := ws[i := ws[i].(endDate := end)];
    assert WorkBlocks(ws') == WorkBlocks(ws);
  }

  /** An ongoing education's stored end date never reaches the text. */
  lemma DocxOngoingStudyIgnoresEnd(d: ResumeData, i: nat, end: string)
    requires i < |d.education| && d.education[i].currentlyStudying
    ensures DocxContent(d.(education := d.education[i := d.education[i].(endDate := end)])) == DocxContent(d)
  {
    var es := d.education;
    var es' := es[i := es[i].(endDate := end)];
    assert EducationBlocks(es') == EducationBlocks(es);
  }

  /** Achievements are not exported: replacing one entry's list leaves the text as it was. */
  lemma DocxIgnoresAchievements(d: ResumeData, i: nat, achievements: seq<string>)
    requires i < |d.workExperience|
    ensures DocxContent(d.(workExperience := d.workExperience[i := d.workExperience[i].(achievements := achievements)])) == DocxContent(d)
  {
    var ws := d.workExperience;
    var ws' := ws[i := ws[i].(achievements := achievements)];
    assert WorkBlocks(ws') == WorkBlocks(ws);
  }

  // --------------------------------------------------------------- HTML

  const HtmlOpening: string := "\n    <!DOCTYPE html>\n    <html>\n    <head>\n      "

  const HtmlStyle: string :=
    "\n      <style>\n        body { font-family: Arial, sans-serif; margin: 40px; }"
    + "\n        .header { text-align: center; margin-bottom: 30px; }"
    + "\n        .section { margin-bottom: 20px; }"
    + "\n        .section-title { font-size: 18px; font-weight: bold; margin-bottom: 10px; }"
    + "\n      </style>\n    </head>\n    <body>\n      <div class=\"header\">\n        "

  const HtmlClosing: string :=
    "\n      </div>\n      <!-- Add more resume content here -->\n    </body>\n    </html>\n  "

  /** The page title, carrying the full name. */
  function TitleTag(p: PersonalInfo): string
  {
    "<title>Resume - " + p.firstName + " " + p.lastName + "</title>"
  }

  /** The name heading. */
  function NameHeading(p: PersonalInfo): string
  {
    "<h1>" + p.firstName + " " + p.lastName + "</h1>"
  }

  /** The contact line: email, phone and address, each separator written
      even when the fields around it are empty. */
  function ContactLine(p: PersonalInfo): string
  {
    "<p>" + p.email + " | " + p.phone + " | " + p.address + "</p>"
  }

  /** The head of the page, up to and including the opening of the header block. */
  function HtmlHead(p: PersonalInfo): string
  {
    HtmlOpening + TitleTag(p) + HtmlStyle
  }

  /** The header block's content and the closing tags. */
  function HtmlBody(p: PersonalInfo): string
  {
    NameHeading(p) + "\n        " + ContactLine(p) + HtmlClosing
  }

  /** The exported HTML page. The template argument is accepted and unused;
      field values are interpolated without escaping. */
  function HtmlContent(d: ResumeData, template: Template): string
  {
    HtmlHead(d.personalInfo) + HtmlBody(d.personalInfo)
  }

  /** The page carries the title, the name heading and the contact line, and
      depends on nothing but the five header fields: no other part of the
      resume and not the template. */
  lemma HtmlHeaderOnly(d1: ResumeData, t1: Template, d2: ResumeData, t2: Template)
    requires d1.personalInfo.firstName == d2.personalInfo.firstName
    requires d1.personalInfo.lastName == d2.personalInfo.lastName
    requires d1.personalInfo.email == d2.personalInfo.email
    requires d1.personalInfo.phone == d2.personalInfo.phone
    requires d1.personalInfo.address == d2.personalInfo.address
    ensures HtmlContent(d1, t1) == HtmlContent(d2, t2)
    ensures Contains(HtmlContent(d1, t1), TitleTag(d1.personalInfo))
    ensures Contains(HtmlContent(d1, t1), NameHeading(d1.personalInfo))
    ensures Contains(HtmlContent(d1, t1), ContactLine(d1.personalInfo))
  {
    var p := d1.personalInfo;
    var head := HtmlHead(p);
    ContainsMiddle(HtmlOpening, TitleTag(p), HtmlStyle);
    ContainsExtendRight(head, HtmlBody(p), TitleTag(p));
    ContainsPrefix(NameHeading(p), "\n        ");
    ContainsExtendRight(NameHeading(p) + "\n        ", ContactLine(p), NameHeading(p));
    ContainsExtendRight(NameHeading(p) + "\n        " + ContactLine(p), HtmlClosing, NameHeading(p));
    ContainsExtendLeft(head, HtmlBody(p), NameHeading(p));
    ContainsMiddle(NameHeading(p) + "\n        ", ContactLine(p), HtmlClosing);
    ContainsExtendLeft(head, HtmlBody(p), ContactLine(p));
  }
}
