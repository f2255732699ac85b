/** The abstract shape a template renders: an ordered list of sections, each
    with the area it sits in, its heading and its text lines. Markup, classes
    and layout are not part of the outline. */
module Outline {
  import opened Wrappers
  import opened Resume
  import Helpers
  import SkillGrouping

  /** Where a section sits: the page header, a full-width band below it,
      the main column or the sidebar. */
  datatype Area = Header | Banner | Main | Sidebar

  /** The headings the templates print. The name block carries the person's
      name as its first line instead of a heading. */
  datatype Heading =
    | NameBlock | ContactBlock | SummaryBlock | WorkBlock | ExperienceBlock
    | EducationBlock | ProjectsBlock | SkillsBlock | CertificationsBlock

  /** The text printed for each heading. */
  function Text(h: Heading): string
  {
    match h
    case NameBlock => ""
    case ContactBlock => "Contact"
    case SummaryBlock => "Professional Summary"
    case WorkBlock => "Work Experience"
    case ExperienceBlock => "Experience"
    case EducationBlock => "Education"
    case ProjectsBlock => "Projects"
    case SkillsBlock => "Skills"
    case CertificationsBlock => "Certifications"
  }

  /** A heading and the lines beneath it, in one area of the page. */
  datatype Section = Section(area: Area, heading: Heading, lines: seq<string>)

  /** JavaScript truthiness of an optional string: present and non-empty. */
  predicate Shown(o: Option<string>)
  {
    o.Some? && o.value != ""
  }

  /** `{cond && <line/>}`. */
  function LineIf(cond: bool, line: string): (r: seq<string>)
    ensures cond <==> r == [line]
    ensures !cond <==> r == []
  {
    if cond then [line] else []
  }

  /** 1 when a conditional item is rendered, 0 otherwise. */
  function Flag(b: bool): nat
  {
    if b then 1 else 0
  }

  /** `{cond && <section/>}`. */
  function SectionIf(cond: bool, s: Section): seq<Section>
  {
    if cond then [s] else []
  }

  /** Some section of `o` sits under heading `h`. */
  predicate HasSection(o: seq<Section>, h: Heading)
    decreases |o|
  {
    |o| > 0 && (o[0].heading == h || HasSection(o[1..], h))
  }

  lemma {:induction false} HasSectionAppend(a: seq<Section>, b: seq<Section>, h: Heading)
    ensures HasSection(a + b, h) <==> HasSection(a, h) || HasSection(b, h)
    decreases |a|
  {
    if |a| == 0 {
      assert a + b == b;
    } else {
      assert (a + b)[0] == a[0] && (a + b)[1..] == a[1..] + b;
      HasSectionAppend(a[1..], b, h);
    }
  }

  lemma HasSectionSingle(s: Section, h: Heading)
    ensures HasSection([s], h) <==> s.heading == h
  {
    assert [s][1..] == [];
  }

  /** The heading lookup over an outline assembled from seven parts. */
  lemma HasSectionParts(p0: seq<Section>, p1: seq<Section>, p2: seq<Section>, p3: seq<Section>,
                        p4: seq<Section>, p5: seq<Section>, p6: seq<Section>, h: Heading)
    ensures HasSection(p0 + p1 + p2 + p3 + p4 + p5 + p6, h) <==>
              HasSection(p0, h) || HasSection(p1, h) || HasSection(p2, h) || HasSection(p3, h)
              || HasSection(p4, h) || HasSection(p5, h) || HasSection(p6, h)
  {
    HasSectionAppend(p0, p1, h);
    HasSectionAppend(p0 + p1, p2, h);
    HasSectionAppend(p0 + p1 + p2, p3, h);
    HasSectionAppend(p0 + p1 + p2 + p3, p4, h);
    HasSectionAppend(p0 + p1 + p2 + p3 + p4, p5, h);
    HasSectionAppend(p0 + p1 + p2 + p3 + p4 + p5, p6, h);
  }

  /** The lookup skips a prefix that has no section under that heading. */
  lemma {:induction false} SectionLinesSkip(a: seq<Section>, b: seq<Section>, h: Heading)
    requires !HasSection(a, h)
    ensures SectionLines(a + b, h) == SectionLines(b, h)
    decreases |a|
  {
    if |a| > 0 {
      assert (a + b)[0] == a[0] && a[0].heading != h;
      assert (a + b)[1..] == a[1..] + b;
      SectionLinesSkip(a[1..], b, h);
    } else {
      assert a + b == b;
    }
  }

  /** `items.map(render)` flattened: each entry's lines, entries in order. */
  function FlatMap<T>(xs: seq<T>, f: T -> seq<string>): (r: seq<string>)
    ensures |xs| == 0 ==> r == []
    decreases |xs|
  {
    if |xs| == 0 then [] else FlatMap(xs[..|xs| - 1], f) + f(xs[|xs| - 1])
  }

  /** One more entry appends exactly that entry's lines. */
  lemma FlatMapAppend<T>(xs: seq<T>, x: T, f: T -> seq<string>)
    ensures FlatMap(xs + [x], f) == FlatMap(xs, f) + f(x)
  {
    assert (xs + [x])[..|xs|] == xs;
  }

  /** Replacing an entry by one that renders the same lines changes nothing. */
  lemma {:induction false} FlatMapReplace<T>(xs: seq<T>, i: int, y: T, f: T -> seq<string>)
    requires 0 <= i < |xs| && f(y) == f(xs[i])
    ensures FlatMap(xs[i := y], f) == FlatMap(xs, f)
    decreases |xs|
  {
    var n := |xs| - 1;
    if i < n {
      FlatMapReplace(xs[..n], i, y, f);
      assert xs[i := y][..n] == xs[..n][i := y];
    } else {
      assert xs[i := y][..n] == xs[..n];
    }
  }

  /** The end of a date range: "Present" while the entry is in progress,
      otherwise the formatted end date (itself "Present" when empty). */
  function EndLabel(end: string, inProgress: bool, fmt: string -> string): (r: string)
    ensures inProgress ==> r == "Present"
    ensures end == "" ==> r == "Present"
    ensures !inProgress && end != "" ==> r == fmt(end)
  {
    if inProgress then "Present" else Helpers.FormatDate(end, fmt)
  }

  /** `{formatDate(start)} -{" "}{end label}`. */
  function DateRange(start: string, end: string, inProgress: bool, fmt: string -> string): string
  {
    Helpers.FormatDate(start, fmt) + " - " + EndLabel(end, inProgress, fmt)
  }

  /** While in progress, the stored end date has no influence on the range. */
  lemma DateRangeIgnoresEnd(start: string, end1: string, end2: string, fmt: string -> string)
    ensures DateRange(start, end1, true, fmt) == DateRange(start, end2, true, fmt)
    ensures DateRange(start, end1, true, fmt) == Helpers.FormatDate(start, fmt) + " - Present"
  {
  }

  /** The professional summary block both full templates print, in the area
      each puts it: present exactly when the summary is non-empty, and then
      in that area and carrying the summary text. */
  function SummarySection(p: PersonalInfo, area: Area): (r: seq<Section>)
    ensures forall h :: HasSection(r, h) <==> h == SummaryBlock && Shown(p.summary)
    ensures forall k :: 0 <= k < |r| ==> r[k].area == area && p.summary.Some? && r[k].lines == [p.summary.value]
  {
    if Shown(p.summary) then [Section(area, SummaryBlock, [p.summary.value])] else []
  }

  /** `{o && <span>{prefix}{o}</span>}` for an optional field. */
  function LabelledIf(o: Option<string>, prefix: string): (r: seq<string>)
    ensures Shown(o) ==> r == [prefix + o.value]
    ensures !Shown(o) ==> r == []
  {
    if Shown(o) then [prefix + o.value] else []
  }

  /** The lines of the first section under heading `h`, if any. */
  function SectionLines(o: seq<Section>, h: Heading): (r: Option<seq<string>>)
    ensures r.None? <==> !HasSection(o, h)
  {
    if |o| == 0 then None
    else if o[0].heading == h then Some(o[0].lines)
    else SectionLines(o[1..], h)
  }

  /** The names of a list of skills, in order. */
  function SkillNames(skills: seq<Skill>): (r: seq<string>)
    ensures |r| == |skills|
    ensures forall k :: 0 <= k < |skills| ==> r[k] == skills[k].name
  {
    seq(|skills|, k requires 0 <= k < |skills| => skills[k].name)
  }

  /** One category block: its heading, then its skill names. */
  function GroupLines(g: SkillGrouping.Group): seq<string>
  {
    [g.category] + SkillNames(g.skills)
  }

  /** The skill blocks both the Modern and the Creative template render. */
  function SkillLines(skills: seq<Skill>): (r: seq<string>)
    ensures |skills| == 0 ==> r == []
  {
    FlatMap(SkillGrouping.GroupSkills(skills), GroupLines)
  }
}
