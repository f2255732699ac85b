/** The builder page's state: the aggregate and the selected template, their
    snapshot in browser storage, section replacement from the forms, the
    summary prompt and the state update after a generation request, and the
    notification it shows. Storage is a key-to-string map; decoding and
    encoding are parameters. */
module ResumeBuilder {
  import opened Wrappers
  import opened Resume
  import opened Strings
  import Defaults
  import Outline

  const DataKey: string := "resumeData"
  const TemplateKey: string := "selectedTemplate"

  /** The token budget of the summary request. */
  const SummaryMaxTokens: int := 120

  datatype ToastKind = SuccessToast | ErrorToast | WarningToast

  datatype Toast = Toast(show: bool, message: string, kind: ToastKind)

  datatype BuilderState = BuilderState(data: ResumeData, template: Template, toast: Toast)

  /** The state on first render, before the snapshot is read. */
  function InitialState(): (s: BuilderState)
    ensures s.data == Defaults.DefaultResumeData() && s.template == Defaults.DefaultTemplate()
    ensures !s.toast.show
  {
    BuilderState(Defaults.DefaultResumeData(), Defaults.DefaultTemplate(), Toast(false, "", SuccessToast))
  }

  type Storage = map<string, string>

  /** The stored text under a key, when `getItem` gives something truthy:
      present and not empty. */
  function Stored(storage: Storage, key: string): (r: Option<string>)
    ensures r.Some? <==> key in storage && storage[key] != ""
    ensures r.Some? ==> r.value == storage[key]
  {
    if key in storage && storage[key] != "" then Some(storage[key]) else None
  }

  /** One key of the snapshot: the decoded value when there is a stored text
      and it decodes, otherwise the current value. */
  function LoadKey<T>(current: T, stored: Option<string>, decode: string -> Option<T>): (r: T)
    ensures stored.Some? && decode(stored.value).Some? ==> r == decode(stored.value).value
    ensures stored.None? || decode(stored.value).None? ==> r == current
  {
    match stored
    case None => current
    case Some(text) =>
      match decode(text)
      case Some(v) => v
      case None => current
  }

  /** The mount-time load: each key on its own, so an absent or undecodable
      value keeps that part of the state and does not stop the other. */
  function Load(s: BuilderState, storage: Storage,
                decodeData: string -> Option<ResumeData>,
                decodeTemplate: string -> Option<Template>): (r: BuilderState)
    ensures r.data == LoadKey(s.data, Stored(storage, DataKey), decodeData)
    ensures r.template == LoadKey(s.template, Stored(storage, TemplateKey), decodeTemplate)
    ensures r.toast == s.toast
  {
    s.(data := LoadKey(s.data, Stored(storage, DataKey), decodeData),
       template := LoadKey(s.template, Stored(storage, TemplateKey), decodeTemplate))
  }

  /** The write-back after a change: the whole aggregate under one key and
      the template under the other; every other key is left alone. */
  function Save(s: BuilderState, storage: Storage,
                encodeData: ResumeData -> string,
                encodeTemplate: Template -> string): (r: Storage)
    ensures DataKey in r && r[DataKey] == encodeData(s.data)
    ensures TemplateKey in r && r[TemplateKey] == encodeTemplate(s.template)
    ensures forall k :: k in storage && k != DataKey && k != TemplateKey ==> k in r && r[k] == storage[k]
    ensures r.Keys == storage.Keys + {DataKey, TemplateKey}
  {
    storage[DataKey := encodeData(s.data)][TemplateKey := encodeTemplate(s.template)]
  }

  /** What is saved is what the next visit loads, for encoders whose output
      is never empty and decodes back, whatever the next visit starts from. */
  lemma SaveThenLoad(s: BuilderState, start: BuilderState, storage: Storage,
                     encodeData: ResumeData -> string, decodeData: string -> Option<ResumeData>,
                     encodeTemplate: Template -> string, decodeTemplate: string -> Option<Template>)
    requires encodeData(s.data) != "" && decodeData(encodeData(s.data)) == Some(s.data)
    requires encodeTemplate(s.template) != "" && decodeTemplate(encodeTemplate(s.template)) == Some(s.template)
    ensures var r := Load(start, Save(s, storage, encodeData, encodeTemplate), decodeData, decodeTemplate);
      r.data == s.data && r.template == s.template
  {
    var saved := Save(s, storage, encodeData, encodeTemplate);
    assert Stored(saved, DataKey) == Some(encodeData(s.data));
    assert Stored(saved, TemplateKey) == Some(encodeTemplate(s.template));
  }

  /** A bad data snapshot does not block the template, and the other way
      round. */
  lemma LoadKeysIndependent(s: BuilderState, storage: Storage,
                            decodeData: string -> Option<ResumeData>,
                            decodeTemplate: string -> Option<Template>, text: string)
    requires text != "" && decodeTemplate(text).Some?
    ensures Load(s, storage[TemplateKey := text], decodeData, decodeTemplate).template == decodeTemplate(text).value
    ensures Load(s, storage[DataKey := ""], decodeData, decodeTemplate).data == s.data
    ensures Load(s, storage[DataKey := ""], decodeData, decodeTemplate).template
            == Load(s, storage, decodeData, decodeTemplate).template
  {
    assert Stored(storage[TemplateKey := text], TemplateKey) == Some(text);
    assert Stored(storage[DataKey := ""], TemplateKey) == Stored(storage, TemplateKey);
  }

  /** What one form or the template picker hands back. Projects and
      certifications have no form. */
  datatype Change =
    | PersonalInfoChange(personalInfo: PersonalInfo)
    | EducationChange(education: seq<Education>)
    | WorkExperienceChange(workExperience: seq<WorkExperience>)
    | SkillsChange(skills: seq<Skill>)
    | TemplateChange(template: Template)

  /** A form callback: the handed-back section replaces its part of the
      aggregate; nothing else moves. */
  function ApplyChange(s: BuilderState, c: Change): (r: BuilderState)
    ensures r.toast == s.toast
    ensures r.data.projects == s.data.projects && r.data.certifications == s.data.certifications
    ensures r.data.personalInfo == (if c.PersonalInfoChange? then c.personalInfo else s.data.personalInfo)
    ensures r.data.education == (if c.EducationChange? then c.education else s.data.education)
    ensures r.data.workExperience == (if c.WorkExperienceChange? then c.workExperience else s.data.workExperience)
    ensures r.data.skills == (if c.SkillsChange? then c.skills else s.data.skills)
    ensures r.template == (if c.TemplateChange? then c.template else s.template)
  {
    match c
    case PersonalInfoChange(p) => s.(data := s.data.(personalInfo := p))
    case EducationChange(es) => s.(data := s.data.(education := es))
    case WorkExperienceChange(ws) => s.(data := s.data.(workExperience := ws))
    case SkillsChange(ss) => s.(data := s.data.(skills := ss))
    case TemplateChange(t) => s.(template := t)
  }

  /** The part of the state a change writes. */
  function Target(c: Change): nat
  {
    match c
    case PersonalInfoChange(_) => 0
    case EducationChange(_) => 1
    case WorkExperienceChange(_) => 2
    case SkillsChange(_) => 3
    case TemplateChange(_) => 4
  }

  /** Changes to different parts commute, and a later change to the same part
      overrides an earlier one. */
  lemma ChangesCommuteOrOverride(s: BuilderState, c1: Change, c2: Change)
    ensures Target(c1) != Target(c2) ==> ApplyChange(ApplyChange(s, c1), c2) == ApplyChange(ApplyChange(s, c2), c1)
    ensures Target(c1) == Target(c2) ==> ApplyChange(ApplyChange(s, c1), c2) == ApplyChange(s, c2)
  {
  }

  // ------------------------------------------------------- summary prompt

  function Positions(ws: seq<WorkExperience>): (r: seq<string>)
    ensures |r| == |ws| && forall k :: 0 <= k < |ws| ==> r[k] == ws[k].position
  {
    seq(|ws|, k requires 0 <= k < |ws| => ws[k].position)
  }

  const PromptOpening: string := "Write a concise, professional resume summary for "
  const PromptSkills: string := ". Include skills: "
  const PromptPositions: string := ". Highlight experience from positions: "
  const PromptClosing: string := ". Keep it under 60 words."

  function PromptName(p: PersonalInfo): string
  {
    p.firstName + " " + p.lastName
  }

  /** The request prompt: the full name, the skill names and the positions,
      each list joined by ", " in list order. */
  function SummaryPrompt(d: ResumeData): string
  {
    PromptOpening + PromptName(d.personalInfo)
    + PromptSkills + Join(Outline.SkillNames(d.skills), ", ")
    + PromptPositions + Join(Positions(d.workExperience), ", ")
    + PromptClosing
  }

  /** The prompt carries the name, every skill name and every position. */
  lemma PromptMentions(d: ResumeData)
    ensures Contains(SummaryPrompt(d), PromptName(d.personalInfo))
    ensures forall k :: 0 <= k < |d.skills| ==> Contains(SummaryPrompt(d), d.skills[k].name)
    ensures forall k :: 0 <= k < |d.workExperience| ==> Contains(SummaryPrompt(d), d.workExperience[k].position)
  {
    var a := PromptOpening + PromptName(d.personalInfo);
    var sk := Join(Outline.SkillNames(d.skills), ", ");
    var ps := Join(Positions(d.workExperience), ", ");
    var b := a + PromptSkills + sk;
    var c := b + PromptPositions + ps;
    forall y | Contains(b, y)
      ensures Contains(SummaryPrompt(d), y)
    {
      ContainsExtendRight(b, PromptPositions, y);
      ContainsExtendRight(b + PromptPositions, ps, y);
      ContainsExtendRight(c, PromptClosing, y);
    }
    ContainsSuffix(PromptOpening, PromptName(d.personalInfo));
    ContainsExtendRight(a, PromptSkills, PromptName(d.personalInfo));
    ContainsExtendRight(a + PromptSkills, sk, PromptName(d.personalInfo));
    forall k | 0 <= k < |d.skills|
      ensures Contains(SummaryPrompt(d), d.skills[k].name)
    {
      JoinContains(Outline.SkillNames(d.skills), ", ", k);
      ContainsExtendLeft(a + PromptSkills, sk, d.skills[k].name);
    }
    forall k | 0 <= k < |d.workExperience|
      ensures Contains(SummaryPrompt(d), d.workExperience[k].position)
    {
      JoinContains(Positions(d.workExperience), ", ", k);
      ContainsExtendLeft(b + PromptPositions, ps, d.workExperience[k].position);
      ContainsExtendRight(c, PromptClosing, d.workExperience[k].position);
    }
  }

  /** A new skill extends the skill list of the prompt by ", " and its name. */
  lemma PromptSkillsSnoc(skills: seq<Skill>, s: Skill)
    requires |skills| > 0
    ensures Join(Outline.SkillNames(skills + [s]), ", ") == Join(Outline.SkillNames(skills), ", ") + ", " + s.name
  {
    assert Outline.SkillNames(skills + [s]) == Outline.SkillNames(skills) + [s.name];
    JoinSnoc(Outline.SkillNames(skills), ", ", s.name);
  }

  // ------------------------------------------------ generation and toasts

  /** What the generation request comes back with: a decoded body whose
      `generated_text` is a string, or is missing or falsy (None); or a
      failure. */
  datatype Generation = Generated(generatedText: Option<string>) | GenerationFailed

  /** The aggregate with its summary blanked: everything a generation is
      not allowed to change. */
  function WithoutSummary(d: ResumeData): ResumeData
  {
    d.(personalInfo := d.personalInfo.(summary := None))
  }

  /** `generateSummary` once its request settles. `clicked` is the aggregate
      the callback captured when the button was pressed: the write-back is
      built from it, not from the aggregate current when the request settles,
      so edits made while the request was pending are overwritten. On
      success the aggregate becomes `clicked` with only the summary replaced,
      by the generated text or "" when there is none; on failure the current
      aggregate stays. Either way a notification is shown. */
  function GenerateSummary(clicked: ResumeData, s: BuilderState, g: Generation): (r: BuilderState)
    ensures r.template == s.template
    ensures g.Generated? ==>
              && WithoutSummary(r.data) == WithoutSummary(clicked)
              && r.data.personalInfo.summary == Some(g.generatedText.GetOr(""))
              && r.toast == Toast(true, "Generated summary added", SuccessToast)
    ensures g.GenerationFailed? ==>
              r.data == s.data && r.toast == Toast(true, "AI generation failed", ErrorToast)
  {
    match g
    case Generated(text) =>
      var summary := text.GetOr("");
      BuilderState(clicked.(personalInfo := clicked.personalInfo.(summary := Some(summary))),
                   s.template, Toast(true, "Generated summary added", SuccessToast))
    case GenerationFailed =>
      s.(toast := Toast(true, "AI generation failed", ErrorToast))
  }

  /** A successful generation writes the summary and nothing else: captured
      aggregates that differ only in their summary give the same result, and
      with nothing edited while pending, the result is the current state
      with just the summary and the notification replaced. */
  lemma GenerationTouchesOnlySummary(d1: ResumeData, d2: ResumeData, s: BuilderState, text: Option<string>)
    requires WithoutSummary(d1) == WithoutSummary(d2)
    ensures GenerateSummary(d1, s, Generated(text)) == GenerateSummary(d2, s, Generated(text))
    ensures GenerateSummary(s.data, s, Generated(text))
            == s.(data := s.data.(personalInfo := s.data.personalInfo.(summary := Some(text.GetOr("")))),
                  toast := Toast(true, "Generated summary added", SuccessToast))
  {
    var p1 := d1.personalInfo;
    var p2 := d2.personalInfo;
    assert d1.(personalInfo := p1.(summary := None)) == d2.(personalInfo := p2.(summary := None));
    assert p1.(summary := None) == p2.(summary := None);
    assert p1.(summary := Some(text.GetOr(""))) == p2.(summary := Some(text.GetOr("")));
  }

  /** Edits made while the request is pending are lost on success: the
      resulting aggregate does not depend on the state the request settles
      in, only on the captured one. */
  lemma PendingEditsOverwritten(clicked: ResumeData, s1: BuilderState, s2: BuilderState, text: Option<string>)
    ensures GenerateSummary(clicked, s1, Generated(text)).data == GenerateSummary(clicked, s2, Generated(text)).data
  {
  }

  /** The export callbacks' notifications. */
  function ExportSucceeded(s: BuilderState): (r: BuilderState)
    ensures r.data == s.data && r.template == s.template
    ensures r.toast == Toast(true, "Resume exported successfully!", SuccessToast)
  {
    s.(toast := Toast(true, "Resume exported successfully!", SuccessToast))
  }

  function ExportFailed(s: BuilderState, error: string): (r: BuilderState)
    ensures r.data == s.data && r.template == s.template
    ensures r.toast == Toast(true, "Export failed: " + error, ErrorToast)
  {
    s.(toast := Toast(true, "Export failed: " + error, ErrorToast))
  }
}
