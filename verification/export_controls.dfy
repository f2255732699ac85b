/** The export handler of the preview panel, as the sequence of observable
    effects one click produces: state changes, the export itself, the two
    callbacks and the follow-up save to the backend. The export and the save
    are external; their outcome is a parameter. */
module ExportControls {
  import opened Wrappers
  import opened Resume

  datatype Format = Pdf | Docx | Html

  /** The file extension of a format. */
  function Extension(f: Format): (r: string)
    ensures r in {"pdf", "docx", "html"}
  {
    match f
    case Pdf => "pdf"
    case Docx => "docx"
    case Html => "html"
  }

  /** The download name: the first name, "_Resume.", the extension. */
  function ExportFilename(firstName: string, f: Format): string
  {
    firstName + "_Resume." + Extension(f)
  }

  predicate EndsWith(s: string, suffix: string)
  {
    |suffix| <= |s| && s[|s| - |suffix|..] == suffix
  }

  /** Reads a download name back into the first name and the format. */
  function ParseFilename(name: string): (r: Option<(string, Format)>)
    ensures r.Some? ==> ExportFilename(r.value.0, r.value.1) == name
  {
    if EndsWith(name, "_Resume.pdf") then Some((name[..|name| - 11], Pdf))
    else if EndsWith(name, "_Resume.docx") then Some((name[..|name| - 12], Docx))
    else if EndsWith(name, "_Resume.html") then Some((name[..|name| - 12], Html))
    else None
  }

  /** Every download name reads back as the first name and format it came
      from, so two exports share a name only if both agree. */
  lemma FilenameRoundTrip(firstName: string, f: Format)
    ensures ParseFilename(ExportFilename(firstName, f)) == Some((firstName, f))
  {
    var name := ExportFilename(firstName, f);
    var n := |firstName|;
    assert name[..n] == firstName;
    match f
    case Pdf =>
      assert name[n..] == "_Resume.pdf";
    case Docx =>
      assert name[n..] == "_Resume.docx";
      assert name[|name| - 1] == 'x';
    case Html =>
      assert name[n..] == "_Resume.html";
      assert name[|name| - 1] == 'l';
  }

  /** What an export or the save can throw. `JsError` is an `Error`
      instance with its message; `Thrown` is any other value, with its
      `message` property when it has a string one. */
  datatype Fault = JsError(message: string) | Thrown(messageProperty: Option<string>)

  /** `error instanceof Error ? error.message : "Export failed"`. */
  function ExportErrorText(e: Fault): (r: string)
    ensures e.JsError? ==> r == e.message
    ensures e.Thrown? ==> r == "Export failed"
  {
    match e
    case JsError(m) => m
    case Thrown(_) => "Export failed"
  }

  /** `err?.message || "Failed to save resume to backend"`: an empty or
      missing message falls back to the default text. */
  function SaveErrorText(e: Fault): (r: string)
    ensures r != ""
    ensures e.JsError? && e.message != "" ==> r == e.message
    ensures e.Thrown? && e.messageProperty.Some? && e.messageProperty.value != "" ==> r == e.messageProperty.value
    ensures !(e.JsError? && e.message != "") && !(e.Thrown? && e.messageProperty.Some? && e.messageProperty.value != "") ==>
              r == "Failed to save resume to backend"
  {
    var m := match e
      case JsError(m) => Some(m)
      case Thrown(o) => o;
    if m.Some? && m.value != "" then m.value else "Failed to save resume to backend"
  }

  /** The observable effects of a click. */
  datatype Effect =
    | SetExporting(on: bool)
    | Export(format: Format, filename: string)
    | ExportSuccess
    | ExportError(message: string)
    | SaveResume(payload: ResumeData)

  /** The save payload, assembled section by section. */
  function SavePayload(d: ResumeData): (r: ResumeData)
    ensures r == d
  {
    ResumeData(d.personalInfo, d.education, d.workExperience, d.skills, d.projects, d.certifications)
  }

  /** One click on an export button. `hasPreview` says whether the preview
      element is mounted; `exportFault` and `saveFault` are what the export
      and the save throw, if anything. */
  function HandleExport(hasPreview: bool, f: Format, d: ResumeData,
                        exportFault: Option<Fault>, saveFault: Option<Fault>): (r: seq<Effect>)
    ensures !hasPreview ==> r == []
    ensures hasPreview ==> 4 <= |r| <= 6
    ensures hasPreview ==> r[0] == SetExporting(true) && r[|r| - 1] == SetExporting(false)
    ensures hasPreview ==> r[1] == Export(f, ExportFilename(d.personalInfo.firstName, f))
  {
    if !hasPreview then []
    else
      var attempt := [SetExporting(true), Export(f, ExportFilename(d.personalInfo.firstName, f))];
      var outcome :=
        match exportFault
        case Some(e) => [ExportError(ExportErrorText(e))]
        case None =>
          [ExportSuccess, SaveResume(SavePayload(d))]
          + match saveFault
            case Some(e) => [ExportError(SaveErrorText(e))]
            case None => [];
      attempt + outcome + [SetExporting(false)]
  }

  /** The exporting flag after a sequence of effects, from `initial`. */
  function ExportingAfter(initial: bool, effects: seq<Effect>): bool
  {
    if |effects| == 0 then initial
    else if effects[|effects| - 1].SetExporting? then effects[|effects| - 1].on
    else ExportingAfter(initial, effects[..|effects| - 1])
  }

  /** The flag is raised before anything else happens and stays raised until
      the last effect, which lowers it, on every path; without a preview
      nothing happens at all. */
  lemma ExportingFlagBrackets(hasPreview: bool, f: Format, d: ResumeData,
                              exportFault: Option<Fault>, saveFault: Option<Fault>, initial: bool)
    ensures var r := HandleExport(hasPreview, f, d, exportFault, saveFault);
      && ExportingAfter(initial, r) == (if hasPreview then false else initial)
      && (forall k :: 0 < k < |r| ==> ExportingAfter(initial, r[..k]) == true)
  {
    var r := HandleExport(hasPreview, f, d, exportFault, saveFault);
    forall k | 0 < k < |r|
      ensures ExportingAfter(initial, r[..k]) == true
    {
      PrefixKeepsFlag(r, k, initial);
    }
  }

  /** Helper: in a click's effects, only the first and last set the flag. */
  lemma {:induction false} PrefixKeepsFlag(r: seq<Effect>, k: nat, initial: bool)
    requires 0 < k < |r| && r[0] == SetExporting(true)
    requires forall j :: 0 < j < |r| - 1 ==> !r[j].SetExporting?
    ensures ExportingAfter(initial, r[..k]) == true
    decreases k
  {
    if k > 1 {
      assert r[..k][..k - 1] == r[..k - 1];
      PrefixKeepsFlag(r, k - 1, initial);
    }
  }

  /** The success path and the failure path, effect by effect: success is
      reported before the save is attempted, a failed save adds one error
      report, and a failed export reports only its error and never saves. */
  lemma ExportOutcomes(f: Format, d: ResumeData, exportFault: Option<Fault>, saveFault: Option<Fault>)
    ensures var r := HandleExport(true, f, d, exportFault, saveFault);
      && (exportFault.Some? ==> |r| == 4 && r[2] == ExportError(ExportErrorText(exportFault.value)))
      && (exportFault.None? ==> r[2] == ExportSuccess && r[3] == SaveResume(d))
      && (exportFault.None? && saveFault.None? ==> |r| == 5)
      && (exportFault.None? && saveFault.Some? ==> |r| == 6 && r[4] == ExportError(SaveErrorText(saveFault.value)))
  {
  }

  /** A save is attempted iff the export succeeded, and an error is reported
      iff the export or the save failed. */
  lemma SaveIffExported(hasPreview: bool, f: Format, d: ResumeData,
                        exportFault: Option<Fault>, saveFault: Option<Fault>)
    ensures var r := HandleExport(hasPreview, f, d, exportFault, saveFault);
      && ((exists k :: 0 <= k < |r| && r[k].SaveResume?) <==> hasPreview && exportFault.None?)
      && ((exists k :: 0 <= k < |r| && r[k].ExportError?) <==> hasPreview && (exportFault.Some? || saveFault.Some?))
  {
    var r := HandleExport(hasPreview, f, d, exportFault, saveFault);
    if hasPreview {
      if exportFault.None? {
        assert r[3].SaveResume?;
        if saveFault.Some? { assert r[4].ExportError?; }
      } else {
        assert r[2].ExportError?;
      }
    }
  }
}
