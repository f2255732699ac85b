/** The preview panel: picks the renderer by template id and holds the
    exporting flag shared with the export controls. */
module PreviewPanel {
  import opened Resume
  import Outline
  import Defaults
  import ModernTemplate
  import ClassicTemplate
  import CreativeTemplate

  /** The three renderers. */
  datatype Renderer = Modern | Classic | Creative

  /** The switch on `template.id`; any id it does not know renders Modern. */
  function Dispatch(id: string): (r: Renderer)
    ensures r == Classic <==> id == "classic"
    ensures r == Creative <==> id == "creative"
    ensures r == Modern <==> id != "classic" && id != "creative"
  {
    if id == "modern" then Modern
    else if id == "classic" then Classic
    else if id == "creative" then Creative
    else Modern
  }

  /** The outline shown for `d` under template `t`; `d` is passed through unchanged. */
  function RenderTemplate(d: ResumeData, t: Template, fmt: string -> string): (o: seq<Outline.Section>)
    ensures Dispatch(t.id) == Modern ==> o == ModernTemplate.Render(d, fmt)
    ensures Dispatch(t.id) == Classic ==> o == ClassicTemplate.Render(d)
    ensures Dispatch(t.id) == Creative ==> o == CreativeTemplate.Render(d, fmt)
  {
    match Dispatch(t.id)
    case Modern => ModernTemplate.Render(d, fmt)
    case Classic => ClassicTemplate.Render(d)
    case Creative => CreativeTemplate.Render(d, fmt)
  }

  /** Only the id of the template takes part, and an unknown id renders exactly
      what the default template renders. */
  lemma OnlyIdMatters(d: ResumeData, t1: Template, t2: Template, fmt: string -> string)
    ensures t1.id == t2.id ==> RenderTemplate(d, t1, fmt) == RenderTemplate(d, t2, fmt)
    ensures t1.id != "modern" && t1.id != "classic" && t1.id != "creative" ==>
              RenderTemplate(d, t1, fmt) == RenderTemplate(d, Defaults.DefaultTemplate(), fmt)
  {
  }

  /** The panel's own state: whether an export is running. */
  datatype PanelState = PanelState(isExporting: bool)

  /** The panel mounts with no export running. */
  function InitialPanel(): (s: PanelState)
    ensures !s.isExporting
  {
    PanelState(false)
  }
}
