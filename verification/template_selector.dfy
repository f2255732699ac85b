/** The template picker: a fixed catalogue of three templates, colour
    classes looked up by id, and selection compared by id only. */
module TemplateSelector {
  import opened Wrappers
  import opened Resume
  import Defaults

  /** The catalogue, in display order. */
  function Catalogue(): (ts: seq<Template>)
    ensures |ts| == 3
    ensures ts[0].id == "modern" && ts[1].id == "classic" && ts[2].id == "creative"
    ensures ts[0].color == "blue" && ts[1].color == "green" && ts[2].color == "purple"
  {
    [ Template("modern", "Modern", "Clean and professional design with modern typography",
               "Professional", "blue", "modern-preview"),
      Template("classic", "Classic", "Traditional resume format trusted by recruiters",
               "Traditional", "green", "classic-preview"),
      Template("creative", "Creative", "Modern design with creative elements for design roles",
               "Creative", "purple", "creative-preview") ]
  }

  /** `templates.find(t => t.id === id)`: the first template with that id. */
  function Find(ts: seq<Template>, id: string): (r: Option<Template>)
    ensures r.None? <==> forall k :: 0 <= k < |ts| ==> ts[k].id != id
    ensures r.Some? ==> exists k :: 0 <= k < |ts| && ts[k] == r.value && ts[k].id == id &&
                                     forall j :: 0 <= j < k ==> ts[j].id != id
  {
    if |ts| == 0 then None
    else if ts[0].id == id then Some(ts[0])
    else
      var r := Find(ts[1..], id);
      assert forall k :: 1 <= k < |ts| ==> ts[k] == ts[1..][k - 1];
      r
  }

  /** `template?.color` after the lookup: the colour of the card with that id. */
  function ColorOf(id: string): (r: Option<string>)
    ensures id == "modern" ==> r == Some("blue")
    ensures id == "classic" ==> r == Some("green")
    ensures id == "creative" ==> r == Some("purple")
    ensures id != "modern" && id != "classic" && id != "creative" ==> r == None
  {
    match Find(Catalogue(), id)
    case Some(t) => Some(t.color)
    case None => None
  }

  /** The preview strip's background class. */
  function GetTemplateColor(id: string): (r: string)
    ensures id == "modern" ==> r == "bg-blue-500"
    ensures id == "classic" ==> r == "bg-green-500"
    ensures id == "creative" ==> r == "bg-purple-500"
    ensures id != "modern" && id != "classic" && id != "creative" ==> r == "bg-gray-500"
  {
    match ColorOf(id)
    case Some("blue") => "bg-blue-500"
    case Some("green") => "bg-green-500"
    case Some("purple") => "bg-purple-500"
    case _ => "bg-gray-500"
  }

  /** The border and ring classes of a highlighted card. */
  function GetTemplateBorderColor(id: string): (r: string)
    ensures id == "modern" ==> r == "border-blue-500 ring-blue-100"
    ensures id == "classic" ==> r == "border-green-500 ring-green-100"
    ensures id == "creative" ==> r == "border-purple-500 ring-purple-100"
    ensures id != "modern" && id != "classic" && id != "creative" ==> r == "border-gray-500 ring-gray-100"
  {
    match ColorOf(id)
    case Some("blue") => "border-blue-500 ring-blue-100"
    case Some("green") => "border-green-500 ring-green-100"
    case Some("purple") => "border-purple-500 ring-purple-100"
    case _ => "border-gray-500 ring-gray-100"
  }

  /** The "ATS Friendly" badge: blue, green, and purple for anything else. */
  function BadgeColor(color: string): (r: string)
    ensures color == "blue" ==> r == "bg-blue-100 text-blue-800"
    ensures color == "green" ==> r == "bg-green-100 text-green-800"
    ensures color != "blue" && color != "green" ==> r == "bg-purple-100 text-purple-800"
  {
    if color == "blue" then "bg-blue-100 text-blue-800"
    else if color == "green" then "bg-green-100 text-green-800"
    else "bg-purple-100 text-purple-800"
  }

  /** A card is highlighted and checked when its id is the selected one. */
  predicate IsSelected(card: Template, selected: Template)
  {
    selected.id == card.id
  }

  /** How many cards of `ts` are highlighted. */
  function SelectedCount(ts: seq<Template>, selected: Template): (n: nat)
    ensures n <= |ts|
    ensures n == 0 <==> forall k :: 0 <= k < |ts| ==> !IsSelected(ts[k], selected)
  {
    if |ts| == 0 then 0
    else
      assert forall k :: 1 <= k < |ts| ==> ts[k] == ts[1..][k - 1];
      (if IsSelected(ts[0], selected) then 1 else 0) + SelectedCount(ts[1..], selected)
  }

  /** Ids are pairwise distinct. */
  predicate DistinctIds(ts: seq<Template>)
  {
    forall j, k :: 0 <= j < k < |ts| ==> ts[j].id != ts[k].id
  }

  /** With distinct ids, at most one card is highlighted: exactly one when the
      selected id is found, none otherwise. Only the id takes part, so an
      edited copy of a catalogue record still highlights its card. */
  lemma {:induction false} SelectedCountDistinct(ts: seq<Template>, selected: Template)
    requires DistinctIds(ts)
    ensures SelectedCount(ts, selected) == if Find(ts, selected.id).Some? then 1 else 0
    decreases |ts|
  {
    if |ts| > 0 {
      var tail := ts[1..];
      assert forall k :: 0 <= k < |tail| ==> tail[k] == ts[k + 1];
      SelectedCountDistinct(tail, selected);
      if IsSelected(ts[0], selected) {
        assert forall k :: 0 <= k < |tail| ==> !IsSelected(tail[k], selected);
      }
    }
  }

  /** Clicking card k hands over that catalogue record; afterwards card k and no
      other is highlighted, and a selected id outside the catalogue highlights
      nothing. The default template is the first card. */
  lemma ClickSelectsThatCard(k: int, selected: Template)
    requires 0 <= k < 3
    ensures forall j :: 0 <= j < 3 ==> (IsSelected(Catalogue()[j], Catalogue()[k]) <==> j == k)
    ensures SelectedCount(Catalogue(), selected) == if selected.id in {"modern", "classic", "creative"} then 1 else 0
    ensures Defaults.DefaultTemplate() == Catalogue()[0]
  {
    var ts := Catalogue();
    assert DistinctIds(ts);
    SelectedCountDistinct(ts, selected);
    assert Find(ts, selected.id).Some? <==> selected.id in {"modern", "classic", "creative"};
  }
}
