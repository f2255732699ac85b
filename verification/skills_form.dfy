/** The skills editor: the list edits, the category and level choices, the
    four-bar proficiency indicator and the years-of-experience input rule. */
module SkillsForm {
  import opened Wrappers
  import opened Resume
  import opened Defaults
  import ListEdit

  /** `addSkill`: `freshId` stands for `generateId()`. */
  function AddSkill(xs: seq<Skill>, freshId: string): (r: seq<Skill>)
    ensures |r| == |xs| + 1 && r[..|xs|] == xs
    ensures r[|xs|].id == freshId
    ensures r[|xs|].(id := "") == DefaultSkill()
  {
    ListEdit.Append(xs, DefaultSkill().(id := freshId))
  }

  /** `updateSkill`: the forms only pass the index of a rendered row. */
  function UpdateSkill(xs: seq<Skill>, i: int, s: Skill): (r: seq<Skill>)
    requires 0 <= i < |xs|
    ensures |r| == |xs| && r[i] == s
    ensures forall k :: 0 <= k < |xs| && k != i ==> r[k] == xs[k]
  {
    ListEdit.Replace(xs, i, s)
  }

  /** `removeSkill`: an index outside the list removes nothing. */
  function RemoveSkill(xs: seq<Skill>, i: int): (r: seq<Skill>)
    ensures 0 <= i < |xs| ==> r == xs[..i] + xs[i + 1..]
    ensures !(0 <= i < |xs|) ==> r == xs
  {
    ListEdit.RemoveAt(xs, i)
  }

  /** Adding a skill and removing it by index restores the list: from the
      empty list, the empty list. */
  lemma RemoveAfterAdd(xs: seq<Skill>, freshId: string)
    ensures RemoveSkill(AddSkill(xs, freshId), |xs|) == xs
    ensures RemoveSkill(AddSkill([], freshId), 0) == []
  {
    assert AddSkill(xs, freshId)[..|xs|] == xs;
  }

  /** The eight categories of the select, after its blank
      "Select a category" option (value ""). */
  const SkillCategories: seq<string> := [
    "Technical", "Programming Languages", "Frameworks", "Tools",
    "Soft Skills", "Languages", "Certifications", "Other"]

  /** The values the category select can produce. */
  predicate SelectableCategory(c: string)
  {
    c == "" || c in SkillCategories
  }

  /** Eight distinct categories; the factory default and the grouping
      fallback are among them, the blank choice is not. */
  lemma CategoryFacts()
    ensures |SkillCategories| == 8
    ensures forall a, b :: 0 <= a < b < |SkillCategories| ==> SkillCategories[a] != SkillCategories[b]
    ensures DefaultSkill().category in SkillCategories && "Other" in SkillCategories
    ensures "" !in SkillCategories && SelectableCategory("")
  {
  }

  /** The `proficiencyLevels` options, in display order. */
  const ProficiencyLevels: seq<string> := ["Beginner", "Intermediate", "Advanced", "Expert"]

  /** The position of a level in the increasing order. */
  function Rank(l: Level): (r: nat)
    ensures r < 4 && ProficiencyLevels[r] == LevelName(l)
  {
    match l
    case Beginner => 0
    case Intermediate => 1
    case Advanced => 2
    case Expert => 3
  }

  /** Beginner < Intermediate < Advanced < Expert. */
  predicate Below(a: Level, b: Level)
  {
    Rank(a) < Rank(b)
  }

  /** The order is strict and total, and the rank identifies the level. */
  lemma LevelOrder(a: Level, b: Level, c: Level)
    ensures Below(Beginner, Intermediate) && Below(Intermediate, Advanced) && Below(Advanced, Expert)
    ensures !Below(a, a)
    ensures Below(a, b) && Below(b, c) ==> Below(a, c)
    ensures a != b ==> Below(a, b) || Below(b, a)
    ensures Rank(a) == Rank(b) ==> a == b
  {
  }

  /** `proficiencyLevels.findIndex(l => l.value === skill.level)` on the
      stored string. A `Skill` of the model always carries one of the four
      levels; the string stands for a level loaded from a snapshot without
      a shape check, which may be anything, and only such a value reaches
      the -1 result. */
  function LevelIndex(stored: string): (r: int)
    ensures -1 <= r < 4
    ensures r == -1 <==> LevelFromName(stored).None?
    ensures r >= 0 ==> LevelFromName(stored) == Some(LevelFromRank(r))
  {
    ListEdit.FindIndex(ProficiencyLevels, stored)
  }

  function LevelFromRank(r: nat): Level
    requires r < 4
  {
    if r == 0 then Beginner else if r == 1 then Intermediate else if r == 2 then Advanced else Expert
  }

  /** The four indicator bars: bar `k` is lit when the level's index is at
      least `k`. */
  function Indicator(stored: string): (bars: seq<bool>)
    ensures |bars| == 4
    ensures forall k :: 0 <= k < 4 ==> (bars[k] <==> LevelIndex(stored) >= k)
  {
    var i := LevelIndex(stored);
    [i >= 0, i >= 1, i >= 2, i >= 3]
  }

  /** The number of lit bars. */
  function LitCount(bars: seq<bool>): nat
  {
    if |bars| == 0 then 0 else LitCount(bars[..|bars| - 1]) + (if bars[|bars| - 1] then 1 else 0)
  }

  lemma LitCountFour(a: bool, b: bool, c: bool, d: bool)
    ensures LitCount([a, b, c, d]) == (if a then 1 else 0) + (if b then 1 else 0) + (if c then 1 else 0) + (if d then 1 else 0)
  {
    assert [a][..0] == [];
    assert LitCount([a]) == (if a then 1 else 0);
    assert [a, b][..1] == [a];
    assert LitCount([a, b]) == LitCount([a]) + (if b then 1 else 0);
    assert [a, b, c][..2] == [a, b];
    assert LitCount([a, b, c]) == LitCount([a, b]) + (if c then 1 else 0);
    assert [a, b, c, d][..3] == [a, b, c];
  }

  /** A level lights exactly rank + 1 bars, the lowest ones; a string outside
      the four levels lights none. */
  lemma IndicatorLightsRankPlusOne(l: Level, stored: string)
    ensures LitCount(Indicator(LevelName(l))) == Rank(l) + 1
    ensures forall k :: 0 <= k < 4 ==> (Indicator(LevelName(l))[k] <==> k <= Rank(l))
    ensures LevelFromName(stored).None? ==> LitCount(Indicator(stored)) == 0
  {
    var i := LevelIndex(LevelName(l));
    assert i == Rank(l);
    LitCountFour(i >= 0, i >= 1, i >= 2, i >= 3);
    var j := LevelIndex(stored);
    LitCountFour(j >= 0, j >= 1, j >= 2, j >= 3);
  }

  /** The years input: an empty value clears the field, any other value is
      stored as `parseFloat` reads it (`parse`). */
  function YearsFromInput(input: string, parse: string -> real): (r: Option<real>)
    ensures r.None? <==> input == ""
    ensures input != "" ==> r == Some(parse(input))
  {
    if input == "" then None else Some(parse(input))
  }
}
