/** The work-history editor: the list edits of every form plus the nested
    editing of one entry's achievement list. */
module WorkExperienceForm {
  import opened Wrappers
  import opened Resume
  import opened Defaults
  import ListEdit

  /** `addWorkExperience`: `freshId` stands for `generateId()`. */
  function AddWorkExperience(xs: seq<WorkExperience>, freshId: string): (r: seq<WorkExperience>)
    ensures |r| == |xs| + 1 && r[..|xs|] == xs
    ensures r[|xs|].id == freshId
    ensures r[|xs|].(id := "") == DefaultWorkExperience()
  {
    ListEdit.Append(xs, DefaultWorkExperience().(id := freshId))
  }

  /** `updateWorkExperience`: the forms only pass the index of a rendered row. */
  function UpdateWorkExperience(xs: seq<WorkExperience>, i: int, w: WorkExperience): (r: seq<WorkExperience>)
    requires 0 <= i < |xs|
    ensures |r| == |xs| && r[i] == w
    ensures forall k :: 0 <= k < |xs| && k != i ==> r[k] == xs[k]
  {
    ListEdit.Replace(xs, i, w)
  }

  /** `removeWorkExperience`: an index outside the list removes nothing. */
  function RemoveWorkExperience(xs: seq<WorkExperience>, i: int): (r: seq<WorkExperience>)
    ensures 0 <= i < |xs| ==> r == xs[..i] + xs[i + 1..]
    ensures !(0 <= i < |xs|) ==> r == xs
  {
    ListEdit.RemoveAt(xs, i)
  }

  /** The "I currently work here" checkbox: the end date is not cleared. */
  function SetCurrentlyWorking(w: WorkExperience, checked: bool): (r: WorkExperience)
    ensures r.currentlyWorking == checked && r.endDate == w.endDate
    ensures r.(currentlyWorking := w.currentlyWorking) == w
  {
    w.(currentlyWorking := checked)
  }

  /** `addAchievement`: entry `i` gets one more, empty, achievement. */
  function AddAchievement(xs: seq<WorkExperience>, i: int): (r: seq<WorkExperience>)
    requires 0 <= i < |xs|
    ensures |r| == |xs|
    ensures forall k :: 0 <= k < |xs| && k != i ==> r[k] == xs[k]
    ensures r[i].achievements == xs[i].achievements + [""]
    ensures r[i].(achievements := xs[i].achievements) == xs[i]
  {
    var w := xs[i];
    UpdateWorkExperience(xs, i, w.(achievements := ListEdit.Append(w.achievements, "")))
  }

  /** `updateAchievement`: exactly achievement `j` of entry `i` changes. */
  function UpdateAchievement(xs: seq<WorkExperience>, i: int, j: int, v: string): (r: seq<WorkExperience>)
    requires 0 <= i < |xs| && 0 <= j < |xs[i].achievements|
    ensures |r| == |xs|
    ensures forall k :: 0 <= k < |xs| && k != i ==> r[k] == xs[k]
    ensures |r[i].achievements| == |xs[i].achievements| && r[i].achievements[j] == v
    ensures forall k :: 0 <= k < |xs[i].achievements| && k != j ==> r[i].achievements[k] == xs[i].achievements[k]
    ensures r[i].(achievements := xs[i].achievements) == xs[i]
  {
    var w := xs[i];
    UpdateWorkExperience(xs, i, w.(achievements := ListEdit.Replace(w.achievements, j, v)))
  }

  /** `removeAchievement`: achievement `j` of entry `i` is filtered out and
      the others keep their order. */
  function RemoveAchievement(xs: seq<WorkExperience>, i: int, j: int): (r: seq<WorkExperience>)
    requires 0 <= i < |xs|
    ensures |r| == |xs|
    ensures forall k :: 0 <= k < |xs| && k != i ==> r[k] == xs[k]
    ensures 0 <= j < |xs[i].achievements| ==>
              r[i].achievements == xs[i].achievements[..j] + xs[i].achievements[j + 1..]
    ensures !(0 <= j < |xs[i].achievements|) ==> r == xs
    ensures r[i].(achievements := xs[i].achievements) == xs[i]
  {
    var w := xs[i];
    UpdateWorkExperience(xs, i, w.(achievements := ListEdit.RemoveAt(w.achievements, j)))
  }

  /** Removing the row just added gives the list back. */
  lemma RemoveAfterAdd(xs: seq<WorkExperience>, freshId: string)
    ensures RemoveWorkExperience(AddWorkExperience(xs, freshId), |xs|) == xs
  {
    assert AddWorkExperience(xs, freshId)[..|xs|] == xs;
  }

  /** Removing the achievement just added gives the entries back. */
  lemma RemoveAchievementAfterAdd(xs: seq<WorkExperience>, i: int)
    requires 0 <= i < |xs|
    ensures RemoveAchievement(AddAchievement(xs, i), i, |xs[i].achievements|) == xs
  {
    var added := AddAchievement(xs, i);
    var a := xs[i].achievements;
    assert added[i].achievements == a + [""];
    assert ListEdit.RemoveAt(a + [""], |a|) == a;
    assert added[i].(achievements := ListEdit.RemoveAt(added[i].achievements, |a|)) == xs[i];
    var r := RemoveAchievement(added, i, |a|);
    assert r[i] == xs[i];
    assert r == xs;
  }
}
