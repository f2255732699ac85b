/** The education list editor: append a blank row with a fresh id, replace a
    row, remove a row, and the in-progress checkbox. */
module EducationForm {
  import opened Wrappers
  import opened Resume
  import opened Defaults
  import ListEdit

  /** `addEducation`: `freshId` stands for `generateId()`. */
  function AddEducation(xs: seq<Education>, freshId: string): (r: seq<Education>)
    ensures |r| == |xs| + 1 && r[..|xs|] == xs
    ensures r[|xs|].id == freshId
    ensures r[|xs|].(id := "") == DefaultEducation()
  {
    ListEdit.Append(xs, DefaultEducation().(id := freshId))
  }

  /** `updateEducation`: the forms only pass the index of a rendered row. */
  function UpdateEducation(xs: seq<Education>, i: int, e: Education): (r: seq<Education>)
    requires 0 <= i < |xs|
    ensures |r| == |xs| && r[i] == e
    ensures forall k :: 0 <= k < |xs| && k != i ==> r[k] == xs[k]
  {
    ListEdit.Replace(xs, i, e)
  }

  /** `removeEducation`: the rows other than `i`, in order. */
  function RemoveEducation(xs: seq<Education>, i: int): (r: seq<Education>)
    ensures 0 <= i < |xs| ==> r == xs[..i] + xs[i + 1..]
    ensures !(0 <= i < |xs|) ==> r == xs
  {
    ListEdit.RemoveAt(xs, i)
  }

  /** The "Currently studying here" checkbox: only the flag changes, the
      stored end date is kept. */
  function SetCurrentlyStudying(e: Education, checked: bool): (r: Education)
    ensures r.currentlyStudying == checked && r.endDate == e.endDate
    ensures r.(currentlyStudying := e.currentlyStudying) == e
  {
    e.(currentlyStudying := checked)
  }

  /** Removing the row just added gives the list back. */
  lemma RemoveAfterAdd(xs: seq<Education>, freshId: string)
    ensures RemoveEducation(AddEducation(xs, freshId), |xs|) == xs
  {
    assert AddEducation(xs, freshId)[..|xs|] == xs;
  }
}
