/** The three copy-on-write list edits every form performs: append a fresh
    entry (`[...xs, x]`), replace the entry at an index (`copy[i] = x`), and
    filter an index out (`xs.filter((_, k) => k !== i)`). */
module ListEdit {

  /** `[...xs, x]`. */
  function Append<T>(xs: seq<T>, x: T): (r: seq<T>)
    ensures |r| == |xs| + 1
    ensures r[..|xs|] == xs && r[|xs|] == x
  {
    xs + [x]
  }

  /** `const copy = [...xs]; copy[i] = x`: only index `i` changes. */
  function Replace<T>(xs: seq<T>, i: int, x: T): (r: seq<T>)
    requires 0 <= i < |xs|
    ensures |r| == |xs|
    ensures r[i] == x
    ensures forall k :: 0 <= k < |xs| && k != i ==> r[k] == xs[k]
  {
    xs[i := x]
  }

  /** Drops index `i` when it is in range; any other index leaves the list as
      it was. */
  function RemoveAt<T>(xs: seq<T>, i: int): (r: seq<T>)
    ensures 0 <= i < |xs| ==> |r| == |xs| - 1
    ensures !(0 <= i < |xs|) ==> r == xs
    ensures forall k :: 0 <= k < |r| ==> r[k] == if 0 <= i <= k then xs[k + 1] else xs[k]
  {
    if 0 <= i < |xs| then xs[..i] + xs[i + 1..] else xs
  }

  /** `xs.filter((_, k) => k !== i)` read literally: keep every position
      whose index differs from `i`, in order. */
  function FilterOutIndex<T>(xs: seq<T>, i: int): seq<T>
    decreases |xs|
  {
    if |xs| == 0 then []
    else FilterOutIndex(xs[..|xs| - 1], i) + (if |xs| - 1 != i then [xs[|xs| - 1]] else [])
  }

  /** The filter and the slice-based removal agree on every index. */
  lemma {:induction false} FilterOutIndexIsRemoveAt<T>(xs: seq<T>, i: int)
    ensures FilterOutIndex(xs, i) == RemoveAt(xs, i)
    decreases |xs|
  {
    if |xs| > 0 {
      var n := |xs| - 1;
      var init := xs[..n];
      FilterOutIndexIsRemoveAt(init, i);
      if i == n {
        assert RemoveAt(xs, i) == init;
        assert RemoveAt(init, i) == init;
      } else if 0 <= i < n {
        assert RemoveAt(xs, i) == RemoveAt(init, i) + [xs[n]];
      } else {
        assert xs == init + [xs[n]];
      }
    }
  }

  /** Removing the entry just appended gives the list back. */
  lemma RemoveAfterAppend<T>(xs: seq<T>, x: T)
    ensures RemoveAt(Append(xs, x), |xs|) == xs
  {
  }

  /** Replacing an entry by itself changes nothing; replacing twice keeps the
      second value. */
  lemma ReplaceLaws<T>(xs: seq<T>, i: int, x: T, y: T)
    requires 0 <= i < |xs|
    ensures Replace(xs, i, xs[i]) == xs
    ensures Replace(Replace(xs, i, x), i, y) == Replace(xs, i, y)
  {
  }

  /** `xs.findIndex(y => y === x)`: the first position holding `x`, or -1. */
  function FindIndex<T(==)>(xs: seq<T>, x: T): (r: int)
    ensures -1 <= r < |xs|
    ensures r == -1 <==> x !in xs
    ensures r >= 0 ==> xs[r] == x && forall k :: 0 <= k < r ==> xs[k] != x
    decreases |xs|
  {
    if |xs| == 0 then -1
    else if xs[0] == x then 0
    else var r := FindIndex(xs[1..], x); if r == -1 then -1 else r + 1
  }
}
