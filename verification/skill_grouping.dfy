/** The skill grouping the Modern and Creative templates share:
    `skills.reduce((acc, s) => { const cat = s.category || "Other"; ... }, {})`
    followed by `Object.entries`. A JavaScript object lists integer-like keys
    (array indices) first, in ascending numeric order, then its other keys in
    insertion order; the grouping inherits that order. */
module SkillGrouping {
  import opened Resume
  import opened Strings

  /** One entry of the grouped object: a category and its skills. */
  datatype Group = Group(category: string, skills: seq<Skill>)

  /** The bucket of a skill: a blank category falls back to "Other". */
  function CategoryKey(s: Skill): (k: string)
    ensures k != ""
    ensures s.category != "" ==> k == s.category
  {
    if s.category == "" then "Other" else s.category
  }

  // ---------------------------------------------------------------------------
  // The reduce, as written
  // ---------------------------------------------------------------------------

  /** `acc[cat]`: the position of the group for `key`, or -1 when absent. */
  function KeyIndex(acc: seq<Group>, key: string): (r: int)
    ensures -1 <= r < |acc|
    ensures r >= 0 ==> acc[r].category == key
    ensures r == -1 ==> forall i :: 0 <= i < |acc| ==> acc[i].category != key
    decreases |acc|
  {
    if |acc| == 0 then -1
    else if acc[|acc| - 1].category == key then |acc| - 1
    else KeyIndex(acc[..|acc| - 1], key)
  }

  /** One step of the reduce: create the group if missing, then push. */
  function Push(acc: seq<Group>, s: Skill): seq<Group>
  {
    var key := CategoryKey(s);
    var k := KeyIndex(acc, key);
    if k == -1 then acc + [Group(key, [s])]
    else acc[k := Group(key, acc[k].skills + [s])]
  }

  /** The reduce over the skills, left to right; groups in creation order. */
  function Accumulate(skills: seq<Skill>): seq<Group>
    decreases |skills|
  {
    if |skills| == 0 then []
    else Push(Accumulate(skills[..|skills| - 1]), skills[|skills| - 1])
  }

  // ---------------------------------------------------------------------------
  // The reference description of the groups
  // ---------------------------------------------------------------------------

  /** The distinct category keys in order of first occurrence. */
  function FirstKeys(skills: seq<Skill>): seq<string>
    decreases |skills|
  {
    if |skills| == 0 then []
    else
      var ks := FirstKeys(skills[..|skills| - 1]);
      var key := CategoryKey(skills[|skills| - 1]);
      if key in ks then ks else ks + [key]
  }

  /** The skills of one bucket, in input order. */
  function Members(skills: seq<Skill>, key: string): seq<Skill>
    decreases |skills|
  {
    if |skills| == 0 then []
    else Members(skills[..|skills| - 1], key)
         + (if CategoryKey(skills[|skills| - 1]) == key then [skills[|skills| - 1]] else [])
  }

  predicate DistinctKeys(gs: seq<Group>)
  {
    forall i, j :: 0 <= i < j < |gs| ==> gs[i].category != gs[j].category
  }

  /** Every group holds exactly the members of its bucket. */
  predicate Faithful(skills: seq<Skill>, gs: seq<Group>)
  {
    forall i :: 0 <= i < |gs| ==> gs[i].skills == Members(skills, gs[i].category)
  }

  lemma {:induction false} FirstKeysSpec(skills: seq<Skill>)
    ensures forall i, j :: 0 <= i < j < |FirstKeys(skills)| ==> FirstKeys(skills)[i] != FirstKeys(skills)[j]
    ensures forall key :: key in FirstKeys(skills) <==> exists s :: s in skills && CategoryKey(s) == key
    ensures forall key :: key !in FirstKeys(skills) ==> Members(skills, key) == []
    decreases |skills|
  {
    if |skills| > 0 {
      var init := skills[..|skills| - 1];
      var last := skills[|skills| - 1];
      FirstKeysSpec(init);
      assert skills == init + [last];
      forall key ensures key in FirstKeys(skills) <==> exists s :: s in skills && CategoryKey(s) == key {
        if key in FirstKeys(skills) && key != CategoryKey(last) {
          var s :| s in init && CategoryKey(s) == key;
          assert s in skills;
        }
        if exists s :: s in skills && CategoryKey(s) == key {
          var s :| s in skills && CategoryKey(s) == key;
          if s != last {
            assert s in init;
          }
        }
      }
    }
  }

  /** The reduce builds one group per key, in first-occurrence order, each
      holding its bucket's skills in input order. */
  lemma {:induction false} AccumulateSpec(skills: seq<Skill>)
    ensures |Accumulate(skills)| == |FirstKeys(skills)|
    ensures forall i :: 0 <= i < |Accumulate(skills)| ==>
              Accumulate(skills)[i] == Group(FirstKeys(skills)[i], Members(skills, FirstKeys(skills)[i]))
    decreases |skills|
  {
    if |skills| > 0 {
      var init := skills[..|skills| - 1];
      var last := skills[|skills| - 1];
      var key := CategoryKey(last);
      AccumulateSpec(init);
      FirstKeysSpec(init);
      var acc := Accumulate(init);
      var ks := FirstKeys(init);
      var k := KeyIndex(acc, key);
      if k == -1 {
        assert key !in ks by {
          forall i | 0 <= i < |ks| ensures ks[i] != key {
            assert acc[i].category == ks[i];
          }
        }
        assert Members(init, key) == [];
      } else {
        assert ks[k] == key;
      }
    }
  }

  // ---------------------------------------------------------------------------
  // Object.entries order
  // ---------------------------------------------------------------------------

  /** An array index: a canonical decimal numeral below 2^32 - 1. */
  predicate IsArrayIndex(key: string)
  {
    && |key| > 0
    && (forall k :: 0 <= k < |key| ==> IsDigit(key[k]))
    && (key == "0" || key[0] != '0')
    && DecimalValue(key) < 0xFFFF_FFFF
  }

  /** The numeric value an array-index key sorts by. */
  function IndexValue(key: string): nat
  {
    if IsArrayIndex(key) then DecimalValue(key) else 0
  }

  /** The groups whose key is (or is not) an array index, in order. */
  function Keep(gs: seq<Group>, indexKeys: bool): (r: seq<Group>)
    ensures |r| <= |gs|
    ensures forall g :: g in r <==> g in gs && IsArrayIndex(g.category) == indexKeys
    decreases |gs|
  {
    if |gs| == 0 then []
    else
      var rest := Keep(gs[..|gs| - 1], indexKeys);
      var g := gs[|gs| - 1];
      assert forall h :: h in gs[..|gs| - 1] ==> h in gs;
      if IsArrayIndex(g.category) == indexKeys then rest + [g] else rest
  }

  /** Distinct keys of a list with one more group at the end. */
  lemma DistinctSnoc(init: seq<Group>, g: Group)
    ensures DistinctKeys(init + [g]) <==> DistinctKeys(init) && forall h :: h in init ==> h.category != g.category
  {
    var r := init + [g];
    assert forall i :: 0 <= i < |init| ==> r[i] == init[i];
    if DistinctKeys(r) {
      forall h | h in init ensures h.category != g.category {
        var k :| 0 <= k < |init| && init[k] == h;
        assert r[k].category != r[|init|].category;
      }
    }
  }

  /** Keeping a sublist keeps the keys distinct. */
  lemma {:induction false} KeepDistinct(gs: seq<Group>, indexKeys: bool)
    requires DistinctKeys(gs)
    ensures DistinctKeys(Keep(gs, indexKeys))
    decreases |gs|
  {
    if |gs| > 0 {
      var init := gs[..|gs| - 1];
      var g := gs[|gs| - 1];
      assert gs == init + [g];
      DistinctSnoc(init, g);
      KeepDistinct(init, indexKeys);
      DistinctSnoc(Keep(init, indexKeys), g);
    }
  }

  /** The numeric key an entry is ordered by. */
  function SortKey(g: Group): nat
  {
    IndexValue(g.category)
  }

  /** `gs` is in ascending order of `key`. */
  predicate SortedBy(gs: seq<Group>, key: Group -> nat)
  {
    forall i, j :: 0 <= i < j < |gs| ==> key(gs[i]) <= key(gs[j])
  }

  predicate SortedByIndex(gs: seq<Group>)
  {
    SortedBy(gs, SortKey)
  }

  /** A group no larger than every member of a sorted list can go in front. */
  lemma SortedCons(x: Group, rest: seq<Group>, key: Group -> nat)
    requires SortedBy(rest, key)
    requires forall h :: h in rest ==> key(x) <= key(h)
    ensures SortedBy([x] + rest, key)
  {
    var r := [x] + rest;
    forall i, j | 0 <= i < j < |r|
      ensures key(r[i]) <= key(r[j])
    {
      assert r[j] == rest[j - 1];
      if i == 0 {
        assert r[j] in rest;
      } else {
        assert r[i] == rest[i - 1];
      }
    }
  }

  /** The head of a sorted list is no larger than anything in it. */
  lemma SortedHead(sorted: seq<Group>, key: Group -> nat)
    requires SortedBy(sorted, key) && |sorted| > 0
    ensures forall h :: h in sorted ==> key(sorted[0]) <= key(h)
  {
    forall h | h in sorted
      ensures key(sorted[0]) <= key(h)
    {
      var k :| 0 <= k < |sorted| && sorted[k] == h;
      if k > 0 {
        assert key(sorted[0]) <= key(sorted[k]);
      }
    }
  }

  /** Inserts one group into a list sorted by `key`, before the first entry
      whose key is not smaller. */
  function Insert(g: Group, sorted: seq<Group>, key: Group -> nat): (r: seq<Group>)
    requires SortedBy(sorted, key)
    ensures |r| == |sorted| + 1
    ensures forall h :: h in r <==> h == g || h in sorted
    ensures SortedBy(r, key)
    decreases |sorted|
  {
    if |sorted| == 0 then [g]
    else
      SortedHead(sorted, key);
      if key(g) <= key(sorted[0]) then
        SortedCons(g, sorted, key);
        [g] + sorted
      else
        assert sorted == [sorted[0]] + sorted[1..];
        var rest := Insert(g, sorted[1..], key);
        SortedCons(sorted[0], rest, key);
        [sorted[0]] + rest
  }

  /** Distinct keys of a list with one more group in front. */
  lemma DistinctCons(g: Group, rest: seq<Group>)
    ensures DistinctKeys([g] + rest) <==> DistinctKeys(rest) && forall h :: h in rest ==> h.category != g.category
  {
    var r := [g] + rest;
    assert forall i :: 1 <= i < |r| ==> r[i] == rest[i - 1];
    if DistinctKeys(rest) && forall h :: h in rest ==> h.category != g.category {
      forall i, j | 0 <= i < j < |r| ensures r[i].category != r[j].category {
        if i == 0 { assert r[j] in rest; }
      }
    }
    if DistinctKeys(r) {
      forall h | h in rest ensures h.category != g.category {
        var k :| 0 <= k < |rest| && rest[k] == h;
        assert r[0] == g && r[k + 1] == h;
        assert r[0].category != r[k + 1].category;
      }
      forall i, j | 0 <= i < j < |rest| ensures rest[i].category != rest[j].category {
        assert r[i + 1].category != r[j + 1].category;
      }
    }
  }

  lemma {:induction false} InsertDistinct(g: Group, sorted: seq<Group>, key: Group -> nat)
    requires SortedBy(sorted, key) && DistinctKeys(sorted)
    requires forall h :: h in sorted ==> h.category != g.category
    ensures DistinctKeys(Insert(g, sorted, key))
    decreases |sorted|
  {
    if |sorted| > 0 && key(g) > key(sorted[0]) {
      var tail := sorted[1..];
      assert sorted == [sorted[0]] + tail;
      DistinctCons(sorted[0], tail);
      assert forall h :: h in tail ==> h in sorted;
      InsertDistinct(g, tail, key);
      var rest := Insert(g, tail, key);
      DistinctCons(sorted[0], rest);
    } else if |sorted| > 0 {
      DistinctCons(g, sorted);
    }
  }

  /** Insertion sort of the array-index groups by numeric key. */
  function SortByIndex(gs: seq<Group>): (r: seq<Group>)
    ensures |r| == |gs|
    ensures SortedByIndex(r)
    ensures forall h :: h in r <==> h in gs
    decreases |gs|
  {
    if |gs| == 0 then []
    else
      var init := gs[..|gs| - 1];
      assert forall h :: h in init ==> h in gs;
      assert gs == init + [gs[|gs| - 1]];
      Insert(gs[|gs| - 1], SortByIndex(init), SortKey)
  }

  lemma {:induction false} SortByIndexDistinct(gs: seq<Group>)
    requires DistinctKeys(gs)
    ensures DistinctKeys(SortByIndex(gs))
    decreases |gs|
  {
    if |gs| > 0 {
      var init := gs[..|gs| - 1];
      var last := gs[|gs| - 1];
      SortByIndexDistinct(init);
      forall h | h in SortByIndex(init) ensures h.category != last.category {
        var k :| 0 <= k < |init| && init[k] == h;
        assert gs[k] == h;
      }
      InsertDistinct(last, SortByIndex(init), SortKey);
    }
  }

  /** `Object.entries` of an object whose keys were created in `gs` order. */
  function Entries(gs: seq<Group>): seq<Group>
  {
    SortByIndex(Keep(gs, true)) + Keep(gs, false)
  }

  /** The grouping both templates render. */
  function GroupSkills(skills: seq<Skill>): seq<Group>
  {
    Entries(Accumulate(skills))
  }

  lemma AccumulateDistinct(skills: seq<Skill>)
    ensures DistinctKeys(Accumulate(skills))
    ensures Faithful(skills, Accumulate(skills))
    ensures forall g: Group :: g in Accumulate(skills) <==> g.category in FirstKeys(skills) && g.skills == Members(skills, g.category)
  {
    AccumulateSpec(skills);
    FirstKeysSpec(skills);
    var acc := Accumulate(skills);
    forall g: Group | g.category in FirstKeys(skills) && g.skills == Members(skills, g.category)
      ensures g in acc
    {
      var i :| 0 <= i < |FirstKeys(skills)| && FirstKeys(skills)[i] == g.category;
      assert acc[i] == g;
    }
  }

  /** Some skill falls in bucket `key`. */
  predicate Occurs(skills: seq<Skill>, key: string)
  {
    exists s :: s in skills && CategoryKey(s) == key
  }

  /** Some group carries key `key`. */
  predicate HasGroup(gs: seq<Group>, key: string)
  {
    exists g :: g in gs && g.category == key
  }

  /** Every skill lands in exactly one group: the groups have distinct keys,
      one per bucket that occurs, and each holds exactly its bucket's skills
      in input order. */
  lemma GroupSkillsPartition(skills: seq<Skill>)
    ensures DistinctKeys(GroupSkills(skills))
    ensures Faithful(skills, GroupSkills(skills))
    ensures forall key :: HasGroup(GroupSkills(skills), key) <==> Occurs(skills, key)
  {
    var acc := Accumulate(skills);
    AccumulateDistinct(skills);
    FirstKeysSpec(skills);
    var front := SortByIndex(Keep(acc, true));
    var back := Keep(acc, false);
    var gs := GroupSkills(skills);
    assert gs == front + back;
    KeepDistinct(acc, true);
    KeepDistinct(acc, false);
    SortByIndexDistinct(Keep(acc, true));
    forall i, j | 0 <= i < j < |gs| ensures gs[i].category != gs[j].category {
      if j < |front| {
      } else if i >= |front| {
        assert gs[i] == back[i - |front|] && gs[j] == back[j - |front|];
      } else {
        assert gs[i] in front && gs[j] == back[j - |front|];
        assert gs[j] in back;
      }
    }
    forall i | 0 <= i < |gs| ensures gs[i].skills == Members(skills, gs[i].category) {
      assert gs[i] in front || gs[i] in back;
      assert gs[i] in acc;
    }
    forall key ensures HasGroup(gs, key) <==> Occurs(skills, key) {
      if Occurs(skills, key) {
        var g := Group(key, Members(skills, key));
        assert g in acc;
        if IsArrayIndex(key) { assert g in front; } else { assert g in back; }
        assert g in gs;
      }
      if HasGroup(gs, key) {
        var g :| g in gs && g.category == key;
        assert g in front || g in back;
        assert g in acc;
      }
    }
  }

  /** Array-index keys come first, in ascending numeric order; the other keys
      follow in order of first occurrence. */
  lemma GroupSkillsOrder(skills: seq<Skill>)
    ensures var gs := GroupSkills(skills);
      exists n :: 0 <= n <= |gs|
        && (forall i :: 0 <= i < n ==> IsArrayIndex(gs[i].category))
        && SortedByIndex(gs[..n])
        && gs[n..] == Keep(Accumulate(skills), false)
  {
    var acc := Accumulate(skills);
    var front := SortByIndex(Keep(acc, true));
    var gs := GroupSkills(skills);
    assert gs[..|front|] == front && gs[|front|..] == Keep(acc, false);
    forall i | 0 <= i < |front| ensures IsArrayIndex(gs[i].category) {
      assert gs[i] in front;
    }
  }

  /** Without integer-like categories the groups follow first occurrence. */
  lemma GroupSkillsFirstOccurrence(skills: seq<Skill>)
    requires forall s :: s in skills ==> !IsArrayIndex(CategoryKey(s))
    ensures GroupSkills(skills) == Accumulate(skills)
    ensures |GroupSkills(skills)| == |FirstKeys(skills)|
    ensures forall i :: 0 <= i < |GroupSkills(skills)| ==> GroupSkills(skills)[i].category == FirstKeys(skills)[i]
  {
    var acc := Accumulate(skills);
    NoIndexKeys(skills);
    KeepAll(acc);
    assert SortByIndex(Keep(acc, true)) == [];
    assert GroupSkills(skills) == acc;
    AccumulateSpec(skills);
  }

  lemma NoIndexKeys(skills: seq<Skill>)
    requires forall s :: s in skills ==> !IsArrayIndex(CategoryKey(s))
    ensures forall g :: g in Accumulate(skills) ==> !IsArrayIndex(g.category)
  {
    var acc := Accumulate(skills);
    AccumulateSpec(skills);
    FirstKeysSpec(skills);
    forall g | g in acc ensures !IsArrayIndex(g.category) {
      var i :| 0 <= i < |acc| && acc[i] == g;
      var key := FirstKeys(skills)[i];
      assert key in FirstKeys(skills);
      var s :| s in skills && CategoryKey(s) == key;
      assert g.category == key;
    }
  }

  lemma {:induction false} KeepAll(gs: seq<Group>)
    requires forall g :: g in gs ==> !IsArrayIndex(g.category)
    ensures Keep(gs, false) == gs
    ensures Keep(gs, true) == []
    decreases |gs|
  {
    if |gs| > 0 {
      var init := gs[..|gs| - 1];
      var g := gs[|gs| - 1];
      assert forall h :: h in init ==> h in gs;
      assert g in gs;
      KeepAll(init);
      assert Keep(gs, false) == Keep(init, false) + [g];
      assert init + [g] == gs;
    }
  }
}
