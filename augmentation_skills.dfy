/**
 * The augmentation pass (`addAugmentationSkills`): augmentations are grouped by
 * id; a group of n copies selects tier n-1 of its first member's level list,
 * and every skill of that tier overwrites the displayed count of its entry only
 * when it is strictly greater (or creates the entry at that level).
 */
module AugmentationSkills {
  import opened SkillModel

  /** The ids of the augmentations, in order. */
  function Ids(augmentations: seq<Augmentation>): (r: seq<string>)
    ensures |r| == |augmentations| && forall i :: 0 <= i < |r| ==> r[i] == augmentations[i].id
  {
    seq(|augmentations|, i requires 0 <= i < |augmentations| => augmentations[i].id)
  }

  /** `_.groupBy(augmentations, 'id')[id]`: the augmentations with that id, in order. */
  function Group(augmentations: seq<Augmentation>, id: string): (r: seq<Augmentation>)
    ensures forall a :: a in r <==> a in augmentations && a.id == id
    ensures |r| == Occurrences(Ids(augmentations), id)
    decreases |augmentations|
  {
    if |augmentations| == 0 then []
    else
      var last := augmentations[|augmentations| - 1];
      assert augmentations == augmentations[..|augmentations| - 1] + [last];
      assert Ids(augmentations)[..|augmentations| - 1] == Ids(augmentations[..|augmentations| - 1]);
      Group(augmentations[..|augmentations| - 1], id) + (if last.id == id then [last] else [])
  }

  /** `_.groupBy` keeps input order: grouping a concatenation groups each part. */
  lemma {:induction false} GroupAppend(a: seq<Augmentation>, b: seq<Augmentation>, id: string)
    ensures Group(a + b, id) == Group(a, id) + Group(b, id)
    decreases |b|
  {
    if |b| > 0 {
      var init := b[..|b| - 1];
      var last := b[|b| - 1];
      var tail := if last.id == id then [last] else [];
      assert (a + b)[..|a + b| - 1] == a + init;
      assert Group(a + b, id) == Group(a + init, id) + tail;
      assert Group(b, id) == Group(init, id) + tail;
      GroupAppend(a, init, id);
      AppendAssociative(Group(a, id), Group(init, id), tail);
    } else {
      assert a + b == a;
    }
  }

  /** `value[0]` of a group is the first augmentation with that id. */
  lemma {:induction false} GroupFirst(augmentations: seq<Augmentation>, id: string)
    ensures |Group(augmentations, id)| > 0 ==>
              Group(augmentations, id)[0] == augmentations[FirstIndex(Ids(augmentations), id)]
    decreases |augmentations|
  {
    if |augmentations| > 0 {
      var init := augmentations[..|augmentations| - 1];
      var last := augmentations[|augmentations| - 1];
      var ids := Ids(augmentations);
      assert ids[..|ids| - 1] == Ids(init);
      var prev := Group(init, id);
      GroupFirst(init, id);
      if |prev| > 0 {
        assert id in Ids(init);
        assert FirstIndex(ids, id) == FirstIndex(Ids(init), id);
        assert Group(augmentations, id)[0] == prev[0];
      } else if last.id == id {
        assert id !in Ids(init);
        assert FirstIndex(ids, id) == |augmentations| - 1;
        assert Group(augmentations, id) == [last];
      }
    }
  }

  /** The keys of `_.groupBy`, each id once, in order of first occurrence. */
  function GroupKeys(augmentations: seq<Augmentation>): (r: seq<string>)
    ensures forall i, j :: 0 <= i < j < |r| ==> r[i] != r[j]
    ensures forall key :: key in r <==> key in Ids(augmentations)
    ensures forall key :: key in r ==> |Group(augmentations, key)| > 0
  {
    var keys := Uniq(Ids(augmentations));
    assert forall key :: key in keys ==> Occurrences(Ids(augmentations), key) > 0;
    keys
  }

  /**
   * `value[0].levels[value.length - 1]`: the tier a group selects is indexed by
   * the size of the group, in the level list of its first member; there is none
   * when the group is larger than that list.
   */
  function SelectedTier(group: seq<Augmentation>): (r: Option<AugmentationLevel>)
    ensures r.Some? <==> 0 < |group| && |group| - 1 < |group[0].levels|
    ensures r.Some? ==> r.value == group[0].levels[|group| - 1]
  {
    if |group| == 0 then None
    else if |group| - 1 < |group[0].levels| then Some(group[0].levels[|group| - 1])
    else None
  }

  /** One skill of a selected tier: create it at its level, or overwrite a smaller count. */
  function AugmentationSkillStep(t: seq<EquippedSkill>, ref: SkillRef, c: Catalog): (r: seq<EquippedSkill>)
    ensures UniqueIds(t) ==> UniqueIds(r)
    ensures WithinCaps(t) ==> WithinCaps(r)
  {
    match Find(t, ref.id)
    case None =>
      var skill := c.getSkill(ref.id);
      Upsert(t, NewEntry(ref.id, skill, skill.levelCount).(equippedCount := ref.level))
    case Some(e) =>
      if e.equippedCount < ref.level then Upsert(t, e.(equippedCount := ref.level)) else t
  }

  /**
   * Override: the entry's displayed count becomes the larger of its old count
   * and the augmentation level, never their sum, and no other field of an
   * existing entry changes; a new entry holds only the displayed count.
   */
  lemma AugmentationSkillStepEffect(t: seq<EquippedSkill>, ref: SkillRef, c: Catalog)
    ensures var r := AugmentationSkillStep(t, ref, c);
      forall id :: id != ref.id ==> Find(r, id) == Find(t, id)
    ensures var r := AugmentationSkillStep(t, ref, c);
      && Find(r, ref.id).Some?
      && CounterOf(r, ref.id, EquippedTotal) == Max(CounterOf(t, ref.id, EquippedTotal), ref.level)
      && (Find(t, ref.id).Some? ==>
            Find(r, ref.id).value == Find(t, ref.id).value.(equippedCount := Find(r, ref.id).value.equippedCount))
      && (Find(t, ref.id).None? ==>
            Find(r, ref.id).value == NewEntry(ref.id, c.getSkill(ref.id), c.getSkill(ref.id).levelCount).(equippedCount := ref.level))
  {
  }

  function AugmentationRefsPass(t: seq<EquippedSkill>, refs: seq<SkillRef>, c: Catalog): (r: seq<EquippedSkill>)
    ensures UniqueIds(t) ==> UniqueIds(r)
    ensures WithinCaps(t) ==> WithinCaps(r)
    decreases |refs|
  {
    if |refs| == 0 then t
    else AugmentationSkillStep(AugmentationRefsPass(t, refs[..|refs| - 1], c), refs[|refs| - 1], c)
  }

  /** One group: the skills of its selected tier, if it has one. */
  function GroupStep(t: seq<EquippedSkill>, augmentations: seq<Augmentation>, key: string, c: Catalog): (r: seq<EquippedSkill>)
    ensures UniqueIds(t) ==> UniqueIds(r)
    ensures WithinCaps(t) ==> WithinCaps(r)
  {
    match SelectedTier(Group(augmentations, key))
    case None => t
    case Some(level) => AugmentationRefsPass(t, level.skills, c)
  }

  function GroupsPass(t: seq<EquippedSkill>, augmentations: seq<Augmentation>, keys: seq<string>, c: Catalog)
    : (r: seq<EquippedSkill>)
    ensures UniqueIds(t) ==> UniqueIds(r)
    ensures WithinCaps(t) ==> WithinCaps(r)
    decreases |keys|
  {
    if |keys| == 0 then t
    else GroupStep(GroupsPass(t, augmentations, keys[..|keys| - 1], c), augmentations, keys[|keys| - 1], c)
  }

  function AugmentationPass(t: seq<EquippedSkill>, augmentations: seq<Augmentation>, c: Catalog): (r: seq<EquippedSkill>)
    ensures UniqueIds(t) ==> UniqueIds(r)
    ensures WithinCaps(t) ==> WithinCaps(r)
  {
    GroupsPass(t, augmentations, GroupKeys(augmentations), c)
  }

  // ---------------------------------------------------------------------------
  // The loops of addAugmentationSkills

  /** The body of the skill loop: look up, then create or overwrite if greater. */
  method AddAugmentationSkill(equippedSkills: seq<EquippedSkill>, skillRef: SkillRef, c: Catalog)
    returns (r: seq<EquippedSkill>)
    ensures r == AugmentationSkillStep(equippedSkills, skillRef, c)
  {
    r := equippedSkills;
    var found := IndexOf(r, skillRef.id);
    if found.None? {
      var skill := c.getSkill(skillRef.id);
      var equippedSkill := NewEntry(skillRef.id, skill, skill.levelCount);
      equippedSkill := equippedSkill.(equippedCount := skillRef.level);
      r := r + [equippedSkill];
    } else if r[found.value].equippedCount < skillRef.level {
      var k := found.value;
      r := r[k := r[k].(equippedCount := skillRef.level)];
    }
  }

  /** The loop over the skills of a selected tier. */
  method AddAugmentationRefs(equippedSkills: seq<EquippedSkill>, skills: seq<SkillRef>, c: Catalog)
    returns (r: seq<EquippedSkill>)
    ensures r == AugmentationRefsPass(equippedSkills, skills, c)
  {
    r := equippedSkills;
    var j := 0;
    while j < |skills|
      invariant 0 <= j <= |skills|
      invariant r == AugmentationRefsPass(equippedSkills, skills[..j], c)
    {
      assert skills[..j + 1][..j] == skills[..j];
      assert AugmentationRefsPass(equippedSkills, skills[..j + 1], c) == AugmentationSkillStep(r, skills[j], c);
      r := AddAugmentationSkill(r, skills[j], c);
      j := j + 1;
    }
    assert skills[..j] == skills;
  }

  /** The body of the group loop, for a key `_.groupBy` produced: the id of some augmentation. */
  method AddAugmentationGroup(equippedSkills: seq<EquippedSkill>, augmentations: seq<Augmentation>, key: string, c: Catalog)
    returns (r: seq<EquippedSkill>)
    requires key in Ids(augmentations)
    ensures r == GroupStep(equippedSkills, augmentations, key, c)
  {
    r := equippedSkills;
    var value := Group(augmentations, key);
    assert |value| == Occurrences(Ids(augmentations), key) > 0;
    if |value| - 1 < |value[0].levels| {
      var level := value[0].levels[|value| - 1];
      r := AddAugmentationRefs(r, level.skills, c);
    }
  }

  /** `addAugmentationSkills`: one iteration per group key. */
  method AddAugmentationSkills(augmentations: seq<Augmentation>, equippedSkills: seq<EquippedSkill>, c: Catalog)
    returns (r: seq<EquippedSkill>)
    ensures r == AugmentationPass(equippedSkills, augmentations, c)
  {
    var keys := GroupKeys(augmentations);
    r := equippedSkills;
    var i := 0;
    while i < |keys|
      invariant 0 <= i <= |keys|
      invariant r == GroupsPass(equippedSkills, augmentations, keys[..i], c)
    {
      assert keys[..i + 1][..i] == keys[..i];
      assert GroupsPass(equippedSkills, augmentations, keys[..i + 1], c) == GroupStep(r, augmentations, keys[i], c);
      assert keys[i] in Ids(augmentations);
      r := AddAugmentationGroup(r, augmentations, keys[i], c);
      i := i + 1;
    }
    assert keys[..i] == keys;
  }

  // ---------------------------------------------------------------------------
  // What the augmentation pass promises

  /** The largest level `refs` grant to `id`, 0 when none does. */
  function RefsMax(refs: seq<SkillRef>, id: string): nat
    decreases |refs|
  {
    if |refs| == 0 then 0
    else
      var ref := refs[|refs| - 1];
      Max(RefsMax(refs[..|refs| - 1], id), if ref.id == id then ref.level else 0)
  }

  /** The largest level the selected tiers of the groups `keys` grant to `id`. */
  function SelectedMax(augmentations: seq<Augmentation>, keys: seq<string>, id: string): nat
    decreases |keys|
  {
    if |keys| == 0 then 0
    else
      var tierMax := match SelectedTier(Group(augmentations, keys[|keys| - 1]))
        case None => 0
        case Some(level) => RefsMax(level.skills, id);
      Max(SelectedMax(augmentations, keys[..|keys| - 1], id), tierMax)
  }

  lemma {:induction false} AugmentationRefsPassIsMax(t: seq<EquippedSkill>, refs: seq<SkillRef>, c: Catalog, id: string)
    ensures var r := AugmentationRefsPass(t, refs, c);
      && CounterOf(r, id, EquippedTotal) == Max(CounterOf(t, id, EquippedTotal), RefsMax(refs, id))
      && (Find(t, id).Some? ==> Find(r, id).Some? && Find(r, id).value == Find(t, id).value.(equippedCount := Find(r, id).value.equippedCount))
    decreases |refs|
  {
    if |refs| > 0 {
      var ref := refs[|refs| - 1];
      var prev := AugmentationRefsPass(t, refs[..|refs| - 1], c);
      assert AugmentationRefsPass(t, refs, c) == AugmentationSkillStep(prev, ref, c);
      AugmentationRefsPassIsMax(t, refs[..|refs| - 1], c, id);
      AugmentationSkillStepEffect(prev, ref, c);
    }
  }

  /**
   * Override over the whole pass: every skill's displayed count ends as the
   * larger of its count before the pass and the largest level any selected
   * tier grants it; an existing entry keeps every other field, so its count
   * never decreases and augmentations never add to other sources.
   */
  lemma {:induction false} AugmentationPassIsMax(t: seq<EquippedSkill>, augmentations: seq<Augmentation>, keys: seq<string>,
                                                 c: Catalog, id: string)
    ensures var r := GroupsPass(t, augmentations, keys, c);
      && CounterOf(r, id, EquippedTotal) == Max(CounterOf(t, id, EquippedTotal), SelectedMax(augmentations, keys, id))
      && (Find(t, id).Some? ==> Find(r, id).Some? && Find(r, id).value == Find(t, id).value.(equippedCount := Find(r, id).value.equippedCount))
    decreases |keys|
  {
    if |keys| > 0 {
      var prev := GroupsPass(t, augmentations, keys[..|keys| - 1], c);
      AugmentationPassIsMax(t, augmentations, keys[..|keys| - 1], c, id);
      match SelectedTier(Group(augmentations, keys[|keys| - 1]))
      case None =>
      case Some(level) => AugmentationRefsPassIsMax(prev, level.skills, c, id);
    }
  }
}
