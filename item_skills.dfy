/**
 * The item pass (`addItemSkills`): every non-zero skill level of every equipped
 * item, multiplied by the item's equipped level, is added to both the armor count
 * and the displayed count of that skill's entry, and to the slot counter of the
 * item's type.
 */
module ItemSkills {
  import opened SkillModel

  /** `equippedLevel || 1`: the stack multiplier, 1 when absent. */
  function Multiplier(item: Item): nat {
    if item.equippedLevel != 0 then item.equippedLevel else 1
  }

  /** The levels one skill reference of an item contributes. */
  function Contribution(item: Item, ref: SkillRef): nat {
    ref.level * Multiplier(item)
  }

  /** An entry with one item skill contribution `n` summed in. */
  function ItemEntry(e: EquippedSkill, itemType: ItemType, n: nat): (r: EquippedSkill)
    ensures SameIdentity(r, e)
    ensures forall k :: CounterValue(r, k) == CounterValue(e, k) + (if k == EquippedTotal || k == ArmorCount then n else 0)
    ensures forall s :: SlotCount(r, s) == SlotCount(e, s) + (if SlotOf(itemType) == Some(s) then n else 0)
  {
    var e1 := e.(equippedArmorCount := e.equippedArmorCount + n, equippedCount := e.equippedCount + n);
    assert forall s :: SlotCount(e1, s) == SlotCount(e, s);
    CountSkillItemPart(e1, n, itemType)
  }

  /** One skill reference of one item, merged into the table by summing. */
  function ItemSkillStep(t: seq<EquippedSkill>, item: Item, ref: SkillRef, c: Catalog): (r: seq<EquippedSkill>)
    ensures ref.level == 0 ==> r == t
    ensures forall id :: id != ref.id ==> Find(r, id) == Find(t, id)
    ensures UniqueIds(t) ==> UniqueIds(r)
    ensures AllBalanced(t) ==> AllBalanced(r)
    ensures CapsWithinLevels(c) && WithinCaps(t) ==> WithinCaps(r)
  {
    if ref.level == 0 then t
    else Upsert(t, ItemEntry(EntryOr(t, ref.id, FreshEntry(ref.id, c)), item.itemType, Contribution(item, ref)))
  }

  /**
   * What one item skill level does to its entry: the entry exists afterwards
   * with the identity of the old or fresh entry (a fresh entry's cap is
   * `maxLevel || levels.length`); its displayed and armor counts and the slot
   * counter of the item's type grow by the contribution, and no other counter changes.
   */
  lemma ItemSkillStepEffect(t: seq<EquippedSkill>, item: Item, ref: SkillRef, c: Catalog)
    requires ref.level != 0
    ensures var r := ItemSkillStep(t, item, ref, c);
      && Find(r, ref.id).Some?
      && SameIdentity(Find(r, ref.id).value, EntryOr(t, ref.id, FreshEntry(ref.id, c)))
      && (forall k :: CounterOf(r, ref.id, k) == CounterOf(t, ref.id, k)
                        + (if k == EquippedTotal || k == ArmorCount then Contribution(item, ref) else 0))
      && (forall s :: SlotCountOf(r, ref.id, s) == SlotCountOf(t, ref.id, s)
                        + (if SlotOf(item.itemType) == Some(s) then Contribution(item, ref) else 0))
  {
  }

  /** The inner loop: the skill references `refs` of `item`, in order. */
  function ItemRefsPass(t: seq<EquippedSkill>, item: Item, refs: seq<SkillRef>, c: Catalog): (r: seq<EquippedSkill>)
    ensures UniqueIds(t) ==> UniqueIds(r)
    ensures AllBalanced(t) ==> AllBalanced(r)
    ensures CapsWithinLevels(c) && WithinCaps(t) ==> WithinCaps(r)
    decreases |refs|
  {
    if |refs| == 0 then t
    else ItemSkillStep(ItemRefsPass(t, item, refs[..|refs| - 1], c), item, refs[|refs| - 1], c)
  }

  /** The whole item pass over `items`, in order. */
  function ItemPass(t: seq<EquippedSkill>, items: seq<Item>, c: Catalog): (r: seq<EquippedSkill>)
    ensures UniqueIds(t) ==> UniqueIds(r)
    ensures AllBalanced(t) ==> AllBalanced(r)
    ensures CapsWithinLevels(c) && WithinCaps(t) ==> WithinCaps(r)
    decreases |items|
  {
    if |items| == 0 then t
    else
      var item := items[|items| - 1];
      ItemRefsPass(ItemPass(t, items[..|items| - 1], c), item, item.skills, c)
  }

  /** The body of the inner loop of `addItemSkills`: look the skill up, then create or add. */
  method AddItemSkill(equippedSkills: seq<EquippedSkill>, item: Item, itemSkill: SkillRef, c: Catalog)
    returns (r: seq<EquippedSkill>)
    ensures r == ItemSkillStep(equippedSkills, item, itemSkill, c)
  {
    r := equippedSkills;
    if itemSkill.level == 0 {
      return;
    }
    var equippedCount := itemSkill.level * Multiplier(item);
    var found := IndexOf(r, itemSkill.id);
    if found.None? {
      var skill := c.getSkill(itemSkill.id);
      var equippedSkill := NewEntry(itemSkill.id, skill, NominalLevels(skill));
      equippedSkill := equippedSkill.(equippedArmorCount := equippedCount, equippedCount := equippedCount);
      equippedSkill := CountSkillItemPart(equippedSkill, equippedCount, item.itemType);
      assert equippedSkill == ItemEntry(FreshEntry(itemSkill.id, c), item.itemType, equippedCount);
      r := r + [equippedSkill];
    } else {
      var k := found.value;
      var equippedSkill := r[k];
      equippedSkill := equippedSkill.(equippedArmorCount := equippedSkill.equippedArmorCount + equippedCount);
      equippedSkill := equippedSkill.(equippedCount := equippedSkill.equippedCount + equippedCount);
      equippedSkill := CountSkillItemPart(equippedSkill, equippedCount, item.itemType);
      assert equippedSkill == ItemEntry(r[k], item.itemType, equippedCount);
      r := r[k := equippedSkill];
    }
  }

  /** The inner loop of `addItemSkills`, over the skill references of one item. */
  method AddItemRefs(equippedSkills: seq<EquippedSkill>, item: Item, c: Catalog) returns (r: seq<EquippedSkill>)
    ensures r == ItemRefsPass(equippedSkills, item, item.skills, c)
  {
    r := equippedSkills;
    var j := 0;
    while j < |item.skills|
      invariant 0 <= j <= |item.skills|
      invariant r == ItemRefsPass(equippedSkills, item, item.skills[..j], c)
    {
      assert item.skills[..j + 1][..j] == item.skills[..j];
      r := AddItemSkill(r, item, item.skills[j], c);
      j := j + 1;
    }
    assert item.skills[..j] == item.skills;
  }

  /** `addItemSkills`: the outer loop, over the equipped items. */
  method AddItemSkills(items: seq<Item>, equippedSkills: seq<EquippedSkill>, c: Catalog) returns (r: seq<EquippedSkill>)
    ensures r == ItemPass(equippedSkills, items, c)
  {
    r := equippedSkills;
    var i := 0;
    while i < |items|
      invariant 0 <= i <= |items|
      invariant r == ItemPass(equippedSkills, items[..i], c)
    {
      assert items[..i + 1][..i] == items[..i];
      r := AddItemRefs(r, items[i], c);
      i := i + 1;
    }
    assert items[..i] == items;
  }

  // ---------------------------------------------------------------------------
  // Additivity

  /** The levels all `items` grant to `id`, with their multipliers. */
  function ItemLevels(items: seq<Item>, id: string): nat
    decreases |items|
  {
    if |items| == 0 then 0
    else ItemLevels(items[..|items| - 1], id) + RefLevels(items[|items| - 1].skills, id, Multiplier(items[|items| - 1]))
  }

  /** The levels the `items` of slot `s` grant to `id`, with their multipliers. */
  function ItemSlotLevels(items: seq<Item>, id: string, s: Slot): nat
    decreases |items|
  {
    if |items| == 0 then 0
    else
      var item := items[|items| - 1];
      ItemSlotLevels(items[..|items| - 1], id, s)
        + (if SlotOf(item.itemType) == Some(s) then RefLevels(item.skills, id, Multiplier(item)) else 0)
  }

  lemma {:induction false} ItemRefsPassSums(t: seq<EquippedSkill>, item: Item, refs: seq<SkillRef>, c: Catalog, id: string)
    ensures forall k :: CounterOf(ItemRefsPass(t, item, refs, c), id, k) == CounterOf(t, id, k)
              + (if k == EquippedTotal || k == ArmorCount then RefLevels(refs, id, Multiplier(item)) else 0)
    ensures forall s :: SlotCountOf(ItemRefsPass(t, item, refs, c), id, s) == SlotCountOf(t, id, s)
              + (if SlotOf(item.itemType) == Some(s) then RefLevels(refs, id, Multiplier(item)) else 0)
    decreases |refs|
  {
    if |refs| > 0 {
      var ref := refs[|refs| - 1];
      ItemRefsPassSums(t, item, refs[..|refs| - 1], c, id);
      if ref.level != 0 && ref.id == id {
        ItemSkillStepEffect(ItemRefsPass(t, item, refs[..|refs| - 1], c), item, ref, c);
      }
    }
  }

  /**
   * Summing: after the item pass, the displayed and armor counts of every skill
   * have grown by exactly the levels the items grant it, each slot counter by the
   * levels of the items of that slot, and the tool counters are unchanged.
   */
  lemma {:induction false} ItemPassSums(t: seq<EquippedSkill>, items: seq<Item>, c: Catalog, id: string)
    ensures forall k :: CounterOf(ItemPass(t, items, c), id, k) == CounterOf(t, id, k)
              + (if k == EquippedTotal || k == ArmorCount then ItemLevels(items, id) else 0)
    ensures forall s :: SlotCountOf(ItemPass(t, items, c), id, s) == SlotCountOf(t, id, s) + ItemSlotLevels(items, id, s)
    decreases |items|
  {
    if |items| > 0 {
      var item := items[|items| - 1];
      ItemPassSums(t, items[..|items| - 1], c, id);
      ItemRefsPassSums(ItemPass(t, items[..|items| - 1], c), item, item.skills, c, id);
    }
  }
}
