/**
 * The decoration pass (`addDecorationSkills`): every non-zero skill level of a
 * decoration goes to exactly one of four counters, chosen by the decoration's
 * type and its active flag, after which the displayed count is recomputed as
 * the armor count plus the active-tool count.
 */
module DecorationSkills {
  import opened SkillModel

  /**
   * The counter a decoration feeds: an active tool decoration the shared
   * active-tool count, an inactive one the count of its own tool, any other
   * decoration the armor count.
   */
  function DecorationRoute(d: Decoration): (k: Counter)
    ensures k != EquippedTotal
    ensures k == ToolActiveCount <==> (d.itemType == Tool1 || d.itemType == Tool2) && d.active
    ensures k == Tool1Count <==> d.itemType == Tool1 && !d.active
    ensures k == Tool2Count <==> d.itemType == Tool2 && !d.active
    ensures k == ArmorCount <==> d.itemType != Tool1 && d.itemType != Tool2
  {
    match d.itemType
    case Tool1 => if d.active then ToolActiveCount else Tool1Count
    case Tool2 => if d.active then ToolActiveCount else Tool2Count
    case _ => ArmorCount
  }

  /** The routing branches of the decoration pass, applied to one entry. */
  function RouteDecorationLevel(e: EquippedSkill, d: Decoration, n: nat): (r: EquippedSkill)
    ensures forall k :: k != EquippedTotal ==>
              CounterValue(r, k) == CounterValue(e, k) + (if k == DecorationRoute(d) then n else 0)
    ensures r == e.(equippedArmorCount := r.equippedArmorCount, equippedToolActiveCount := r.equippedToolActiveCount,
                    equippedTool1Count := r.equippedTool1Count, equippedTool2Count := r.equippedTool2Count)
  {
    if d.itemType == Tool1 then
      if d.active then e.(equippedToolActiveCount := e.equippedToolActiveCount + n)
      else e.(equippedTool1Count := e.equippedTool1Count + n)
    else if d.itemType == Tool2 then
      if d.active then e.(equippedToolActiveCount := e.equippedToolActiveCount + n)
      else e.(equippedTool2Count := e.equippedTool2Count + n)
    else e.(equippedArmorCount := e.equippedArmorCount + n)
  }

  /**
   * An entry with one decoration skill level `n` routed in: the routed counter
   * and the slot counter of the decoration's type grow by `n`, no other counter
   * changes, and the displayed count is recomputed, so the entry is balanced.
   */
  function DecorationEntry(e: EquippedSkill, d: Decoration, n: nat): (r: EquippedSkill)
    ensures SameIdentity(r, e)
    ensures Balanced(r)
    ensures forall k :: k != EquippedTotal ==>
              CounterValue(r, k) == CounterValue(e, k) + (if k == DecorationRoute(d) then n else 0)
    ensures forall s :: SlotCount(r, s) == SlotCount(e, s) + (if SlotOf(d.itemType) == Some(s) then n else 0)
  {
    var e1 := RouteDecorationLevel(e, d, n);
    var e2 := e1.(equippedCount := e1.equippedArmorCount + e1.equippedToolActiveCount);
    assert forall s :: SlotCount(e2, s) == SlotCount(e, s);
    CountSkillItemPart(e2, n, d.itemType)
  }

  /** One skill reference of one decoration, merged into the table. */
  function DecorationSkillStep(t: seq<EquippedSkill>, d: Decoration, ref: SkillRef, c: Catalog): (r: seq<EquippedSkill>)
    ensures ref.level == 0 ==> r == t
    ensures forall id :: id != ref.id ==> Find(r, id) == Find(t, id)
    ensures UniqueIds(t) ==> UniqueIds(r)
    ensures AllBalanced(t) ==> AllBalanced(r)
    ensures CapsWithinLevels(c) && WithinCaps(t) ==> WithinCaps(r)
  {
    if ref.level == 0 then t
    else Upsert(t, DecorationEntry(EntryOr(t, ref.id, FreshEntry(ref.id, c)), d, ref.level))
  }

  /**
   * What one decoration skill level does to its entry: the entry exists
   * afterwards and is balanced; the routed counter and the slot counter of the
   * decoration's type grow by the level and no other counter changes; and an
   * inactive tool decoration leaves the displayed count of a balanced entry as it was.
   */
  lemma DecorationSkillStepEffect(t: seq<EquippedSkill>, d: Decoration, ref: SkillRef, c: Catalog)
    requires ref.level != 0
    ensures var r := DecorationSkillStep(t, d, ref, c);
      && Find(r, ref.id).Some?
      && SameIdentity(Find(r, ref.id).value, EntryOr(t, ref.id, FreshEntry(ref.id, c)))
      && Balanced(Find(r, ref.id).value)
      && (forall k :: k != EquippedTotal ==>
            (CounterOf(r, ref.id, k) == CounterOf(t, ref.id, k) + (if k == DecorationRoute(d) then ref.level else 0)))
      && (forall s :: SlotCountOf(r, ref.id, s) == SlotCountOf(t, ref.id, s)
                        + (if SlotOf(d.itemType) == Some(s) then ref.level else 0))
      && ((DecorationRoute(d) == Tool1Count || DecorationRoute(d) == Tool2Count)
          && (Find(t, ref.id).None? || Balanced(Find(t, ref.id).value))
          ==> CounterOf(r, ref.id, EquippedTotal) == CounterOf(t, ref.id, EquippedTotal))
  {
    var e := EntryOr(t, ref.id, FreshEntry(ref.id, c));
    var e' := DecorationEntry(e, d, ref.level);
    assert Find(DecorationSkillStep(t, d, ref, c), ref.id) == Some(e');
    assert forall k :: CounterOf(t, ref.id, k) == CounterValue(e, k);
    assert forall s :: SlotCountOf(t, ref.id, s) == SlotCount(e, s);
    if DecorationRoute(d) == Tool1Count || DecorationRoute(d) == Tool2Count {
      assert CounterValue(e', ArmorCount) == CounterValue(e, ArmorCount);
      assert CounterValue(e', ToolActiveCount) == CounterValue(e, ToolActiveCount);
    }
  }

  function DecorationRefsPass(t: seq<EquippedSkill>, d: Decoration, refs: seq<SkillRef>, c: Catalog): (r: seq<EquippedSkill>)
    ensures UniqueIds(t) ==> UniqueIds(r)
    ensures AllBalanced(t) ==> AllBalanced(r)
    ensures CapsWithinLevels(c) && WithinCaps(t) ==> WithinCaps(r)
    decreases |refs|
  {
    if |refs| == 0 then t
    else DecorationSkillStep(DecorationRefsPass(t, d, refs[..|refs| - 1], c), d, refs[|refs| - 1], c)
  }

  function DecorationPass(t: seq<EquippedSkill>, decorations: seq<Decoration>, c: Catalog): (r: seq<EquippedSkill>)
    ensures UniqueIds(t) ==> UniqueIds(r)
    ensures AllBalanced(t) ==> AllBalanced(r)
    ensures CapsWithinLevels(c) && WithinCaps(t) ==> WithinCaps(r)
    decreases |decorations|
  {
    if |decorations| == 0 then t
    else
      var d := decorations[|decorations| - 1];
      DecorationRefsPass(DecorationPass(t, decorations[..|decorations| - 1], c), d, d.skills, c)
  }

  /**
   * The routing branches of `addDecorationSkills`. On a newly created entry the
   * source assigns where it otherwise adds; from the zero counters of a fresh
   * entry the two agree.
   */
  method RouteDecoration(equippedSkill: EquippedSkill, decoration: Decoration, equippedCount: nat)
    returns (r: EquippedSkill)
    ensures r == RouteDecorationLevel(equippedSkill, decoration, equippedCount)
  {
    r := equippedSkill;
    if decoration.itemType == Tool1 {
      if decoration.active {
        r := r.(equippedToolActiveCount := r.equippedToolActiveCount + equippedCount);
      } else {
        r := r.(equippedTool1Count := r.equippedTool1Count + equippedCount);
      }
    } else if decoration.itemType == Tool2 {
      if decoration.active {
        r := r.(equippedToolActiveCount := r.equippedToolActiveCount + equippedCount);
      } else {
        r := r.(equippedTool2Count := r.equippedTool2Count + equippedCount);
      }
    } else {
      r := r.(equippedArmorCount := r.equippedArmorCount + equippedCount);
    }
  }

  /** The body of the inner loop of `addDecorationSkills`: look the skill up, then create or route. */
  method AddDecorationSkill(equippedSkills: seq<EquippedSkill>, decoration: Decoration, itemSkill: SkillRef, c: Catalog)
    returns (r: seq<EquippedSkill>)
    ensures r == DecorationSkillStep(equippedSkills, decoration, itemSkill, c)
  {
    r := equippedSkills;
    if itemSkill.level == 0 {
      return;
    }
    var equippedCount := itemSkill.level;
    var found := IndexOf(r, itemSkill.id);
    if found.None? {
      var skill := c.getSkill(itemSkill.id);
      var equippedSkill := NewEntry(itemSkill.id, skill, NominalLevels(skill));
      assert equippedSkill == EntryOr(equippedSkills, itemSkill.id, FreshEntry(itemSkill.id, c));
      equippedSkill := RouteDecoration(equippedSkill, decoration, equippedCount);
      equippedSkill := equippedSkill.(equippedCount := equippedSkill.equippedArmorCount + equippedSkill.equippedToolActiveCount);
      equippedSkill := CountSkillItemPart(equippedSkill, equippedCount, decoration.itemType);
      assert equippedSkill == DecorationEntry(FreshEntry(itemSkill.id, c), decoration, equippedCount);
      assert Upsert(equippedSkills, equippedSkill) == r + [equippedSkill];
      r := r + [equippedSkill];
    } else {
      var k := found.value;
      assert r[k] == EntryOr(equippedSkills, itemSkill.id, FreshEntry(itemSkill.id, c));
      var equippedSkill := RouteDecoration(r[k], decoration, equippedCount);
      equippedSkill := equippedSkill.(equippedCount := equippedSkill.equippedArmorCount + equippedSkill.equippedToolActiveCount);
      equippedSkill := CountSkillItemPart(equippedSkill, equippedCount, decoration.itemType);
      assert equippedSkill == DecorationEntry(r[k], decoration, equippedCount);
      assert Upsert(equippedSkills, equippedSkill) == r[k := equippedSkill];
      r := r[k := equippedSkill];
    }
  }

  /** The inner loop of `addDecorationSkills`, over the skill references of one decoration. */
  method AddDecorationRefs(equippedSkills: seq<EquippedSkill>, decoration: Decoration, c: Catalog)
    returns (r: seq<EquippedSkill>)
    ensures r == DecorationRefsPass(equippedSkills, decoration, decoration.skills, c)
  {
    r := equippedSkills;
    var j := 0;
    while j < |decoration.skills|
      invariant 0 <= j <= |decoration.skills|
      invariant r == DecorationRefsPass(equippedSkills, decoration, decoration.skills[..j], c)
    {
      assert decoration.skills[..j + 1][..j] == decoration.skills[..j];
      assert DecorationRefsPass(equippedSkills, decoration, decoration.skills[..j + 1], c)
          == DecorationSkillStep(r, decoration, decoration.skills[j], c);
      r := AddDecorationSkill(r, decoration, decoration.skills[j], c);
      j := j + 1;
    }
    assert decoration.skills[..j] == decoration.skills;
  }

  /** `addDecorationSkills`: the outer loop, over the decorations. */
  method AddDecorationSkills(decorations: seq<Decoration>, equippedSkills: seq<EquippedSkill>, c: Catalog)
    returns (r: seq<EquippedSkill>)
    ensures r == DecorationPass(equippedSkills, decorations, c)
  {
    r := equippedSkills;
    var i := 0;
    while i < |decorations|
      invariant 0 <= i <= |decorations|
      invariant r == DecorationPass(equippedSkills, decorations[..i], c)
    {
      assert decorations[..i + 1][..i] == decorations[..i];
      r := AddDecorationRefs(r, decorations[i], c);
      i := i + 1;
    }
    assert decorations[..i] == decorations;
  }

  // ---------------------------------------------------------------------------
  // Routing, summed over the pass

  /** The levels the `decorations` routed to counter `k` grant to `id`. */
  function DecorationLevels(decorations: seq<Decoration>, id: string, k: Counter): nat
    decreases |decorations|
  {
    if |decorations| == 0 then 0
    else
      var d := decorations[|decorations| - 1];
      DecorationLevels(decorations[..|decorations| - 1], id, k) + (if DecorationRoute(d) == k then RefLevels(d.skills, id, 1) else 0)
  }

  /** The levels the `decorations` of slot `s` grant to `id`. */
  function DecorationSlotLevels(decorations: seq<Decoration>, id: string, s: Slot): nat
    decreases |decorations|
  {
    if |decorations| == 0 then 0
    else
      var d := decorations[|decorations| - 1];
      DecorationSlotLevels(decorations[..|decorations| - 1], id, s) + (if SlotOf(d.itemType) == Some(s) then RefLevels(d.skills, id, 1) else 0)
  }

  lemma {:induction false} DecorationRefsPassSums(t: seq<EquippedSkill>, d: Decoration, refs: seq<SkillRef>, c: Catalog, id: string)
    ensures forall k :: k != EquippedTotal ==>
              (CounterOf(DecorationRefsPass(t, d, refs, c), id, k) == CounterOf(t, id, k)
                 + (if k == DecorationRoute(d) then RefLevels(refs, id, 1) else 0))
    ensures forall s :: SlotCountOf(DecorationRefsPass(t, d, refs, c), id, s) == SlotCountOf(t, id, s)
              + (if SlotOf(d.itemType) == Some(s) then RefLevels(refs, id, 1) else 0)
    decreases |refs|
  {
    if |refs| > 0 {
      var ref := refs[|refs| - 1];
      var prev := DecorationRefsPass(t, d, refs[..|refs| - 1], c);
      assert DecorationRefsPass(t, d, refs, c) == DecorationSkillStep(prev, d, ref, c);
      DecorationRefsPassSums(t, d, refs[..|refs| - 1], c, id);
      if ref.level != 0 && ref.id == id {
        DecorationSkillStepEffect(prev, d, ref, c);
      } else {
        assert Find(DecorationRefsPass(t, d, refs, c), id) == Find(prev, id);
      }
    }
  }

  /**
   * Routing: after the decoration pass, each of the armor, active-tool, Tool1 and
   * Tool2 counters of every skill has grown by exactly the levels of the
   * decorations routed to it, and each slot counter by those of its slot.
   */
  lemma {:induction false} DecorationPassSums(t: seq<EquippedSkill>, decorations: seq<Decoration>, c: Catalog, id: string)
    ensures forall k :: k != EquippedTotal ==>
              (CounterOf(DecorationPass(t, decorations, c), id, k) == CounterOf(t, id, k)
                 + DecorationLevels(decorations, id, k))
    ensures forall s :: SlotCountOf(DecorationPass(t, decorations, c), id, s) == SlotCountOf(t, id, s)
              + DecorationSlotLevels(decorations, id, s)
    decreases |decorations|
  {
    if |decorations| > 0 {
      var d := decorations[|decorations| - 1];
      DecorationPassSums(t, decorations[..|decorations| - 1], c, id);
      DecorationRefsPassSums(DecorationPass(t, decorations[..|decorations| - 1], c), d, d.skills, c, id);
    }
  }

  /**
   * Tool exclusivity: on a table whose entries are balanced, the displayed count
   * after the decoration pass has grown by the armor and active-tool levels only;
   * levels of inactive Tool1 and Tool2 decorations never reach it.
   */
  lemma DecorationPassTotal(t: seq<EquippedSkill>, decorations: seq<Decoration>, c: Catalog, id: string)
    requires AllBalanced(t)
    ensures CounterOf(DecorationPass(t, decorations, c), id, EquippedTotal) == CounterOf(t, id, EquippedTotal)
              + DecorationLevels(decorations, id, ArmorCount) + DecorationLevels(decorations, id, ToolActiveCount)
  {
    var r := DecorationPass(t, decorations, c);
    DecorationPassSums(t, decorations, c, id);
    assert CounterOf(r, id, EquippedTotal) == CounterOf(r, id, ArmorCount) + CounterOf(r, id, ToolActiveCount);
    assert CounterOf(t, id, EquippedTotal) == CounterOf(t, id, ArmorCount) + CounterOf(t, id, ToolActiveCount);
  }
}
