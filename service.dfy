/**
 * `SkillService`: the service object holding the last aggregation, and
 * `updateSkills`, which links decorations to their items' activity and then
 * runs the four passes over one fresh table in a fixed order.
 */
module Service {
  import opened SkillModel
  import opened ItemSkills
  import opened DecorationSkills
  import opened SetSkills
  import opened AugmentationSkills

  // ---------------------------------------------------------------------------
  // Linking decorations to the activity of their items

  /** One item: every decoration with the item's type takes the item's `active`. */
  function LinkItem(decorations: seq<Decoration>, item: Item): (r: seq<Decoration>)
    ensures |r| == |decorations|
  {
    seq(|decorations|, j requires 0 <= j < |decorations| =>
      if decorations[j].itemType == item.itemType then decorations[j].(active := item.active) else decorations[j])
  }

  /** The linking loops over all `items`, in order. */
  function LinkAll(items: seq<Item>, decorations: seq<Decoration>): (r: seq<Decoration>)
    ensures |r| == |decorations|
    decreases |items|
  {
    if |items| == 0 then decorations
    else LinkItem(LinkAll(items[..|items| - 1], decorations), items[|items| - 1])
  }

  /** The `active` of the last item of type `itemType`, or `otherwise` when there is none. */
  function LastActive(items: seq<Item>, itemType: ItemType, otherwise: bool): bool
    decreases |items|
  {
    if |items| == 0 then otherwise
    else if items[|items| - 1].itemType == itemType then items[|items| - 1].active
    else LastActive(items[..|items| - 1], itemType, otherwise)
  }

  /** Whether some item has type `itemType`. */
  predicate HasItemOfType(items: seq<Item>, itemType: ItemType) {
    exists i :: 0 <= i < |items| && items[i].itemType == itemType
  }

  /**
   * Linking: each decoration keeps its type and skills, and its `active` becomes
   * that of the last item of its type; a decoration with no item of its type
   * keeps its own.
   */
  lemma {:induction false} LinkAllEffect(items: seq<Item>, decorations: seq<Decoration>)
    ensures forall j :: 0 <= j < |decorations| ==>
              LinkAll(items, decorations)[j]
                == decorations[j].(active := LastActive(items, decorations[j].itemType, decorations[j].active))
    decreases |items|
  {
    if |items| > 0 {
      LinkAllEffect(items[..|items| - 1], decorations);
    }
  }

  lemma {:induction false} LastActiveDefault(items: seq<Item>, itemType: ItemType, a: bool, b: bool)
    ensures HasItemOfType(items, itemType) ==> LastActive(items, itemType, a) == LastActive(items, itemType, b)
    ensures !HasItemOfType(items, itemType) ==> LastActive(items, itemType, a) == a
    decreases |items|
  {
    if |items| > 0 {
      var init := items[..|items| - 1];
      LastActiveDefault(init, itemType, a, b);
      if items[|items| - 1].itemType != itemType {
        if HasItemOfType(items, itemType) {
          var i :| 0 <= i < |items| && items[i].itemType == itemType;
          assert init[i].itemType == itemType;
        } else {
          assert forall i :: 0 <= i < |init| ==> init[i] == items[i];
        }
      }
    }
  }

  /** Linking is idempotent: a second update over the same items links nothing new. */
  lemma LinkAllIdempotent(items: seq<Item>, decorations: seq<Decoration>)
    ensures LinkAll(items, LinkAll(items, decorations)) == LinkAll(items, decorations)
  {
    var once := LinkAll(items, decorations);
    LinkAllEffect(items, decorations);
    LinkAllEffect(items, once);
    forall j | 0 <= j < |decorations|
      ensures LinkAll(items, once)[j] == once[j]
    {
      LastActiveDefault(items, decorations[j].itemType, decorations[j].active, once[j].active);
    }
  }

  /** The inner linking loop, over the decorations of the item's type, in place. */
  method LinkDecorations(item: Item, decorations: array<Decoration>)
    modifies decorations
    ensures decorations[..] == LinkItem(old(decorations[..]), item)
  {
    ghost var before := decorations[..];
    var j := 0;
    while j < decorations.Length
      invariant 0 <= j <= decorations.Length
      invariant forall k :: 0 <= k < j ==> decorations[k] == LinkItem(before, item)[k]
      invariant forall k :: j <= k < decorations.Length ==> decorations[k] == before[k]
    {
      if decorations[j].itemType == item.itemType {
        decorations[j] := decorations[j].(active := item.active);
      }
      j := j + 1;
    }
  }

  /** The outer linking loop of `updateSkills`, over the items. */
  method LinkActivity(items: seq<Item>, decorations: array<Decoration>)
    modifies decorations
    ensures decorations[..] == LinkAll(items, old(decorations[..]))
  {
    ghost var before := decorations[..];
    var i := 0;
    while i < |items|
      invariant 0 <= i <= |items|
      invariant decorations[..] == LinkAll(items[..i], before)
    {
      assert items[..i + 1][..i] == items[..i];
      LinkDecorations(items[i], decorations);
      i := i + 1;
    }
    assert items[..i] == items;
  }

  // ---------------------------------------------------------------------------
  // The aggregation

  /** The four passes over one fresh table, in their fixed order. */
  function Aggregate(items: seq<Item>, decorations: seq<Decoration>, augmentations: seq<Augmentation>,
                     c: Catalog, isSomeToolActive: bool)
    : (r: (seq<EquippedSkill>, seq<EquippedSetBonus>))
    ensures UniqueIds(r.0)
    ensures CapsWithinLevels(c) ==> WithinCaps(r.0)
  {
    var equipped := DecorationPass(ItemPass([], items, c), decorations, c);
    var (withSets, setBonuses) := SetPass(equipped, items, c, isSomeToolActive);
    (AugmentationPass(withSets, augmentations, c), setBonuses)
  }

  /**
   * Before the set-bonus pass, every skill's counters are the sums of what the
   * equipment grants it: armor from items and armor decorations, the active-tool
   * counter from decorations of the active tool, the displayed count the two
   * together, whatever decorations of an inactive tool add.
   */
  lemma EquipmentTotals(items: seq<Item>, decorations: seq<Decoration>, c: Catalog, id: string)
    ensures var t := DecorationPass(ItemPass([], items, c), decorations, c);
      && CounterOf(t, id, ArmorCount) == ItemLevels(items, id) + DecorationLevels(decorations, id, ArmorCount)
      && CounterOf(t, id, ToolActiveCount) == DecorationLevels(decorations, id, ToolActiveCount)
      && CounterOf(t, id, EquippedTotal) == CounterOf(t, id, ArmorCount) + CounterOf(t, id, ToolActiveCount)
  {
    var t1 := ItemPass([], items, c);
    ItemPassSums([], items, c, id);
    DecorationPassSums(t1, decorations, c, id);
    DecorationPassTotal(t1, decorations, c, id);
  }

  /** A decoration is routed to the active-tool counter exactly when linking left it active in a tool slot. */
  lemma LinkedRoute(items: seq<Item>, decorations: seq<Decoration>, j: int)
    requires 0 <= j < |decorations|
    ensures var d := LinkAll(items, decorations)[j];
      DecorationRoute(d) == ToolActiveCount <==>
        (decorations[j].itemType == Tool1 || decorations[j].itemType == Tool2)
        && LastActive(items, decorations[j].itemType, decorations[j].active)
  {
    LinkAllEffect(items, decorations);
  }

  // ---------------------------------------------------------------------------
  // The service object

  class SkillService {
    /** The last aggregated skill table. */
    var skills: seq<EquippedSkill>
    /** The last aggregated set-bonus records. */
    var setBonuses: seq<EquippedSetBonus>
    /** Whether some tool is active, read by the nature sub-pass. */
    var isSomeToolActive: bool
    /** The static data the passes look skills and set bonuses up in. */
    const catalog: Catalog

    constructor (catalog: Catalog)
      ensures this.catalog == catalog
      ensures !isSomeToolActive && skills == [] && setBonuses == []
    {
      this.catalog := catalog;
      isSomeToolActive := false;
      skills := [];
      setBonuses := [];
    }

    /**
     * `updateSkills`: links every decoration to its item's activity in place,
     * then replaces both results by the aggregation over a fresh table, which
     * holds each skill id once and, for a catalog whose caps are within the
     * skills' levels, keeps every total within them.
     */
    method UpdateSkills(items: seq<Item>, decorations: array<Decoration>, augmentations: seq<Augmentation>)
      modifies this`skills, this`setBonuses, decorations
      ensures decorations[..] == LinkAll(items, old(decorations[..]))
      ensures (skills, setBonuses) == Aggregate(items, decorations[..], augmentations, catalog, isSomeToolActive)
      ensures UniqueIds(skills)
      ensures CapsWithinLevels(catalog) ==> WithinCaps(skills)
    {
      var equippedSkills: seq<EquippedSkill> := [];
      var equippedSetBonuses: seq<EquippedSetBonus> := [];
      LinkActivity(items, decorations);
      equippedSkills := AddItemSkills(items, equippedSkills, catalog);
      equippedSkills := AddDecorationSkills(decorations[..], equippedSkills, catalog);
      equippedSkills, equippedSetBonuses := AddSetSkills(items, equippedSkills, catalog, isSomeToolActive);
      equippedSkills := AddAugmentationSkills(augmentations, equippedSkills, catalog);
      skills := equippedSkills;
      setBonuses := equippedSetBonuses;
    }
  }
}
