/**
 * The data the skill aggregation engine reads and writes: the equipped items,
 * decorations and augmentations it is given, the read-only catalog it consults,
 * and the equipped-skill table it builds. The table is a sequence of entry
 * values; `_.find` over it is `Find`, the first entry with a given id.
 */
module SkillModel {

  datatype Option<T> = None | Some(value: T)

  function Max(a: nat, b: nat): nat { if a < b then b else a }

  /** The item types of the build. `Other` stands for any type the slot router does not know. */
  datatype ItemType = Weapon | Head | Chest | Hands | Legs | Feet | Charm | Tool1 | Tool2 | Other(name: string)

  /** A (skill id, level) pair. A level of 0 is the source's falsy level. */
  datatype SkillRef = SkillRef(id: string, level: nat)

  /**
   * An equipped item. `equippedLevel == 0` stands for an absent multiplier, and an
   * absent skill list is the empty sequence (the source skips both alike).
   */
  datatype Item = Item(itemType: ItemType, active: bool, equippedLevel: nat, skills: seq<SkillRef>)

  /** A decoration, socketed into the item of the same type. */
  datatype Decoration = Decoration(itemType: ItemType, active: bool, skills: seq<SkillRef>)

  datatype AugmentationLevel = AugmentationLevel(skills: seq<SkillRef>)
  datatype Augmentation = Augmentation(id: string, levels: seq<AugmentationLevel>)

  /**
   * A catalog skill: the length of its level list, its nominal maximum level
   * (0 when absent) and the id of the skill it raises ("" when absent).
   */
  datatype SkillDef = SkillDef(levelCount: nat, maxLevel: nat, raiseSkillId: string)

  /** A set-bonus tier: the skill it grants and the number of pieces it needs. */
  datatype SetLevel = SetLevel(id: string, pieces: nat)
  datatype SetBonusDef = SetBonusDef(id: string, setLevels: seq<SetLevel>)

  /** The reference catalog: total lookups keyed by id. */
  datatype Catalog = Catalog(getSkill: string -> SkillDef, getSetBonus: string -> SetBonusDef)

  /** A catalog whose nominal maximum never exceeds the length of the level list. */
  ghost predicate CapsWithinLevels(c: Catalog) {
    forall id :: c.getSkill(id).maxLevel <= c.getSkill(id).levelCount
  }

  /** One row of the result table. A `secretLevelCount` of 0 stands for an unset one. */
  datatype EquippedSkill = EquippedSkill(
    id: string,
    skill: SkillDef,
    totalLevelCount: nat,
    secretLevelCount: int,
    equippedCount: nat,
    equippedArmorCount: nat,
    equippedToolActiveCount: nat,
    equippedTool1Count: nat,
    equippedTool2Count: nat,
    weaponCount: nat,
    headCount: nat,
    chestCount: nat,
    handsCount: nat,
    legsCount: nat,
    feetCount: nat,
    charmCount: nat,
    toolCount: nat,
    isSetBonus: bool,
    isNatureBonus: bool)

  /** A fresh entry: every counter starts at 0 and both flags are false. */
  function NewEntry(id: string, skill: SkillDef, totalLevelCount: nat): EquippedSkill {
    EquippedSkill(id, skill, totalLevelCount, 0, 0, 0, 0, 0, 0, 0, 0, 0, 0, 0, 0, 0, 0, false, false)
  }

  /** The level cap of a newly created item or decoration entry: `maxLevel || levels.length`. */
  function NominalLevels(skill: SkillDef): nat {
    if skill.maxLevel != 0 then skill.maxLevel else skill.levelCount
  }

  /** The fresh entry an item or decoration creates for a skill id. */
  function FreshEntry(id: string, c: Catalog): EquippedSkill {
    NewEntry(id, c.getSkill(id), NominalLevels(c.getSkill(id)))
  }

  /** The levels that `refs` grant to `id`, each multiplied by `m`. */
  function RefLevels(refs: seq<SkillRef>, id: string, m: nat): nat
    decreases |refs|
  {
    if |refs| == 0 then 0
    else RefLevels(refs[..|refs| - 1], id, m) + (if refs[|refs| - 1].id == id then refs[|refs| - 1].level * m else 0)
  }

  datatype SetBonusDetail = SetBonusDetail(requiredCount: nat, skill: SkillDef)

  datatype EquippedSetBonus = EquippedSetBonus(
    id: string,
    equippedCount: nat,
    headCount: nat,
    chestCount: nat,
    handsCount: nat,
    legsCount: nat,
    feetCount: nat,
    details: seq<SetBonusDetail>)

  // ---------------------------------------------------------------------------
  // The five level counters and the eight slot counters of an entry

  datatype Counter = EquippedTotal | ArmorCount | ToolActiveCount | Tool1Count | Tool2Count

  function CounterValue(e: EquippedSkill, k: Counter): nat {
    match k
    case EquippedTotal => e.equippedCount
    case ArmorCount => e.equippedArmorCount
    case ToolActiveCount => e.equippedToolActiveCount
    case Tool1Count => e.equippedTool1Count
    case Tool2Count => e.equippedTool2Count
  }

  datatype Slot = WeaponSlot | HeadSlot | ChestSlot | HandsSlot | LegsSlot | FeetSlot | CharmSlot | ToolSlot

  function SlotCount(e: EquippedSkill, s: Slot): nat {
    match s
    case WeaponSlot => e.weaponCount
    case HeadSlot => e.headCount
    case ChestSlot => e.chestCount
    case HandsSlot => e.handsCount
    case LegsSlot => e.legsCount
    case FeetSlot => e.feetCount
    case CharmSlot => e.charmCount
    case ToolSlot => e.toolCount
  }

  /** The slot counter an item type feeds; both tool types share one, other types none. */
  function SlotOf(t: ItemType): Option<Slot> {
    match t
    case Weapon => Some(WeaponSlot)
    case Head => Some(HeadSlot)
    case Chest => Some(ChestSlot)
    case Hands => Some(HandsSlot)
    case Legs => Some(LegsSlot)
    case Feet => Some(FeetSlot)
    case Charm => Some(CharmSlot)
    case Tool1 => Some(ToolSlot)
    case Tool2 => Some(ToolSlot)
    case Other(_) => None
  }

  /**
   * `countSkillItemPart`: adds `actualCount` to the one slot counter that the item
   * type selects, and leaves every other field of the entry as it was.
   */
  function CountSkillItemPart(e: EquippedSkill, actualCount: nat, itemType: ItemType): (r: EquippedSkill)
    ensures forall s :: SlotCount(r, s) == SlotCount(e, s) + (if SlotOf(itemType) == Some(s) then actualCount else 0)
    ensures r == e.(weaponCount := r.weaponCount, headCount := r.headCount, chestCount := r.chestCount,
                    handsCount := r.handsCount, legsCount := r.legsCount, feetCount := r.feetCount,
                    charmCount := r.charmCount, toolCount := r.toolCount)
    ensures SlotOf(itemType).None? ==> r == e
  {
    if itemType == Weapon then e.(weaponCount := e.weaponCount + actualCount)
    else if itemType == Head then e.(headCount := e.headCount + actualCount)
    else if itemType == Chest then e.(chestCount := e.chestCount + actualCount)
    else if itemType == Hands then e.(handsCount := e.handsCount + actualCount)
    else if itemType == Legs then e.(legsCount := e.legsCount + actualCount)
    else if itemType == Feet then e.(feetCount := e.feetCount + actualCount)
    else if itemType == Charm then e.(charmCount := e.charmCount + actualCount)
    else if itemType == Tool1 || itemType == Tool2 then e.(toolCount := e.toolCount + actualCount)
    else e
  }

  /** An entry whose displayed total is its armor count plus its active-tool count. */
  predicate Balanced(e: EquippedSkill) {
    e.equippedCount == e.equippedArmorCount + e.equippedToolActiveCount
  }

  predicate AllBalanced(t: seq<EquippedSkill>) {
    forall j :: 0 <= j < |t| ==> Balanced(t[j])
  }

  /** The entry fields that no counting rule touches stay equal. */
  predicate SameIdentity(a: EquippedSkill, b: EquippedSkill) {
    a.id == b.id && a.skill == b.skill && a.totalLevelCount == b.totalLevelCount
    && a.secretLevelCount == b.secretLevelCount && a.isSetBonus == b.isSetBonus && a.isNatureBonus == b.isNatureBonus
  }

  /** Every entry's level cap is within the length of its catalog level list. */
  predicate WithinCaps(t: seq<EquippedSkill>) {
    forall j :: 0 <= j < |t| ==> t[j].totalLevelCount <= t[j].skill.levelCount
  }

  // ---------------------------------------------------------------------------
  // The lodash collection helpers the engine relies on

  /** `_.countBy(names)[name]`: how often `name` occurs. */
  function Occurrences(names: seq<string>, name: string): (n: nat)
    ensures n > 0 <==> name in names
    decreases |names|
  {
    if |names| == 0 then 0
    else
      assert names == names[..|names| - 1] + [names[|names| - 1]];
      Occurrences(names[..|names| - 1], name) + (if names[|names| - 1] == name then 1 else 0)
  }

  /** `_.uniq(names)`: the distinct names, each at its first occurrence. */
  function Uniq(names: seq<string>): (r: seq<string>)
    ensures forall x :: x in r <==> x in names
    ensures forall i, j :: 0 <= i < j < |r| ==> r[i] != r[j]
    decreases |names|
  {
    if |names| == 0 then []
    else
      var u := Uniq(names[..|names| - 1]);
      var last := names[|names| - 1];
      assert names == names[..|names| - 1] + [last];
      if last in u then u else u + [last]
  }

  /** The index of the first occurrence of `x` in `names`. */
  function FirstIndex(names: seq<string>, x: string): (k: nat)
    requires x in names
    ensures k < |names| && names[k] == x
    ensures forall q :: 0 <= q < k ==> names[q] != x
    decreases |names|
  {
    var init := names[..|names| - 1];
    if x in init then
      var k := FirstIndex(init, x);
      assert forall q :: 0 <= q <= k ==> names[q] == init[q];
      k
    else
      assert forall q :: 0 <= q < |init| ==> names[q] == init[q];
      |names| - 1
  }

  /** `_.uniq` keeps the order of first occurrence: earlier names in the result first occur earlier. */
  lemma {:induction false} UniqOrder(names: seq<string>)
    ensures forall i, j :: 0 <= i < j < |Uniq(names)| ==> FirstIndex(names, Uniq(names)[i]) < FirstIndex(names, Uniq(names)[j])
    decreases |names|
  {
    if |names| > 0 {
      var init := names[..|names| - 1];
      var last := names[|names| - 1];
      var u := Uniq(init);
      UniqOrder(init);
      assert forall x :: x in u ==> FirstIndex(names, x) == FirstIndex(init, x);
      if last !in u {
        assert Uniq(names) == u + [last];
        assert FirstIndex(names, last) == |names| - 1;
        assert forall i :: 0 <= i < |u| ==> FirstIndex(init, u[i]) < |init|;
      }
    }
  }

  lemma {:induction false} OccurrencesAppend(a: seq<string>, b: seq<string>, name: string)
    ensures Occurrences(a + b, name) == Occurrences(a, name) + Occurrences(b, name)
    decreases |b|
  {
    if |b| > 0 {
      OccurrencesAppend(a, b[..|b| - 1], name);
      assert (a + b)[..|a + b| - 1] == a + b[..|b| - 1];
    } else {
      assert a + b == a;
    }
  }

  lemma AppendAssociative<T>(x: seq<T>, y: seq<T>, z: seq<T>)
    ensures (x + y) + z == x + (y + z)
  {
  }

  // ---------------------------------------------------------------------------
  // The table as a keyed accumulator

  /** Each skill id has at most one entry. */
  predicate UniqueIds(t: seq<EquippedSkill>) {
    forall i, j :: 0 <= i < j < |t| ==> t[i].id != t[j].id
  }

  /** The index of the first entry with the given id, as `_.find` scans. */
  function IndexOf(t: seq<EquippedSkill>, id: string): (r: Option<nat>)
    ensures r.Some? ==> r.value < |t| && t[r.value].id == id && forall j :: 0 <= j < r.value ==> t[j].id != id
    ensures r.None? ==> forall j :: 0 <= j < |t| ==> t[j].id != id
  {
    if |t| == 0 then None
    else if t[0].id == id then Some(0)
    else match IndexOf(t[1..], id)
      case None => None
      case Some(k) => Some(k + 1)
  }

  /** `_.find(equippedSkills, es => es.id == id)`. */
  function Find(t: seq<EquippedSkill>, id: string): (r: Option<EquippedSkill>)
    ensures r.Some? ==> r.value.id == id && r.value in t
    ensures r.None? <==> forall j :: 0 <= j < |t| ==> t[j].id != id
  {
    match IndexOf(t, id)
    case Some(k) => Some(t[k])
    case None => None
  }

  /** The entry for `id`, or `created` when there is none: what a lookup-or-create starts from. */
  function EntryOr(t: seq<EquippedSkill>, id: string, created: EquippedSkill): EquippedSkill {
    match Find(t, id)
    case Some(e) => e
    case None => created
  }

  /** A counter of the entry for `id`, 0 when there is none. */
  function CounterOf(t: seq<EquippedSkill>, id: string, k: Counter): nat {
    match Find(t, id)
    case Some(e) => CounterValue(e, k)
    case None => 0
  }

  /** A slot counter of the entry for `id`, 0 when there is none. */
  function SlotCountOf(t: seq<EquippedSkill>, id: string, s: Slot): nat {
    match Find(t, id)
    case Some(e) => SlotCount(e, s)
    case None => 0
  }

  lemma IndexOfAppend(t: seq<EquippedSkill>, e: EquippedSkill, id: string)
    ensures IndexOf(t + [e], id) == if IndexOf(t, id).Some? then IndexOf(t, id)
                                    else if e.id == id then Some(|t|) else None
  {
    var u := t + [e];
    assert forall j :: 0 <= j < |t| ==> u[j] == t[j];
    assert u[|t|] == e;
    var r := IndexOf(u, id);
    if IndexOf(t, id).Some? {
      var k := IndexOf(t, id).value;
      assert u[k].id == id;
      assert r.Some? && r.value <= k;
    } else if r.Some? {
      assert r.value == |t|;
    } else {
      assert u[|t|].id != id;
    }
  }

  /** Appending an entry adds its id and leaves every other lookup as it was. */
  lemma FindAppend(t: seq<EquippedSkill>, e: EquippedSkill, id: string)
    ensures Find(t + [e], id) == if Find(t, id).Some? then Find(t, id)
                                 else if e.id == id then Some(e) else None
  {
    IndexOfAppend(t, e, id);
    if IndexOf(t, id).Some? {
      assert (t + [e])[IndexOf(t, id).value] == t[IndexOf(t, id).value];
    }
  }

  lemma IndexOfUpdate(t: seq<EquippedSkill>, k: nat, e: EquippedSkill, id: string)
    requires IndexOf(t, e.id) == Some(k)
    ensures IndexOf(t[k := e], id) == IndexOf(t, id)
  {
    var u := t[k := e];
    assert forall j :: 0 <= j < |t| && j != k ==> u[j] == t[j];
    assert u[k].id == t[k].id;
    var r := IndexOf(u, id);
    var q := IndexOf(t, id);
    if q.Some? {
      assert u[q.value].id == id;
      assert r.Some? && r.value <= q.value;
    }
  }

  /** Replacing the first entry for an id by one with the same id changes that lookup only. */
  lemma FindUpdate(t: seq<EquippedSkill>, k: nat, e: EquippedSkill, id: string)
    requires IndexOf(t, e.id) == Some(k)
    ensures Find(t[k := e], id) == if id == e.id then Some(e) else Find(t, id)
  {
    IndexOfUpdate(t, k, e, id);
    if id != e.id && IndexOf(t, id).Some? {
      assert t[k := e][IndexOf(t, id).value] == t[IndexOf(t, id).value];
    }
  }

  /**
   * Lookup-or-create-or-update: the entry `e` takes the place of the entry with
   * its id, or is pushed at the end when there is none.
   */
  function Upsert(t: seq<EquippedSkill>, e: EquippedSkill): (r: seq<EquippedSkill>)
    ensures Find(r, e.id) == Some(e)
    ensures forall id :: id != e.id ==> Find(r, id) == Find(t, id)
    ensures forall j :: 0 <= j < |r| ==> r[j] == e || r[j] in t
    ensures UniqueIds(t) ==> UniqueIds(r)
  {
    match IndexOf(t, e.id)
    case None =>
      FindAppend(t, e, e.id);
      assert forall id :: id != e.id ==> Find(t + [e], id) == Find(t, id) by {
        forall id | id != e.id { FindAppend(t, e, id); }
      }
      t + [e]
    case Some(k) =>
      FindUpdate(t, k, e, e.id);
      assert forall id :: id != e.id ==> Find(t[k := e], id) == Find(t, id) by {
        forall id | id != e.id { FindUpdate(t, k, e, id); }
      }
      assert forall j :: 0 <= j < |t| && j != k ==> t[k := e][j] == t[j];
      t[k := e]
  }
}
