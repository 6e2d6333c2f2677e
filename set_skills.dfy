/**
 * The set-bonus pass (`addSetSkills`): level-0 skill references with a
 * multi-character id mark an item as a piece of a set. For every distinct set,
 * the tiers whose piece count is reached grant their skill (created at 1,
 * escalated to 2 when it already exists), a granted skill may raise another
 * skill's level cap, and while a tool is active the two Gaia tiers add their
 * nature skills by a max merge. One set-bonus record is built per set.
 */
module SetSkills {
  import opened SkillModel

  // ---------------------------------------------------------------------------
  // Markers, counts and slot presence

  /** `!skill.level && skill.id.length > 1`: a set-bonus marker, not a skill. */
  predicate IsMarker(ref: SkillRef) {
    ref.level == 0 && |ref.id| > 1
  }

  /** The (set id, item type) markers among the references of one item, in order. */
  function ItemMarkers(itemType: ItemType, refs: seq<SkillRef>): seq<(string, ItemType)>
    decreases |refs|
  {
    if |refs| == 0 then []
    else
      var ref := refs[|refs| - 1];
      ItemMarkers(itemType, refs[..|refs| - 1]) + (if IsMarker(ref) then [(ref.id, itemType)] else [])
  }

  /** A (set, type) pair is recorded for an item iff the item has that type and carries a marker of the set. */
  lemma {:induction false} ItemMarkersMembers(itemType: ItemType, refs: seq<SkillRef>)
    ensures forall p :: p in ItemMarkers(itemType, refs) <==>
              p.1 == itemType && exists ref :: ref in refs && IsMarker(ref) && ref.id == p.0
    decreases |refs|
  {
    if |refs| > 0 {
      var ref := refs[|refs| - 1];
      ItemMarkersMembers(itemType, refs[..|refs| - 1]);
      assert refs == refs[..|refs| - 1] + [ref];
    }
  }

  /** `setBonusParts`: the markers of all items, in order. */
  function Markers(items: seq<Item>): seq<(string, ItemType)>
    decreases |items|
  {
    if |items| == 0 then []
    else
      var item := items[|items| - 1];
      Markers(items[..|items| - 1]) + ItemMarkers(item.itemType, item.skills)
  }

  /** `setBonusParts` holds exactly the markers of the items. */
  lemma {:induction false} MarkersMembers(items: seq<Item>)
    ensures forall p :: p in Markers(items) <==> exists item :: item in items && p in ItemMarkers(item.itemType, item.skills)
    decreases |items|
  {
    if |items| > 0 {
      var item := items[|items| - 1];
      MarkersMembers(items[..|items| - 1]);
      assert items == items[..|items| - 1] + [item];
    }
  }

  /** `setBonusNames`: the set ids of the markers, in the same order. */
  function Names(parts: seq<(string, ItemType)>): (r: seq<string>)
    ensures |r| == |parts| && forall i :: 0 <= i < |parts| ==> r[i] == parts[i].0
  {
    seq(|parts|, i requires 0 <= i < |parts| => parts[i].0)
  }

  /** The five 0/1 slot-presence flags of a set. */
  datatype SlotPresence = SlotPresence(head: nat, chest: nat, hands: nat, legs: nat, feet: nat)

  function Presence(parts: seq<(string, ItemType)>, name: string): SlotPresence {
    SlotPresence(
      if (name, Head) in parts then 1 else 0,
      if (name, Chest) in parts then 1 else 0,
      if (name, Hands) in parts then 1 else 0,
      if (name, Legs) in parts then 1 else 0,
      if (name, Feet) in parts then 1 else 0)
  }

  /** `_.filter(setLevels, sl => sl.pieces <= count)`, in catalog order. */
  function Qualifying(setLevels: seq<SetLevel>, count: nat): (r: seq<SetLevel>)
    ensures forall tier :: tier in r <==> tier in setLevels && tier.pieces <= count
    ensures |r| <= |setLevels|
    decreases |setLevels|
  {
    if |setLevels| == 0 then []
    else
      var tier := setLevels[|setLevels| - 1];
      assert setLevels == setLevels[..|setLevels| - 1] + [tier];
      Qualifying(setLevels[..|setLevels| - 1], count) + (if tier.pieces <= count then [tier] else [])
  }

  /**
   * `_.filter` keeps catalog order and repeated tiers: filtering a concatenation
   * is filtering each part, so the qualifying tiers are the kept ones, in order.
   */
  lemma {:induction false} QualifyingAppend(a: seq<SetLevel>, b: seq<SetLevel>, count: nat)
    ensures Qualifying(a + b, count) == Qualifying(a, count) + Qualifying(b, count)
    decreases |b|
  {
    if |b| > 0 {
      var init := b[..|b| - 1];
      assert (a + b)[..|a + b| - 1] == a + init;
      QualifyingAppend(a, init, count);
    } else {
      assert a + b == a;
    }
  }

  // ---------------------------------------------------------------------------
  // Granting a tier, raising a cap

  /** The new entry of a set-bonus skill: the presence flags as slot counts, 1 level. */
  function SetBonusEntry(id: string, skill: SkillDef, flags: SlotPresence): EquippedSkill {
    NewEntry(id, skill, skill.levelCount).(
      headCount := flags.head, chestCount := flags.chest, handsCount := flags.hands,
      legsCount := flags.legs, feetCount := flags.feet,
      isSetBonus := true, equippedCount := 1, equippedArmorCount := 1)
  }

  /**
   * A raised entry: its cap becomes the full length of its level list; the set
   * pass also records the difference from the old cap as secret levels.
   */
  function RaisedEntry(e: EquippedSkill, recordSecret: bool): (r: EquippedSkill)
    ensures r.totalLevelCount == e.skill.levelCount
    ensures recordSecret ==> r.secretLevelCount == e.skill.levelCount - e.totalLevelCount
    ensures !recordSecret ==> r.secretLevelCount == e.secretLevelCount
    ensures r == e.(totalLevelCount := r.totalLevelCount, secretLevelCount := r.secretLevelCount)
    ensures e.totalLevelCount <= e.skill.levelCount ==>
              e.totalLevelCount <= r.totalLevelCount && (recordSecret ==> r.secretLevelCount >= 0)
  {
    var raised := e.(totalLevelCount := e.skill.levelCount);
    if recordSecret then raised.(secretLevelCount := e.skill.levelCount - e.totalLevelCount) else raised
  }

  /** Raises the entry `target` names when there is one; an empty id raises nothing. */
  function Raise(t: seq<EquippedSkill>, target: string, recordSecret: bool): (r: seq<EquippedSkill>)
    ensures forall id :: id != target ==> Find(r, id) == Find(t, id)
    ensures target != "" && Find(t, target).Some? ==> Find(r, target) == Some(RaisedEntry(Find(t, target).value, recordSecret))
    ensures target == "" || Find(t, target).None? ==> r == t
    ensures UniqueIds(t) ==> UniqueIds(r)
    ensures WithinCaps(t) ==> WithinCaps(r)
  {
    if target == "" then t
    else match Find(t, target)
      case None => t
      case Some(e) => Upsert(t, RaisedEntry(e, recordSecret))
  }

  /** One qualifying tier: create its skill at 1 (and raise), or escalate it to 2. */
  function GrantTier(t: seq<EquippedSkill>, tier: SetLevel, flags: SlotPresence, c: Catalog): (r: seq<EquippedSkill>)
    ensures UniqueIds(t) ==> UniqueIds(r)
    ensures WithinCaps(t) ==> WithinCaps(r)
  {
    match Find(t, tier.id)
    case Some(e) => Upsert(t, e.(equippedCount := 2, equippedArmorCount := 2))
    case None =>
      var skill := c.getSkill(tier.id);
      Raise(Upsert(t, SetBonusEntry(tier.id, skill, flags)), skill.raiseSkillId, true)
  }

  /**
   * Threshold escalation: the first tier granting a skill creates it as a set
   * bonus with both counts 1 and the slot-presence flags; a tier whose skill
   * already has an entry sets both counts to 2 and changes nothing else. When a
   * created skill raises another skill that has an entry, that entry's cap
   * becomes its full level count, the secret levels record the difference, and
   * the cap never goes down when it was within its level list. Escalation
   * changes no other entry.
   */
  lemma GrantTierEffect(t: seq<EquippedSkill>, tier: SetLevel, flags: SlotPresence, c: Catalog)
    ensures var r := GrantTier(t, tier, flags, c);
      forall id :: id != tier.id && id != c.getSkill(tier.id).raiseSkillId ==> Find(r, id) == Find(t, id)
    ensures var r := GrantTier(t, tier, flags, c);
      && Find(r, tier.id).Some?
      && (Find(t, tier.id).Some? ==>
            Find(r, tier.id) == Some(Find(t, tier.id).value.(equippedCount := 2, equippedArmorCount := 2)))
      && (Find(t, tier.id).None? ==>
            var e := Find(r, tier.id).value;
            && e.equippedCount == 1 && e.equippedArmorCount == 1 && e.isSetBonus && !e.isNatureBonus
            && e.headCount == flags.head && e.chestCount == flags.chest && e.handsCount == flags.hands
            && e.legsCount == flags.legs && e.feetCount == flags.feet
            && e.totalLevelCount == c.getSkill(tier.id).levelCount)
    ensures var r := GrantTier(t, tier, flags, c);
      Find(t, tier.id).Some? ==> forall id :: id != tier.id ==> Find(r, id) == Find(t, id)
    ensures var r := GrantTier(t, tier, flags, c);
      Find(t, tier.id).None? ==> Find(r, tier.id) == Some(SetBonusEntry(tier.id, c.getSkill(tier.id), flags))
    ensures var r := GrantTier(t, tier, flags, c);
      var target := c.getSkill(tier.id).raiseSkillId;
      Find(t, tier.id).None? && target != "" && target != tier.id && Find(t, target).Some? ==>
        var before := Find(t, target).value;
        var after := Find(r, target).value;
        && Find(r, target).Some?
        && after == RaisedEntry(before, true)
        && after.totalLevelCount == before.skill.levelCount
        && after.secretLevelCount == before.skill.levelCount - before.totalLevelCount
        && (WithinCaps(t) ==> before.totalLevelCount <= after.totalLevelCount && after.secretLevelCount >= 0)
    ensures var r := GrantTier(t, tier, flags, c);
      var target := c.getSkill(tier.id).raiseSkillId;
      target == "" || Find(t, target).None? ==> forall id :: id != tier.id ==> Find(r, id) == Find(t, id)
  {
    if Find(t, tier.id).None? {
      var skill := c.getSkill(tier.id);
      var e := SetBonusEntry(tier.id, skill, flags);
      var u := Upsert(t, e);
      assert Find(u, tier.id) == Some(e);
      if skill.raiseSkillId != "" && skill.raiseSkillId != tier.id && Find(t, skill.raiseSkillId).None? {
        assert Find(u, skill.raiseSkillId).None?;
      }
      if skill.raiseSkillId == tier.id {
        assert RaisedEntry(e, true) == e;
      }
      var target := skill.raiseSkillId;
      if target != "" && target != tier.id && Find(t, target).Some? {
        var before := Find(t, target).value;
        assert Find(u, target) == Some(before);
        assert before in t;
      }
    }
  }

  // ---------------------------------------------------------------------------
  // The nature bonus

  /** The nature skills of the two Gaia tiers; every other tier has none. */
  function NatureSkills(tierId: string): seq<SkillRef> {
    if tierId == "gaiasVeil" then
      [SkillRef("windproof", 3), SkillRef("earplugs", 3), SkillRef("tremorResistance", 3), SkillRef("flinchFree", 3)]
    else if tierId == "trueGaiasVeil" then
      [SkillRef("windproof", 5), SkillRef("earplugs", 5), SkillRef("tremorResistance", 3), SkillRef("flinchFree", 3)]
    else []
  }

  /** The new entry of a nature skill. */
  function NatureEntry(nature: SkillRef, skill: SkillDef): EquippedSkill {
    NewEntry(nature.id, skill, skill.levelCount).(
      isNatureBonus := true, equippedCount := nature.level, equippedArmorCount := nature.level)
  }

  /** An existing entry merged with a nature skill: max merge, and the nature flag rule. */
  function NatureMerged(e: EquippedSkill, nature: SkillRef): (r: EquippedSkill)
    ensures r.equippedCount == Max(e.equippedCount, nature.level)
    ensures r.equippedArmorCount == Max(e.equippedArmorCount, nature.level)
    ensures e.isNatureBonus ==> r.isNatureBonus
    ensures !e.isNatureBonus ==> (r.isNatureBonus <==> e.equippedCount <= nature.level)
    ensures r == e.(equippedCount := r.equippedCount, equippedArmorCount := r.equippedArmorCount,
                    isNatureBonus := r.isNatureBonus)
  {
    var flag := if !e.isNatureBonus then (if e.equippedCount > nature.level then false else true) else e.isNatureBonus;
    e.(isNatureBonus := flag,
       equippedCount := Max(e.equippedCount, nature.level),
       equippedArmorCount := Max(e.equippedArmorCount, nature.level))
  }

  /** One nature skill: created (and raising its target's cap), or max-merged. */
  function NatureStep(t: seq<EquippedSkill>, nature: SkillRef, c: Catalog): (r: seq<EquippedSkill>)
    ensures UniqueIds(t) ==> UniqueIds(r)
    ensures WithinCaps(t) ==> WithinCaps(r)
  {
    match Find(t, nature.id)
    case Some(e) => Upsert(t, NatureMerged(e, nature))
    case None =>
      var skill := c.getSkill(nature.id);
      var u := Upsert(t, NatureEntry(nature, skill));
      assert WithinCaps(t) ==> WithinCaps(u);
      Raise(u, skill.raiseSkillId, false)
  }

  /**
   * An existing entry of a nature skill is max-merged; a missing one is created
   * as a nature bonus, raising its own cap when it names itself; only the nature
   * skill and its raise target can change, and a merge changes no other entry.
   */
  lemma NatureStepEffect(t: seq<EquippedSkill>, nature: SkillRef, c: Catalog)
    ensures var r := NatureStep(t, nature, c);
      forall id :: id != nature.id && id != c.getSkill(nature.id).raiseSkillId ==> Find(r, id) == Find(t, id)
    ensures var r := NatureStep(t, nature, c);
      Find(t, nature.id).Some? ==> Find(r, nature.id) == Some(NatureMerged(Find(t, nature.id).value, nature))
    ensures var r := NatureStep(t, nature, c);
      Find(t, nature.id).Some? ==> forall id :: id != nature.id ==> Find(r, id) == Find(t, id)
    ensures var r := NatureStep(t, nature, c);
      Find(t, nature.id).None? ==>
        Find(r, nature.id) == Some(RaisedEntry(NatureEntry(nature, c.getSkill(nature.id)), false))
    ensures var r := NatureStep(t, nature, c);
      var target := c.getSkill(nature.id).raiseSkillId;
      Find(t, nature.id).None? && target != "" && target != nature.id && Find(t, target).Some? ==>
        Find(r, target) == Some(RaisedEntry(Find(t, target).value, false))
    ensures var r := NatureStep(t, nature, c);
      var target := c.getSkill(nature.id).raiseSkillId;
      target == "" || Find(t, target).None? ==> forall id :: id != nature.id ==> Find(r, id) == Find(t, id)
  {
    if Find(t, nature.id).None? {
      var skill := c.getSkill(nature.id);
      var u := Upsert(t, NatureEntry(nature, skill));
      var target := skill.raiseSkillId;
      if target != "" && target != nature.id && Find(t, target).None? {
        assert Find(u, target).None?;
      }
      if target != "" && target != nature.id && Find(t, target).Some? {
        assert Find(u, target) == Find(t, target);
      }
    }
  }

  function NaturePass(t: seq<EquippedSkill>, natures: seq<SkillRef>, c: Catalog): (r: seq<EquippedSkill>)
    ensures UniqueIds(t) ==> UniqueIds(r)
    ensures WithinCaps(t) ==> WithinCaps(r)
    decreases |natures|
  {
    if |natures| == 0 then t
    else NatureStep(NaturePass(t, natures[..|natures| - 1], c), natures[|natures| - 1], c)
  }

  /** One qualifying tier, followed by its nature skills while a tool is active. */
  function TierStep(t: seq<EquippedSkill>, tier: SetLevel, flags: SlotPresence, c: Catalog, isSomeToolActive: bool)
    : (r: seq<EquippedSkill>)
    ensures UniqueIds(t) ==> UniqueIds(r)
    ensures WithinCaps(t) ==> WithinCaps(r)
  {
    var granted := GrantTier(t, tier, flags, c);
    if isSomeToolActive then NaturePass(granted, NatureSkills(tier.id), c) else granted
  }

  function TierPass(t: seq<EquippedSkill>, tiers: seq<SetLevel>, flags: SlotPresence, c: Catalog, isSomeToolActive: bool)
    : (r: seq<EquippedSkill>)
    ensures UniqueIds(t) ==> UniqueIds(r)
    ensures WithinCaps(t) ==> WithinCaps(r)
    decreases |tiers|
  {
    if |tiers| == 0 then t
    else TierStep(TierPass(t, tiers[..|tiers| - 1], flags, c, isSomeToolActive), tiers[|tiers| - 1], flags, c, isSomeToolActive)
  }

  /** Everything one set does to the table. */
  function SetStep(t: seq<EquippedSkill>, name: string, parts: seq<(string, ItemType)>, c: Catalog, isSomeToolActive: bool)
    : (r: seq<EquippedSkill>)
    ensures UniqueIds(t) ==> UniqueIds(r)
    ensures WithinCaps(t) ==> WithinCaps(r)
  {
    var tiers := Qualifying(c.getSetBonus(name).setLevels, Occurrences(Names(parts), name));
    TierPass(t, tiers, Presence(parts, name), c, isSomeToolActive)
  }

  function SetTablePass(t: seq<EquippedSkill>, names: seq<string>, parts: seq<(string, ItemType)>, c: Catalog, isSomeToolActive: bool)
    : (r: seq<EquippedSkill>)
    ensures UniqueIds(t) ==> UniqueIds(r)
    ensures WithinCaps(t) ==> WithinCaps(r)
    decreases |names|
  {
    if |names| == 0 then t
    else SetStep(SetTablePass(t, names[..|names| - 1], parts, c, isSomeToolActive), names[|names| - 1], parts, c, isSomeToolActive)
  }

  // ---------------------------------------------------------------------------
  // The set-bonus records

  /** One detail per catalog tier, in catalog order, whether reached or not. */
  function Details(setLevels: seq<SetLevel>, c: Catalog): (r: seq<SetBonusDetail>)
    ensures |r| == |setLevels|
    ensures forall i :: 0 <= i < |r| ==> r[i] == SetBonusDetail(setLevels[i].pieces, c.getSkill(setLevels[i].id))
    decreases |setLevels|
  {
    if |setLevels| == 0 then []
    else
      var tier := setLevels[|setLevels| - 1];
      Details(setLevels[..|setLevels| - 1], c) + [SetBonusDetail(tier.pieces, c.getSkill(tier.id))]
  }

  function SetBonusRecord(name: string, parts: seq<(string, ItemType)>, c: Catalog): EquippedSetBonus {
    var setBonus := c.getSetBonus(name);
    var flags := Presence(parts, name);
    EquippedSetBonus(setBonus.id, Occurrences(Names(parts), name),
                     flags.head, flags.chest, flags.hands, flags.legs, flags.feet,
                     Details(setBonus.setLevels, c))
  }

  function SetRecords(names: seq<string>, parts: seq<(string, ItemType)>, c: Catalog): seq<EquippedSetBonus>
    decreases |names|
  {
    if |names| == 0 then []
    else SetRecords(names[..|names| - 1], parts, c) + [SetBonusRecord(names[|names| - 1], parts, c)]
  }

  /** One record per set name, in the same order. */
  lemma {:induction false} SetRecordsEach(names: seq<string>, parts: seq<(string, ItemType)>, c: Catalog)
    ensures |SetRecords(names, parts, c)| == |names|
    ensures forall i :: 0 <= i < |names| ==> SetRecords(names, parts, c)[i] == SetBonusRecord(names[i], parts, c)
    decreases |names|
  {
    if |names| > 0 {
      SetRecordsEach(names[..|names| - 1], parts, c);
    }
  }

  /** The whole set-bonus pass: the new table and the set-bonus records. */
  function SetPass(t: seq<EquippedSkill>, items: seq<Item>, c: Catalog, isSomeToolActive: bool)
    : (r: (seq<EquippedSkill>, seq<EquippedSetBonus>))
    ensures UniqueIds(t) ==> UniqueIds(r.0)
    ensures WithinCaps(t) ==> WithinCaps(r.0)
  {
    var parts := Markers(items);
    var names := Uniq(Names(parts));
    (SetTablePass(t, names, parts, c, isSomeToolActive), SetRecords(names, parts, c))
  }

  // ---------------------------------------------------------------------------
  // The loops of addSetSkills

  /** The inner marker-collecting loop, over the skill references of one item. */
  method CollectItemMarkers(item: Item, setBonusNames: seq<string>, setBonusParts: seq<(string, ItemType)>)
    returns (names: seq<string>, parts: seq<(string, ItemType)>)
    requires setBonusNames == Names(setBonusParts)
    ensures parts == setBonusParts + ItemMarkers(item.itemType, item.skills)
    ensures names == Names(parts)
  {
    names, parts := setBonusNames, setBonusParts;
    var j := 0;
    while j < |item.skills|
      invariant 0 <= j <= |item.skills|
      invariant parts == setBonusParts + ItemMarkers(item.itemType, item.skills[..j])
      invariant names == Names(parts)
    {
      var skill := item.skills[j];
      assert item.skills[..j + 1][..j] == item.skills[..j];
      if skill.level == 0 && |skill.id| > 1 {
        names := names + [skill.id];
        parts := parts + [(skill.id, item.itemType)];
      }
      j := j + 1;
    }
    assert item.skills[..j] == item.skills;
  }

  /** The marker-collecting loop: `setBonusNames` and `setBonusParts`, pushed together. */
  method CollectMarkers(items: seq<Item>) returns (setBonusNames: seq<string>, setBonusParts: seq<(string, ItemType)>)
    ensures setBonusParts == Markers(items)
    ensures setBonusNames == Names(setBonusParts)
  {
    setBonusNames, setBonusParts := [], [];
    var i := 0;
    while i < |items|
      invariant 0 <= i <= |items|
      invariant setBonusParts == Markers(items[..i])
      invariant setBonusNames == Names(setBonusParts)
    {
      assert items[..i + 1][..i] == items[..i];
      setBonusNames, setBonusParts := CollectItemMarkers(items[i], setBonusNames, setBonusParts);
      i := i + 1;
    }
    assert items[..i] == items;
  }

  /** The create-or-escalate branch of the tier loop, with the raise. */
  method GrantSetTier(equippedSkills: seq<EquippedSkill>, setLevel: SetLevel, flags: SlotPresence, c: Catalog)
    returns (r: seq<EquippedSkill>)
    ensures r == GrantTier(equippedSkills, setLevel, flags, c)
  {
    r := equippedSkills;
    var found := IndexOf(r, setLevel.id);
    if found.None? {
      var skill := c.getSkill(setLevel.id);
      var equippedSkill := NewEntry(setLevel.id, skill, skill.levelCount);
      equippedSkill := equippedSkill.(headCount := flags.head, chestCount := flags.chest, handsCount := flags.hands,
                                      legsCount := flags.legs, feetCount := flags.feet);
      equippedSkill := equippedSkill.(isSetBonus := true, equippedCount := 1, equippedArmorCount := 1);
      r := r + [equippedSkill];
      assert r == Upsert(equippedSkills, SetBonusEntry(setLevel.id, skill, flags));
      if skill.raiseSkillId != "" {
        var toRaise := IndexOf(r, skill.raiseSkillId);
        if toRaise.Some? {
          var k := toRaise.value;
          var raised := r[k].(secretLevelCount := r[k].skill.levelCount - r[k].totalLevelCount);
          raised := raised.(totalLevelCount := r[k].skill.levelCount);
          assert raised == RaisedEntry(r[k], true);
          r := r[k := raised];
        }
      }
    } else {
      var k := found.value;
      r := r[k := r[k].(equippedCount := 2, equippedArmorCount := 2)];
    }
  }

  /** The create-or-merge body of the nature loop, with the raise. */
  method AddNatureSkill(equippedSkills: seq<EquippedSkill>, nature: SkillRef, c: Catalog) returns (r: seq<EquippedSkill>)
    ensures r == NatureStep(equippedSkills, nature, c)
  {
    r := equippedSkills;
    var found := IndexOf(r, nature.id);
    if found.None? {
      var skill := c.getSkill(nature.id);
      var natureEquippedSkill := NewEntry(nature.id, skill, skill.levelCount);
      natureEquippedSkill := natureEquippedSkill.(isNatureBonus := true);
      natureEquippedSkill := natureEquippedSkill.(equippedCount := nature.level, equippedArmorCount := nature.level);
      r := r + [natureEquippedSkill];
      assert r == Upsert(equippedSkills, NatureEntry(nature, skill));
      if skill.raiseSkillId != "" {
        var toRaise := IndexOf(r, skill.raiseSkillId);
        if toRaise.Some? {
          var k := toRaise.value;
          assert r[k].(totalLevelCount := r[k].skill.levelCount) == RaisedEntry(r[k], false);
          r := r[k := r[k].(totalLevelCount := r[k].skill.levelCount)];
        }
      }
    } else {
      var k := found.value;
      var natureEquippedSkill := r[k];
      if !natureEquippedSkill.isNatureBonus {
        if natureEquippedSkill.equippedCount > nature.level {
          natureEquippedSkill := natureEquippedSkill.(isNatureBonus := false);
        } else {
          natureEquippedSkill := natureEquippedSkill.(isNatureBonus := true);
        }
      }
      natureEquippedSkill := natureEquippedSkill.(equippedCount := Max(natureEquippedSkill.equippedCount, nature.level));
      natureEquippedSkill := natureEquippedSkill.(equippedArmorCount := Max(natureEquippedSkill.equippedArmorCount, nature.level));
      assert natureEquippedSkill == NatureMerged(r[k], nature);
      r := r[k := natureEquippedSkill];
    }
  }

  /** The nature loop of one tier, over its nature skills. */
  method AddNatureSkills(equippedSkills: seq<EquippedSkill>, natureSkills: seq<SkillRef>, c: Catalog)
    returns (r: seq<EquippedSkill>)
    ensures r == NaturePass(equippedSkills, natureSkills, c)
  {
    r := equippedSkills;
    var i := 0;
    while i < |natureSkills|
      invariant 0 <= i <= |natureSkills|
      invariant r == NaturePass(equippedSkills, natureSkills[..i], c)
    {
      assert natureSkills[..i + 1][..i] == natureSkills[..i];
      assert NaturePass(equippedSkills, natureSkills[..i + 1], c) == NatureStep(r, natureSkills[i], c);
      r := AddNatureSkill(r, natureSkills[i], c);
      i := i + 1;
    }
    assert natureSkills[..i] == natureSkills;
  }

  /** The body of the tier loop: grant the tier, then its nature skills while a tool is active. */
  method AddSetTier(equippedSkills: seq<EquippedSkill>, setLevel: SetLevel, flags: SlotPresence, c: Catalog,
                    isSomeToolActive: bool)
    returns (r: seq<EquippedSkill>)
    ensures r == TierStep(equippedSkills, setLevel, flags, c, isSomeToolActive)
  {
    r := GrantSetTier(equippedSkills, setLevel, flags, c);
    if isSomeToolActive {
      var natureSkills := NatureSkills(setLevel.id);
      if |natureSkills| > 0 {
        r := AddNatureSkills(r, natureSkills, c);
      }
    }
  }

  /** The loop over the qualifying tiers of one set. */
  method AddSetTiers(equippedSkills: seq<EquippedSkill>, setLevels: seq<SetLevel>, flags: SlotPresence, c: Catalog,
                     isSomeToolActive: bool)
    returns (r: seq<EquippedSkill>)
    ensures r == TierPass(equippedSkills, setLevels, flags, c, isSomeToolActive)
  {
    r := equippedSkills;
    var i := 0;
    while i < |setLevels|
      invariant 0 <= i <= |setLevels|
      invariant r == TierPass(equippedSkills, setLevels[..i], flags, c, isSomeToolActive)
    {
      assert setLevels[..i + 1][..i] == setLevels[..i];
      assert TierPass(equippedSkills, setLevels[..i + 1], flags, c, isSomeToolActive)
          == TierStep(r, setLevels[i], flags, c, isSomeToolActive);
      r := AddSetTier(r, setLevels[i], flags, c, isSomeToolActive);
      i := i + 1;
    }
    assert setLevels[..i] == setLevels;
  }

  /** The record of one set: its marker count, its flags and one detail per catalog tier. */
  method BuildSetBonus(setBonusName: string, setBonusNames: seq<string>, setBonusParts: seq<(string, ItemType)>,
                       c: Catalog)
    returns (equippedSetBonus: EquippedSetBonus)
    requires setBonusNames == Names(setBonusParts)
    ensures equippedSetBonus == SetBonusRecord(setBonusName, setBonusParts, c)
  {
    var setBonus := c.getSetBonus(setBonusName);
    var flags := Presence(setBonusParts, setBonusName);
    var details: seq<SetBonusDetail> := [];
    var i := 0;
    while i < |setBonus.setLevels|
      invariant 0 <= i <= |setBonus.setLevels|
      invariant details == Details(setBonus.setLevels[..i], c)
    {
      var bonusLevel := setBonus.setLevels[i];
      assert setBonus.setLevels[..i + 1][..i] == setBonus.setLevels[..i];
      details := details + [SetBonusDetail(bonusLevel.pieces, c.getSkill(bonusLevel.id))];
      i := i + 1;
    }
    assert setBonus.setLevels[..i] == setBonus.setLevels;
    equippedSetBonus := EquippedSetBonus(setBonus.id, Occurrences(setBonusNames, setBonusName),
                                         flags.head, flags.chest, flags.hands, flags.legs, flags.feet, details);
  }

  /** The body of the set loop: grant the set's qualifying tiers, then build its record. */
  method AddSetBonus(equippedSkills: seq<EquippedSkill>, setBonusName: string, setBonusNames: seq<string>,
                     setBonusParts: seq<(string, ItemType)>, c: Catalog, isSomeToolActive: bool)
    returns (r: seq<EquippedSkill>, equippedSetBonus: EquippedSetBonus)
    requires setBonusNames == Names(setBonusParts)
    ensures r == SetStep(equippedSkills, setBonusName, setBonusParts, c, isSomeToolActive)
    ensures equippedSetBonus == SetBonusRecord(setBonusName, setBonusParts, c)
  {
    var setBonus := c.getSetBonus(setBonusName);
    var setLevels := Qualifying(setBonus.setLevels, Occurrences(setBonusNames, setBonusName));
    var flags := Presence(setBonusParts, setBonusName);
    r := AddSetTiers(equippedSkills, setLevels, flags, c, isSomeToolActive);
    equippedSetBonus := BuildSetBonus(setBonusName, setBonusNames, setBonusParts, c);
  }

  /** The set loop, over the distinct set names. */
  method AddSetBonuses(equippedSkills: seq<EquippedSkill>, setNames: seq<string>, setBonusNames: seq<string>,
                       setBonusParts: seq<(string, ItemType)>, c: Catalog, isSomeToolActive: bool)
    returns (r: seq<EquippedSkill>, equippedSetBonuses: seq<EquippedSetBonus>)
    requires setBonusNames == Names(setBonusParts)
    ensures r == SetTablePass(equippedSkills, setNames, setBonusParts, c, isSomeToolActive)
    ensures equippedSetBonuses == SetRecords(setNames, setBonusParts, c)
  {
    r, equippedSetBonuses := equippedSkills, [];
    var i := 0;
    while i < |setNames|
      invariant 0 <= i <= |setNames|
      invariant r == SetTablePass(equippedSkills, setNames[..i], setBonusParts, c, isSomeToolActive)
      invariant equippedSetBonuses == SetRecords(setNames[..i], setBonusParts, c)
    {
      assert setNames[..i + 1][..i] == setNames[..i];
      assert SetTablePass(equippedSkills, setNames[..i + 1], setBonusParts, c, isSomeToolActive)
          == SetStep(r, setNames[i], setBonusParts, c, isSomeToolActive);
      assert SetRecords(setNames[..i + 1], setBonusParts, c)
          == equippedSetBonuses + [SetBonusRecord(setNames[i], setBonusParts, c)];
      var equippedSetBonus;
      r, equippedSetBonus := AddSetBonus(r, setNames[i], setBonusNames, setBonusParts, c, isSomeToolActive);
      equippedSetBonuses := equippedSetBonuses + [equippedSetBonus];
      i := i + 1;
    }
    assert setNames[..i] == setNames;
  }

  /** `addSetSkills`: collect the markers, then one iteration per distinct set. */
  method AddSetSkills(items: seq<Item>, equippedSkills: seq<EquippedSkill>, c: Catalog, isSomeToolActive: bool)
    returns (r: seq<EquippedSkill>, equippedSetBonuses: seq<EquippedSetBonus>)
    ensures (r, equippedSetBonuses) == SetPass(equippedSkills, items, c, isSomeToolActive)
  {
    var setBonusNames, setBonusParts := CollectMarkers(items);
    r, equippedSetBonuses := AddSetBonuses(equippedSkills, Uniq(setBonusNames), setBonusNames, setBonusParts,
                                           c, isSomeToolActive);
  }

  // ---------------------------------------------------------------------------
  // What the set-bonus pass promises

  /** The markers of set `name` among `refs`. */
  function RefMarkerCount(refs: seq<SkillRef>, name: string): nat
    decreases |refs|
  {
    if |refs| == 0 then 0
    else RefMarkerCount(refs[..|refs| - 1], name) + (if IsMarker(refs[|refs| - 1]) && refs[|refs| - 1].id == name then 1 else 0)
  }

  /** The pieces of set `name` among the equipped items: its markers over all items. */
  function MarkerCount(items: seq<Item>, name: string): nat
    decreases |items|
  {
    if |items| == 0 then 0
    else MarkerCount(items[..|items| - 1], name) + RefMarkerCount(items[|items| - 1].skills, name)
  }

  /** Some equipped item of type `itemType` carries a marker of set `name`. */
  ghost predicate HasPiece(items: seq<Item>, name: string, itemType: ItemType) {
    exists item :: item in items && item.itemType == itemType
      && exists ref :: ref in item.skills && IsMarker(ref) && ref.id == name
  }

  lemma NamesAppend(a: seq<(string, ItemType)>, b: seq<(string, ItemType)>)
    ensures Names(a + b) == Names(a) + Names(b)
  {
  }

  lemma {:induction false} ItemMarkerOccurrences(itemType: ItemType, refs: seq<SkillRef>, name: string)
    ensures Occurrences(Names(ItemMarkers(itemType, refs)), name) == RefMarkerCount(refs, name)
    decreases |refs|
  {
    if |refs| > 0 {
      var ref := refs[|refs| - 1];
      var prefix := ItemMarkers(itemType, refs[..|refs| - 1]);
      var added := if IsMarker(ref) then [(ref.id, itemType)] else [];
      assert ItemMarkers(itemType, refs) == prefix + added;
      ItemMarkerOccurrences(itemType, refs[..|refs| - 1], name);
      NamesAppend(prefix, added);
      OccurrencesAppend(Names(prefix), Names(added), name);
      assert Occurrences(Names(added), name) == if IsMarker(ref) && ref.id == name then 1 else 0 by {
        if IsMarker(ref) { assert Names(added) == [ref.id]; assert Names(added)[..0] == []; }
        else { assert Names(added) == []; }
      }
    }
  }

  /**
   * `_.countBy(setBonusNames)[name]` is the number of pieces of set `name`: one
   * per level-0, multi-character reference to it over all items.
   */
  lemma {:induction false} SetCountIsMarkerCount(items: seq<Item>, name: string)
    ensures Occurrences(Names(Markers(items)), name) == MarkerCount(items, name)
    decreases |items|
  {
    if |items| > 0 {
      var item := items[|items| - 1];
      SetCountIsMarkerCount(items[..|items| - 1], name);
      NamesAppend(Markers(items[..|items| - 1]), ItemMarkers(item.itemType, item.skills));
      OccurrencesAppend(Names(Markers(items[..|items| - 1])), Names(ItemMarkers(item.itemType, item.skills)), name);
      ItemMarkerOccurrences(item.itemType, item.skills, name);
    }
  }

  /**
   * Threshold: a tier of set `name` qualifies iff it is one of the set's tiers
   * and needs no more pieces than the set has; the set's record counts exactly
   * those pieces and has one detail per catalog tier, in catalog order.
   */
  lemma SetThreshold(items: seq<Item>, c: Catalog, name: string)
    ensures forall tier :: tier in Qualifying(c.getSetBonus(name).setLevels, Occurrences(Names(Markers(items)), name))
              <==> tier in c.getSetBonus(name).setLevels && tier.pieces <= MarkerCount(items, name)
    ensures var record := SetBonusRecord(name, Markers(items), c);
      var setLevels := c.getSetBonus(name).setLevels;
      && record.id == c.getSetBonus(name).id
      && record.equippedCount == MarkerCount(items, name)
      && |record.details| == |setLevels|
      && forall i :: 0 <= i < |setLevels| ==>
           record.details[i].requiredCount == setLevels[i].pieces && record.details[i].skill == c.getSkill(setLevels[i].id)
  {
    SetCountIsMarkerCount(items, name);
  }

  /** The slot-presence flags of set `name` are 1 exactly for the slots holding one of its pieces. */
  lemma PresenceFlags(items: seq<Item>, name: string)
    ensures var flags := Presence(Markers(items), name);
      && flags.head == (if HasPiece(items, name, Head) then 1 else 0)
      && flags.chest == (if HasPiece(items, name, Chest) then 1 else 0)
      && flags.hands == (if HasPiece(items, name, Hands) then 1 else 0)
      && flags.legs == (if HasPiece(items, name, Legs) then 1 else 0)
      && flags.feet == (if HasPiece(items, name, Feet) then 1 else 0)
  {
    MarkersMembers(items);
    forall itemType | itemType in {Head, Chest, Hands, Legs, Feet}
      ensures (name, itemType) in Markers(items) <==> HasPiece(items, name, itemType)
    {
      if (name, itemType) in Markers(items) {
        var item :| item in items && (name, itemType) in ItemMarkers(item.itemType, item.skills);
        ItemMarkersMembers(item.itemType, item.skills);
        assert item.itemType == itemType;
      }
      if HasPiece(items, name, itemType) {
        var item :| item in items && item.itemType == itemType
          && exists ref :: ref in item.skills && IsMarker(ref) && ref.id == name;
        ItemMarkersMembers(item.itemType, item.skills);
        assert (name, itemType) in ItemMarkers(item.itemType, item.skills);
      }
    }
  }

  /**
   * The set-bonus records: one per distinct set that has a piece, each set once,
   * in the order the sets first appear among the markers; each record is that
   * set's record.
   */
  lemma SetPassRecords(t: seq<EquippedSkill>, items: seq<Item>, c: Catalog, isSomeToolActive: bool)
    ensures var records := SetPass(t, items, c, isSomeToolActive).1;
      var names := Uniq(Names(Markers(items)));
      && |records| == |names|
      && (forall name :: name in names <==> MarkerCount(items, name) > 0)
      && (forall i, j :: 0 <= i < j < |names| ==> names[i] != names[j])
      && (forall i :: 0 <= i < |records| ==> records[i] == SetBonusRecord(names[i], Markers(items), c))
      && (forall i, j :: 0 <= i < j < |names| ==>
            FirstIndex(Names(Markers(items)), names[i]) < FirstIndex(Names(Markers(items)), names[j]))
  {
    var names := Uniq(Names(Markers(items)));
    SetRecordsEach(names, Markers(items), c);
    UniqOrder(Names(Markers(items)));
    forall name ensures name in names <==> MarkerCount(items, name) > 0 {
      SetCountIsMarkerCount(items, name);
    }
  }

  // ---------------------------------------------------------------------------
  // The whole effect of the set pass on the table

  /** What one qualifying tier may change: its skill, its skill's raise target and, while a tool is active, its nature skills and their raise targets. */
  ghost predicate TierTouches(tier: SetLevel, c: Catalog, isSomeToolActive: bool, id: string) {
    || id == tier.id
    || id == c.getSkill(tier.id).raiseSkillId
    || (isSomeToolActive && exists nature :: nature in NatureSkills(tier.id) && (id == nature.id || id == c.getSkill(nature.id).raiseSkillId))
  }

  /** No step of the set pass removes an entry. */
  lemma GrantTierKeeps(t: seq<EquippedSkill>, tier: SetLevel, flags: SlotPresence, c: Catalog, id: string)
    ensures Find(t, id).Some? || id == tier.id ==> Find(GrantTier(t, tier, flags, c), id).Some?
  {
    GrantTierEffect(t, tier, flags, c);
    if Find(t, tier.id).None? {
      var skill := c.getSkill(tier.id);
      var u := Upsert(t, SetBonusEntry(tier.id, skill, flags));
      assert Find(t, id).Some? ==> Find(u, id).Some?;
    }
  }

  lemma {:induction false} NaturePassKeeps(t: seq<EquippedSkill>, natures: seq<SkillRef>, c: Catalog, id: string)
    ensures Find(t, id).Some? ==> Find(NaturePass(t, natures, c), id).Some?
    decreases |natures|
  {
    if |natures| > 0 {
      var prev := NaturePass(t, natures[..|natures| - 1], c);
      var nature := natures[|natures| - 1];
      NaturePassKeeps(t, natures[..|natures| - 1], c, id);
      NatureStepEffect(prev, nature, c);
      if Find(prev, nature.id).None? {
        var skill := c.getSkill(nature.id);
        var u := Upsert(prev, NatureEntry(nature, skill));
        assert Find(prev, id).Some? ==> Find(u, id).Some?;
      }
    }
  }

  /** Only the nature skills and their raise targets can change. */
  lemma {:induction false} NaturePassFrame(t: seq<EquippedSkill>, natures: seq<SkillRef>, c: Catalog, id: string)
    ensures (forall nature :: nature in natures ==> id != nature.id && id != c.getSkill(nature.id).raiseSkillId) ==>
              Find(NaturePass(t, natures, c), id) == Find(t, id)
    decreases |natures|
  {
    if |natures| > 0 && forall nature :: nature in natures ==> id != nature.id && id != c.getSkill(nature.id).raiseSkillId {
      var init := natures[..|natures| - 1];
      assert forall nature :: nature in init ==> nature in natures;
      NaturePassFrame(t, init, c, id);
      NatureStepEffect(NaturePass(t, init, c), natures[|natures| - 1], c);
    }
  }

  /** After the tiers of one set, every tier's skill has an entry, and so has every skill that had one before. */
  lemma {:induction false} TierPassGrants(t: seq<EquippedSkill>, tiers: seq<SetLevel>, flags: SlotPresence, c: Catalog,
                                          isSomeToolActive: bool, id: string)
    ensures Find(t, id).Some? || (exists tier :: tier in tiers && tier.id == id) ==>
              Find(TierPass(t, tiers, flags, c, isSomeToolActive), id).Some?
    decreases |tiers|
  {
    if |tiers| > 0 {
      var init := tiers[..|tiers| - 1];
      var last := tiers[|tiers| - 1];
      var prev := TierPass(t, init, flags, c, isSomeToolActive);
      TierPassGrants(t, init, flags, c, isSomeToolActive, id);
      if Find(t, id).Some? || (exists tier :: tier in tiers && tier.id == id) {
        if id != last.id && Find(t, id).None? {
          var tier :| tier in tiers && tier.id == id;
          assert tier in init;
        }
        GrantTierKeeps(prev, last, flags, c, id);
        NaturePassKeeps(GrantTier(prev, last, flags, c), NatureSkills(last.id), c, id);
      }
    }
  }

  lemma TierStepFrame(t: seq<EquippedSkill>, tier: SetLevel, flags: SlotPresence, c: Catalog, isSomeToolActive: bool, id: string)
    ensures !TierTouches(tier, c, isSomeToolActive, id) ==> Find(TierStep(t, tier, flags, c, isSomeToolActive), id) == Find(t, id)
  {
    if !TierTouches(tier, c, isSomeToolActive, id) {
      var granted := GrantTier(t, tier, flags, c);
      GrantTierEffect(t, tier, flags, c);
      assert Find(granted, id) == Find(t, id);
      if isSomeToolActive {
        NaturePassFrame(granted, NatureSkills(tier.id), c, id);
      }
    }
  }

  /** Only what the tiers of one set touch can change. */
  lemma {:induction false} TierPassFrame(t: seq<EquippedSkill>, tiers: seq<SetLevel>, flags: SlotPresence, c: Catalog,
                                         isSomeToolActive: bool, id: string)
    ensures (forall tier :: tier in tiers ==> !TierTouches(tier, c, isSomeToolActive, id)) ==>
              Find(TierPass(t, tiers, flags, c, isSomeToolActive), id) == Find(t, id)
    decreases |tiers|
  {
    if |tiers| > 0 && forall tier :: tier in tiers ==> !TierTouches(tier, c, isSomeToolActive, id) {
      var init := tiers[..|tiers| - 1];
      var last := tiers[|tiers| - 1];
      assert forall tier :: tier in init ==> tier in tiers;
      TierPassFrame(t, init, flags, c, isSomeToolActive, id);
      TierStepFrame(TierPass(t, init, flags, c, isSomeToolActive), last, flags, c, isSomeToolActive, id);
    }
  }

  /** The qualifying tiers of set `name`, as the set loop computes them. */
  function SetTiers(name: string, parts: seq<(string, ItemType)>, c: Catalog): seq<SetLevel> {
    Qualifying(c.getSetBonus(name).setLevels, Occurrences(Names(parts), name))
  }

  lemma {:induction false} SetTablePassGrants(t: seq<EquippedSkill>, names: seq<string>, parts: seq<(string, ItemType)>,
                                              c: Catalog, isSomeToolActive: bool, id: string)
    ensures Find(t, id).Some? || (exists name, tier :: name in names && tier in SetTiers(name, parts, c) && tier.id == id) ==>
              Find(SetTablePass(t, names, parts, c, isSomeToolActive), id).Some?
    decreases |names|
  {
    if |names| > 0 {
      var init := names[..|names| - 1];
      var last := names[|names| - 1];
      var prev := SetTablePass(t, init, parts, c, isSomeToolActive);
      SetTablePassGrants(t, init, parts, c, isSomeToolActive, id);
      if Find(t, id).Some? || (exists name, tier :: name in names && tier in SetTiers(name, parts, c) && tier.id == id) {
        if !(exists tier :: tier in SetTiers(last, parts, c) && tier.id == id) && Find(t, id).None? {
          var name, tier :| name in names && tier in SetTiers(name, parts, c) && tier.id == id;
          assert name in init;
        }
        TierPassGrants(prev, SetTiers(last, parts, c), Presence(parts, last), c, isSomeToolActive, id);
      }
    }
  }

  lemma {:induction false} SetTablePassFrame(t: seq<EquippedSkill>, names: seq<string>, parts: seq<(string, ItemType)>,
                                             c: Catalog, isSomeToolActive: bool, id: string)
    ensures (forall name, tier :: name in names && tier in SetTiers(name, parts, c) ==> !TierTouches(tier, c, isSomeToolActive, id)) ==>
              Find(SetTablePass(t, names, parts, c, isSomeToolActive), id) == Find(t, id)
    decreases |names|
  {
    if |names| > 0 && forall name, tier :: name in names && tier in SetTiers(name, parts, c) ==> !TierTouches(tier, c, isSomeToolActive, id) {
      var init := names[..|names| - 1];
      var last := names[|names| - 1];
      assert forall name :: name in init ==> name in names;
      SetTablePassFrame(t, init, parts, c, isSomeToolActive, id);
      TierPassFrame(SetTablePass(t, init, parts, c, isSomeToolActive), SetTiers(last, parts, c), Presence(parts, last), c, isSomeToolActive, id);
    }
  }

  /** What one qualifying tier may create: its skill and, while a tool is active, its nature skills. */
  ghost predicate TierCreates(tier: SetLevel, isSomeToolActive: bool, id: string) {
    || id == tier.id
    || (isSomeToolActive && exists nature :: nature in NatureSkills(tier.id) && id == nature.id)
  }

  /** A tier grant creates no entry but its skill's: a raise target without an entry stays without one. */
  lemma GrantTierCreatesOnly(t: seq<EquippedSkill>, tier: SetLevel, flags: SlotPresence, c: Catalog, id: string)
    ensures Find(t, id).None? && id != tier.id ==> Find(GrantTier(t, tier, flags, c), id).None?
  {
    GrantTierEffect(t, tier, flags, c);
  }

  lemma {:induction false} NaturePassCreatesOnly(t: seq<EquippedSkill>, natures: seq<SkillRef>, c: Catalog, id: string)
    ensures Find(t, id).None? && (forall nature :: nature in natures ==> id != nature.id) ==>
              Find(NaturePass(t, natures, c), id).None?
    decreases |natures|
  {
    if |natures| > 0 && Find(t, id).None? && forall nature :: nature in natures ==> id != nature.id {
      var init := natures[..|natures| - 1];
      assert forall nature :: nature in init ==> nature in natures;
      NaturePassCreatesOnly(t, init, c, id);
      NatureStepEffect(NaturePass(t, init, c), natures[|natures| - 1], c);
    }
  }

  lemma TierStepCreatesOnly(t: seq<EquippedSkill>, tier: SetLevel, flags: SlotPresence, c: Catalog, isSomeToolActive: bool, id: string)
    ensures Find(t, id).None? && !TierCreates(tier, isSomeToolActive, id) ==>
              Find(TierStep(t, tier, flags, c, isSomeToolActive), id).None?
  {
    if Find(t, id).None? && !TierCreates(tier, isSomeToolActive, id) {
      var granted := GrantTier(t, tier, flags, c);
      GrantTierCreatesOnly(t, tier, flags, c, id);
      if isSomeToolActive {
        NaturePassCreatesOnly(granted, NatureSkills(tier.id), c, id);
      }
    }
  }

  lemma {:induction false} TierPassCreatesOnly(t: seq<EquippedSkill>, tiers: seq<SetLevel>, flags: SlotPresence, c: Catalog,
                                               isSomeToolActive: bool, id: string)
    ensures Find(t, id).None? && (forall tier :: tier in tiers ==> !TierCreates(tier, isSomeToolActive, id)) ==>
              Find(TierPass(t, tiers, flags, c, isSomeToolActive), id).None?
    decreases |tiers|
  {
    if |tiers| > 0 && Find(t, id).None? && forall tier :: tier in tiers ==> !TierCreates(tier, isSomeToolActive, id) {
      var init := tiers[..|tiers| - 1];
      assert forall tier :: tier in init ==> tier in tiers;
      TierPassCreatesOnly(t, init, flags, c, isSomeToolActive, id);
      TierStepCreatesOnly(TierPass(t, init, flags, c, isSomeToolActive), tiers[|tiers| - 1], flags, c, isSomeToolActive, id);
    }
  }

  lemma {:induction false} SetTablePassCreatesOnly(t: seq<EquippedSkill>, names: seq<string>, parts: seq<(string, ItemType)>,
                                                   c: Catalog, isSomeToolActive: bool, id: string)
    ensures Find(t, id).None? &&
            (forall name, tier :: name in names && tier in SetTiers(name, parts, c) ==> !TierCreates(tier, isSomeToolActive, id)) ==>
              Find(SetTablePass(t, names, parts, c, isSomeToolActive), id).None?
    decreases |names|
  {
    if |names| > 0 && Find(t, id).None? &&
       forall name, tier :: name in names && tier in SetTiers(name, parts, c) ==> !TierCreates(tier, isSomeToolActive, id) {
      var init := names[..|names| - 1];
      var last := names[|names| - 1];
      assert forall name :: name in init ==> name in names;
      SetTablePassCreatesOnly(t, init, parts, c, isSomeToolActive, id);
      TierPassCreatesOnly(SetTablePass(t, init, parts, c, isSomeToolActive), SetTiers(last, parts, c), Presence(parts, last), c, isSomeToolActive, id);
    }
  }

  /**
   * The whole effect of the set pass on the table: every tier reached by a set
   * with a piece has its skill in the table afterwards, no entry is removed, and
   * an entry that no reached tier touches (its skill, its raise target, and the
   * Gaia nature skills with their raise targets while a tool is active) is left
   * as it was. The only new entries are the skills of reached tiers and, while a
   * tool is active, their Gaia nature skills: a raise target is never created.
   */
  lemma SetPassTable(t: seq<EquippedSkill>, items: seq<Item>, c: Catalog, isSomeToolActive: bool, id: string)
    ensures var r := SetPass(t, items, c, isSomeToolActive).0;
      (Find(t, id).Some? ||
       exists name, tier :: MarkerCount(items, name) > 0 && tier in Qualifying(c.getSetBonus(name).setLevels, MarkerCount(items, name))
                            && tier.id == id)
      ==> Find(r, id).Some?
    ensures var r := SetPass(t, items, c, isSomeToolActive).0;
      (forall name, tier :: MarkerCount(items, name) > 0 && tier in Qualifying(c.getSetBonus(name).setLevels, MarkerCount(items, name))
                            ==> !TierTouches(tier, c, isSomeToolActive, id))
      ==> Find(r, id) == Find(t, id)
    ensures var r := SetPass(t, items, c, isSomeToolActive).0;
      (Find(t, id).None? &&
       forall name, tier :: MarkerCount(items, name) > 0 && tier in Qualifying(c.getSetBonus(name).setLevels, MarkerCount(items, name))
                            ==> !TierCreates(tier, isSomeToolActive, id))
      ==> Find(r, id).None?
  {
    var parts := Markers(items);
    var names := Uniq(Names(parts));
    forall name ensures (name in names <==> MarkerCount(items, name) > 0) && SetTiers(name, parts, c) == Qualifying(c.getSetBonus(name).setLevels, MarkerCount(items, name)) {
      SetCountIsMarkerCount(items, name);
    }
    SetTablePassGrants(t, names, parts, c, isSomeToolActive, id);
    SetTablePassFrame(t, names, parts, c, isSomeToolActive, id);
    SetTablePassCreatesOnly(t, names, parts, c, isSomeToolActive, id);
  }
}
