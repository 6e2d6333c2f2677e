# mhw-builder skill aggregation, in Dafny

This project models the skill aggregation engine of the mhw-builder
character planner: `SkillService.updateSkills` and the passes it runs. From
the equipped items, their socketed decorations and the weapon's
augmentations, `updateSkills` rebuilds two result lists from scratch:

- the equipped-skill table, with one entry per skill id, holding that
  skill's counters;
- the set-bonus records.

First every decoration takes the `active` flag of the item of its type. Then
four passes update one shared table, in a fixed order:

1. The **item pass** adds `level * (equippedLevel || 1)` to the armor count
   and the displayed count of each skill. It does so by lookup-or-create.
2. The **decoration pass** routes each level to one of four counters: armor,
   active tool, Tool1 or Tool2. It then recomputes the displayed count as
   armor plus active tool.
3. The **set-bonus pass** counts set markers and grants the tiers that are
   reached. A tier's skill is created at 1, or set to 2 when it already has
   an entry. A created skill may raise another skill's level cap. While a
   tool is active, the two Gaia tiers add nature skills by a max merge.
4. The **augmentation pass** groups augmentations by id. Each group selects
   the tier at index group size minus one, in the levels of the group's
   first augmentation. A tier's skill overwrites the displayed
   count only when the new level is strictly greater.

The slot router `countSkillItemPart` keeps one per-slot counter per entry.

Modules, one per pass, following `skill.service.ts`:

- `SkillModel` (model.dfy): the entities and the catalog. It also holds the
  table as a keyed accumulator (`Find`, `Upsert`) and the lodash helpers.
- `ItemSkills`, `DecorationSkills`, `SetSkills`, `AugmentationSkills`: one
  per pass. Each pass is a loop method over the table. Each method is proved
  equal to a fold function over its inputs, and lemmas state what the fold
  does.
- `Service` (service.dfy): the activity linking, the whole aggregation, and
  the class `SkillService`. Its method `UpdateSkills` changes the service's
  fields and the decoration array in place.

Conventions for the source's JavaScript falsy values:

- a skill level of 0 is a skipped level;
- `equippedLevel == 0` is an absent multiplier;
- `maxLevel == 0` is an absent maximum;
- `raiseSkillId == ""` is an absent raise;
- an absent skill list is the empty sequence;
- `secretLevelCount == 0` is an unset one.

The service reads two catalog lookups, `getSkill` and `getSetBonus`. They
are total functions in a `Catalog` value. A skill definition records the
length of its level list, its `maxLevel` and its `raiseSkillId`.

The source does two things that may surprise a reader, and the model keeps
both:

- Set escalation sets both counts to 2 even when the item pass had already
  made them larger. A skill with 4 armor levels that is also a set-bonus
  skill ends the set pass with count 2.
- The augmentation pass creates an entry with only its displayed count set.
  Its armor count stays 0, so that entry is not balanced.

## Model

| member | source | states |
|---|---|---|
| SkillModel.CountSkillItemPart | src/app/services/skill.service.ts:323-341 | exactly the slot counter the item type selects grows by the count (Tool1 and Tool2 both feed the tool counter), no other field changes, an unknown type changes nothing |
| SkillModel.Occurrences | src/app/services/skill.service.ts:167 | `_.countBy`: the count of a name is positive iff the name occurs |
| SkillModel.OccurrencesAppend | src/app/services/skill.service.ts:167 | counting over a concatenation is the sum of the counts of the parts |
| SkillModel.Uniq | src/app/services/skill.service.ts:168 | `_.uniq`: the same names, each exactly once |
| SkillModel.FirstIndex | src/app/services/skill.service.ts:168 | the index of the first occurrence of a name: it holds the name and no earlier index does |
| SkillModel.UniqOrder | src/app/services/skill.service.ts:168 | `_.uniq` keeps first-occurrence order: an earlier name of the result first occurs earlier in the input |
| SkillModel.IndexOf | src/app/services/skill.service.ts:62 | the first index holding the id, or none when no entry has it |
| SkillModel.Find | src/app/services/skill.service.ts:62 | `_.find` by id: the found entry has the id and is in the table; none iff no entry has it |
| SkillModel.Upsert | src/app/services/skill.service.ts:62-80 | lookup-or-create: afterwards the entry is found under its id, every other id finds what it found before, and ids stay unique |
| ItemSkills.ItemEntry | src/app/services/skill.service.ts:71-79 | summing one contribution into an entry: displayed and armor counts and the slot counter of the item's type grow by it, no other counter and no identity field changes |
| ItemSkills.ItemSkillStep | src/app/services/skill.service.ts:57-80 | a level-0 reference changes nothing, other skills are untouched, unique ids, balance and caps are preserved |
| ItemSkills.ItemSkillStepEffect | src/app/services/skill.service.ts:62-80 | the skill's entry exists, with the identity of the old entry or of a fresh one whose cap is `maxLevel \|\| levels.length`; displayed and armor counts and the slot counter grow by level times `equippedLevel \|\| 1`; the tool counters do not change |
| ItemSkills.ItemRefsPass | src/app/services/skill.service.ts:57-81 | the inner loop preserves unique ids, balance and caps |
| ItemSkills.ItemPass | src/app/services/skill.service.ts:51-83 | the item pass preserves unique ids, balance and caps |
| ItemSkills.AddItemSkill | src/app/services/skill.service.ts:57-80 | the loop body computes the summing step |
| ItemSkills.AddItemRefs | src/app/services/skill.service.ts:57-81 | the inner loop computes the fold over the item's references |
| ItemSkills.AddItemSkills | src/app/services/skill.service.ts:51-83 | the outer loop computes the item pass |
| ItemSkills.ItemRefsPassSums | src/app/services/skill.service.ts:57-81 | over one item, each skill's displayed and armor counts and its slot counter grow by the sum of the item's levels for it, times the multiplier |
| ItemSkills.ItemPassSums | src/app/services/skill.service.ts:51-83 | summing: after the pass every skill's displayed and armor counts grew by exactly the levels all items grant it, each slot counter by those of its items, tool counters unchanged |
| DecorationSkills.DecorationRoute | src/app/services/skill.service.ts:106-120 | the four routing cases, each as an if-and-only-if: active Tool1/Tool2 to the active-tool counter, inactive Tool1 to Tool1, inactive Tool2 to Tool2, any other type to armor |
| DecorationSkills.RouteDecorationLevel | src/app/services/skill.service.ts:127-141 | the routed counter grows by the level and no other counter or field changes |
| DecorationSkills.RouteDecoration | src/app/services/skill.service.ts:106-120 | the branch chain computes the routing on an entry |
| DecorationSkills.DecorationEntry | src/app/services/skill.service.ts:106-144 | routing one level into an entry: the routed counter and the slot counter grow by it, no other counter or identity field changes, and the entry ends balanced |
| DecorationSkills.DecorationSkillStep | src/app/services/skill.service.ts:91-146 | a level-0 reference changes nothing, other skills are untouched, unique ids, balance and caps are preserved |
| DecorationSkills.DecorationSkillStepEffect | src/app/services/skill.service.ts:96-145 | the entry exists and is balanced; the routed counter and the slot counter grow by the level and no other counter changes; an inactive tool decoration leaves the displayed count of an absent or balanced entry unchanged |
| DecorationSkills.DecorationRefsPass | src/app/services/skill.service.ts:91-146 | the inner loop preserves unique ids, balance and caps |
| DecorationSkills.DecorationPass | src/app/services/skill.service.ts:85-148 | the decoration pass preserves unique ids, `equippedCount == equippedArmorCount + equippedToolActiveCount` on every entry, and caps |
| DecorationSkills.AddDecorationSkill | src/app/services/skill.service.ts:91-146 | the loop body, with the assign-on-create branches, computes the routing step |
| DecorationSkills.AddDecorationRefs | src/app/services/skill.service.ts:91-146 | the inner loop computes the fold over the decoration's references |
| DecorationSkills.AddDecorationSkills | src/app/services/skill.service.ts:85-148 | the outer loop computes the decoration pass |
| DecorationSkills.DecorationRefsPassSums | src/app/services/skill.service.ts:91-146 | over one decoration, the routed counter and the slot counter grow by its levels, the other routed counters are unchanged |
| DecorationSkills.DecorationPassSums | src/app/services/skill.service.ts:85-148 | each of the armor, active-tool, Tool1 and Tool2 counters grows by exactly the levels routed to it, each slot counter by those of its decorations |
| DecorationSkills.DecorationPassTotal | src/app/services/skill.service.ts:121-142 | on a balanced table the displayed count grows by the armor and active-tool levels only: inactive tool levels never reach it |
| SetSkills.ItemMarkersMembers | src/app/services/skill.service.ts:159-163 | a (set, type) pair is recorded iff the item has that type and carries a level-0 reference with that id longer than one character |
| SetSkills.MarkersMembers | src/app/services/skill.service.ts:154-165 | `setBonusParts`: exactly the markers of the items |
| SetSkills.Names | src/app/services/skill.service.ts:161-162 | `setBonusNames` is the id column of `setBonusParts` |
| SetSkills.Qualifying | src/app/services/skill.service.ts:171 | a tier is kept iff it is one of the set's tiers and needs no more pieces than the count |
| SetSkills.QualifyingAppend | src/app/services/skill.service.ts:171 | `_.filter` keeps catalog order and repeated tiers: filtering a concatenation is filtering each part in turn |
| SetSkills.RaisedEntry | src/app/services/skill.service.ts:201-206 | the cap becomes the level-list length, the secret levels become the difference (set pass) or stay (nature pass), nothing else changes, and the cap never goes down when it was within the list |
| SetSkills.Raise | src/app/services/skill.service.ts:201-206 | the target entry, when present and named, is raised; nothing else changes |
| SetSkills.GrantTier | src/app/services/skill.service.ts:181-211 | granting a tier preserves unique ids and caps |
| SetSkills.GrantTierEffect | src/app/services/skill.service.ts:181-211 | only the tier's skill and its raise target can change; the first tier granting a skill creates exactly its set-bonus entry (both counts 1, the presence flags, a full cap, every other counter 0); an existing entry gets both counts 2 and no other entry changes, its raise target included; a raise target is raised only on creation and only when it already has an entry (an absent or empty target leaves every other entry as it was), with its secret levels recorded, and its cap is never lowered when it was within its level list |
| SetSkills.NatureMerged | src/app/services/skill.service.ts:254-262 | max merge of both counts, never the sum; a true nature flag stays true, a false one becomes true iff the old count is at most the nature level; nothing else changes |
| SetSkills.NatureStep | src/app/services/skill.service.ts:232-263 | one nature skill preserves unique ids and caps |
| SetSkills.NatureStepEffect | src/app/services/skill.service.ts:232-263 | an existing entry is max-merged and no other entry changes, its raise target included; a missing one is created as a nature bonus with a full cap, and an existing raise target other than itself gets a full cap with its secret levels unchanged, while an absent or empty target leaves every other entry as it was; only the nature skill and its raise target can change |
| SetSkills.NaturePass | src/app/services/skill.service.ts:230-265 | the nature loop preserves unique ids and caps |
| SetSkills.TierStep | src/app/services/skill.service.ts:180-266 | granting a tier, then its nature skills while a tool is active, preserves unique ids and caps |
| SetSkills.TierPass | src/app/services/skill.service.ts:180-267 | the tier loop preserves unique ids and caps |
| SetSkills.SetStep | src/app/services/skill.service.ts:169-268 | one set's tiers preserve unique ids and caps |
| SetSkills.SetTablePass | src/app/services/skill.service.ts:169-288 | the set loop preserves unique ids and caps |
| SetSkills.Details | src/app/services/skill.service.ts:281-286 | one detail per catalog tier, in catalog order, with its piece count and skill |
| SetSkills.SetRecordsEach | src/app/services/skill.service.ts:169-288 | one record per set name, in order, each the record of its set |
| SetSkills.SetPass | src/app/services/skill.service.ts:150-289 | the set-bonus pass preserves unique ids and caps |
| SetSkills.CollectItemMarkers | src/app/services/skill.service.ts:159-164 | the inner marker loop appends one item's markers to the parts, and the names stay the id column of the parts |
| SetSkills.CollectMarkers | src/app/services/skill.service.ts:151-165 | the marker loop builds the parts and the names side by side |
| SetSkills.GrantSetTier | src/app/services/skill.service.ts:181-211 | the create-or-escalate branches compute the tier grant |
| SetSkills.AddNatureSkill | src/app/services/skill.service.ts:232-263 | the nature loop body computes the nature step |
| SetSkills.AddNatureSkills | src/app/services/skill.service.ts:231-264 | the nature loop computes the fold over a Gaia tier's nature skills |
| SetSkills.AddSetTier | src/app/services/skill.service.ts:180-266 | the tier loop body computes the tier step: the grant, then the hard-coded Gaia nature skills while a tool is active |
| SetSkills.AddSetTiers | src/app/services/skill.service.ts:180-267 | the tier loop computes the fold over the qualifying tiers |
| SetSkills.BuildSetBonus | src/app/services/skill.service.ts:270-287 | the record-building loop computes the set's record |
| SetSkills.AddSetBonus | src/app/services/skill.service.ts:169-287 | the set loop body computes one set's table step and its record |
| SetSkills.AddSetBonuses | src/app/services/skill.service.ts:169-288 | the set loop computes the fold over the distinct set names and the list of their records |
| SetSkills.AddSetSkills | src/app/services/skill.service.ts:150-289 | `addSetSkills` computes the set-bonus pass: table and records |
| SetSkills.ItemMarkerOccurrences | src/app/services/skill.service.ts:159-163 | the names one item contributes count its markers of the set |
| SetSkills.SetCountIsMarkerCount | src/app/services/skill.service.ts:167 | `_.countBy(setBonusNames)[name]` is the number of markers of the set over all items |
| SetSkills.SetThreshold | src/app/services/skill.service.ts:167-171 | a tier qualifies iff its piece count is at most the set's markers; the record counts exactly those markers and holds one detail per catalog tier in order |
| SetSkills.PresenceFlags | src/app/services/skill.service.ts:172-178 | each slot flag is 1 iff an item of that slot carries a marker of the set |
| SetSkills.SetPassRecords | src/app/services/skill.service.ts:168-288 | one record per set that has a marker, each set once, in the order the sets first occur among the markers, each the record of its set |
| SetSkills.GrantTierKeeps | src/app/services/skill.service.ts:181-211 | a tier grant removes no entry and leaves its skill with one |
| SetSkills.NaturePassKeeps | src/app/services/skill.service.ts:231-264 | the nature loop removes no entry |
| SetSkills.NaturePassFrame | src/app/services/skill.service.ts:231-264 | the nature loop changes only its nature skills and their raise targets |
| SetSkills.TierStepFrame | src/app/services/skill.service.ts:180-266 | one tier changes only its skill, that skill's raise target and, while a tool is active, its nature skills and their raise targets |
| SetSkills.TierPassGrants | src/app/services/skill.service.ts:180-267 | after the tier loop every qualifying tier's skill has an entry, and every entry that existed still does |
| SetSkills.TierPassFrame | src/app/services/skill.service.ts:180-267 | the tier loop changes only what its tiers touch |
| SetSkills.SetTablePassGrants | src/app/services/skill.service.ts:169-288 | after the set loop every qualifying tier of every set has its skill in the table, and no entry is removed |
| SetSkills.SetTablePassFrame | src/app/services/skill.service.ts:169-288 | the set loop changes only what the qualifying tiers of its sets touch |
| SetSkills.GrantTierCreatesOnly | src/app/services/skill.service.ts:181-211 | a tier grant creates no entry but its own skill's; a raise target without an entry stays without one |
| SetSkills.NaturePassCreatesOnly | src/app/services/skill.service.ts:231-264 | the nature loop creates no entry but its nature skills' |
| SetSkills.TierStepCreatesOnly | src/app/services/skill.service.ts:180-266 | one tier creates no entry but its skill's and, while a tool is active, its nature skills' |
| SetSkills.TierPassCreatesOnly | src/app/services/skill.service.ts:180-267 | the tier loop creates no entry but those its tiers may create |
| SetSkills.SetTablePassCreatesOnly | src/app/services/skill.service.ts:169-288 | the set loop creates no entry but those the qualifying tiers of its sets may create |
| SetSkills.SetPassTable | src/app/services/skill.service.ts:150-289 | the whole set pass: every tier reached by the marker count of a set with a piece has its skill in the table, no entry is removed, and an entry no reached tier touches is left as it was; the only new entries are reached tiers' skills and, while a tool is active, their Gaia nature skills |
| AugmentationSkills.Ids | src/app/services/skill.service.ts:292 | the id column of the augmentations |
| AugmentationSkills.Group | src/app/services/skill.service.ts:292 | `_.groupBy` value: exactly the augmentations with that id, and as many as the id occurs |
| AugmentationSkills.GroupAppend | src/app/services/skill.service.ts:292 | `_.groupBy` keeps input order: the group of a concatenation is the group of each part in turn |
| AugmentationSkills.GroupFirst | src/app/services/skill.service.ts:292-297 | `value[0]` of a non-empty group is the first augmentation with that id |
| AugmentationSkills.GroupKeys | src/app/services/skill.service.ts:292-294 | the group keys are distinct, they are exactly the augmentation ids, and each has a non-empty group |
| AugmentationSkills.SelectedTier | src/app/services/skill.service.ts:297-298 | the tier at index group size minus one of the first member's levels, and none iff that index is outside the list |
| AugmentationSkills.AugmentationSkillStep | src/app/services/skill.service.ts:301-316 | one augmentation skill preserves unique ids and caps |
| AugmentationSkills.AugmentationSkillStepEffect | src/app/services/skill.service.ts:301-316 | only the referenced skill can change; its displayed count becomes the max of the old count and the level, never their sum; an existing entry keeps every other field; a new entry has only its displayed count |
| AugmentationSkills.AugmentationRefsPass | src/app/services/skill.service.ts:299-317 | the skill loop preserves unique ids and caps |
| AugmentationSkills.GroupStep | src/app/services/skill.service.ts:295-318 | one group preserves unique ids and caps |
| AugmentationSkills.GroupsPass | src/app/services/skill.service.ts:293-320 | the group loop preserves unique ids and caps |
| AugmentationSkills.AugmentationPass | src/app/services/skill.service.ts:291-321 | the augmentation pass preserves unique ids and caps |
| AugmentationSkills.AddAugmentationSkill | src/app/services/skill.service.ts:301-316 | the create-or-overwrite-if-greater body computes the step |
| AugmentationSkills.AddAugmentationRefs | src/app/services/skill.service.ts:299-317 | the skill loop computes the fold over the tier's skills |
| AugmentationSkills.AddAugmentationGroup | src/app/services/skill.service.ts:295-318 | the group loop body computes one group's step |
| AugmentationSkills.AddAugmentationSkills | src/app/services/skill.service.ts:291-321 | `addAugmentationSkills` computes the augmentation pass |
| AugmentationSkills.AugmentationRefsPassIsMax | src/app/services/skill.service.ts:299-317 | over one tier, the displayed count becomes the max of the old count and the tier's largest level for the skill; an existing entry keeps all other fields |
| AugmentationSkills.AugmentationPassIsMax | src/app/services/skill.service.ts:291-321 | over the pass, the displayed count is the max of the old count and the largest level any selected tier grants; it never decreases and other fields of existing entries never change |
| Service.LinkItem | src/app/services/skill.service.ts:33-35 | linking one item keeps the number of decorations |
| Service.LinkAll | src/app/services/skill.service.ts:32-36 | linking all items keeps the number of decorations |
| Service.LinkAllEffect | src/app/services/skill.service.ts:32-36 | each decoration keeps its type and skills and takes the `active` of the last item of its type, or keeps its own when there is none |
| Service.LastActiveDefault | src/app/services/skill.service.ts:32-36 | the linked flag does not depend on the decoration's own flag when an item of its type exists |
| Service.LinkAllIdempotent | src/app/services/skill.service.ts:32-36 | linking twice over the same items is linking once |
| Service.LinkDecorations | src/app/services/skill.service.ts:33-35 | the inner loop links one item's decorations in place |
| Service.LinkActivity | src/app/services/skill.service.ts:32-36 | the linking loops compute the linking of all items, in place |
| Service.Aggregate | src/app/services/skill.service.ts:28-44 | the four passes over a fresh table give each skill id at most one entry, and keep every cap within its level list for a catalog whose maxima are within theirs |
| Service.EquipmentTotals | src/app/services/skill.service.ts:39-40 | after the item and decoration passes, each skill's armor count is its item plus armor-decoration levels, its active-tool count its active-tool decoration levels, and its displayed count their sum |
| Service.LinkedRoute | src/app/services/skill.service.ts:32-36 | after linking, a decoration feeds the active-tool counter iff it is a tool decoration whose item is active |
| Service.SkillService.constructor | src/app/services/skill.service.ts:18-26 | no tool is active; the results start as empty lists, where the source leaves them undefined until the first update |
| Service.SkillService.UpdateSkills | src/app/services/skill.service.ts:28-49 | decorations are linked in place; the skills and set bonuses become the aggregation of the linked equipment, with unique ids and caps within levels |

## Left out

- Notification: the two RxJS subjects publish the results; the model assigns the results and does not publish.
- Angular dependency injection: the catalog service is a `Catalog` value given to the service's constructor.
- Catalog internals: `getSkill` and `getSetBonus` are total lookups. A skill definition has no id, so a created entry takes the id it was looked up by. For a catalog keyed by id this is the same as copying the definition's id.
- Display strings: the `name` and `description` copied from the catalog play no part in counting.
- Augmentation group order: the model visits the `_.groupBy` keys in first-occurrence order. JavaScript enumerates integer-like keys first. This changes only the order in which new entries are appended; every displayed count is the same maximum in either order.
- Number semantics: counts are unbounded naturals, not JavaScript doubles.
- String length: `SetSkills.IsMarker` tests `|ref.id| > 1` over Unicode characters, where JavaScript's `length` (src/app/services/skill.service.ts:160) counts UTF-16 code units. The two differ only for a one-character id outside the Basic Multilingual Plane; catalog ids are ASCII.
- Aliasing: table entries are values. An entry object reachable from outside the table is not modelled. The linking step (src/app/services/skill.service.ts:34) writes `active` into the caller's decoration objects; the model updates the decoration array it is given, and a decoration object also held elsewhere is not modelled.
- Service.SkillService.constructor: the source declares `skills` and `setBonuses` without initialising them, so they are undefined until the first `updateSkills`; the model starts them as empty lists, since it has no undefined value.
- The armor-list component: it is a UI view, and the engine does not depend on it.
- `isSomeToolActive`: the source only ever sets it to false in its constructor. The model keeps it as a field that `UpdateSkills` reads; whatever sets it elsewhere is not part of this model.
- The `if (setLevels)` test: a filtered array is always truthy in JavaScript, so the model always runs the tier loop.
- AugmentationSkills.AugmentationPass: the augmentation pass may leave an entry unbalanced, so the model states no balance invariant across it.
