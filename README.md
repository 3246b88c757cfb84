# Mighty Morphin transformation engine, in Dafny

This project models the transformation engine of the Pathfinder 1e
"Mighty Morphin" module for Foundry VTT. It is a set of verified Dafny
modules with one file each:

- **`helpers.dfy`** (`Helpers`): size arithmetic and the capacity
  compensation of `scripts/helpers/index.js`:
  - `getNewSize` clamps a size step to the size table;
  - `isTinyOrSmaller` tests a size against the tiny threshold;
  - `generateCapacityChange` builds the two carry changes that keep
    carrying capacity where it was.
- **`attacks.dfy`** (`Attacks`): `createAttack` and its `naturalAttacks`
  table. It covers:
  - primary or secondary, and the damage multiplier;
  - extra attack parts "Name 2" … "Name n";
  - the attack and damage abilities;
  - size-roll damage parts;
  - effect notes and the save DC per special tag.
- **`polymorph.dfy`** (`Polymorph`): what the Elemental Body and Plant
  Shape dialogs share:
  - the form catalog entries;
  - the size filter and the sort by name;
  - the sense gating against a level's allowance table.
- **`elemental_body.dfy`** (`ElementalBody`): the Elemental Body dialog as
  a class. It covers:
  - the size table of its constructor;
  - the level gating of `buildPreviewTemplate`: speed caps, senses,
    resistances, immunities from level 3, damage reduction at level 4;
  - the `process*` gates.
- **`plant_shape.dfy`** (`PlantShape`): the Plant Shape dialog as a class.
  It covers:
  - the size table of its constructor;
  - the preview's filters: special qualities by first word, special
    attacks whose every tag is allowed, senses, elemental resistances with
    immunities folded in as resistance 20, elemental vulnerabilities,
    damage reduction and regeneration at level 3;
  - the `process*` gates.
- **`actor.dfy`** (`Actors`): the character record as a class that the
  transformations change in place:
  - size, traits, carrying-capacity totals, items, token data and the
    single `mightyMorphin` snapshot flag;
  - the shared buff step: create the buff, or rebuild its change list
    with fresh capacity changes, and switch it on;
  - the armour step that rescales armour and shields and records their
    original values.
- **`reduce_person.dfy`** and **`frightful_aspect.dfy`**: the two
  size-changing buffs, each proved against a function giving the
  character's new state.
- **`mighty_morphin.dfy`** (`MightyMorphin`):
  - `revert`, in its buff branch and its polymorph branch;
  - the already-transformed guards of `beastShape`, `elementalBody` and
    `plantShape`;
  - the round trips that show Reduce Person is undone by `revert`, and
    that Frightful Aspect is undone except for its traits, which only the
    corrected revert gives back;
  - the dialog commands as written, which throw before their guard.
- **`js_base.dfy`** (`JsBase`): the JavaScript behaviour the scripts rely
  on:
  - `parseInt` and NaN;
  - falsy `0` and `""`;
  - `split(' ')` words, `toLowerCase`, `indexOf`;
  - the string ordering used by the sort.

## How the model is organised

Each operation that changes state is a method. It is proved against a
specification function on values. For example, `ApplyReducePerson`
ensures `shifter.State() == ReducedState(old(shifter.State()), ...)`.
The properties of the specification functions are then proved as
lemmas.

Some tables are not in the model's source files: the catalogue of forms
and changes, the options, the size table, the encumbrance multipliers,
the sense and special-quality allowance tables, and the item templates.
These are parameters. JavaScript NaN is modelled as `Num.NonFinite`, and
numbers written into formulas as `Formula.Rendered`.

## Model

| member | source | states |
|---|---|---|
| JsBase.Sub | scripts/helpers/index.js:65 | Subtraction is NaN exactly when an operand is NaN; otherwise the result plus the subtrahend gives back the minuend |
| JsBase.ParseIntFormula | scripts/morphs/reduce-person.js:31 | `parseInt` of a formula: NaN when the text has no leading integer, that integer otherwise; a number is truncated toward zero |
| JsBase.ParseIntOfIntToString | scripts/morphs/frightful-aspect.js:90 | `parseInt` reads back every integer from its decimal text |
| JsBase.ParseIntOfDigits | scripts/helpers/index.js:69 | A run of digits parses to its decimal value |
| JsBase.NatToStringValue | scripts/helpers/index.js:69 | The decimal text of a natural number has that value |
| JsBase.Trunc | scripts/morphs/reduce-person.js:31 | Truncation toward zero lies within one of the number, on the side of zero |
| JsBase.IndexOf | scripts/helpers/index.js:46 | `indexOf` is -1 exactly when the value is absent, otherwise the first position holding it |
| JsBase.FirstWord | scripts/morphin-plant-shape.js:234 | `split(' ')[0]` is a prefix with no space, ending at the first space or at the end |
| JsBase.SecondWord | scripts/morphin-elemental-body.js:120 | `split(' ')[1]` exists exactly when the text has a space, and holds no space |
| JsBase.SecondWordSplit | scripts/morphin-elemental-body.js:120 | The text is the first word, a space and the rest; the second word is the first word of that rest |
| JsBase.ToLower | scripts/morphin-elemental-body.js:120 | `toLowerCase` keeps the length, lowers each ASCII capital and keeps every other character |
| JsBase.LexLessAsymmetric | scripts/morphin-elemental-body.js:39 | The string `>` used by the sort never holds both ways |
| JsBase.LexLessTotal | scripts/morphin-elemental-body.js:39 | Two different strings are always ordered one way or the other |
| Helpers.GetNewSize | scripts/helpers/index.js:45-52 | For a size in the table, the new index is the old index plus the step, clamped to the table. A negative step never raises the index, a non-negative one never lowers it, and step 0 is the identity |
| Helpers.IsTinyOrSmaller | scripts/helpers/index.js:75 | A size in the table passes exactly when it sits at index 0, 1 or 2; a size missing from the table (index -1) also passes |
| Helpers.IsTinyOrSmallerAt | scripts/helpers/index.js:75 | On a table of distinct sizes, the k-th size passes exactly when k is at most 2 |
| Helpers.StandardSizeSteps | scripts/helpers/index.js:45-52 | On the system's nine sizes, the clamp holds at both ends and tiny passes the threshold while small does not |
| Helpers.GenerateCapacityChange | scripts/helpers/index.js:62-73 | Two changes, `carryStr` then `carryMult`. Each is an untyped add at priority 0 whose formula is the text of its value. The carry-strength change plus the strength change gives the user bonus. The new multiplier total times the new size's multiplier equals the old total times the old size's, and the change is 0 when the size stays |
| Helpers.CapacityNeutral | scripts/helpers/index.js:67 | The multiplier change leaves total times encumbrance multiplier invariant |
| Actors.FindBuff | scripts/morphs/reduce-person.js:10 | `find` of the buff by type and name: the first matching position, or none when no item matches |
| Actors.KeepNonCapacity | scripts/morphs/reduce-person.js:51-53 | The filter never lengthens the change list |
| Actors.KeepNonCapacityAppend | scripts/morphs/reduce-person.js:51-53 | Filtering distributes over concatenation, so the kept changes stay in their original order |
| Actors.KeepNonCapacityMembers | scripts/morphs/reduce-person.js:51-53 | The kept changes are exactly the old changes with a non-empty subtarget other than `carryStr` and `carryMult` |
| Actors.KeepNonCapacitySingle | scripts/morphs/reduce-person.js:51-53 | A single change is kept exactly when its subtarget is non-empty and not a capacity one |
| Actors.KeepNonCapacityDropsCapacity | scripts/morphs/reduce-person.js:51-53 | No capacity change survives the filter |
| Actors.RebuildLeavesOneOfEach | scripts/morphs/reduce-person.js:43-57 | A rebuilt change list holds exactly one `carryStr` and one `carryMult`, after the kept changes in order |
| Actors.RebuildChanges | scripts/morphs/reduce-person.js:43-54 | The loop over the old changes yields the kept changes and the strength sum |
| Actors.SumStrength | scripts/morphs/reduce-person.js:26-33 | The loop sums `parseInt(formula)` over the strength changes, with NaN absorbing |
| Actors.ActivatedItemsShape | scripts/morphs/reduce-person.js:17-60 | After the buff step the buff is found and active and ids stay unique. Every other item is unchanged. A new buff carries the catalog changes followed by the capacity changes; an existing buff carries its rebuilt list |
| Actors.ActivateBuff | scripts/morphs/reduce-person.js:17-60 | The buff step on the character changes only its items, as the specification function says |
| Actors.ApplyArmor | scripts/morphs/reduce-person.js:76 | Every item with a record takes the record's armour value (the last record wins); the others are unchanged |
| Actors.ApplyArmorKeepsIds | scripts/morphs/reduce-person.js:76 | Writing armour values keeps ids, their uniqueness and the id set |
| Actors.ArmorForRecords | scripts/morphs/reduce-person.js:66-71 | The record for an item is its rescaled value when it is armour or a shield, and there is none otherwise |
| Actors.RescaledItems | scripts/morphs/reduce-person.js:62-77 | The armour step halves (or doubles) exactly the armour and shields and keeps everything else |
| Actors.CollectArmor | scripts/morphs/reduce-person.js:66-71 | The loop records the original values and the rescaled values of the armour and shields, in order |
| Actors.ScaleArmor | scripts/morphs/reduce-person.js:62-77 | The armour step on the character changes only the items and returns the originals for the snapshot |
| Actors.Existing | scripts/mighty-morphin.js:58-66 | The kept records are exactly the recorded entries whose item is still owned |
| Actors.ExistingArmor | scripts/mighty-morphin.js:58-66 | The `forEach` builds exactly those entries |
| Actors.ExistingArmorFor | scripts/mighty-morphin.js:58-67 | Skipping records of deleted items changes no owned item's written value |
| Actors.ArmorRoundTrip | scripts/mighty-morphin.js:57-68 | Rescaling armour and then writing back the recorded originals of the items still owned gives back the items exactly |
| Actors.ScaledItemsShape | scripts/morphs/frightful-aspect.js:67-82 | The armour step keeps the length, the ids and the buff's position, and rescales exactly the armour and shields |
| Actors.BuffedItemsShape | scripts/morphs/frightful-aspect.js:21-82 | After the buff and armour steps, ids stay unique and the buff is found and active. Every other item is kept, rescaled exactly when it is armour or a shield |
| Actors.ApplyArmorFindsSameBuff | scripts/mighty-morphin.js:78 | Writing armour values does not move the buff that `find` returns |
| Attacks.DamageMult | scripts/helpers/index.js:192 | The descriptor's multiplier when non-zero. Otherwise 1.5 exactly for an only attack, 1 exactly for a primary attack that is not the only one, and 0.5 exactly for a secondary one |
| Attacks.ExtraAttackParts | scripts/helpers/index.js:140-148 | No parts for a count of at most 1; otherwise count − 1 parts named "Name 2" … "Name count" |
| Attacks.ExtraAttackNamesDistinct | scripts/helpers/index.js:141-147 | The extra part names are pairwise distinct and differ from "Name 1" |
| Attacks.ExtraAttacks | scripts/helpers/index.js:141-144 | The loop builds exactly those parts |
| Attacks.NonEmptyTags | scripts/helpers/index.js:156 | Deleted (empty) special tags are skipped, and nothing else is |
| Attacks.EffectNotesPerTag | scripts/helpers/index.js:151-170 | One note per non-empty tag, in order: the detail table's note when it has one, else the tag itself |
| Attacks.SaveAfterRule | scripts/helpers/index.js:160-165 | The save is the last tag with a save description, with DC '10'; it is unchanged when no tag sets one |
| Attacks.DescriptionAfter | scripts/helpers/index.js:171-172 | The description is the last non-empty tag's detail description, or '' when that tag has none |
| Attacks.WalkSpecials | scripts/helpers/index.js:150-175 | The loop over the special tags appends those notes and sets that save and description |
| Attacks.AttackAbility | scripts/helpers/index.js:177-186 | The explicit ability if given. Otherwise `dex` exactly when the actor has Weapon Finesse with dex ≥ str, or the attack is ranged, or the melee ability is dex. Otherwise the melee ability, or `str` when none is set |
| Attacks.DamageAbility | scripts/helpers/index.js:188-189 | Strength, except no ability for a ranged attack (corrected; see Findings) |
| Attacks.DamageAbilityFinding | scripts/helpers/index.js:189 | As written, a ranged attack still adds strength |
| Attacks.DamageAbilityAsWritten | scripts/helpers/index.js:188-189 | As written, the damage ability is strength for every attack, ranged or not |
| Attacks.SizeRollCarriesFormSize | scripts/helpers/index.js:196 | The size roll carries the form size's index, which `parseInt` reads back |
| Attacks.DamageParts | scripts/helpers/index.js:195-208 | With dice, exactly one size-roll part with the attack's damage types; without dice, the non-crit damage alone, or the defaults when there is none |
| Attacks.NonCritParts | scripts/helpers/index.js:198-201 | Non-crit damage goes to its own parts only for an attack with dice |
| Attacks.ConfigureAction | scripts/helpers/index.js:125-138 | Action type, activation, range, crit range and multiplier, increments, uses and name follow the descriptor's falsy-default rules; every other field keeps its default |
| Attacks.CompleteAction | scripts/helpers/index.js:140-208 | The extra parts, the notes, the save, the attack ability, the multiplier and the damage parts are as the rules above say; the damage ability is the as-written one (always strength) |
| Attacks.CreateAttack | scripts/helpers/index.js:104-217 | The item's name carries the source. It is an attack, primary exactly when the descriptor or the table says so or it is the only attack. Its one action follows the descriptor's configuration rules and has the same image. It carries the extra parts named from 2 and the first named "Name 1" when there are several attacks, else the default parts. It carries the notes, the save and (on the item) the description that the special tags give, and the attack ability by the finesse ladder. It carries the multiplier and the damage and non-crit parts, and, as written, strength as its damage ability |
| Polymorph.FilterBySize | scripts/morphin-elemental-body.js:38 | The filter never lengthens the list |
| Polymorph.FilterBySizeAppend | scripts/morphin-elemental-body.js:38 | The size filter distributes over concatenation, so kept options stay in catalog order |
| Polymorph.FilterBySizeCount | scripts/morphin-elemental-body.js:38 | An option of an allowed size is kept exactly as often as the catalog lists it, any other never |
| Polymorph.SortByName | scripts/morphin-elemental-body.js:39 | The sort is a permutation and ordered by name |
| Polymorph.InsertByNameSorted | scripts/morphin-elemental-body.js:39 | Inserting by name keeps a list sorted |
| Polymorph.ShapeOptionsExact | scripts/morphin-elemental-body.js:36-39 | The shape options are exactly the catalog entries of the allowed sizes, each as often as in the catalog, as a permutation of the filtered list, pairwise ordered by name |
| Polymorph.FindOption | scripts/morphin-elemental-body.js:103 | `find` by name succeeds exactly when some option has that name, and returns the first option with that name |
| Polymorph.GateSense | scripts/morphin-elemental-body.js:224-235 | A sense is dropped exactly when its key has no allowance. It is kept when its strength is within the allowance, and otherwise replaced by the allowance's sense |
| Polymorph.GateOne | scripts/morphin-elemental-body.js:224-235 | One pass of the loop keeps a sense exactly when `GateSense` does, with the same value |
| Polymorph.GateSenseList | scripts/morphin-elemental-body.js:220-241 | The loop pushes exactly the gated senses, in order |
| Polymorph.GateSenseWithinAllowance | scripts/morphin-elemental-body.js:229-235 | A gated sense never exceeds the allowance of its key |
| Polymorph.GatedSensesWithinAllowance | scripts/morphin-elemental-body.js:220-241 | Every sense the preview records is within its allowance |
| Polymorph.GateSenseIdempotent | scripts/morphin-elemental-body.js:229-235 | Gating an already gated sense changes nothing |
| ElementalBody.AllowedSizes | scripts/morphin-elemental-body.js:21-33 | Levels 1 to 4 offer the first 1, 2, 3 or 4 of sm, med, lg, huge |
| ElementalBody.AllowedSizesGrow | scripts/morphin-elemental-body.js:21-33 | A higher level offers every size a lower one does |
| ElementalBody.CapSpeed | scripts/morphin-elemental-body.js:142-168 | Swim and fly are capped at 60 (levels 1–3) or 120 (level 4): the value becomes the smaller of itself and the cap. Mode and maneuverability are kept, and other modes are unchanged |
| ElementalBody.CappedSpeeds | scripts/morphin-elemental-body.js:138-172 | Every speed is capped on its own, in order |
| ElementalBody.CapSpeedIdempotent | scripts/morphin-elemental-body.js:142-168 | Capping twice is capping once |
| ElementalBody.SpeedCapExamples | scripts/morphin-elemental-body.js:156-168 | Fly 150 at level 4 becomes 120 with the same maneuverability |
| ElementalBody.CapSpeedList | scripts/morphin-elemental-body.js:136-172 | The loop caps exactly as `CappedSpeeds` says |
| ElementalBody.ElementKey | scripts/morphin-elemental-body.js:120 | The element exists exactly when the form name has a space, and is as long as the second word |
| ElementalBody.StatsFor | scripts/morphin-elemental-body.js:120-122 | The stat changes are found exactly when the element and the size are in the table, and are that entry |
| ElementalBody.ExpectedRecord | scripts/morphin-elemental-body.js:122-301 | The preview records the stat changes, the capped speeds, the gated senses and the special qualities. Unless a typed resistance has no type (the rendering throws), it records the resistances and vulnerabilities unfiltered and immunities exactly from level 3. Damage reduction is recorded exactly at level 4 when nothing throws, so not when an entry has no `/` or fewer than two types. What the throw stops keeps its earlier value |
| ElementalBody.PreviewRecord | scripts/morphin-elemental-body.js:136-301 | The record computed by the loops is the one `ExpectedRecord` specifies |
| ElementalBody.ElementalBodyDialog.constructor | scripts/morphin-elemental-body.js:16-39 | The dialog keeps its level, duration level, actor and source; its sizes are the level's, and its options are the catalog filtered to them and sorted by name |
| ElementalBody.ElementalBodyDialog.BuildPreview | scripts/morphin-elemental-body.js:101-301 | The chosen form is the option of that name. The preview succeeds exactly when the element's stats for the form's size exist and no resistance or damage-reduction entry throws. Past the stats it records `ExpectedRecord`, which keeps what was set before a throw; without stats nothing is recorded |
| ElementalBody.ElementalBodyDialog.RecordPreview | scripts/morphin-elemental-body.js:136-301 | The dialog's fields become the expected record, up to a rendering throw |
| ElementalBody.ElementalBodyDialog.ProcessDr | scripts/morphin-elemental-body.js:319-322 | The inherited damage reduction at level 4, empty below |
| ElementalBody.ElementalBodyDialog.ProcessEres | scripts/morphin-elemental-body.js:325-327 | Always the inherited resistances |
| ElementalBody.ElementalBodyDialog.ProcessDv | scripts/morphin-elemental-body.js:330-332 | Vulnerabilities pass through |
| ElementalBody.ElementalBodyDialog.ProcessDi | scripts/morphin-elemental-body.js:335-338 | Immunities from level 3, empty below |
| ElementalBody.ElementalBodyDialog.ProcessRegen | scripts/morphin-elemental-body.js:341-343 | Never any regeneration |
| PlantShape.AllowedSizes | scripts/morphin-plant-shape.js:21-30 | Levels 1 to 3 offer the first 2, 3 or 4 of sm, med, lg, huge |
| PlantShape.AllowedSizesGrow | scripts/morphin-plant-shape.js:21-30 | A higher level offers every size a lower one does |
| PlantShape.ShownTags | scripts/morphin-plant-shape.js:150-157 | An attack shows exactly its allowed tags |
| PlantShape.ShownTagsAll | scripts/morphin-plant-shape.js:182-192 | A special attack whose every tag is allowed shows all its tags |
| PlantShape.SpecialAttackValid | scripts/morphin-plant-shape.js:175-180 | The validity loop holds exactly when every tag is allowed; an attack without tags is valid |
| PlantShape.ListedSpecialAttacks | scripts/morphin-plant-shape.js:170-200 | The listed special attacks are exactly those whose every tag is allowed |
| PlantShape.ListSpecialAttacks | scripts/morphin-plant-shape.js:170-200 | The loop lists exactly those, and each listed one shows all its tags |
| PlantShape.AttackTags | scripts/morphin-plant-shape.js:145-158 | Every ordinary attack is listed, showing exactly its allowed tags |
| PlantShape.KeptSpecials | scripts/morphin-plant-shape.js:230-243 | The list keeps its length. An entry stays exactly when its first word is allowed; otherwise it becomes a hole |
| PlantShape.DeleteDisallowedSpecials | scripts/morphin-plant-shape.js:230-243 | The loop's in-place deletion leaves exactly that list |
| PlantShape.FilterEresMembers | scripts/morphin-plant-shape.js:248 | The filter throws exactly when an entry is plain text. Otherwise the kept entries are exactly those whose first type is an element |
| PlantShape.FilterEresAppend | scripts/morphin-plant-shape.js:248 | Filtering distributes over concatenation, so the kept entries stay in their original order |
| PlantShape.FilterEresSingle | scripts/morphin-plant-shape.js:248 | A single typed entry is kept exactly when its first type is an element |
| PlantShape.FilterElements | scripts/morphin-plant-shape.js:269 | The filter never lengthens the list |
| PlantShape.FilterElementsMembers | scripts/morphin-plant-shape.js:251-269 | Vulnerabilities and immunities are filtered to exactly the five element types |
| PlantShape.FilterElementsAppend | scripts/morphin-plant-shape.js:251-269 | The element filter distributes over concatenation, so kept vulnerabilities and immunities stay in their original order |
| PlantShape.FoldImmunities | scripts/morphin-plant-shape.js:251-254 | After the resistances, one resistance-20 entry per elemental immunity, in order |
| PlantShape.ShownAmount | scripts/morphin-plant-shape.js:262 | The preview shows the smaller of the amount and 20 |
| PlantShape.PlantEresElemental | scripts/morphin-plant-shape.js:245-266 | Every resistance recorded from level 2 is elemental, and is either one of the form's or a folded immunity of amount 20 |
| PlantShape.ExpectedRecord | scripts/morphin-plant-shape.js:119-299 | The preview records the stat changes, the speeds uncapped, the gated senses and the kept specials. Unless the resistance filter throws, it also records resistances from level 2 and filtered vulnerabilities. At level 3 it records damage reduction unless an entry has no `/` or fewer than two types, and then regeneration unless an entry has no counter list. What a throw stops keeps its earlier value |
| PlantShape.PreviewRecord | scripts/morphin-plant-shape.js:133-299 | The record computed by the loops is the one `ExpectedRecord` specifies |
| PlantShape.PlantShapeDialog.constructor | scripts/morphin-plant-shape.js:16-36 | The dialog keeps its level, duration level, actor and source; its sizes are the level's, and its options are the catalog filtered to them and sorted by name |
| PlantShape.PlantShapeDialog.BuildPreview | scripts/morphin-plant-shape.js:99-299 | The chosen form is the option of that name. The preview succeeds exactly when the size's stats exist and neither the resistances, the damage reduction nor the regeneration throw. Past the stats it records `ExpectedRecord` with the attack tags and special attacks shown; a missing size records nothing |
| PlantShape.PlantShapeDialog.RecordPreview | scripts/morphin-plant-shape.js:133-299 | The dialog's fields become the expected record, up to a rendering throw |
| PlantShape.PlantShapeDialog.ProcessDr | scripts/morphin-plant-shape.js:318-321 | The inherited damage reduction at level 3, empty below |
| PlantShape.PlantShapeDialog.ProcessEres | scripts/morphin-plant-shape.js:324-327 | The inherited resistances from level 2, empty below |
| PlantShape.PlantShapeDialog.ProcessDv | scripts/morphin-plant-shape.js:330-332 | Vulnerabilities pass through |
| PlantShape.PlantShapeDialog.ProcessDi | scripts/morphin-plant-shape.js:335-337 | Never any immunities |
| PlantShape.PlantShapeDialog.ProcessRegen | scripts/morphin-plant-shape.js:341-344 | Regeneration at level 3, none below |
| ReducePerson.NewSize | scripts/morphs/reduce-person.js:6-14 | The new size is `getNewSize` by the catalog's step: its index is the old index plus the step, clamped to the table; one step down stops at the smallest, and a size missing from the table with a negative step lands on the smallest |
| ReducePerson.ReducedStateShape | scripts/morphs/reduce-person.js:6-80 | The character moves the catalog's step along the size table, clamped. The snapshot records the original size under the buff's own name. Traits, totals and token are untouched |
| ReducePerson.ReducedItemsShape | scripts/morphs/reduce-person.js:17-77 | The buff is active and every other item is kept, with armour and shields halved rounding down exactly when the character was small |
| ReducePerson.ApplyReducePerson | scripts/morphs/reduce-person.js:4-85 | With a snapshot present, only the already-transformed warning and no change; otherwise the character becomes `ReducedState` with the catalog's size step |
| FrightfulAspect.CasterLevel | scripts/morphs/frightful-aspect.js:16-19 | The caster level passed in unless it is 0, else the prompt's text |
| FrightfulAspect.SpellResistance | scripts/morphs/frightful-aspect.js:90 | NaN exactly when the caster level does not parse; otherwise 10 plus half the level rounded down |
| FrightfulAspect.PromptedLevelAgrees | scripts/morphs/frightful-aspect.js:16-90 | A level typed into the prompt gives the same spell resistance as the level passed in, 10 + n/2 |
| FrightfulAspect.NewDR | scripts/morphs/frightful-aspect.js:85-86 | The old text, `; ` and 10/magic when there was damage reduction, else 10/magic; it always ends in 10/magic and is longer than before |
| FrightfulAspect.NewSR | scripts/morphs/frightful-aspect.js:89-91 | The old formula stays when the current total beats the buff's value; otherwise the formula parses to the buff's value; a NaN value writes a formula that parses to NaN |
| FrightfulAspect.NewSRNeverLowers | scripts/morphs/frightful-aspect.js:89-91 | The effective spell resistance becomes the larger of the current total and the buff's value, so it is never lowered |
| FrightfulAspect.AspectStateRecords | scripts/morphs/frightful-aspect.js:94 | The catalog's size is set. The snapshot records the source, the original size, damage reduction and formula. The new damage reduction starts with the old one |
| FrightfulAspect.AspectItemsShape | scripts/morphs/frightful-aspect.js:21-82 | The buff is active and every other item is kept, with armour and shields doubled exactly when the character was tiny or smaller |
| FrightfulAspect.RecordAspect | scripts/morphs/frightful-aspect.js:84-94 | The last update writes size, damage reduction, formula and snapshot, and nothing else |
| FrightfulAspect.ApplyFrightfulAspect | scripts/morphs/frightful-aspect.js:4-99 | With a snapshot present, only the already-transformed warning and no change; otherwise the character becomes `AspectState` |
| MightyMorphin.RestoredTraits | scripts/mighty-morphin.js:71-72 | Each recorded trait field takes its recorded value and the others stay (corrected; see Findings) |
| MightyMorphin.WithoutIds | scripts/mighty-morphin.js:112-114 | The remaining items are exactly those whose id is not listed |
| MightyMorphin.CreatedOnActor | scripts/mighty-morphin.js:113 | The ids collected are created ids, and an owned item's id is collected exactly when it is listed as created |
| MightyMorphin.ItemsOnActor | scripts/mighty-morphin.js:113 | The `filter` collects exactly those ids |
| MightyMorphin.DeleteOwnedCreated | scripts/mighty-morphin.js:112-114 | Deleting the created items still owned deletes exactly the owned items listed as created |
| MightyMorphin.WithoutIdsUnique | scripts/mighty-morphin.js:114 | Deleting items keeps the remaining ids unique |
| MightyMorphin.RestoredItemsNoRecords | scripts/mighty-morphin.js:57 | Skipping the write-back for an empty armour list changes nothing |
| MightyMorphin.RestoredItemsShape | scripts/mighty-morphin.js:57-78 | Writing back armour keeps the ids and the buff's position |
| MightyMorphin.DeactivatedShape | scripts/mighty-morphin.js:78 | Switching the buff off keeps ids and every other item, and leaves the buff found and inactive |
| MightyMorphin.RestoreArmor | scripts/mighty-morphin.js:56-68 | The armour of the items still owned is written back; nothing else changes |
| MightyMorphin.RevertBuff | scripts/mighty-morphin.js:55-79 | As written: armour and size are restored, the traits are left as they are (the absent `system` block writes nothing), the snapshot is removed and the buff is switched off. A missing buff ends in the `find` failure after the other writes |
| MightyMorphin.DeleteCreated | scripts/mighty-morphin.js:112-114 | Exactly the owned items listed as created are deleted |
| MightyMorphin.RevertPolymorph | scripts/mighty-morphin.js:81-118 | Armour is restored. Without the data block it stops there with the snapshot kept; otherwise the token is restored, the snapshot removed and the created items deleted |
| MightyMorphin.Revert | scripts/mighty-morphin.js:46-123 | As written: without a snapshot, only the warning. Otherwise the buff or polymorph branch by source, and no change for an unknown source |
| MightyMorphin.RevertRemovesSnapshot | scripts/mighty-morphin.js:46-123 | No snapshot is left exactly when revert completes or fails at the buff. Without a snapshot or with an unknown source nothing changes |
| MightyMorphin.RevertRestoresSize | scripts/mighty-morphin.js:70-76 | A buff revert restores the recorded size; a polymorph revert leaves the size alone |
| MightyMorphin.BuffArmorRoundTrip | scripts/mighty-morphin.js:56-68 | Writing back the snapshot's armour undoes a buff's armour step exactly |
| MightyMorphin.BuffItemsRoundTrip | scripts/mighty-morphin.js:55-79 | After a buff and its revert, every item that is not the buff is as before, and the buff is there, switched off |
| MightyMorphin.ReducePersonRoundTrip | scripts/mighty-morphin.js:55-79 | Revert after Reduce Person completes. Everything but the items is exactly as before, every non-buff item too, and the buff is off |
| MightyMorphin.FrightfulAspectRoundTrip | scripts/mighty-morphin.js:55-79 | As written, revert after Frightful Aspect gives back the size and everything else but the items, except that the traits stay as the buff left them; every non-buff item is back and the buff is off |
| MightyMorphin.CorrectedFrightfulAspectRoundTrip | scripts/mighty-morphin.js:55-79 | (corrected; see Findings) With the recorded traits written back, revert after Frightful Aspect gives back everything but the items, damage reduction and formula included |
| MightyMorphin.AsWrittenRevertKeepsAspectDR | scripts/mighty-morphin.js:72 | As written, revert leaves Frightful Aspect's damage reduction in place, different from the original; the corrected revert gives the original back |
| MightyMorphin.TransformationGuard | scripts/mighty-morphin.js:135-141 | No warning exactly when the character carries no snapshot; otherwise the warning names the snapshot's source |
| MightyMorphin.BeastShape | scripts/mighty-morphin.js:131-143 | (corrected; see Findings) The guard of `beastShape` on the selected character: the warning exactly when it carries a snapshot |
| MightyMorphin.Bind | scripts/mighty-morphin.js:156 | Arguments bind to the parameters by position, and a missing argument is undefined |
| MightyMorphin.ShiftedDialogArgs | scripts/mighty-morphin.js:156 | As written, the id lands in the duration level, the source in the actor id, and the source is undefined |
| MightyMorphin.IntendedDialogArgs | scripts/mighty-morphin.js:156 | With the duration level passed, every parameter gets the value its name says |
| MightyMorphin.DialogCommandAsWritten | scripts/mighty-morphin.js:151-181 | As written: a thrown error exactly when `getSingleActor` is not a static of the class, else the warning exactly when a snapshot is present, else a dialog bound to the three arguments as passed |
| MightyMorphin.GuardsAsWrittenThrow | scripts/mighty-morphin.js:152 | As written, the class declares no `getSingleActor`, so the command throws before its guard for every character |
| MightyMorphin.AsWrittenOpenIsShifted | scripts/mighty-morphin.js:156 | Even with the lookup found, the dialog as written has the source text as its actor id, the id as its duration level and no source |
| MightyMorphin.OpenElementalBody | scripts/mighty-morphin.js:151-162 | (corrected; see Findings) A dialog opens exactly when there is no snapshot and the level is 1–4, bound to this character and source. The constructor throws exactly when there is no snapshot, the level is outside 1–4 and the catalog is not empty. The warning comes exactly when there is a snapshot |
| MightyMorphin.OpenPlantShape | scripts/mighty-morphin.js:170-181 | (corrected; see Findings) A dialog opens exactly when there is no snapshot and the level is 1–3, bound to this character and source. The constructor throws exactly when there is no snapshot, the level is outside 1–3 and the catalog is not empty. The warning comes exactly when there is a snapshot |

## Left out

- Rendering is not modelled: HTML previews, `game.i18n.localize`, `getData`, `updateFormChoices`, `defaultOptions` and `activateListeners`. Only the values the dialogs record are modelled.
- Selecting the actor is not modelled. `getSingleActor` and `getActors` depend on the canvas, so the single selected character is a parameter. The guards' call to `MightyMorphinApp.getSingleActor`, which the class does not declare, is a finding below.
- `findImage` and the file browser are not modelled (file I/O); nor are `morphin.js` and `scripts/settings.js` (hook and setting registration).
- `Dialog.prompt` for the caster level is an input: `prompted` is the text it would return.
- `Item.create` and template merging are not modelled. The buff template is an opaque `Item` parameter, and the new buff's id is a parameter that must not clash with an existing item.
- Tables not shown in these files are parameters: `MorphinChanges`, `MorphinOptions`, `CONFIG.PF1.actorSizes`, `CONFIG.PF1.encumbranceMultipliers` and the sense and special-quality allowance tables.
- Where a missing table entry or a malformed catalog entry would make the source throw, the model either requires the entry (form and allowance lookups) or models the failure as an outcome: element stats, plant stats, the resistance filter, and the rendering of resistance, damage-reduction and regeneration entries.
- Token and canvas control are not modelled: `tokenImg`, the token update, `releaseAll` and `control`.
- Persistence is not modelled. The `async` host calls become sequential in-place updates on the `Actor` object. An update that writes `undefined` is taken to write nothing.
- The Beast Shape dialog, `polymorphChanges` and the unshown superclass are not part of this model. That covers `super.processDr`/`processEres` (modelled as the function parameter `inherited`) and `applyChanges`.
- A polymorph snapshot's `data` block is modelled only as far as revert reads it: the token data.
- The spell-resistance total is the host's derived value. It is read, not recomputed after a formula changes.
- `parseInt` is modelled for optional leading whitespace, a sign and decimal digits only, not hexadecimal prefixes. Numbers become formula text as `Formula.Rendered`, with no real-to-text rendering.
- Strings compare by character code, not UTF-16 code units; `toLowerCase` lowers ASCII capitals only.
- Regeneration is recorded as the list of entries, not the rendered text `buildPreviewTemplate` assigns.
- Encumbrance multipliers are exact reals, not floating point.
- ElementalBody.ElementKey: the contract states when the key exists and its length, not its characters. The lower-casing is `JsBase.ToLower`'s contract.
- Polymorph.GatedSenses: the function's own contract gives only a length bound. What the gated senses are is stated by `GateSense` and `GatedSensesStep`.
- Polymorph revert does not restore the size: the code writes no size in that branch.
- ReducePerson.ApplyReducePerson: requires `getNewSize` to find a size for the catalog's step; on a size missing from the table with step 0 the source writes `undefined`, which the model does not represent.
- MightyMorphin.OpenElementalBody: with an empty catalog and a level outside 1–4, the source builds a dialog without a size list and no options; the model opens no dialog then, since its dialog class keeps the level within range.
- MightyMorphin.OpenPlantShape: the same for an empty catalog and a level outside 1–3.

## Findings

| source | as written | input that shows it | evidently intended | confidence | as-written member | corrected member |
|---|---|---|---|---|---|---|
| scripts/helpers/index.js:189 | The damage ability tests `attack.type === 'rwak'`, but `type` is the list of damage types, so the test never holds | A ranged attack with `attackType: 'rwak'` and `type: ['piercing']` gets strength damage | The comment above the line says strength unless ranged, i.e. test `attackType` | not executed; high | Attacks.DamageAbilityAsWritten | Attacks.DamageAbility |
| scripts/mighty-morphin.js:72 | The buff revert restores `changes.system`, but the snapshot stores its trait block under `data` | Frightful Aspect on a character with damage reduction "5/cold", then revert: "5/cold; 10/magic" remains | Write the recorded `data` block back, restoring damage reduction and the spell-resistance formula | not executed; medium | MightyMorphin.AsWrittenRevertKeepsAspectDR | MightyMorphin.CorrectedFrightfulAspectRoundTrip |
| scripts/mighty-morphin.js:156 | `new MorphinElementalBody(level, shifter.id, source)` passes three arguments to a constructor whose second parameter is `durationLevel` (the same at line 175) | Any call: `actorId` receives the source text and `source` is undefined | Pass the duration level second, so the dialog is bound to the character's id and source | not executed; high | MightyMorphin.ShiftedDialogArgs | MightyMorphin.OpenElementalBody |
| scripts/mighty-morphin.js:152 | `beastShape`, `elementalBody` and `plantShape` call `MightyMorphinApp.getSingleActor()` (also at lines 132 and 171), but the class declares no such static; the helper is imported as a plain function, as `revert` at line 47 uses it | Any call of the three commands, whatever the selection: calling `undefined` throws a `TypeError` before the guard | Call the imported `getSingleActor()` as `revert` does | not executed; high | MightyMorphin.GuardsAsWrittenThrow | MightyMorphin.OpenElementalBody |
