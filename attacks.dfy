/**
 * `createAttack` of `scripts/helpers/index.js`: turning an attack
 * descriptor from the form catalog into an attack item with one action.
 */
module Attacks {
  import opened JsBase
  import opened Helpers
  import opened Actors

  /** A row of the natural-attack table: icon, default damage types, and whether it is usually primary. */
  datatype NaturalAttack = NaturalAttack(img: string, types: seq<string>, primaryAttack: bool)

  /** The natural-attack table of the helpers: the row for a name, if it has one. */
  function NaturalAttackFor(name: string): Option<NaturalAttack>
  {
    match name
    case "Bite" => Some(NaturalAttack("systems/pf1/icons/items/inventory/monster-head.jpg", ["bludgeoning", "piercing", "slashing"], true))
    case "Claw" => Some(NaturalAttack("systems/pf1/icons/skills/blood_06.jpg", ["bludgeoning", "slashing"], true))
    case "Gore" => Some(NaturalAttack("systems/pf1/icons/items/inventory/monster-horn.jpg", ["piercing"], true))
    case "Hoof" => Some(NaturalAttack("systems/pf1/icons/items/inventory/monster-hoof.jpg", ["bludgeoning"], false))
    case "Tentacle" => Some(NaturalAttack("systems/pf1/icons/items/inventory/monster-octopus.jpg", ["bludgeoning"], false))
    case "Wing" => Some(NaturalAttack("systems/pf1/icons/skills/blue_02.jpg", ["bludgeoning"], false))
    case "Pincers" => Some(NaturalAttack("systems/pf1/icons/items/inventory/monster-claw.jpg", ["bludgeoning"], false))
    case "Tail Slap" => Some(NaturalAttack("systems/pf1/icons/items/inventory/monster-tail.jpg", ["bludgeoning"], false))
    case "Slam" => Some(NaturalAttack("systems/pf1/icons/items/inventory/monster-forearm.jpg", ["bludgeoning"], true))
    case "Sting" => Some(NaturalAttack("systems/pf1/icons/items/inventory/monster-scorpion.jpg", ["piercing"], true))
    case "Talons" => Some(NaturalAttack("systems/pf1/icons/items/inventory/monster-talon-green.jpg", ["slashing"], true))
    case _ => None
  }

  const DefaultAttackImg: string := "systems/pf1/icons/items/inventory/monster-paw-bear.jpg"

  /** A damage part: its formula and its damage type (`{values, custom}`). */
  datatype DamagePart = DamagePart(formula: string, values: seq<string>, custom: string)

  /**
   * An attack descriptor from the form catalog. Numbers that are falsy
   * when absent (`crit`, `critMult`, `enh`, `increment`, `mult`) use 0
   * for absent; text that is falsy when absent uses "". `types` is the
   * descriptor's `type` field, a list of damage types.
   */
  datatype AttackDescriptor = AttackDescriptor(
    name: string,
    attackType: string,
    diceCount: int,
    diceSize: int,
    count: int,
    crit: int,
    critMult: int,
    special: Option<seq<string>>,
    nonCrit: Option<DamagePart>,
    primaryAttack: bool,
    attackAbility: string,
    mult: real,
    types: Option<seq<string>>,
    enh: int,
    range: Option<int>,
    increment: int,
    charges: Option<int>)

  /** What the effects table says about a special tag. */
  datatype EffectDetail = EffectDetail(note: string, saveType: string, saveDesc: string, description: string)

  datatype Save = Save(saveType: string, dc: string, description: string)

  /** An entry of `attackParts`: a formula and a name. */
  datatype AttackPart = AttackPart(formula: string, partName: string)

  /** The fields of an item action that `createAttack` fills in. */
  datatype Action = Action(
    name: string,
    img: string,
    actionType: string,
    activationType: string,
    durationUnits: string,
    rangeValue: string,
    rangeUnits: string,
    maxIncrements: Option<int>,
    critRange: int,
    critMult: int,
    usesPer: string,
    usesMaxFormula: string,
    usesValue: int,
    attackParts: seq<AttackPart>,
    attackName: string,
    effectNotes: seq<string>,
    save: Save,
    abilityAttack: string,
    abilityDamage: string,
    damageMult: real,
    damageParts: seq<DamagePart>,
    nonCritParts: seq<DamagePart>)

  /** The attack item returned; `enh` is None for the `null` the source writes. */
  datatype AttackItem = AttackItem(
    name: string,
    itemType: string,
    enh: Option<int>,
    primaryAttack: bool,
    attackType: string,
    description: string,
    img: string,
    actions: seq<Action>)

  // -----------------------------------------------------------------------
  // Primary attacks and the damage multiplier
  // -----------------------------------------------------------------------

  predicate NaturallyPrimary(name: string)
  {
    NaturalAttackFor(name).Some? && NaturalAttackFor(name).value.primaryAttack
  }

  /** Primary when the descriptor says so, when the table's default for the name is primary, or when it is the only attack. */
  predicate IsPrimary(attack: AttackDescriptor, onlyAttack: bool)
  {
    attack.primaryAttack || NaturallyPrimary(attack.name) || onlyAttack
  }

  /** The descriptor's multiplier when given; else 1.5 for an only attack, 1 for a primary one, 0.5 for a secondary one. */
  function DamageMult(attack: AttackDescriptor, onlyAttack: bool): (m: real)
    ensures attack.mult != 0.0 ==> m == attack.mult
    ensures attack.mult == 0.0 ==> (m == 1.5 <==> onlyAttack)
    ensures attack.mult == 0.0 ==> (m == 1.0 <==> !onlyAttack && IsPrimary(attack, onlyAttack))
    ensures attack.mult == 0.0 ==> (m == 0.5 <==> !IsPrimary(attack, onlyAttack))
  {
    if attack.mult != 0.0 then attack.mult
    else if onlyAttack then 1.5
    else if IsPrimary(attack, onlyAttack) then 1.0
    else 0.5
  }

  // -----------------------------------------------------------------------
  // Extra attacks
  // -----------------------------------------------------------------------

  /** The extra attack parts of a descriptor attacking `count` times: "<name> 2" up to "<name> count". */
  function ExtraAttackParts(name: string, count: int): (parts: seq<AttackPart>)
    ensures count <= 1 ==> parts == []
    ensures count > 1 ==> |parts| == count - 1
    ensures forall k :: 0 <= k < |parts| ==> parts[k] == AttackPart("", name + " " + NatToString(k + 2))
  {
    if count <= 1 then [] else seq(count - 1, k requires 0 <= k => AttackPart("", name + " " + NatToString(k + 2)))
  }

  /** The names of the extra parts are pairwise distinct and none of them is the name of the first attack. */
  lemma ExtraAttackNamesDistinct(name: string, count: int)
    ensures forall i, j :: 0 <= i < j < |ExtraAttackParts(name, count)| ==>
              ExtraAttackParts(name, count)[i].partName != ExtraAttackParts(name, count)[j].partName
    ensures forall i :: 0 <= i < |ExtraAttackParts(name, count)| ==>
              ExtraAttackParts(name, count)[i].partName != name + " 1"
  {
    var parts := ExtraAttackParts(name, count);
    forall i, j | 0 <= i < j < |parts| ensures parts[i].partName != parts[j].partName {
      NumberedNamesDiffer(name, i + 2, j + 2);
    }
    forall i | 0 <= i < |parts| ensures parts[i].partName != name + " 1" {
      NumberedNamesDiffer(name, i + 2, 1);
    }
  }

  /** "<name> m" and "<name> n" differ for different numbers m and n. */
  lemma NumberedNamesDiffer(name: string, m: nat, n: nat)
    requires m != n
    ensures name + " " + NatToString(m) != name + " " + NatToString(n)
  {
    if name + " " + NatToString(m) == name + " " + NatToString(n) {
      var p := name + " ";
      assert NatToString(m) == (p + NatToString(m))[|p|..];
      assert NatToString(n) == (p + NatToString(n))[|p|..];
      NatToStringValue(m);
      NatToStringValue(n);
    }
  }

  /** The loop that names the extra attacks "<name> 2", "<name> 3", ... */
  method ExtraAttacks(name: string, count: int) returns (extraAttacks: seq<AttackPart>)
    ensures extraAttacks == ExtraAttackParts(name, count)
  {
    extraAttacks := [];
    var i := 1;
    while i < count
      invariant count > 1 ==> 1 <= i <= count
      invariant count <= 1 ==> i == 1
      invariant |extraAttacks| == i - 1
      invariant forall k :: 0 <= k < |extraAttacks| ==> extraAttacks[k] == AttackPart("", name + " " + NatToString(k + 2))
      decreases count - i
    {
      extraAttacks := extraAttacks + [AttackPart("", name + " " + NatToString(i + 1))];
      i := i + 1;
    }
  }

  // -----------------------------------------------------------------------
  // Effect notes, save and description from the special tags
  // -----------------------------------------------------------------------

  /** The note a non-empty tag contributes: the effects table's note, or the tag itself. */
  function NoteFor(tag: string, effects: map<string, EffectDetail>): string
  {
    if tag in effects then effects[tag].note else tag
  }

  /** The notes pushed while walking the tags; empty (deleted) tags push nothing. */
  function EffectNotes(tags: seq<string>, effects: map<string, EffectDetail>): seq<string>
  {
    if tags == [] then []
    else
      var last := tags[|tags| - 1];
      EffectNotes(tags[..|tags| - 1], effects) + (if last != "" then [NoteFor(last, effects)] else [])
  }

  /** The tags that are not empty, in order. */
  function NonEmptyTags(tags: seq<string>): (r: seq<string>)
    ensures forall t :: t in r <==> t in tags && t != ""
  {
    if tags == [] then []
    else
      var init, last := tags[..|tags| - 1], tags[|tags| - 1];
      assert tags == init + [last];
      NonEmptyTags(init) + (if last != "" then [last] else [])
  }

  /** One note per non-empty tag, in order: the table's note when the tag has an entry, else the tag text. */
  lemma {:induction false} EffectNotesPerTag(tags: seq<string>, effects: map<string, EffectDetail>)
    ensures |EffectNotes(tags, effects)| == |NonEmptyTags(tags)|
    ensures forall k :: 0 <= k < |NonEmptyTags(tags)| ==>
              EffectNotes(tags, effects)[k] == NoteFor(NonEmptyTags(tags)[k], effects)
  {
    if tags != [] {
      EffectNotesPerTag(tags[..|tags| - 1], effects);
    }
  }

  /** A tag whose entry in the effects table carries a save description. */
  predicate SetsSave(tag: string, effects: map<string, EffectDetail>)
  {
    tag != "" && tag in effects && effects[tag].saveDesc != ""
  }

  /** The save after walking the tags. */
  function SaveAfter(tags: seq<string>, effects: map<string, EffectDetail>, save: Save): Save
  {
    if tags == [] then save
    else
      var last := tags[|tags| - 1];
      if SetsSave(last, effects) then Save(effects[last].saveType, "10", effects[last].saveDesc)
      else SaveAfter(tags[..|tags| - 1], effects, save)
  }

  /**
   * The save is untouched when no tag sets one; otherwise the last tag
   * that sets one decides it, with the literal DC "10".
   */
  lemma {:induction false} SaveAfterRule(tags: seq<string>, effects: map<string, EffectDetail>, save: Save)
    ensures (forall i :: 0 <= i < |tags| ==> !SetsSave(tags[i], effects)) ==> SaveAfter(tags, effects, save) == save
    ensures forall i :: 0 <= i < |tags| && SetsSave(tags[i], effects)
                        && (forall j :: i < j < |tags| ==> !SetsSave(tags[j], effects)) ==>
              SaveAfter(tags, effects, save) == Save(effects[tags[i]].saveType, "10", effects[tags[i]].saveDesc)
  {
    if tags != [] {
      var n := |tags| - 1;
      var init := tags[..n];
      SaveAfterRule(init, effects, save);
      assert forall i :: 0 <= i < n ==> init[i] == tags[i];
      if SetsSave(tags[n], effects) {
        assert SaveAfter(tags, effects, save) == Save(effects[tags[n]].saveType, "10", effects[tags[n]].saveDesc);
      } else {
        assert SaveAfter(tags, effects, save) == SaveAfter(init, effects, save);
        forall i | 0 <= i < |tags| && SetsSave(tags[i], effects) && (forall j :: i < j < |tags| ==> !SetsSave(tags[j], effects))
          ensures SaveAfter(tags, effects, save) == Save(effects[tags[i]].saveType, "10", effects[tags[i]].saveDesc)
        {
          assert i < n && init[i] == tags[i];
          assert forall j :: i < j < n ==> !SetsSave(init[j], effects);
        }
      }
    }
  }

  /** The description after walking the tags: every non-empty tag overwrites it with its entry's description, or "". */
  function DescriptionAfter(tags: seq<string>, effects: map<string, EffectDetail>, description: string): (r: string)
    ensures NonEmptyTags(tags) == [] ==> r == description
    ensures NonEmptyTags(tags) != [] ==>
              var last := NonEmptyTags(tags)[|NonEmptyTags(tags)| - 1];
              r == if last in effects then effects[last].description else ""
  {
    if tags == [] then description
    else
      var init, last := tags[..|tags| - 1], tags[|tags| - 1];
      if last != "" then (if last in effects then effects[last].description else "")
      else DescriptionAfter(init, effects, description)
  }

  /** The loop over the special tags: notes pushed, the save set, the description overwritten. */
  method WalkSpecials(tags: seq<string>, effects: map<string, EffectDetail>, notes0: seq<string>, save0: Save, description0: string)
    returns (notes: seq<string>, save: Save, description: string)
    ensures notes == notes0 + EffectNotes(tags, effects)
    ensures save == SaveAfter(tags, effects, save0)
    ensures description == DescriptionAfter(tags, effects, description0)
  {
    notes, save, description := notes0, save0, description0;
    for j := 0 to |tags|
      invariant notes == notes0 + EffectNotes(tags[..j], effects)
      invariant save == SaveAfter(tags[..j], effects, save0)
      invariant description == DescriptionAfter(tags[..j], effects, description0)
    {
      var specialName := tags[j];
      assert tags[..j + 1][..j] == tags[..j];
      if specialName != "" {
        if specialName in effects {
          notes := notes + [effects[specialName].note];
          if effects[specialName].saveDesc != "" {
            save := Save(effects[specialName].saveType, "10", effects[specialName].saveDesc);
          }
        } else {
          notes := notes + [specialName];
        }
        description := if specialName in effects then effects[specialName].description else "";
      }
    }
    assert tags[..|tags|] == tags;
  }

  // -----------------------------------------------------------------------
  // Attack and damage abilities
  // -----------------------------------------------------------------------

  /** `items.find(o => o.type === 'feat' && o.name === 'Weapon Finesse')` finds something. */
  predicate HasWeaponFinesse(items: seq<Item>)
  {
    exists i :: 0 <= i < |items| && items[i].itemType == "feat" && items[i].name == "Weapon Finesse"
  }

  /**
   * The attack ability: the descriptor's when given; else `dex` for a
   * finesse user (`finesse`: the feat and dex at least str) or a ranged
   * attack; else the actor's melee ability, or `str` when none is set.
   */
  function AttackAbility(attack: AttackDescriptor, finesse: bool, meleeAbility: string): (r: string)
    ensures r != ""
    ensures attack.attackAbility != "" ==> r == attack.attackAbility
    ensures attack.attackAbility == "" ==>
              (r == "dex" <==> finesse || attack.attackType == "rwak" || meleeAbility == "dex")
    ensures attack.attackAbility == "" && r != "dex" ==> r == meleeAbility || (meleeAbility == "" && r == "str")
  {
    if attack.attackAbility != "" then attack.attackAbility
    else if finesse || attack.attackType == "rwak" then "dex"
    else if meleeAbility != "" then meleeAbility
    else "str"
  }

  /**
   * The damage ability as written: the descriptor's `type` field, a list
   * of damage types, is compared with the text "rwak". A list is never
   * strictly equal to a string, so the test never holds.
   */
  function DamageAbilityAsWritten(attack: AttackDescriptor): (r: string)
    ensures r == "str"
  {
    var typeIsRwak := false; // `attack.type === 'rwak'` with `attack.type` a list or absent
    if typeIsRwak then "" else "str"
  }

  /** The damage ability the comment above the line describes: strength, unless the attack is ranged. */
  function DamageAbility(attack: AttackDescriptor): (r: string)
    ensures r == "" <==> attack.attackType == "rwak"
    ensures r != "" ==> r == "str"
  {
    if attack.attackType == "rwak" then "" else "str"
  }

  /** As written, a ranged attack adds strength to its damage, where the corrected rule adds none. */
  lemma DamageAbilityFinding()
    ensures var ranged := AttackDescriptor("Spine", "rwak", 1, 6, 1, 0, 0, None, None, false, "", 0.0,
                                           Some(["piercing"]), 0, Some(30), 5, None);
            DamageAbilityAsWritten(ranged) == "str" && DamageAbility(ranged) == ""
  {
  }

  // -----------------------------------------------------------------------
  // Damage parts
  // -----------------------------------------------------------------------

  /** The damage types of the size roll: the descriptor's, else the table's for the name, else none. */
  function DamageTypes(attack: AttackDescriptor): seq<string>
  {
    match attack.types
    case Some(t) => t
    case None => match NaturalAttackFor(attack.name) case Some(n) => n.types case None => []
  }

  /** `sizeRoll(count, size, @size, formSizeIndex)`. */
  function SizeRollFormula(diceCount: int, diceSize: int, formSizeIndex: int): string
  {
    "sizeRoll(" + IntToString(diceCount) + ", " + IntToString(diceSize) + ", @size, " + IntToString(formSizeIndex) + ")"
  }

  /** The last argument of a size roll reads back as the form size's index. */
  lemma SizeRollCarriesFormSize(diceCount: int, diceSize: int, sizes: seq<string>, k: nat)
    requires SizeTable(sizes) && k < |sizes|
    ensures var f := SizeRollFormula(diceCount, diceSize, IndexOf(sizes, sizes[k]));
            var prefix := "sizeRoll(" + IntToString(diceCount) + ", " + IntToString(diceSize) + ", @size, ";
            f[..|f| - 1] == prefix + NatToString(k) && ParseInt(f[|prefix|..|f| - 1]) == Some(k)
  {
    var prefix := "sizeRoll(" + IntToString(diceCount) + ", " + IntToString(diceSize) + ", @size, ";
    var f := SizeRollFormula(diceCount, diceSize, IndexOf(sizes, sizes[k]));
    IndexOfDistinct(sizes, k);
    assert f == prefix + NatToString(k) + ")";
    assert f[..|f| - 1] == prefix + NatToString(k);
    assert f[|prefix|..|f| - 1] == NatToString(k);
    ParseIntOfIntToString(k);
  }

  /**
   * The damage parts: exactly one size roll carrying the form size's
   * index when the dice size is non-zero; else the bonus damage when
   * there is one; else the defaults.
   */
  function DamageParts(sizes: seq<string>, formSize: string, attack: AttackDescriptor, defaults: seq<DamagePart>): (r: seq<DamagePart>)
    ensures attack.diceSize != 0 ==>
              && |r| == 1
              && r[0].formula == SizeRollFormula(attack.diceCount, attack.diceSize, IndexOf(sizes, formSize))
              && r[0].values == DamageTypes(attack) && r[0].custom == ""
    ensures attack.diceSize == 0 && attack.nonCrit.Some? ==> r == [attack.nonCrit.value]
    ensures attack.diceSize == 0 && attack.nonCrit.None? ==> r == defaults
  {
    if attack.diceSize != 0 then
      [DamagePart(SizeRollFormula(attack.diceCount, attack.diceSize, IndexOf(sizes, formSize)), DamageTypes(attack), "")]
    else if attack.nonCrit.Some? then [attack.nonCrit.value]
    else defaults
  }

  /** The non-critical parts: the bonus damage, but only beside a size roll; else the defaults. */
  function NonCritParts(attack: AttackDescriptor, defaults: seq<DamagePart>): (r: seq<DamagePart>)
    ensures r != defaults ==> attack.diceSize != 0 && attack.nonCrit.Some? && r == [attack.nonCrit.value]
    ensures attack.diceSize != 0 && attack.nonCrit.Some? ==> r == [attack.nonCrit.value]
  {
    if attack.diceSize != 0 && attack.nonCrit.Some? then [attack.nonCrit.value] else defaults
  }

  // -----------------------------------------------------------------------
  // createAttack
  // -----------------------------------------------------------------------

  function AttackImage(name: string): string
  {
    match NaturalAttackFor(name) case Some(n) => n.img case None => DefaultAttackImg
  }

  /**
   * The descriptor's rules for the fields `createAttack` configures: name
   * and image, action type `mwak` when none is given, range in feet for a
   * ranged attack, crit range 20 and multiplier 2 when unset, increments
   * only when non-zero, and daily uses when the attack has charges.
   */
  predicate ConfiguredFrom(a: Action, attack: AttackDescriptor)
  {
    && a.name == attack.name && a.img == AttackImage(attack.name)
    && a.actionType == (if attack.attackType != "" then attack.attackType else "mwak")
    && a.activationType == "attack" && a.durationUnits == "inst"
    && a.rangeValue == (match attack.range case Some(r) => IntToString(r) case None => "")
    && a.rangeUnits == (if attack.attackType == "rwak" then "ft" else "melee")
    && a.critRange == (if attack.crit != 0 then attack.crit else 20)
    && a.critMult == (if attack.critMult != 0 then attack.critMult else 2)
    && a.maxIncrements == (if attack.increment != 0 then Some(attack.increment) else None)
    && a.usesPer == (if attack.charges.Some? && attack.charges.value != 0 then "day" else "")
    && a.usesMaxFormula == (match attack.charges case Some(c) => IntToString(c) case None => "")
    && a.usesValue == (match attack.charges case Some(c) => c case None => 0)
  }

  /**
   * The fields of the action `createAttack` takes from the descriptor,
   * each with its fallback; the other fields keep the item action's
   * default data `defaults`, an opaque host record.
   */
  method ConfigureAction(attack: AttackDescriptor, defaults: Action) returns (a: Action)
    ensures ConfiguredFrom(a, attack)
    ensures a.attackParts == defaults.attackParts && a.attackName == defaults.attackName
    ensures a.effectNotes == defaults.effectNotes && a.save == defaults.save
    ensures a.abilityAttack == defaults.abilityAttack && a.abilityDamage == defaults.abilityDamage
    ensures a.damageMult == defaults.damageMult
    ensures a.damageParts == defaults.damageParts && a.nonCritParts == defaults.nonCritParts
  {
    a := Action(
      attack.name,
      AttackImage(attack.name),
      if attack.attackType != "" then attack.attackType else "mwak",
      "attack",
      "inst",
      match attack.range case Some(r) => IntToString(r) case None => "",
      if attack.attackType == "rwak" then "ft" else "melee",
      if attack.increment != 0 then Some(attack.increment) else None,
      if attack.crit != 0 then attack.crit else 20,
      if attack.critMult != 0 then attack.critMult else 2,
      if attack.charges.Some? && attack.charges.value != 0 then "day" else "",
      match attack.charges case Some(c) => IntToString(c) case None => "",
      match attack.charges case Some(c) => c case None => 0,
      defaults.attackParts, defaults.attackName, defaults.effectNotes, defaults.save,
      defaults.abilityAttack, defaults.abilityDamage, defaults.damageMult, defaults.damageParts, defaults.nonCritParts);
  }

  /** The fields `ConfigureAction` sets are the same in both actions. */
  predicate SameConfiguration(a: Action, b: Action)
  {
    && a.name == b.name && a.img == b.img && a.actionType == b.actionType
    && a.activationType == b.activationType && a.durationUnits == b.durationUnits
    && a.rangeValue == b.rangeValue && a.rangeUnits == b.rangeUnits && a.maxIncrements == b.maxIncrements
    && a.critRange == b.critRange && a.critMult == b.critMult
    && a.usesPer == b.usesPer && a.usesMaxFormula == b.usesMaxFormula && a.usesValue == b.usesValue
  }

  /**
   * The rest of the action `createAttack` builds from the configured
   * action `c`: the extra attacks, the notes and save of the specials,
   * the attack and damage abilities, the multiplier and the damage parts.
   * `defaultDescription` is the attack template's description; the
   * description is returned beside the action, since the source writes it
   * on the item.
   */
  method CompleteAction(c: Action, items: seq<Item>, dexTotal: int, strTotal: int, meleeAbility: string,
                        sizes: seq<string>, formSize: string, attack: AttackDescriptor, onlyAttack: bool,
                        effects: map<string, EffectDetail>, defaultDescription: string)
    returns (a: Action, description: string)
    ensures SameConfiguration(a, c)
    ensures attack.count > 1 ==> a.attackParts == ExtraAttackParts(attack.name, attack.count) && a.attackName == attack.name + " 1"
    ensures attack.count <= 1 ==> a.attackParts == c.attackParts && a.attackName == c.attackName
    ensures var tags := match attack.special case Some(t) => t case None => [];
      && a.effectNotes == c.effectNotes + EffectNotes(tags, effects)
      && a.save == SaveAfter(tags, effects, c.save)
      && description == DescriptionAfter(tags, effects, defaultDescription)
    ensures a.abilityAttack == AttackAbility(attack, HasWeaponFinesse(items) && dexTotal >= strTotal, meleeAbility)
    ensures a.abilityDamage == DamageAbilityAsWritten(attack)
    ensures a.damageMult == DamageMult(attack, onlyAttack)
    ensures a.damageParts == DamageParts(sizes, formSize, attack, c.damageParts)
    ensures a.nonCritParts == NonCritParts(attack, c.nonCritParts)
  {
    // Extra attacks, named from 2
    var extraAttacks := ExtraAttacks(attack.name, attack.count);
    var attackParts, attackName := c.attackParts, c.attackName;
    if |extraAttacks| > 0 {
      attackParts, attackName := extraAttacks, attack.name + " 1";
    }

    // Notes, save and description for each special
    var notes, save := c.effectNotes, c.save;
    description := defaultDescription;
    if attack.special.Some? {
      notes, save, description := WalkSpecials(attack.special.value, effects, notes, save, description);
    }

    var finesse := HasWeaponFinesse(items) && dexTotal >= strTotal;
    a := Action(
      c.name, c.img, c.actionType, c.activationType, c.durationUnits, c.rangeValue, c.rangeUnits,
      c.maxIncrements, c.critRange, c.critMult, c.usesPer, c.usesMaxFormula, c.usesValue,
      attackParts,
      attackName,
      notes,
      save,
      AttackAbility(attack, finesse, meleeAbility),
      DamageAbilityAsWritten(attack),
      DamageMult(attack, onlyAttack),
      DamageParts(sizes, formSize, attack, c.damageParts),
      NonCritParts(attack, c.nonCritParts));
  }

  /**
   * `createAttack`: an attack item holding the single action that
   * `ConfigureAction` and `CompleteAction` build; `category` is the sheet
   * category (`type`).
   */
  method CreateAttack(actor: Actor, sizes: seq<string>, formSize: string, attack: AttackDescriptor, onlyAttack: bool,
                      effects: map<string, EffectDetail>, source: string, category: string,
                      defaults: Action, defaultDescription: string)
    returns (item: AttackItem)
    ensures item.name == attack.name + (if source != "" then " (" + source + ")" else "")
    ensures item.itemType == "attack" && item.attackType == category
    ensures item.enh == (if attack.enh != 0 then Some(attack.enh) else None)
    ensures item.primaryAttack <==> attack.primaryAttack || NaturallyPrimary(attack.name) || onlyAttack
    ensures item.img == AttackImage(attack.name)
    ensures |item.actions| == 1 && item.actions[0].img == item.img && item.actions[0].name == attack.name
    ensures ConfiguredFrom(item.actions[0], attack)
    ensures attack.count > 1 ==>
              item.actions[0].attackParts == ExtraAttackParts(attack.name, attack.count)
              && item.actions[0].attackName == attack.name + " 1"
    ensures attack.count <= 1 ==>
              item.actions[0].attackParts == defaults.attackParts && item.actions[0].attackName == defaults.attackName
    ensures var tags := match attack.special case Some(t) => t case None => [];
      && item.actions[0].effectNotes == defaults.effectNotes + EffectNotes(tags, effects)
      && item.actions[0].save == SaveAfter(tags, effects, defaults.save)
      && item.description == DescriptionAfter(tags, effects, defaultDescription)
    ensures item.actions[0].abilityAttack
            == AttackAbility(attack, HasWeaponFinesse(actor.items) && actor.dexTotal >= actor.strTotal, actor.meleeAbility)
    ensures item.actions[0].damageMult == DamageMult(attack, onlyAttack)
    ensures item.actions[0].abilityDamage == DamageAbilityAsWritten(attack)
    ensures item.actions[0].damageParts == DamageParts(sizes, formSize, attack, defaults.damageParts)
    ensures item.actions[0].nonCritParts == NonCritParts(attack, defaults.nonCritParts)
  {
    var configured := ConfigureAction(attack, defaults);
    var subAction, description := CompleteAction(configured, actor.items, actor.dexTotal, actor.strTotal, actor.meleeAbility,
                                                 sizes, formSize, attack, onlyAttack, effects, defaultDescription);
    var name := attack.name + (if source != "" then " (" + source + ")" else "");
    var enh := if attack.enh != 0 then Some(attack.enh) else None;
    item := AttackItem(name, "attack", enh, IsPrimary(attack, onlyAttack), category, description, subAction.img, [subAction]);
  }
}
