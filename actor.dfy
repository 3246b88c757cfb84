/**
 * The character record the transformations change in place: its size,
 * traits, carrying-capacity totals, owned items and the single
 * `mightyMorphin` snapshot flag; and the pieces `reduce-person.js` and
 * `frightful-aspect.js` share: the change-list rebuild of a buff and the
 * rescaling of armour and shields.
 */
module Actors {
  import opened JsBase
  import opened Helpers

  /**
   * An owned item, with the fields the scripts read or write. For a buff,
   * `active` and `changes` matter; for equipment, `equipmentType` and
   * `armor` (the armour value).
   */
  datatype Item = Item(
    id: string,
    name: string,
    itemType: string,
    img: string,
    equipmentType: string,
    armor: int,
    active: bool,
    changes: seq<Change>)

  /** `{_id, data: {armor: {value}}}`: an armour value recorded or written for one item. */
  datatype ArmorRecord = ArmorRecord(id: string, armor: int)

  /**
   * The recorded trait block of a snapshot: the damage reduction and
   * spell-resistance formula a buff overwrote, and the prototype-token data
   * a polymorph replaced; each absent when not recorded.
   */
  datatype RecordedData = RecordedData(dr: Option<string>, srFormula: Option<Formula>, token: Option<string>)

  /** The `mightyMorphin` flag: everything needed to undo the active transformation. */
  datatype Snapshot = Snapshot(
    source: string,
    buffName: string,
    size: string,
    armor: seq<ArmorRecord>,
    data: Option<RecordedData>,
    itemsCreated: seq<string>,
    tokenImg: Option<string>)

  /** Damage reduction text, spell-resistance formula and the spell-resistance total it yields. */
  datatype Traits = Traits(dr: string, srFormula: Formula, srTotal: int)

  predicate UniqueIds(items: seq<Item>)
  {
    forall i, j :: 0 <= i < j < |items| ==> items[i].id != items[j].id
  }

  function IdSet(items: seq<Item>): set<string>
  {
    set i | 0 <= i < |items| :: items[i].id
  }

  /**
   * Everything about a character the transformations change: size, traits,
   * carrying-capacity totals, owned items, the prototype-token data and the
   * snapshot flag.
   */
  datatype ActorState = ActorState(
    size: string,
    traits: Traits,
    carryBonusUser: int,
    carryMultiplierTotal: real,
    dexTotal: int,
    strTotal: int,
    meleeAbility: string,
    items: seq<Item>,
    token: string,
    flag: Option<Snapshot>)

  class Actor {
    const id: string
    const name: string
    var size: string
    var traits: Traits
    /** The user carry-strength bonus; an absent one is 0. */
    var carryBonusUser: int
    var carryMultiplierTotal: real
    var dexTotal: int
    var strTotal: int
    /** The configured melee attack ability; empty when none is set. */
    var meleeAbility: string
    var items: seq<Item>
    /** The prototype-token data, as the text a polymorph records and restores. */
    var token: string
    var flag: Option<Snapshot>

    ghost predicate Valid()
      reads this
    {
      UniqueIds(items)
    }

    function State(): ActorState
      reads this
    {
      ActorState(size, traits, carryBonusUser, carryMultiplierTotal, dexTotal, strTotal, meleeAbility, items, token, flag)
    }

    constructor (id: string, name: string, init: ActorState)
      requires UniqueIds(init.items)
      ensures Valid()
      ensures this.id == id && this.name == name && State() == init
    {
      this.id := id;
      this.name := name;
      size := init.size;
      traits := init.traits;
      carryBonusUser := init.carryBonusUser;
      carryMultiplierTotal := init.carryMultiplierTotal;
      dexTotal := init.dexTotal;
      strTotal := init.strTotal;
      meleeAbility := init.meleeAbility;
      items := init.items;
      token := init.token;
      flag := init.flag;
    }
  }

  /** The warning a second transformation attempt raises. */
  function AlreadyTransformedWarning(name: string, source: string): string
  {
    name + " is already under the effects of a change from " + source
  }

  // -----------------------------------------------------------------------
  // Finding items
  // -----------------------------------------------------------------------

  predicate IsBuffNamed(item: Item, buffName: string)
  {
    item.itemType == "buff" && item.name == buffName
  }

  /** `items.find(o => o.type === 'buff' && o.name === buffName)`: the first such item. */
  function FindBuff(items: seq<Item>, buffName: string): (r: Option<nat>)
    ensures r.Some? ==> r.value < |items| && IsBuffNamed(items[r.value], buffName)
    ensures r.Some? ==> forall j :: 0 <= j < r.value ==> !IsBuffNamed(items[j], buffName)
    ensures r.None? ==> forall j :: 0 <= j < |items| ==> !IsBuffNamed(items[j], buffName)
  {
    if items == [] then None
    else if IsBuffNamed(items[0], buffName) then Some(0)
    else match FindBuff(items[1..], buffName)
      case None => None
      case Some(k) => Some(k + 1)
  }

  // -----------------------------------------------------------------------
  // Change-list rebuild
  // -----------------------------------------------------------------------

  function Add(a: Num, b: Num): (r: Num)
  {
    if a.Finite? && b.Finite? then Finite(a.r + b.r) else NonFinite
  }

  /** What one change adds to the strength change: `parseInt(formula)` for an `ability`/`str` change, else nothing. */
  function StrContribution(c: Change): Num
  {
    if c.target == "ability" && c.subTarget == "str" then ParseIntFormula(c.formula) else Finite(0.0)
  }

  /** The sum of `parseInt(formula)` over the `ability`/`str` changes, non-finite once any term is. */
  function StrChange(changes: seq<Change>): Num
  {
    if changes == [] then Finite(0.0)
    else Add(StrChange(changes[..|changes| - 1]), StrContribution(changes[|changes| - 1]))
  }

  predicate IsCapacityChange(c: Change)
  {
    c.subTarget == "carryStr" || c.subTarget == "carryMult"
  }

  /** A change survives a rebuild when it has a subTarget and is not a capacity change. */
  predicate Kept(c: Change)
  {
    c.subTarget != "" && !IsCapacityChange(c)
  }

  /** The old changes a rebuild keeps, in order. */
  function KeepNonCapacity(changes: seq<Change>): (r: seq<Change>)
    ensures |r| <= |changes|
  {
    if changes == [] then []
    else
      var init, last := changes[..|changes| - 1], changes[|changes| - 1];
      assert changes == init + [last];
      KeepNonCapacity(init) + (if Kept(last) then [last] else [])
  }

  /** The rebuild's filter keeps order and multiplicity: it distributes over `+`. */
  lemma {:induction false} KeepNonCapacityAppend(a: seq<Change>, b: seq<Change>)
    ensures KeepNonCapacity(a + b) == KeepNonCapacity(a) + KeepNonCapacity(b)
    decreases |b|
  {
    if b == [] {
      assert a + b == a;
    } else {
      var init, last := b[..|b| - 1], b[|b| - 1];
      var tail := if Kept(last) then [last] else [];
      var ka, ki := KeepNonCapacity(a), KeepNonCapacity(init);
      assert KeepNonCapacity(b) == ki + tail;
      var ab := a + b;
      assert ab[..|ab| - 1] == a + init && ab[|ab| - 1] == last;
      KeepNonCapacityAppend(a, init);
      assert KeepNonCapacity(ab) == ka + ki + tail;
      assert ka + ki + tail == ka + (ki + tail);
    }
  }

  /** The kept changes are exactly the old changes that `Kept` holds of. */
  lemma {:induction false} KeepNonCapacityMembers(changes: seq<Change>)
    ensures forall c :: c in KeepNonCapacity(changes) <==> c in changes && Kept(c)
  {
    if changes != [] {
      var init, last := changes[..|changes| - 1], changes[|changes| - 1];
      assert changes == init + [last];
      KeepNonCapacityMembers(init);
    }
  }

  /** A single change is kept exactly when `Kept` holds of it. */
  lemma KeepNonCapacitySingle(c: Change)
    ensures KeepNonCapacity([c]) == if Kept(c) then [c] else []
  {
    assert [c][..0] == [];
  }

  /** The inputs `generateCapacityChange` reads besides the strength change. */
  datatype CapacityInput = CapacityInput(
    userBonus: int, multiplierTotal: real, enc: map<string, real>, currentSize: string, newSize: string)

  function Capacity(ci: CapacityInput, strChange: Num): (r: seq<Change>)
  {
    GenerateCapacityChange(ci.userBonus, ci.multiplierTotal, ci.enc, ci.currentSize, ci.newSize, strChange)
  }

  /** The change list of a buff that already exists, after the rebuild. */
  function RebuiltChanges(previous: seq<Change>, ci: CapacityInput): seq<Change>
  {
    KeepNonCapacity(previous) + Capacity(ci, StrChange(previous))
  }

  /** The change list of a freshly created buff: the catalog changes, then the capacity changes. */
  function FreshChanges(catalog: seq<Change>, ci: CapacityInput): seq<Change>
  {
    catalog + Capacity(ci, StrChange(catalog))
  }

  function CountSub(changes: seq<Change>, subTarget: string): nat
  {
    if changes == [] then 0
    else CountSub(changes[..|changes| - 1], subTarget) + (if changes[|changes| - 1].subTarget == subTarget then 1 else 0)
  }

  lemma {:induction false} CountSubAppend(a: seq<Change>, b: seq<Change>, subTarget: string)
    ensures CountSub(a + b, subTarget) == CountSub(a, subTarget) + CountSub(b, subTarget)
  {
    if b != [] {
      var b' := b[..|b| - 1];
      assert (a + b)[..|a + b| - 1] == a + b';
      CountSubAppend(a, b', subTarget);
    } else {
      assert a + b == a;
    }
  }

  lemma {:induction false} KeepNonCapacityDropsCapacity(changes: seq<Change>)
    ensures CountSub(KeepNonCapacity(changes), "carryStr") == 0
    ensures CountSub(KeepNonCapacity(changes), "carryMult") == 0
  {
    if changes != [] {
      var init, last := changes[..|changes| - 1], changes[|changes| - 1];
      KeepNonCapacityDropsCapacity(init);
      var tail := if Kept(last) then [last] else [];
      CountSubAppend(KeepNonCapacity(init), tail, "carryStr");
      CountSubAppend(KeepNonCapacity(init), tail, "carryMult");
      if Kept(last) {
        assert [last][..0] == [];
      }
    }
  }

  /**
   * After a rebuild exactly one `carryStr` and one `carryMult` change
   * remain, whatever the previous list held, and every other kept change is an
   * old change with a subTarget.
   */
  lemma RebuildLeavesOneOfEach(previous: seq<Change>, ci: CapacityInput)
    ensures CountSub(RebuiltChanges(previous, ci), "carryStr") == 1
    ensures CountSub(RebuiltChanges(previous, ci), "carryMult") == 1
    ensures RebuiltChanges(previous, ci)[..|RebuiltChanges(previous, ci)| - 2] == KeepNonCapacity(previous)
  {
    var carry := Capacity(ci, StrChange(previous));
    KeepNonCapacityDropsCapacity(previous);
    CountSubAppend(KeepNonCapacity(previous), carry, "carryStr");
    CountSubAppend(KeepNonCapacity(previous), carry, "carryMult");
    assert carry == [carry[0]] + [carry[1]];
    CountSubAppend([carry[0]], [carry[1]], "carryStr");
    CountSubAppend([carry[0]], [carry[1]], "carryMult");
    assert [carry[0]][..0] == [] && [carry[1]][..0] == [];
  }

  /** The loops of the rebuild: the kept changes and the strength change, in one pass over the old list. */
  method RebuildChanges(oldChanges: seq<Change>) returns (newChanges: seq<Change>, strChange: Num)
    ensures newChanges == KeepNonCapacity(oldChanges)
    ensures strChange == StrChange(oldChanges)
  {
    newChanges, strChange := [], Finite(0.0);
    for i := 0 to |oldChanges|
      invariant newChanges == KeepNonCapacity(oldChanges[..i])
      invariant strChange == StrChange(oldChanges[..i])
    {
      var change := oldChanges[i];
      assert oldChanges[..i + 1][..i] == oldChanges[..i];
      if change.target == "ability" && change.subTarget == "str" {
        strChange := Add(strChange, ParseIntFormula(change.formula));
      }
      if change.subTarget != "" && change.subTarget != "carryStr" && change.subTarget != "carryMult" {
        newChanges := newChanges + [change];
      }
    }
    assert oldChanges[..|oldChanges|] == oldChanges;
  }

  /** The loop over the catalog changes of a buff about to be created. */
  method SumStrength(changes: seq<Change>) returns (strChange: Num)
    ensures strChange == StrChange(changes)
  {
    strChange := Finite(0.0);
    for i := 0 to |changes|
      invariant strChange == StrChange(changes[..i])
    {
      var change := changes[i];
      assert changes[..i + 1][..i] == changes[..i];
      if change.target == "ability" && change.subTarget == "str" {
        strChange := Add(strChange, ParseIntFormula(change.formula));
      }
    }
    assert changes[..|changes|] == changes;
  }

  // -----------------------------------------------------------------------
  // Turning the buff on
  // -----------------------------------------------------------------------

  /** The buff created from the template when the actor has none of that name. */
  function NewBuff(template: Item, newId: string, buffName: string, img: string, changes: seq<Change>): Item
  {
    template.(id := newId, name := buffName, itemType := "buff", img := img, changes := changes, active := true)
  }

  /**
   * The items after the buff step: an existing buff of that name is set
   * active with its changes rebuilt; otherwise a new active buff carrying
   * the catalog changes and the capacity changes is appended.
   */
  function ActivatedItems(items: seq<Item>, buffName: string, img: string, catalog: seq<Change>,
                          ci: CapacityInput, template: Item, newId: string): seq<Item>
  {
    match FindBuff(items, buffName)
    case None => items + [NewBuff(template, newId, buffName, img, FreshChanges(catalog, ci))]
    case Some(b) => items[b := items[b].(active := true, changes := RebuiltChanges(items[b].changes, ci))]
  }

  /** The buff step touches only the buff: it is active afterwards, and every other item is unchanged. */
  lemma ActivatedItemsShape(items: seq<Item>, buffName: string, img: string, catalog: seq<Change>,
                            ci: CapacityInput, template: Item, newId: string)
    requires UniqueIds(items) && newId !in IdSet(items)
    ensures var r := ActivatedItems(items, buffName, img, catalog, ci, template, newId);
            && UniqueIds(r)
            && IdSet(r) >= IdSet(items)
            && (forall i :: 0 <= i < |items| && !IsBuffNamed(items[i], buffName) ==> r[i] == items[i])
            && FindBuff(r, buffName).Some?
            && r[FindBuff(r, buffName).value].active
            && (FindBuff(items, buffName).None? ==> |r| == |items| + 1 && r[|items|].changes == FreshChanges(catalog, ci))
            && (FindBuff(items, buffName).Some? ==>
                  var b := FindBuff(items, buffName).value;
                  |r| == |items| && r[b].changes == RebuiltChanges(items[b].changes, ci))
  {
    match FindBuff(items, buffName)
    case None => AppendedBuffShape(items, buffName, img, catalog, ci, template, newId);
    case Some(b) => UpdatedBuffShape(items, buffName, ci, b);
  }

  lemma AppendedBuffShape(items: seq<Item>, buffName: string, img: string, catalog: seq<Change>,
                          ci: CapacityInput, template: Item, newId: string)
    requires UniqueIds(items) && newId !in IdSet(items) && FindBuff(items, buffName).None?
    ensures var r := items + [NewBuff(template, newId, buffName, img, FreshChanges(catalog, ci))];
            && UniqueIds(r) && IdSet(r) >= IdSet(items)
            && FindBuff(r, buffName) == Some(|items|)
  {
    var r := items + [NewBuff(template, newId, buffName, img, FreshChanges(catalog, ci))];
    assert r[|items|].id == newId;
    assert forall i :: 0 <= i < |items| ==> r[i] == items[i];
    assert IsBuffNamed(r[|items|], buffName);
  }

  lemma UpdatedBuffShape(items: seq<Item>, buffName: string, ci: CapacityInput, b: nat)
    requires UniqueIds(items) && FindBuff(items, buffName) == Some(b)
    ensures var r := items[b := items[b].(active := true, changes := RebuiltChanges(items[b].changes, ci))];
            && UniqueIds(r) && IdSet(r) == IdSet(items)
            && FindBuff(r, buffName) == Some(b)
  {
    var r := items[b := items[b].(active := true, changes := RebuiltChanges(items[b].changes, ci))];
    assert forall j :: 0 <= j < b ==> r[j] == items[j];
    assert IsBuffNamed(r[b], buffName);
    assert forall j :: 0 <= j < |items| ==> r[j].id == items[j].id;
    assert IdSet(r) == IdSet(items) by {
      forall x | x in IdSet(items) ensures x in IdSet(r) {
        var j :| 0 <= j < |items| && items[j].id == x;
        assert r[j].id == x;
      }
    }
  }

  /** The buff step on the actor, shared by the size-changing buffs. */
  method ActivateBuff(shifter: Actor, buffName: string, img: string, catalog: seq<Change>,
                      ci: CapacityInput, template: Item, newId: string)
    requires shifter.Valid() && newId !in IdSet(shifter.items)
    modifies shifter
    ensures shifter.Valid()
    ensures shifter.State() == old(shifter.State()).(items := ActivatedItems(old(shifter.items), buffName, img, catalog, ci, template, newId))
  {
    ActivatedItemsShape(shifter.items, buffName, img, catalog, ci, template, newId);
    var buff := FindBuff(shifter.items, buffName);
    if buff.None? {
      var strChange := SumStrength(catalog);
      var carryBonusChanges := Capacity(ci, strChange);
      var changes := catalog + carryBonusChanges;
      shifter.items := shifter.items + [NewBuff(template, newId, buffName, img, changes)];
    } else {
      var b := buff.value;
      var newChanges, strChange := RebuildChanges(shifter.items[b].changes);
      newChanges := newChanges + Capacity(ci, strChange);
      shifter.items := shifter.items[b := shifter.items[b].(active := true, changes := newChanges)];
    }
  }

  // -----------------------------------------------------------------------
  // Armour and shields
  // -----------------------------------------------------------------------

  predicate IsArmorOrShield(item: Item)
  {
    item.itemType == "equipment" && (item.equipmentType == "armor" || item.equipmentType == "shield")
  }

  /** How a transformation rescales armour values: unchanged, halved rounding down, or doubled. */
  datatype Scale = Original | Halve | Double

  function Scaled(scale: Scale, value: int): int
  {
    match scale
    case Original => value
    case Halve => value / 2
    case Double => value * 2
  }

  /** One record per armour or shield item, in order, carrying its rescaled value. */
  function ArmorRecords(items: seq<Item>, scale: Scale): (r: seq<ArmorRecord>)
    ensures |r| <= |items|
  {
    if items == [] then []
    else
      var init, last := items[..|items| - 1], items[|items| - 1];
      ArmorRecords(init, scale) + (if IsArmorOrShield(last) then [ArmorRecord(last.id, Scaled(scale, last.armor))] else [])
  }

  /** The value the last record for `id` carries, if any. */
  function ArmorFor(records: seq<ArmorRecord>, id: string): Option<int>
  {
    if records == [] then None
    else if records[|records| - 1].id == id then Some(records[|records| - 1].armor)
    else ArmorFor(records[..|records| - 1], id)
  }

  /** `updateEmbeddedDocuments('Item', records)`: each item with a record takes its value; the last record wins. */
  function ApplyArmor(items: seq<Item>, records: seq<ArmorRecord>): (r: seq<Item>)
    ensures |r| == |items|
    ensures forall i :: 0 <= i < |items| ==>
              r[i] == match ArmorFor(records, items[i].id) case Some(v) => items[i].(armor := v) case None => items[i]
  {
    seq(|items|, i requires 0 <= i < |items| =>
      match ArmorFor(records, items[i].id) case Some(v) => items[i].(armor := v) case None => items[i])
  }

  lemma ApplyArmorKeepsIds(items: seq<Item>, records: seq<ArmorRecord>)
    ensures forall i :: 0 <= i < |items| ==> ApplyArmor(items, records)[i].id == items[i].id
    ensures UniqueIds(items) ==> UniqueIds(ApplyArmor(items, records))
    ensures IdSet(ApplyArmor(items, records)) == IdSet(items)
  {
    var r := ApplyArmor(items, records);
    assert forall i :: 0 <= i < |items| ==> r[i].id == items[i].id;
    assert IdSet(r) == IdSet(items) by {
      forall x | x in IdSet(items) ensures x in IdSet(r) {
        var i :| 0 <= i < |items| && items[i].id == x;
        assert r[i].id == x;
      }
    }
  }

  /** With unique ids, the record for an item is the one built from that item, if it is armour or a shield. */
  lemma {:induction false} ArmorForRecords(items: seq<Item>, scale: Scale, k: nat)
    requires UniqueIds(items) && k < |items|
    ensures ArmorFor(ArmorRecords(items, scale), items[k].id) ==
              if IsArmorOrShield(items[k]) then Some(Scaled(scale, items[k].armor)) else None
  {
    var init, last := items[..|items| - 1], items[|items| - 1];
    var tail := if IsArmorOrShield(last) then [ArmorRecord(last.id, Scaled(scale, last.armor))] else [];
    var recs := ArmorRecords(items, scale);
    assert recs == ArmorRecords(init, scale) + tail;
    if k == |items| - 1 {
      ArmorForAbsent(init, scale, last.id);
      if !IsArmorOrShield(last) {
        assert recs == ArmorRecords(init, scale);
      } else {
        assert recs[|recs| - 1] == ArmorRecord(last.id, Scaled(scale, last.armor));
      }
    } else {
      ArmorForRecords(init, scale, k);
      if IsArmorOrShield(last) {
        assert recs[..|recs| - 1] == ArmorRecords(init, scale);
        assert recs[|recs| - 1].id == last.id != items[k].id;
      } else {
        assert recs == ArmorRecords(init, scale);
      }
    }
  }

  /** No record is built for an id none of the items carries. */
  lemma {:induction false} ArmorForAbsent(items: seq<Item>, scale: Scale, id: string)
    requires forall i :: 0 <= i < |items| ==> items[i].id != id
    ensures ArmorFor(ArmorRecords(items, scale), id).None?
  {
    if items != [] {
      var init, last := items[..|items| - 1], items[|items| - 1];
      ArmorForAbsent(init, scale, id);
      var recs := ArmorRecords(items, scale);
      if IsArmorOrShield(last) {
        assert recs[..|recs| - 1] == ArmorRecords(init, scale);
      } else {
        assert recs == ArmorRecords(init, scale);
      }
    }
  }

  /** Rescaling writes the rescaled value into exactly the armour and shield items. */
  lemma RescaledItems(items: seq<Item>, scale: Scale)
    requires UniqueIds(items)
    ensures forall i :: 0 <= i < |items| ==>
              ApplyArmor(items, ArmorRecords(items, scale))[i] ==
                if IsArmorOrShield(items[i]) then items[i].(armor := Scaled(scale, items[i].armor)) else items[i]
  {
    forall i | 0 <= i < |items|
      ensures ApplyArmor(items, ArmorRecords(items, scale))[i] ==
              if IsArmorOrShield(items[i]) then items[i].(armor := Scaled(scale, items[i].armor)) else items[i]
    {
      ArmorForRecords(items, scale, i);
    }
  }

  /** The loop that records each armour or shield item's value and its rescaled value. */
  method CollectArmor(items: seq<Item>, scale: Scale) returns (armorChangeFlag: seq<ArmorRecord>, armorToChange: seq<ArmorRecord>)
    ensures armorChangeFlag == ArmorRecords(items, Original)
    ensures armorToChange == ArmorRecords(items, scale)
  {
    armorChangeFlag, armorToChange := [], [];
    for i := 0 to |items|
      invariant armorChangeFlag == ArmorRecords(items[..i], Original)
      invariant armorToChange == ArmorRecords(items[..i], scale)
    {
      var item := items[i];
      assert items[..i + 1][..i] == items[..i];
      if IsArmorOrShield(item) {
        armorChangeFlag := armorChangeFlag + [ArmorRecord(item.id, item.armor)];
        armorToChange := armorToChange + [ArmorRecord(item.id, Scaled(scale, item.armor))];
      }
    }
    assert items[..|items|] == items;
  }

  /** The items after the armour step: every armour and shield rescaled when the step applies. */
  function ScaledItems(items: seq<Item>, applies: bool, scale: Scale): seq<Item>
  {
    if applies then ApplyArmor(items, ArmorRecords(items, scale)) else items
  }

  /** The armour values the snapshot records: the originals when the armour step applies, none otherwise. */
  function ArmorFlag(items: seq<Item>, applies: bool): seq<ArmorRecord>
  {
    if applies then ArmorRecords(items, Original) else []
  }

  /**
   * The armour step of the size-changing buffs on the actor: when it
   * applies, every armour and shield value is rescaled and the original
   * values are returned for the snapshot; otherwise nothing changes and
   * nothing is recorded.
   */
  method ScaleArmor(shifter: Actor, applies: bool, scale: Scale) returns (armorChangeFlag: seq<ArmorRecord>)
    requires shifter.Valid()
    modifies shifter
    ensures shifter.Valid()
    ensures armorChangeFlag == ArmorFlag(old(shifter.items), applies)
    ensures shifter.State() == old(shifter.State()).(items := ScaledItems(old(shifter.items), applies, scale))
  {
    var armorToChange := [];
    armorChangeFlag := [];
    if applies {
      armorChangeFlag, armorToChange := CollectArmor(shifter.items, scale);
    }
    if |armorToChange| > 0 {
      ApplyArmorKeepsIds(shifter.items, armorToChange);
      shifter.items := ApplyArmor(shifter.items, armorToChange);
    } else {
      assert ApplyArmor(shifter.items, armorToChange) == shifter.items;
    }
  }

  /** Two item lists that agree on which positions hold the buff agree on where the buff is found. */
  lemma FindBuffSameNames(a: seq<Item>, b: seq<Item>, buffName: string)
    requires |a| == |b| && forall i :: 0 <= i < |a| ==> (IsBuffNamed(a[i], buffName) <==> IsBuffNamed(b[i], buffName))
    ensures FindBuff(a, buffName) == FindBuff(b, buffName)
  {
    var fa, fb := FindBuff(a, buffName), FindBuff(b, buffName);
    if fa.Some? {
      assert IsBuffNamed(b[fa.value], buffName);
    }
    if fb.Some? {
      assert IsBuffNamed(a[fb.value], buffName);
    }
  }

  /** Writing armour values moves no buff: the buff of a name is found where it was. */
  lemma ApplyArmorFindsSameBuff(items: seq<Item>, records: seq<ArmorRecord>, buffName: string)
    ensures FindBuff(ApplyArmor(items, records), buffName) == FindBuff(items, buffName)
  {
    FindBuffSameNames(ApplyArmor(items, records), items, buffName);
  }

  /** The recorded entries whose item is still owned, in order. */
  function Existing(items: seq<Item>, records: seq<ArmorRecord>): (r: seq<ArmorRecord>)
    ensures |r| <= |records|
    ensures forall a :: a in r ==> a in records && a.id in IdSet(items)
    ensures forall a :: a in records && a.id in IdSet(items) ==> a in r
  {
    if records == [] then []
    else
      var init, last := records[..|records| - 1], records[|records| - 1];
      assert records == init + [last];
      Existing(items, init) + (if last.id in IdSet(items) then [last] else [])
  }

  /** The `forEach` that keeps the recorded entries whose item still exists. */
  method ExistingArmor(items: seq<Item>, armorFlag: seq<ArmorRecord>) returns (armorExisting: seq<ArmorRecord>)
    ensures armorExisting == Existing(items, armorFlag)
  {
    armorExisting := [];
    for i := 0 to |armorFlag|
      invariant armorExisting == Existing(items, armorFlag[..i])
    {
      var a := armorFlag[i];
      assert armorFlag[..i + 1][..i] == armorFlag[..i];
      if a.id in IdSet(items) {
        armorExisting := armorExisting + [a];
      }
    }
    assert armorFlag[..|armorFlag|] == armorFlag;
  }

  /** Skipping the records of deleted items loses nothing: the owned items get the same values either way. */
  lemma {:induction false} ExistingArmorFor(items: seq<Item>, records: seq<ArmorRecord>, k: nat)
    requires k < |items|
    ensures ArmorFor(Existing(items, records), items[k].id) == ArmorFor(records, items[k].id)
  {
    if records != [] {
      var init, last := records[..|records| - 1], records[|records| - 1];
      ExistingArmorFor(items, init, k);
      var e := Existing(items, records);
      if last.id in IdSet(items) {
        assert e[..|e| - 1] == Existing(items, init) && e[|e| - 1] == last;
      } else {
        assert e == Existing(items, init);
        assert last.id != items[k].id;
      }
    }
  }

  /**
   * Round trip of the armour step: rescaling armour and shields and then
   * writing back the recorded originals of the items still owned gives
   * back the items exactly.
   */
  lemma ArmorRoundTrip(items: seq<Item>, scale: Scale)
    requires UniqueIds(items)
    ensures var scaled := ApplyArmor(items, ArmorRecords(items, scale));
            ApplyArmor(scaled, Existing(scaled, ArmorRecords(items, Original))) == items
  {
    var scaled := ApplyArmor(items, ArmorRecords(items, scale));
    var originals := ArmorRecords(items, Original);
    RescaledItems(items, scale);
    ApplyArmorKeepsIds(items, ArmorRecords(items, scale));
    var back := ApplyArmor(scaled, Existing(scaled, originals));
    forall i | 0 <= i < |items| ensures back[i] == items[i] {
      ExistingArmorFor(scaled, originals, i);
      ArmorForRecords(items, Original, i);
    }
  }

  /** The armour step keeps the ids and the buff's place and rescales exactly the armour and shields. */
  lemma ScaledItemsShape(items: seq<Item>, applies: bool, scale: Scale, buffName: string)
    requires UniqueIds(items)
    ensures var r := ScaledItems(items, applies, scale);
            && |r| == |items| && UniqueIds(r)
            && FindBuff(r, buffName) == FindBuff(items, buffName)
            && (forall i :: 0 <= i < |items| ==>
                  r[i] == if applies && IsArmorOrShield(items[i]) then items[i].(armor := Scaled(scale, items[i].armor)) else items[i])
  {
    if applies {
      RescaledItems(items, scale);
      ApplyArmorKeepsIds(items, ArmorRecords(items, scale));
      ApplyArmorFindsSameBuff(items, ArmorRecords(items, scale), buffName);
    }
  }

  /**
   * The items after a size-changing buff (the buff step, then the armour
   * step): ids stay unique, the buff is found and active, and every item
   * that is not the buff is kept, rescaled exactly when it is armour or a
   * shield and the armour step applies.
   */
  lemma BuffedItemsShape(items: seq<Item>, buffName: string, img: string, catalog: seq<Change>,
                         ci: CapacityInput, template: Item, newId: string, applies: bool, scale: Scale)
    requires UniqueIds(items) && newId !in IdSet(items)
    ensures var r := ScaledItems(ActivatedItems(items, buffName, img, catalog, ci, template, newId), applies, scale);
            && UniqueIds(r)
            && FindBuff(r, buffName).Some? && r[FindBuff(r, buffName).value].active
            && (forall i :: 0 <= i < |items| && !IsBuffNamed(items[i], buffName) ==>
                  r[i] == if applies && IsArmorOrShield(items[i]) then items[i].(armor := Scaled(scale, items[i].armor)) else items[i])
  {
    var buffed := ActivatedItems(items, buffName, img, catalog, ci, template, newId);
    ActivatedItemsShape(items, buffName, img, catalog, ci, template, newId);
    ScaledItemsShape(buffed, applies, scale, buffName);
  }
}
