/**
 * The Reduce Person buff of `scripts/morphs/reduce-person.js`: one size
 * step smaller, carrying capacity kept, armour and shields halved when a
 * small character becomes tiny, and the snapshot that lets the change be
 * reverted.
 */
module ReducePerson {
  import opened JsBase
  import opened Helpers
  import opened Actors

  const BuffName: string := "Reduce Person"
  const Icon: string := "systems/pf1/icons/races/ratfolk.png"
  /**
   * The size `step` steps from `size`, where `step` is the catalog entry's
   * size step (`changeData.size`), clamped to the table. A size missing
   * from the table reads as index -1, so a shrinking step lands on the
   * smallest size.
   */
  function NewSize(sizes: seq<string>, size: string, step: int): (r: string)
    requires GetNewSize(sizes, size, step).Some?
    ensures r in sizes && GetNewSize(sizes, size, step) == Some(r)
    ensures size in sizes && SizeTable(sizes) ==>
              IndexOf(sizes, r) == Clamp(IndexOf(sizes, size) + step, 0, |sizes| - 1)
    ensures size in sizes && SizeTable(sizes) && step == -1 ==>
              IndexOf(sizes, r) == (if IndexOf(sizes, size) == 0 then 0 else IndexOf(sizes, size) - 1)
    ensures size !in sizes && step < 0 ==> r == sizes[0]
  {
    GetNewSize(sizes, size, step).value
  }

  /** The armour step applies only to a small character, who becomes tiny. */
  predicate HalvesArmor(size: string)
  {
    size == "sm"
  }

  /**
   * The character after Reduce Person: the buff step, armour and shields
   * halved (rounding down) when the character was small, the new size, and
   * a snapshot of the original size and of the original armour values.
   */
  function ReducedState(s: ActorState, sizes: seq<string>, enc: map<string, real>, step: int,
                        catalog: seq<Change>, template: Item, newId: string): ActorState
    requires GetNewSize(sizes, s.size, step).Some?
  {
    var newSize := NewSize(sizes, s.size, step);
    var ci := CapacityInput(s.carryBonusUser, s.carryMultiplierTotal, enc, s.size, newSize);
    var buffed := ActivatedItems(s.items, BuffName, Icon, catalog, ci, template, newId);
    s.(size := newSize,
       items := ScaledItems(buffed, HalvesArmor(s.size), Halve),
       flag := Some(Snapshot(BuffName, BuffName, s.size,
                             ArmorFlag(buffed, HalvesArmor(s.size)), None, [], None)))
  }

  /**
   * Reduce Person shrinks the character one step and records the original
   * size under its own name; traits, totals and token are untouched.
   */
  lemma ReducedStateShape(s: ActorState, sizes: seq<string>, enc: map<string, real>, step: int,
                          catalog: seq<Change>, template: Item, newId: string)
    requires SizeTable(sizes) && s.size in sizes
    ensures GetNewSize(sizes, s.size, step).Some?
    ensures var r := ReducedState(s, sizes, enc, step, catalog, template, newId);
            && IndexOf(sizes, r.size) == Clamp(IndexOf(sizes, s.size) + step, 0, |sizes| - 1)
            && r.traits == s.traits && r.token == s.token && r.dexTotal == s.dexTotal && r.strTotal == s.strTotal
            && r.flag.Some? && r.flag.value.size == s.size && r.flag.value.source == BuffName
            && r.flag.value.buffName == BuffName
  {
    var k := NewSizeIndex(sizes, s.size, step);
    assert 0 <= k < |sizes|;
    var newSize := NewSize(sizes, s.size, step);
    assert IndexOf(sizes, newSize) == Clamp(IndexOf(sizes, s.size) + step, 0, |sizes| - 1);
  }

  /**
   * The items after Reduce Person: the buff is there and active, and every
   * other item is kept, with the armour of armour and shields halved
   * (rounding down) exactly when the character was small.
   */
  lemma ReducedItemsShape(s: ActorState, sizes: seq<string>, enc: map<string, real>, step: int,
                          catalog: seq<Change>, template: Item, newId: string)
    requires GetNewSize(sizes, s.size, step).Some?
    requires UniqueIds(s.items) && newId !in IdSet(s.items)
    ensures var r := ReducedState(s, sizes, enc, step, catalog, template, newId).items;
            && UniqueIds(r)
            && FindBuff(r, BuffName).Some? && r[FindBuff(r, BuffName).value].active
            && (forall i :: 0 <= i < |s.items| && !IsBuffNamed(s.items[i], BuffName) ==>
                  r[i] == if HalvesArmor(s.size) && IsArmorOrShield(s.items[i])
                          then s.items[i].(armor := s.items[i].armor / 2) else s.items[i])
  {
    var ci := CapacityInput(s.carryBonusUser, s.carryMultiplierTotal, enc, s.size, NewSize(sizes, s.size, step));
    BuffedItemsShape(s.items, BuffName, Icon, catalog, ci, template, newId, HalvesArmor(s.size), Halve);
  }

  /**
   * `reducePerson` on one character: when it already carries a snapshot
   * only the warning naming that snapshot's source is raised; otherwise the
   * character becomes `ReducedState`. `sizes` is the system's size table,
   * `enc` the encumbrance multipliers by size, `step` the catalog entry's
   * size step, `catalog` the buff's changes,
   * `template` the buff item template and `newId` the id the new buff gets.
   */
  method ApplyReducePerson(shifter: Actor, sizes: seq<string>, enc: map<string, real>, step: int,
                           catalog: seq<Change>, template: Item, newId: string)
    returns (warning: Option<string>)
    requires shifter.Valid() && GetNewSize(sizes, shifter.size, step).Some? && newId !in IdSet(shifter.items)
    modifies shifter
    ensures shifter.Valid()
    ensures old(shifter.flag).Some? ==>
              && warning == Some(AlreadyTransformedWarning(shifter.name, old(shifter.flag).value.source))
              && shifter.State() == old(shifter.State())
    ensures old(shifter.flag).None? ==>
              && warning.None?
              && shifter.State() == ReducedState(old(shifter.State()), sizes, enc, step, catalog, template, newId)
  {
    if shifter.flag.Some? {
      return Some(AlreadyTransformedWarning(shifter.name, shifter.flag.value.source));
    }
    var shifterSize := shifter.size;
    var newSize := NewSize(sizes, shifterSize, step);
    var ci := CapacityInput(shifter.carryBonusUser, shifter.carryMultiplierTotal, enc, shifterSize, newSize);
    ActivateBuff(shifter, BuffName, Icon, catalog, ci, template, newId);
    var armorChangeFlag := ScaleArmor(shifter, shifterSize == "sm", Halve);
    shifter.size := newSize;
    shifter.flag := Some(Snapshot(BuffName, BuffName, shifterSize, armorChangeFlag, None, [], None));
    warning := None;
  }
}
