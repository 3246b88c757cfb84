/**
 * `MightyMorphinApp` of `scripts/mighty-morphin.js`: `revert`, which
 * consumes the `mightyMorphin` snapshot and undoes the transformation it
 * describes, and the guards of `beastShape`, `elementalBody` and
 * `plantShape`, which open a transformation dialog only for a character
 * that carries no snapshot.
 */
module MightyMorphin {
  import opened JsBase
  import opened Helpers
  import opened Actors
  import Polymorph
  import ElementalBody
  import PlantShape
  import ReducePerson
  import FrightfulAspect

  /** The sources `revert` undoes as a buff: restore armour and size, then switch the buff off. */
  const BuffSources: seq<string> :=
    ["Enlarge Person", "Reduce Person", "Legendary Proportions", "Frightful Aspect", "Animal Growth"]

  /** The sources `revert` undoes as a polymorph: restore armour and token, then delete the created items. */
  const PolymorphSources: seq<string> := ["Beast Shape", "Elemental Body", "Plant Shape", "Wild Shape"]

  /** The warning a revert of a character without a snapshot raises. */
  function NotTransformedWarning(name: string): string
  {
    name + " is not under any change effects"
  }

  /**
   * How `revert` ends: the warning for a character without a snapshot, a
   * completed revert, the two `TypeError`s the source can raise part-way
   * (no buff of the recorded name to switch off; a polymorph snapshot
   * without its `data` block), or nothing done for an unknown source.
   */
  datatype RevertOutcome = NotTransformed(warning: string) | Reverted | BuffMissing | DataMissing | UnknownSource

  // -----------------------------------------------------------------------
  // The specification of revert, on values
  // -----------------------------------------------------------------------

  /** The items after the recorded armour values are written back to the items still owned. */
  function RestoredItems(items: seq<Item>, armor: seq<ArmorRecord>): seq<Item>
  {
    ApplyArmor(items, Existing(items, armor))
  }

  /**
   * The trait block written back from the snapshot's `data`: each recorded
   * field takes its recorded value, the others stay. The total is the
   * host's derived value and is not written.
   */
  function RestoredTraits(t: Traits, d: RecordedData): (r: Traits)
    ensures d.dr.Some? ==> r.dr == d.dr.value
    ensures d.dr.None? ==> r.dr == t.dr
    ensures d.srFormula.Some? ==> r.srFormula == d.srFormula.value
    ensures d.srFormula.None? ==> r.srFormula == t.srFormula
    ensures r.srTotal == t.srTotal
  {
    Traits(if d.dr.Some? then d.dr.value else t.dr,
           if d.srFormula.Some? then d.srFormula.value else t.srFormula,
           t.srTotal)
  }

  /**
   * The trait block as the source writes it back: the update reads
   * `changes.system`, a key the snapshot never has, so nothing of the
   * recorded block reaches the character.
   */
  function RevertedTraitsAsWritten(t: Traits, snap: Snapshot): Traits
  {
    t
  }

  /** The buff named `buffName`, first found, switched off; the items unchanged when there is none. */
  function Deactivated(items: seq<Item>, buffName: string): seq<Item>
  {
    match FindBuff(items, buffName)
    case None => items
    case Some(b) => items[b := items[b].(active := false)]
  }

  /**
   * Revert of a buff, as the source does it: armour written back, size
   * restored, the trait block as written (untouched), the snapshot
   * removed, and the buff switched off.
   */
  function BuffReverted(s: ActorState, snap: Snapshot): ActorState
  {
    var items := RestoredItems(s.items, snap.armor);
    s.(size := snap.size,
       traits := RevertedTraitsAsWritten(s.traits, snap),
       items := Deactivated(items, snap.buffName),
       flag := None)
  }

  /** Revert of a buff with the recorded trait block written back, as evidently intended. */
  function BuffRevertedCorrected(s: ActorState, snap: Snapshot): ActorState
  {
    BuffReverted(s, snap).(traits := if snap.data.Some? then RestoredTraits(s.traits, snap.data.value) else s.traits)
  }

  /** The items whose id is not listed, in order. */
  function WithoutIds(items: seq<Item>, ids: seq<string>): (r: seq<Item>)
    ensures |r| <= |items|
    ensures forall x :: x in r ==> x in items && x.id !in ids
    ensures forall x :: x in items && x.id !in ids ==> x in r
  {
    if items == [] then []
    else
      var init, last := items[..|items| - 1], items[|items| - 1];
      assert items == init + [last];
      WithoutIds(init, ids) + (if last.id !in ids then [last] else [])
  }

  /** The token data the snapshot restores: the recorded text when it is truthy, else the current one. */
  function RestoredToken(token: string, d: RecordedData): string
  {
    if d.token.Some? && d.token.value != "" then d.token.value else token
  }

  /**
   * Revert of a polymorph: armour written back; then, when the snapshot
   * carries its `data` block, the token restored, the snapshot removed and
   * the created items deleted. Without the block the source throws after
   * the armour step, and the snapshot stays.
   */
  function PolymorphReverted(s: ActorState, snap: Snapshot): ActorState
  {
    var items := RestoredItems(s.items, snap.armor);
    match snap.data
    case None => s.(items := items)
    case Some(d) => s.(items := WithoutIds(items, snap.itemsCreated), token := RestoredToken(s.token, d), flag := None)
  }

  /** The character after `revert`. */
  function RevertedState(s: ActorState): ActorState
  {
    match s.flag
    case None => s
    case Some(snap) =>
      if snap.source in BuffSources then BuffReverted(s, snap)
      else if snap.source in PolymorphSources then PolymorphReverted(s, snap)
      else s
  }

  /** The character after `revert` with the corrected buff branch. */
  function RevertedStateCorrected(s: ActorState): ActorState
  {
    match s.flag
    case None => s
    case Some(snap) =>
      if snap.source in BuffSources then BuffRevertedCorrected(s, snap)
      else if snap.source in PolymorphSources then PolymorphReverted(s, snap)
      else s
  }

  /** How `revert` ends for the character named `name` in state `s`. */
  function RevertOutcomeOf(name: string, s: ActorState): RevertOutcome
  {
    match s.flag
    case None => NotTransformed(NotTransformedWarning(name))
    case Some(snap) =>
      if snap.source in BuffSources then
        if FindBuff(s.items, snap.buffName).None? then BuffMissing else Reverted
      else if snap.source in PolymorphSources then
        if snap.data.None? then DataMissing else Reverted
      else UnknownSource
  }

  // -----------------------------------------------------------------------
  // Properties of revert
  // -----------------------------------------------------------------------

  /**
   * Revert leaves no snapshot behind exactly when it completes or stops at
   * the missing buff; a character without a snapshot, an unknown source
   * and a polymorph without its data block keep the state they had.
   */
  lemma RevertRemovesSnapshot(name: string, s: ActorState)
    ensures var o := RevertOutcomeOf(name, s);
            && (RevertedState(s).flag.None? <==> o.NotTransformed? || o.Reverted? || o.BuffMissing?)
            && (o.NotTransformed? || o.UnknownSource? ==> RevertedState(s) == s)
            && (o.NotTransformed? <==> s.flag.None?)
  {
  }

  /** A revert of a buff or a completed polymorph revert restores the recorded size or keeps the size. */
  lemma RevertRestoresSize(s: ActorState)
    requires s.flag.Some?
    ensures s.flag.value.source in BuffSources ==> RevertedState(s).size == s.flag.value.size
    ensures s.flag.value.source !in BuffSources ==> RevertedState(s).size == s.size
  {
  }

  /** Writing back an empty record list changes nothing. */
  lemma RestoredItemsNoRecords(items: seq<Item>)
    ensures RestoredItems(items, []) == items
  {
    assert Existing(items, []) == [];
    assert forall i :: 0 <= i < |items| ==> ApplyArmor(items, [])[i] == items[i];
  }

  /** Writing back armour values keeps the ids unique and the buffs where they were. */
  lemma {:induction false} RestoredItemsShape(items: seq<Item>, armor: seq<ArmorRecord>, buffName: string)
    requires UniqueIds(items)
    ensures var r := RestoredItems(items, armor);
            && |r| == |items| && UniqueIds(r) && IdSet(r) == IdSet(items)
            && FindBuff(r, buffName) == FindBuff(items, buffName)
  {
    ApplyArmorKeepsIds(items, Existing(items, armor));
    ApplyArmorFindsSameBuff(items, Existing(items, armor), buffName);
  }

  /** Switching the buff off keeps the ids and every other item, and leaves the buff found and inactive. */
  lemma DeactivatedShape(items: seq<Item>, buffName: string)
    requires UniqueIds(items)
    ensures var r := Deactivated(items, buffName);
            && |r| == |items| && UniqueIds(r) && IdSet(r) == IdSet(items)
            && FindBuff(r, buffName) == FindBuff(items, buffName)
            && (FindBuff(r, buffName).Some? ==> !r[FindBuff(r, buffName).value].active)
            && (forall i :: 0 <= i < |items| && !IsBuffNamed(items[i], buffName) ==> r[i] == items[i])
  {
    var r := Deactivated(items, buffName);
    match FindBuff(items, buffName)
    case None =>
    case Some(b) =>
      assert forall i :: 0 <= i < |items| ==> r[i].id == items[i].id;
      assert forall i :: 0 <= i < |items| ==> (IsBuffNamed(r[i], buffName) <==> IsBuffNamed(items[i], buffName));
      FindBuffSameNames(r, items, buffName);
      assert IdSet(r) == IdSet(items) by {
        forall x | x in IdSet(items) ensures x in IdSet(r) {
          var i :| 0 <= i < |items| && items[i].id == x;
          assert r[i].id == x;
        }
      }
  }

  /** Deleting by id keeps the remaining ids unique. */
  lemma {:induction false} WithoutIdsUnique(items: seq<Item>, ids: seq<string>)
    requires UniqueIds(items)
    ensures UniqueIds(WithoutIds(items, ids))
  {
    if items != [] {
      var init, last := items[..|items| - 1], items[|items| - 1];
      assert items == init + [last];
      WithoutIdsUnique(init, ids);
      var r0 := WithoutIds(init, ids);
      forall x | x in r0 ensures x.id != last.id {
        var i :| 0 <= i < |init| && init[i] == x;
        assert items[i] == x && items[|items| - 1] == last;
      }
      if last.id !in ids {
        var r := WithoutIds(items, ids);
        assert r == r0 + [last];
        forall i, j | 0 <= i < j < |r| ensures r[i].id != r[j].id {
          if j == |r| - 1 {
            assert r[i] in r0;
          } else {
            assert r[i] == r0[i] && r[j] == r0[j];
          }
        }
      }
    }
  }

  /** Two id lists that agree on every item's id delete the same items. */
  lemma {:induction false} WithoutIdsAgree(items: seq<Item>, a: seq<string>, b: seq<string>)
    requires forall i :: 0 <= i < |items| ==> (items[i].id in a <==> items[i].id in b)
    ensures WithoutIds(items, a) == WithoutIds(items, b)
  {
    if items != [] {
      var init := items[..|items| - 1];
      assert forall i :: 0 <= i < |init| ==> init[i] == items[i];
      WithoutIdsAgree(init, a, b);
    }
  }

  /** The ids of the created items still owned, in item order. */
  function CreatedOnActor(items: seq<Item>, created: seq<string>): (r: seq<string>)
    ensures forall id :: id in r ==> id in created
    ensures forall i :: 0 <= i < |items| ==> (items[i].id in r <==> items[i].id in created)
  {
    if items == [] then []
    else
      var init, last := items[..|items| - 1], items[|items| - 1];
      assert forall i :: 0 <= i < |init| ==> init[i] == items[i];
      CreatedOnActor(init, created) + (if last.id in created then [last.id] else [])
  }

  /**
   * Deleting only the created items still owned deletes exactly what
   * deleting every created id would: ids of items already gone are skipped.
   */
  lemma DeleteOwnedCreated(items: seq<Item>, created: seq<string>)
    ensures WithoutIds(items, CreatedOnActor(items, created)) == WithoutIds(items, created)
    ensures forall x :: x in WithoutIds(items, created) <==> x in items && x.id !in created
  {
    WithoutIdsAgree(items, CreatedOnActor(items, created), created);
  }

  // -----------------------------------------------------------------------
  // revert on the character
  // -----------------------------------------------------------------------

  /** The `filter` of the items on the character whose id the snapshot lists as created. */
  method ItemsOnActor(items: seq<Item>, created: seq<string>) returns (ids: seq<string>)
    ensures ids == CreatedOnActor(items, created)
  {
    ids := [];
    for i := 0 to |items|
      invariant ids == CreatedOnActor(items[..i], created)
    {
      assert items[..i + 1][..i] == items[..i];
      if items[i].id in created {
        ids := ids + [items[i].id];
      }
    }
    assert items[..|items|] == items;
  }

  /** The armour step of revert: the recorded values of the items still owned are written back. */
  method RestoreArmor(shifter: Actor, armorFlag: seq<ArmorRecord>)
    requires shifter.Valid()
    modifies shifter
    ensures shifter.Valid()
    ensures shifter.State() == old(shifter.State()).(items := RestoredItems(old(shifter.items), armorFlag))
  {
    if |armorFlag| > 0 {
      var armorExisting := ExistingArmor(shifter.items, armorFlag);
      ApplyArmorKeepsIds(shifter.items, armorExisting);
      shifter.items := ApplyArmor(shifter.items, armorExisting);
    } else {
      RestoredItemsNoRecords(shifter.items);
    }
  }

  /** The buff branch of `revert`. */
  method RevertBuff(shifter: Actor, changes: Snapshot) returns (outcome: RevertOutcome)
    requires shifter.Valid() && shifter.flag == Some(changes)
    modifies shifter
    ensures shifter.Valid()
    ensures outcome == if FindBuff(old(shifter.items), changes.buffName).None? then BuffMissing else Reverted
    ensures shifter.State() == BuffReverted(old(shifter.State()), changes)
  {
    RestoredItemsShape(shifter.items, changes.armor, changes.buffName);
    RestoreArmor(shifter, changes.armor);
    // the trait block is written from `changes.system`, which the snapshot does not have
    shifter.size, shifter.flag := changes.size, None;
    DeactivatedShape(shifter.items, changes.buffName);
    var buff := FindBuff(shifter.items, changes.buffName);
    if buff.None? {
      // the source's `find` yields undefined and the `update` on it throws
      return BuffMissing;
    }
    shifter.items := shifter.items[buff.value := shifter.items[buff.value].(active := false)];
    outcome := Reverted;
  }

  /** The deletion of the created items still owned. */
  method DeleteCreated(shifter: Actor, created: seq<string>)
    requires shifter.Valid()
    modifies shifter
    ensures shifter.Valid()
    ensures shifter.State() == old(shifter.State()).(items := WithoutIds(old(shifter.items), created))
  {
    var itemsOnActor := ItemsOnActor(shifter.items, created);
    DeleteOwnedCreated(shifter.items, created);
    WithoutIdsUnique(shifter.items, created);
    shifter.items := WithoutIds(shifter.items, itemsOnActor);
  }

  /** The polymorph branch of `revert`. */
  method RevertPolymorph(shifter: Actor, changes: Snapshot) returns (outcome: RevertOutcome)
    requires shifter.Valid() && shifter.flag == Some(changes)
    modifies shifter
    ensures shifter.Valid()
    ensures outcome == if changes.data.None? then DataMissing else Reverted
    ensures shifter.State() == PolymorphReverted(old(shifter.State()), changes)
  {
    RestoreArmor(shifter, changes.armor);
    if changes.data.None? {
      // reading `changes.data.token` throws
      return DataMissing;
    }
    shifter.token, shifter.flag := RestoredToken(shifter.token, changes.data.value), None;
    DeleteCreated(shifter, changes.itemsCreated);
    outcome := Reverted;
  }

  /**
   * `revert` on one character: the warning when it carries no snapshot;
   * otherwise the buff or polymorph branch by the snapshot's source, and
   * nothing for another source.
   */
  method Revert(shifter: Actor) returns (outcome: RevertOutcome)
    requires shifter.Valid()
    modifies shifter
    ensures shifter.Valid()
    ensures outcome == RevertOutcomeOf(shifter.name, old(shifter.State()))
    ensures shifter.State() == RevertedState(old(shifter.State()))
  {
    if shifter.flag.None? {
      return NotTransformed(NotTransformedWarning(shifter.name));
    }
    var changes := shifter.flag.value;
    if changes.source in BuffSources {
      outcome := RevertBuff(shifter, changes);
    } else if changes.source in PolymorphSources {
      outcome := RevertPolymorph(shifter, changes);
    } else {
      outcome := UnknownSource;
    }
  }

  // -----------------------------------------------------------------------
  // Apply, then revert
  // -----------------------------------------------------------------------

  /**
   * The armour step of a size-changing buff undone: writing back the
   * recorded originals gives the items right after the buff step.
   */
  lemma BuffArmorRoundTrip(items: seq<Item>, buffName: string, img: string, catalog: seq<Change>,
                           ci: CapacityInput, template: Item, newId: string, applies: bool, scale: Scale)
    requires UniqueIds(items) && newId !in IdSet(items)
    ensures var buffed := ActivatedItems(items, buffName, img, catalog, ci, template, newId);
            RestoredItems(ScaledItems(buffed, applies, scale), ArmorFlag(buffed, applies)) == buffed
  {
    var buffed := ActivatedItems(items, buffName, img, catalog, ci, template, newId);
    ActivatedItemsShape(items, buffName, img, catalog, ci, template, newId);
    if applies {
      ArmorRoundTrip(buffed, scale);
    } else {
      RestoredItemsNoRecords(buffed);
    }
  }

  /**
   * The items after a size-changing buff and its revert: every item that
   * is not the buff is back as it was, and the buff is there, switched off.
   */
  lemma BuffItemsRoundTrip(items: seq<Item>, buffName: string, img: string, catalog: seq<Change>,
                           ci: CapacityInput, template: Item, newId: string, applies: bool, scale: Scale)
    requires UniqueIds(items) && newId !in IdSet(items)
    ensures var buffed := ActivatedItems(items, buffName, img, catalog, ci, template, newId);
            var r := Deactivated(RestoredItems(ScaledItems(buffed, applies, scale), ArmorFlag(buffed, applies)), buffName);
            && |r| >= |items| && UniqueIds(r)
            && FindBuff(r, buffName).Some? && !r[FindBuff(r, buffName).value].active
            && (forall i :: 0 <= i < |items| && !IsBuffNamed(items[i], buffName) ==> r[i] == items[i])
  {
    var buffed := ActivatedItems(items, buffName, img, catalog, ci, template, newId);
    ActivatedItemsShape(items, buffName, img, catalog, ci, template, newId);
    BuffArmorRoundTrip(items, buffName, img, catalog, ci, template, newId, applies, scale);
    DeactivatedShape(buffed, buffName);
  }

  /**
   * Reduce Person followed by revert: the size is back, no snapshot is
   * left, every item that is not the buff is exactly as before (armour
   * values included), the buff is switched off, and nothing else about
   * the character has changed.
   */
  lemma ReducePersonRoundTrip(name: string, s: ActorState, sizes: seq<string>, enc: map<string, real>, step: int,
                              catalog: seq<Change>, template: Item, newId: string)
    requires GetNewSize(sizes, s.size, step).Some? && s.flag.None? && UniqueIds(s.items) && newId !in IdSet(s.items)
    ensures var r := ReducePerson.ReducedState(s, sizes, enc, step, catalog, template, newId);
            var t := RevertedState(r);
            && RevertOutcomeOf(name, r) == Reverted
            && t == s.(items := t.items)
            && |t.items| >= |s.items| && UniqueIds(t.items)
            && FindBuff(t.items, ReducePerson.BuffName).Some? && !t.items[FindBuff(t.items, ReducePerson.BuffName).value].active
            && (forall i :: 0 <= i < |s.items| && !IsBuffNamed(s.items[i], ReducePerson.BuffName) ==> t.items[i] == s.items[i])
  {
    var newSize := ReducePerson.NewSize(sizes, s.size, step);
    var ci := CapacityInput(s.carryBonusUser, s.carryMultiplierTotal, enc, s.size, newSize);
    BuffItemsRoundTrip(s.items, ReducePerson.BuffName, ReducePerson.Icon, catalog, ci, template, newId,
                       ReducePerson.HalvesArmor(s.size), Halve);
    ActivatedItemsShape(s.items, ReducePerson.BuffName, ReducePerson.Icon, catalog, ci, template, newId);
    ScaledItemsShape(ActivatedItems(s.items, ReducePerson.BuffName, ReducePerson.Icon, catalog, ci, template, newId),
                     ReducePerson.HalvesArmor(s.size), Halve, ReducePerson.BuffName);
  }

  /**
   * Frightful Aspect followed by revert, as written: the size is back, no
   * snapshot is left, every item that is not the buff is exactly as
   * before and the buff is switched off, but the damage reduction and
   * spell-resistance formula stay as the buff left them.
   */
  lemma FrightfulAspectRoundTrip(name: string, s: ActorState, sizes: seq<string>, enc: map<string, real>,
                                 newSize: string, catalog: seq<Change>, template: Item, newId: string,
                                 casterLevel: Formula)
    requires s.flag.None? && UniqueIds(s.items) && newId !in IdSet(s.items)
    ensures var r := FrightfulAspect.AspectState(s, sizes, enc, newSize, catalog, template, newId, casterLevel);
            var t := RevertedState(r);
            && RevertOutcomeOf(name, r) == Reverted
            && t == s.(items := t.items, traits := FrightfulAspect.AspectTraits(s.traits, casterLevel))
            && |t.items| >= |s.items| && UniqueIds(t.items)
            && FindBuff(t.items, FrightfulAspect.BuffName).Some?
            && !t.items[FindBuff(t.items, FrightfulAspect.BuffName).value].active
            && (forall i :: 0 <= i < |s.items| && !IsBuffNamed(s.items[i], FrightfulAspect.BuffName) ==> t.items[i] == s.items[i])
  {
    AspectItemsRoundTrip(s, sizes, enc, newSize, catalog, template, newId);
  }

  /**
   * Frightful Aspect followed by the corrected revert: the size, damage
   * reduction and spell-resistance formula are back, no snapshot is left,
   * every item that is not the buff is exactly as before, the buff is
   * switched off, and nothing else about the character has changed.
   */
  lemma CorrectedFrightfulAspectRoundTrip(s: ActorState, sizes: seq<string>, enc: map<string, real>,
                                          newSize: string, catalog: seq<Change>, template: Item, newId: string,
                                          casterLevel: Formula)
    requires s.flag.None? && UniqueIds(s.items) && newId !in IdSet(s.items)
    ensures var r := FrightfulAspect.AspectState(s, sizes, enc, newSize, catalog, template, newId, casterLevel);
            var t := RevertedStateCorrected(r);
            && t == s.(items := t.items)
            && |t.items| >= |s.items| && UniqueIds(t.items)
            && FindBuff(t.items, FrightfulAspect.BuffName).Some?
            && !t.items[FindBuff(t.items, FrightfulAspect.BuffName).value].active
            && (forall i :: 0 <= i < |s.items| && !IsBuffNamed(s.items[i], FrightfulAspect.BuffName) ==> t.items[i] == s.items[i])
  {
    AspectItemsRoundTrip(s, sizes, enc, newSize, catalog, template, newId);
  }

  /** The items after Frightful Aspect and either revert: the buff's items round trip. */
  lemma AspectItemsRoundTrip(s: ActorState, sizes: seq<string>, enc: map<string, real>,
                             newSize: string, catalog: seq<Change>, template: Item, newId: string)
    requires UniqueIds(s.items) && newId !in IdSet(s.items)
    ensures var ci := CapacityInput(s.carryBonusUser, s.carryMultiplierTotal, enc, s.size, newSize);
            var buffed := ActivatedItems(s.items, FrightfulAspect.BuffName, FrightfulAspect.Icon, catalog, ci, template, newId);
            var doubles := FrightfulAspect.DoublesArmor(sizes, s.size);
            var t := Deactivated(RestoredItems(ScaledItems(buffed, doubles, Double), ArmorFlag(buffed, doubles)),
                                 FrightfulAspect.BuffName);
            && |t| >= |s.items| && UniqueIds(t)
            && FindBuff(t, FrightfulAspect.BuffName).Some? && !t[FindBuff(t, FrightfulAspect.BuffName).value].active
            && (forall i :: 0 <= i < |s.items| && !IsBuffNamed(s.items[i], FrightfulAspect.BuffName) ==> t[i] == s.items[i])
            && FindBuff(ScaledItems(buffed, doubles, Double), FrightfulAspect.BuffName).Some?
  {
    var ci := CapacityInput(s.carryBonusUser, s.carryMultiplierTotal, enc, s.size, newSize);
    BuffItemsRoundTrip(s.items, FrightfulAspect.BuffName, FrightfulAspect.Icon, catalog, ci, template, newId,
                       FrightfulAspect.DoublesArmor(sizes, s.size), Double);
    ActivatedItemsShape(s.items, FrightfulAspect.BuffName, FrightfulAspect.Icon, catalog, ci, template, newId);
    ScaledItemsShape(ActivatedItems(s.items, FrightfulAspect.BuffName, FrightfulAspect.Icon, catalog, ci, template, newId),
                     FrightfulAspect.DoublesArmor(sizes, s.size), Double, FrightfulAspect.BuffName);
  }

  /**
   * The revert as written does not undo Frightful Aspect's traits: the
   * damage reduction keeps the added 10/magic, so it differs from the
   * original whatever the character.
   */
  lemma AsWrittenRevertKeepsAspectDR(s: ActorState, sizes: seq<string>, enc: map<string, real>,
                                     newSize: string, catalog: seq<Change>, template: Item, newId: string,
                                     casterLevel: Formula)
    requires s.flag.None?
    ensures var r := FrightfulAspect.AspectState(s, sizes, enc, newSize, catalog, template, newId, casterLevel);
            var t := RevertedState(r);
            && t.traits.dr == FrightfulAspect.NewDR(s.traits.dr)
            && t.traits.dr != s.traits.dr
            && RevertedStateCorrected(r).traits.dr == s.traits.dr
  {
    var r := FrightfulAspect.AspectState(s, sizes, enc, newSize, catalog, template, newId, casterLevel);
    assert |r.traits.dr| > |s.traits.dr|;
  }

  // -----------------------------------------------------------------------
  // The transformation guards
  // -----------------------------------------------------------------------

  /**
   * The guard every transformation runs first: the warning naming the
   * source of the snapshot the character already carries, or none when it
   * carries no snapshot.
   */
  function TransformationGuard(name: string, flag: Option<Snapshot>): (r: Option<string>)
    ensures r.None? <==> flag.None?
    ensures r.Some? ==> r.value == AlreadyTransformedWarning(name, flag.value.source)
  {
    match flag
    case None => None
    case Some(snap) => Some(AlreadyTransformedWarning(name, snap.source))
  }

  /**
   * `beastShape`, corrected: the guard on the selected character. The
   * Beast Shape dialog itself is not part of this model.
   */
  method BeastShape(shifter: Actor) returns (warning: Option<string>)
    ensures warning == TransformationGuard(shifter.name, shifter.flag)
  {
    if shifter.flag.Some? {
      warning := Some(AlreadyTransformedWarning(shifter.name, shifter.flag.value.source));
    } else {
      warning := None;
    }
  }

  /** A JavaScript argument value, as far as the dialog constructors' parameters go. */
  datatype JsArg = Int(n: int) | Str(s: string) | Undefined

  /** The first four parameters of the polymorph dialog constructors: `(level, durationLevel, actorId, source)`. */
  datatype DialogBinding = DialogBinding(level: JsArg, durationLevel: JsArg, actorId: JsArg, source: JsArg)

  function ArgAt(args: seq<JsArg>, k: nat): JsArg
  {
    if k < |args| then args[k] else Undefined
  }

  /** Positional binding of a call's arguments: a parameter without an argument is undefined. */
  function Bind(args: seq<JsArg>): (r: DialogBinding)
    ensures r.level == ArgAt(args, 0) && r.durationLevel == ArgAt(args, 1)
    ensures r.actorId == ArgAt(args, 2) && r.source == ArgAt(args, 3)
  {
    DialogBinding(ArgAt(args, 0), ArgAt(args, 1), ArgAt(args, 2), ArgAt(args, 3))
  }

  /** The call `new MorphinElementalBody(level, shifter.id, source)` as written. */
  function DialogArgsAsWritten(level: int, shifterId: string, source: string): seq<JsArg>
  {
    [Int(level), Str(shifterId), Str(source)]
  }

  /** The call with the duration level in its place. */
  function DialogArgs(level: int, durationLevel: int, shifterId: string, source: string): seq<JsArg>
  {
    [Int(level), Int(durationLevel), Str(shifterId), Str(source)]
  }

  /**
   * As written, the character's id lands in `durationLevel`, the source
   * text in `actorId` and `source` is undefined: the dialog is bound to no
   * character of that id unless the source text happens to equal it.
   */
  lemma ShiftedDialogArgs(level: int, shifterId: string, source: string)
    ensures var b := Bind(DialogArgsAsWritten(level, shifterId, source));
            && b.durationLevel == Str(shifterId) && b.actorId == Str(source) && b.source == Undefined
            && (b.actorId == Str(shifterId) <==> source == shifterId)
  {
  }

  /** With the duration level passed, every parameter gets the value its name says. */
  lemma IntendedDialogArgs(level: int, durationLevel: int, shifterId: string, source: string)
    ensures Bind(DialogArgs(level, durationLevel, shifterId, source))
            == DialogBinding(Int(level), Int(durationLevel), Str(shifterId), Str(source))
  {
  }

  /** The static members `MightyMorphinApp` declares; the imported `getSingleActor` is not one of them. */
  const AppStatics: set<string> :=
    {"enlargePerson", "animalGrowth", "legendaryProportions", "frightfulAspect", "reducePerson",
     "revert", "beastShape", "elementalBody", "plantShape"}

  /** How a dialog command ends: a thrown `TypeError`, the guard's warning, or a dialog with its parameters bound. */
  datatype CommandOutcome = Threw | Warned(warning: string) | Opened(binding: DialogBinding)

  /**
   * `elementalBody` or `plantShape` as written, for a selected character:
   * `MightyMorphinApp.getSingleActor` is looked up among the class's
   * `statics`, and calling it throws when it is not there; otherwise the
   * guard, then the dialog constructed with the three arguments as written.
   */
  function DialogCommandAsWritten(statics: set<string>, name: string, shifterId: string, flag: Option<Snapshot>,
                                  level: int, source: string): (r: CommandOutcome)
    ensures r.Threw? <==> "getSingleActor" !in statics
    ensures r.Warned? <==> "getSingleActor" in statics && flag.Some?
    ensures r.Warned? ==> r.warning == AlreadyTransformedWarning(name, flag.value.source)
    ensures r.Opened? ==> r.binding == Bind(DialogArgsAsWritten(level, shifterId, source))
  {
    if "getSingleActor" !in statics then Threw
    else match flag
      case Some(snap) => Warned(AlreadyTransformedWarning(name, snap.source))
      case None => Opened(Bind(DialogArgsAsWritten(level, shifterId, source)))
  }

  /**
   * As written, the dialog commands throw before their guard whatever the
   * character: the class declares no static `getSingleActor`.
   */
  lemma GuardsAsWrittenThrow(name: string, shifterId: string, flag: Option<Snapshot>, level: int, source: string)
    ensures "getSingleActor" !in AppStatics
    ensures DialogCommandAsWritten(AppStatics, name, shifterId, flag, level, source) == Threw
  {
  }

  /**
   * Even with the lookup found, the dialog as written is bound to the
   * source text as its actor id and has no source.
   */
  lemma AsWrittenOpenIsShifted(statics: set<string>, name: string, shifterId: string, level: int, source: string)
    requires "getSingleActor" in statics
    ensures var r := DialogCommandAsWritten(statics, name, shifterId, None, level, source);
            && r.Opened? && r.binding.actorId == Str(source) && r.binding.source == Undefined
            && r.binding.durationLevel == Str(shifterId)
  {
    ShiftedDialogArgs(level, shifterId, source);
  }

  /**
   * `elementalBody`, corrected: the guard on the selected character, then
   * the dialog for it with the arguments bound as intended. A level
   * outside 1 to 4 leaves the dialog's size list undefined, and the
   * constructor's `filter` throws at the first catalog entry it tests.
   */
  method OpenElementalBody(shifter: Actor, level: int, durationLevel: int, source: string,
                           catalog: seq<Polymorph.FormOption>)
    returns (warning: Option<string>, dialog: ElementalBody.ElementalBodyDialog?, threw: bool)
    ensures warning == TransformationGuard(shifter.name, shifter.flag)
    ensures dialog != null <==> shifter.flag.None? && 1 <= level <= 4
    ensures threw <==> shifter.flag.None? && !(1 <= level <= 4) && |catalog| > 0
    ensures dialog != null ==>
              && fresh(dialog) && dialog.Valid()
              && Bind(DialogArgs(dialog.level, dialog.durationLevel, dialog.actorId, dialog.source))
                 == Bind(DialogArgs(level, durationLevel, shifter.id, source))
              && dialog.sizes == ElementalBody.AllowedSizes(level)
              && dialog.options == Polymorph.SortByName(Polymorph.FilterBySize(catalog, ElementalBody.AllowedSizes(level)))
  {
    warning := TransformationGuard(shifter.name, shifter.flag);
    dialog, threw := null, false;
    if shifter.flag.None? {
      if 1 <= level <= 4 {
        dialog := new ElementalBody.ElementalBodyDialog(level, durationLevel, shifter.id, source, catalog);
      } else {
        threw := |catalog| > 0;
      }
    }
  }

  /**
   * `plantShape`, corrected: the guard on the selected character, then the
   * dialog for it with the arguments bound as intended. A level outside 1
   * to 3 leaves the dialog's size list undefined, and the constructor's
   * `filter` throws at the first catalog entry it tests.
   */
  method OpenPlantShape(shifter: Actor, level: int, durationLevel: int, source: string,
                        catalog: seq<Polymorph.FormOption>)
    returns (warning: Option<string>, dialog: PlantShape.PlantShapeDialog?, threw: bool)
    ensures warning == TransformationGuard(shifter.name, shifter.flag)
    ensures dialog != null <==> shifter.flag.None? && 1 <= level <= 3
    ensures threw <==> shifter.flag.None? && !(1 <= level <= 3) && |catalog| > 0
    ensures dialog != null ==>
              && fresh(dialog) && dialog.Valid()
              && Bind(DialogArgs(dialog.level, dialog.durationLevel, dialog.actorId, dialog.source))
                 == Bind(DialogArgs(level, durationLevel, shifter.id, source))
              && dialog.sizes == PlantShape.AllowedSizes(level)
              && dialog.options == Polymorph.SortByName(Polymorph.FilterBySize(catalog, PlantShape.AllowedSizes(level)))
  {
    warning := TransformationGuard(shifter.name, shifter.flag);
    dialog, threw := null, false;
    if shifter.flag.None? {
      if 1 <= level <= 3 {
        dialog := new PlantShape.PlantShapeDialog(level, durationLevel, shifter.id, source, catalog);
      } else {
        threw := |catalog| > 0;
      }
    }
  }
}
