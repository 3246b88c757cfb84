/**
 * The Frightful Aspect buff of `scripts/morphs/frightful-aspect.js`: the
 * catalog's size, carrying capacity kept, armour and shields doubled when a
 * tiny or smaller character grows, damage reduction 10/magic added, spell
 * resistance raised to 10 + half the caster level, and the snapshot that
 * lets all of it be reverted.
 */
module FrightfulAspect {
  import opened JsBase
  import opened Helpers
  import opened Actors

  const BuffName: string := "Frightful Aspect"
  const Icon: string := "systems/pf1/icons/skills/affliction_08.jpg"
  const AddedDR: string := "10/magic"

  /**
   * The caster level: the number passed in unless it is 0 (falsy), in
   * which case the text the caster-level prompt returns.
   */
  function CasterLevel(cl: int, prompted: string): (r: Formula)
    ensures cl != 0 ==> r == Rendered(Finite(cl as real))
    ensures cl == 0 ==> r == Text(prompted)
  {
    if cl != 0 then Rendered(Finite(cl as real)) else Text(prompted)
  }

  /**
   * The buff's spell resistance, `10 + Math.floor(parseInt(casterLevel) / 2)`;
   * None stands for NaN, when the caster level does not parse.
   */
  function SpellResistance(casterLevel: Formula): (r: Option<int>)
    ensures r.None? <==> ParseIntFormula(casterLevel).NonFinite?
    ensures r.Some? ==>
              var level := ParseIntFormula(casterLevel).r.Floor;
              2 * (r.value - 10) <= level < 2 * (r.value - 10) + 2
  {
    match ParseIntFormula(casterLevel)
    case Finite(x) => Some(10 + x.Floor / 2)
    case NonFinite => None
  }

  /** A caster level passed in and the same level typed into the prompt give the same spell resistance. */
  lemma PromptedLevelAgrees(n: int)
    requires n != 0
    ensures SpellResistance(CasterLevel(0, IntToString(n))) == SpellResistance(CasterLevel(n, ""))
    ensures SpellResistance(CasterLevel(n, "")) == Some(10 + n / 2)
  {
    ParseIntOfIntToString(n);
    assert Trunc(n as real) == n;
  }

  /** The damage reduction after the buff: the old text, if any, then `; `, then 10/magic. */
  function NewDR(oldDR: string): (r: string)
    ensures oldDR != "" ==> r == oldDR + "; " + AddedDR
    ensures oldDR == "" ==> r == AddedDR
    ensures |r| > |oldDR| && r[|r| - |AddedDR|..] == AddedDR
  {
    (if oldDR != "" then oldDR + "; " else "") + AddedDR
  }

  /**
   * The spell-resistance formula after the buff: the old formula when the
   * current total already beats the buff's value, otherwise the buff's
   * value as text. A NaN value never loses the comparison and is written.
   */
  function NewSR(srTotal: int, oldSR: Formula, sr: Option<int>): (r: Formula)
    ensures sr.Some? && srTotal > sr.value ==> r == oldSR
    ensures sr.Some? && srTotal <= sr.value ==> ParseIntFormula(r) == Finite(sr.value as real)
    ensures sr.None? ==> ParseIntFormula(r) == NonFinite
  {
    match sr
    case Some(v) => if srTotal > v then oldSR else TruncOfInt(v); Rendered(Finite(v as real))
    case None => Rendered(NonFinite)
  }

  function Max(a: int, b: int): int
  {
    if a >= b then a else b
  }

  /**
   * Spell resistance is never lowered: when the total is the old formula's
   * value, the formula after the buff is worth the larger of the old total
   * and the buff's value, so at least each of them.
   */
  lemma {:induction false} NewSRNeverLowers(srTotal: int, oldSR: Formula, v: int)
    requires ParseIntFormula(oldSR) == Finite(srTotal as real)
    ensures ParseIntFormula(NewSR(srTotal, oldSR, Some(v))) == Finite(Max(srTotal, v) as real)
    ensures Max(srTotal, v) >= srTotal && Max(srTotal, v) >= v
  {
    if srTotal <= v {
      assert NewSR(srTotal, oldSR, Some(v)) == Rendered(Finite(v as real));
    }
  }

  /** The armour step applies when a tiny or smaller character grows. */
  predicate DoublesArmor(sizes: seq<string>, size: string)
  {
    IsTinyOrSmaller(sizes, size)
  }

  /** Damage reduction and spell-resistance formula after the buff; the spell-resistance total is untouched. */
  function AspectTraits(t: Traits, casterLevel: Formula): Traits
  {
    Traits(NewDR(t.dr), NewSR(t.srTotal, t.srFormula, SpellResistance(casterLevel)), t.srTotal)
  }

  /** The snapshot Frightful Aspect leaves: the original size, armour values, damage reduction and formula. */
  function AspectSnapshot(size: string, armor: seq<ArmorRecord>, t: Traits): Snapshot
  {
    Snapshot(BuffName, BuffName, size, armor, Some(RecordedData(Some(t.dr), Some(t.srFormula), None)), [], None)
  }

  /**
   * The character after Frightful Aspect: the buff step, armour and
   * shields doubled when it was tiny or smaller, the catalog's size, the
   * new damage reduction and spell-resistance formula, and a snapshot of
   * the original size, armour values, damage reduction and formula.
   */
  function AspectState(s: ActorState, sizes: seq<string>, enc: map<string, real>, newSize: string,
                       catalog: seq<Change>, template: Item, newId: string, casterLevel: Formula): ActorState
  {
    var ci := CapacityInput(s.carryBonusUser, s.carryMultiplierTotal, enc, s.size, newSize);
    var buffed := ActivatedItems(s.items, BuffName, Icon, catalog, ci, template, newId);
    var doubles := DoublesArmor(sizes, s.size);
    s.(size := newSize,
       items := ScaledItems(buffed, doubles, Double),
       traits := AspectTraits(s.traits, casterLevel),
       flag := Some(AspectSnapshot(s.size, ArmorFlag(buffed, doubles), s.traits)))
  }

  /**
   * The snapshot of Frightful Aspect records everything the buff
   * overwrote: the original size, damage reduction and spell-resistance
   * formula; the new damage reduction still holds the old one.
   */
  lemma AspectStateRecords(s: ActorState, sizes: seq<string>, enc: map<string, real>, newSize: string,
                           catalog: seq<Change>, template: Item, newId: string, casterLevel: Formula)
    ensures var r := AspectState(s, sizes, enc, newSize, catalog, template, newId, casterLevel);
            && r.size == newSize
            && r.flag == Some(Snapshot(BuffName, BuffName, s.size, r.flag.value.armor,
                                       Some(RecordedData(Some(s.traits.dr), Some(s.traits.srFormula), None)), [], None))
            && (s.traits.dr != "" ==> r.traits.dr[..|s.traits.dr|] == s.traits.dr)
            && r.traits.srTotal == s.traits.srTotal && r.token == s.token
  {
  }

  /**
   * The items after Frightful Aspect: the buff is there and active, and
   * every other item is kept, with the armour of armour and shields
   * doubled exactly when the character was tiny or smaller.
   */
  lemma AspectItemsShape(s: ActorState, sizes: seq<string>, enc: map<string, real>, newSize: string,
                         catalog: seq<Change>, template: Item, newId: string, casterLevel: Formula)
    requires UniqueIds(s.items) && newId !in IdSet(s.items)
    ensures var r := AspectState(s, sizes, enc, newSize, catalog, template, newId, casterLevel).items;
            && UniqueIds(r)
            && FindBuff(r, BuffName).Some? && r[FindBuff(r, BuffName).value].active
            && (forall i :: 0 <= i < |s.items| && !IsBuffNamed(s.items[i], BuffName) ==>
                  r[i] == if DoublesArmor(sizes, s.size) && IsArmorOrShield(s.items[i])
                          then s.items[i].(armor := s.items[i].armor * 2) else s.items[i])
  {
    var ci := CapacityInput(s.carryBonusUser, s.carryMultiplierTotal, enc, s.size, newSize);
    BuffedItemsShape(s.items, BuffName, Icon, catalog, ci, template, newId, DoublesArmor(sizes, s.size), Double);
  }

  /** The last step of the buff: the new size and traits, and the snapshot of the old ones. */
  method RecordAspect(shifter: Actor, newSize: string, oldSize: string, armorChangeFlag: seq<ArmorRecord>,
                      casterLevel: Formula)
    requires shifter.Valid()
    modifies shifter
    ensures shifter.Valid()
    ensures shifter.State() == old(shifter.State()).(size := newSize, traits := AspectTraits(old(shifter.traits), casterLevel),
                                                     flag := Some(AspectSnapshot(oldSize, armorChangeFlag, old(shifter.traits))))
  {
    var oldTraits := shifter.traits;
    shifter.size, shifter.traits, shifter.flag :=
      newSize, AspectTraits(oldTraits, casterLevel), Some(AspectSnapshot(oldSize, armorChangeFlag, oldTraits));
  }

  /**
   * `frightfulAspect` on one character: when it already carries a snapshot
   * only the warning naming that snapshot's source is raised; otherwise the
   * character becomes `AspectState`. `cl` is the caster level passed in and
   * `prompted` what the caster-level prompt would return; `newSize` is the
   * catalog's size for the buff.
   */
  method ApplyFrightfulAspect(shifter: Actor, sizes: seq<string>, enc: map<string, real>, newSize: string,
                              catalog: seq<Change>, template: Item, newId: string, cl: int, prompted: string)
    returns (warning: Option<string>)
    requires shifter.Valid() && newId !in IdSet(shifter.items)
    modifies shifter
    ensures shifter.Valid()
    ensures old(shifter.flag).Some? ==>
              && warning == Some(AlreadyTransformedWarning(shifter.name, old(shifter.flag).value.source))
              && shifter.State() == old(shifter.State())
    ensures old(shifter.flag).None? ==>
              && warning.None?
              && shifter.State() == AspectState(old(shifter.State()), sizes, enc, newSize, catalog, template, newId,
                                                CasterLevel(cl, prompted))
  {
    if shifter.flag.Some? {
      return Some(AlreadyTransformedWarning(shifter.name, shifter.flag.value.source));
    }
    var shifterSize := shifter.size;
    var ci := CapacityInput(shifter.carryBonusUser, shifter.carryMultiplierTotal, enc, shifterSize, newSize);
    ActivateBuff(shifter, BuffName, Icon, catalog, ci, template, newId);
    var armorChangeFlag := ScaleArmor(shifter, IsTinyOrSmaller(sizes, shifterSize), Double);
    RecordAspect(shifter, newSize, shifterSize, armorChangeFlag, CasterLevel(cl, prompted));
    warning := None;
  }
}
