/**
 * The Plant Shape dialog of `scripts/morphin-plant-shape.js`: the sizes
 * and forms a level offers, the attack tags and special attacks the level
 * allows, the special qualities it keeps, the elemental resistances it
 * folds immunities into, and the `process*` gates applied to the form.
 */
module PlantShape {
  import opened JsBase
  import opened Helpers
  import opened Attacks
  import opened Polymorph

  /** The sizes the spell can reach, smallest first; level n offers the first n + 1. */
  const PlantSizes: seq<string> := ["sm", "med", "lg", "huge"]

  /** The size list of the constructor's `switch`. */
  function AllowedSizes(level: int): (r: seq<string>)
    requires 1 <= level <= 3
    ensures |r| == level + 1 && r == PlantSizes[..level + 1]
  {
    match level
    case 3 => ["sm", "med", "lg", "huge"]
    case 2 => ["sm", "med", "lg"]
    case 1 => ["sm", "med"]
  }

  /** A higher level offers every size a lower one does. */
  lemma AllowedSizesGrow(lower: int, higher: int)
    requires 1 <= lower <= higher <= 3
    ensures forall s :: s in AllowedSizes(lower) ==> s in AllowedSizes(higher)
  {
    assert AllowedSizes(lower) == AllowedSizes(higher)[..lower + 1];
  }

  /** The energy types a plant keeps resistances, immunities and vulnerabilities for. */
  const ElementTypes: seq<string> := ["acid", "cold", "electric", "fire", "sonic"]

  // -----------------------------------------------------------------------
  // Attack tags and special attacks
  // -----------------------------------------------------------------------

  /** The tags of an attack the preview shows: those the level allows, in order. */
  function ShownTags(tags: seq<string>, allowed: seq<string>): (r: seq<string>)
    ensures forall t :: t in r <==> t in tags && t in allowed
    ensures |r| <= |tags|
  {
    if tags == [] then []
    else
      var init, last := tags[..|tags| - 1], tags[|tags| - 1];
      assert tags == init + [last];
      ShownTags(init, allowed) + (if last in allowed then [last] else [])
  }

  /** A special attack is offered only when the level allows every one of its tags. */
  predicate AllTagsAllowed(tags: seq<string>, allowed: seq<string>)
  {
    forall t :: t in tags ==> t in allowed
  }

  /** When every tag is allowed, every tag is shown. */
  lemma {:induction false} ShownTagsAll(tags: seq<string>, allowed: seq<string>)
    requires AllTagsAllowed(tags, allowed)
    ensures ShownTags(tags, allowed) == tags
  {
    if tags != [] {
      var init, last := tags[..|tags| - 1], tags[|tags| - 1];
      assert tags == init + [last];
      ShownTagsAll(init, allowed);
    }
  }

  /** The `valid` loop over a special attack's tags. */
  method SpecialAttackValid(tags: Option<seq<string>>, allowed: seq<string>) returns (valid: bool)
    ensures valid <==> AllTagsAllowed(OrEmpty(tags), allowed)
  {
    valid := true;
    var special := OrEmpty(tags);
    for j := 0 to |special|
      invariant valid <==> AllTagsAllowed(special[..j], allowed)
    {
      assert special[..j + 1] == special[..j] + [special[j]];
      if special[j] !in allowed {
        valid := false;
      }
    }
    assert special[..|special|] == special;
  }

  /** The special attacks the preview lists, in order. */
  function ListedSpecialAttacks(list: seq<AttackDescriptor>, allowed: seq<string>): (r: seq<AttackDescriptor>)
    ensures forall a :: a in r <==> a in list && AllTagsAllowed(OrEmpty(a.special), allowed)
    ensures |r| <= |list|
  {
    if list == [] then []
    else
      var init, last := list[..|list| - 1], list[|list| - 1];
      assert list == init + [last];
      ListedSpecialAttacks(init, allowed) + (if AllTagsAllowed(OrEmpty(last.special), allowed) then [last] else [])
  }

  /** The loop over the form's special attacks, keeping the valid ones. */
  method ListSpecialAttacks(list: seq<AttackDescriptor>, allowed: seq<string>) returns (listed: seq<AttackDescriptor>)
    ensures listed == ListedSpecialAttacks(list, allowed)
    ensures forall a :: a in listed ==> ShownTags(OrEmpty(a.special), allowed) == OrEmpty(a.special)
  {
    listed := [];
    for i := 0 to |list|
      invariant listed == ListedSpecialAttacks(list[..i], allowed)
    {
      assert list[..i + 1][..i] == list[..i];
      var valid := SpecialAttackValid(list[i].special, allowed);
      if valid {
        listed := listed + [list[i]];
      }
    }
    assert list[..|list|] == list;
    forall a | a in listed
      ensures ShownTags(OrEmpty(a.special), allowed) == OrEmpty(a.special)
    {
      ShownTagsAll(OrEmpty(a.special), allowed);
    }
  }

  /** The tags shown for each of the form's natural attacks. */
  function AttackTags(attacks: seq<AttackDescriptor>, allowed: seq<string>): (r: seq<seq<string>>)
    ensures |r| == |attacks|
    ensures forall i :: 0 <= i < |attacks| ==> r[i] == ShownTags(OrEmpty(attacks[i].special), allowed)
  {
    seq(|attacks|, i requires 0 <= i < |attacks| => ShownTags(OrEmpty(attacks[i].special), allowed))
  }

  // -----------------------------------------------------------------------
  // Special qualities
  // -----------------------------------------------------------------------

  /**
   * The special qualities after the deletion loop: a quality stays, in its
   * slot, when its first word is allowed (so "jet 200ft" stays when "jet"
   * is allowed); otherwise its slot is left empty.
   */
  function KeptSpecials(special: seq<string>, allowed: seq<string>): (r: seq<Option<string>>)
    ensures |r| == |special|
    ensures forall i :: 0 <= i < |special| ==>
              (r[i].Some? <==> FirstWord(special[i]) in allowed) && (r[i].Some? ==> r[i].value == special[i])
  {
    seq(|special|, i requires 0 <= i < |special| => if FirstWord(special[i]) in allowed then Some(special[i]) else None)
  }

  /** The loop deleting, in place, the qualities the level does not allow. */
  method DeleteDisallowedSpecials(special0: seq<string>, allowed: seq<string>) returns (special: seq<Option<string>>)
    ensures special == KeptSpecials(special0, allowed)
  {
    special := seq(|special0|, i requires 0 <= i < |special0| => Some(special0[i]));
    for i := 0 to |special|
      invariant |special| == |special0|
      invariant forall k :: 0 <= k < i ==> special[k] == KeptSpecials(special0, allowed)[k]
      invariant forall k :: i <= k < |special| ==> special[k] == Some(special0[k])
    {
      var specialName := special[i].value;
      if FirstWord(specialName) !in allowed {
        special := special[i := None];
        continue;
      }
    }
  }

  // -----------------------------------------------------------------------
  // Energy resistances, immunities and vulnerabilities
  // -----------------------------------------------------------------------

  /** A resistance against one of the energy types (`types[0]` names it). */
  predicate Elemental(e: Resistance)
  {
    e.Typed? && |e.types| > 0 && e.types[0] in ElementTypes
  }

  /**
   * `eres.filter(o => elementTypes.includes(o.types[0]))`: None when an
   * entry is plain text, whose `types` is undefined so that the filter
   * throws; otherwise the elemental entries in order.
   */
  function FilterEres(eres: seq<Resistance>): (r: Option<seq<Resistance>>)
  {
    if eres == [] then Some([])
    else
      var init, last := eres[..|eres| - 1], eres[|eres| - 1];
      assert eres == init + [last];
      match FilterEres(init)
      case None => None
      case Some(f) =>
        if last.Plain? then None
        else Some(f + (if Elemental(last) then [last] else []))
  }

  /**
   * The resistance filter keeps order and multiplicity: when neither part
   * throws, the filter of a concatenation is the concatenation of the
   * filters.
   */
  lemma {:induction false} FilterEresAppend(a: seq<Resistance>, b: seq<Resistance>)
    requires FilterEres(a).Some? && FilterEres(b).Some?
    ensures FilterEres(a + b) == Some(FilterEres(a).value + FilterEres(b).value)
    decreases |b|
  {
    if b == [] {
      assert a + b == a;
      assert FilterEres(b) == Some([]);
      assert FilterEres(a).value + [] == FilterEres(a).value;
    } else {
      var init, last := b[..|b| - 1], b[|b| - 1];
      assert FilterEres(init).Some? && !last.Plain?;
      var tail := if Elemental(last) then [last] else [];
      var fa, fi := FilterEres(a).value, FilterEres(init).value;
      assert FilterEres(b) == Some(fi + tail);
      var ab := a + b;
      assert ab[..|ab| - 1] == a + init && ab[|ab| - 1] == last;
      FilterEresAppend(a, init);
      assert FilterEres(ab) == Some(fa + fi + tail);
      assert fa + fi + tail == fa + (fi + tail);
    }
  }

  /** The filter throws exactly when an entry is plain text; otherwise it keeps exactly the elemental entries. */
  lemma {:induction false} FilterEresMembers(eres: seq<Resistance>)
    ensures FilterEres(eres).None? <==> exists e :: e in eres && e.Plain?
    ensures FilterEres(eres).Some? ==> forall e :: e in FilterEres(eres).value <==> e in eres && Elemental(e)
  {
    if eres != [] {
      var init, last := eres[..|eres| - 1], eres[|eres| - 1];
      assert eres == init + [last];
      FilterEresMembers(init);
    }
  }

  /** A single typed entry is kept exactly when it is elemental. */
  lemma FilterEresSingle(e: Resistance)
    requires e.Typed?
    ensures FilterEres([e]) == Some(if Elemental(e) then [e] else [])
  {
    var tail := if Elemental(e) then [e] else [];
    assert [e][..0] == [] && [e][0] == e;
    assert FilterEres([]) == Some([]);
    assert FilterEres([e]) == Some([] + tail);
    assert [] + tail == tail;
  }

  /** `xs.filter(o => elementTypes.includes(o))`, for immunities and vulnerabilities. */
  function FilterElements(xs: seq<string>): (r: seq<string>)
    ensures |r| <= |xs|
  {
    if xs == [] then []
    else
      var init, last := xs[..|xs| - 1], xs[|xs| - 1];
      assert xs == init + [last];
      FilterElements(init) + (if last in ElementTypes then [last] else [])
  }

  /** The resistance an immunity becomes: 20 against that energy. */
  /** The element filter keeps order and multiplicity: it distributes over `+`. */
  lemma {:induction false} FilterElementsAppend(a: seq<string>, b: seq<string>)
    ensures FilterElements(a + b) == FilterElements(a) + FilterElements(b)
    decreases |b|
  {
    if b == [] {
      assert a + b == a;
      assert FilterElements(a) + [] == FilterElements(a);
    } else {
      var init, last := b[..|b| - 1], b[|b| - 1];
      var tail := if last in ElementTypes then [last] else [];
      var fa, fi := FilterElements(a), FilterElements(init);
      assert FilterElements(b) == fi + tail;
      var ab := a + b;
      assert ab[..|ab| - 1] == a + init && ab[|ab| - 1] == last;
      FilterElementsAppend(a, init);
      assert FilterElements(ab) == fa + fi + tail;
      assert fa + fi + tail == fa + (fi + tail);
    }
  }

  /** The element filter keeps exactly the element types of the list. */
  lemma {:induction false} FilterElementsMembers(xs: seq<string>)
    ensures forall x :: x in FilterElements(xs) <==> x in xs && x in ElementTypes
  {
    if xs != [] {
      var init, last := xs[..|xs| - 1], xs[|xs| - 1];
      assert xs == init + [last];
      FilterElementsMembers(init);
    }
  }

  function ImmunityAsResistance(entry: string): Resistance
  {
    Typed(20, true, [entry, ""])
  }

  /** The resistances, followed by each kept immunity as a resistance of 20; None when the filter throws. */
  function PlantEres(form: FormChanges): (r: Option<seq<Resistance>>)
  {
    match FilterEres(OrEmpty(form.eres))
    case None => None
    case Some(eres) =>
      var di := FilterElements(OrEmpty(form.di));
      Some(eres + seq(|di|, i requires 0 <= i < |di| => ImmunityAsResistance(di[i])))
  }

  /** The loop pushing each kept immunity onto the filtered resistances. */
  method FoldImmunities(eres0: seq<Resistance>, di: seq<string>) returns (eres: seq<Resistance>)
    ensures eres == eres0 + seq(|di|, i requires 0 <= i < |di| => ImmunityAsResistance(di[i]))
  {
    eres := eres0;
    for k := 0 to |di|
      invariant eres == eres0 + seq(k, i requires 0 <= i < k => ImmunityAsResistance(di[i]))
    {
      eres := eres + [ImmunityAsResistance(di[k])];
    }
  }

  /** The amount the preview shows for a typed resistance: at most 20. */
  function ShownAmount(e: Resistance): (r: int)
    requires e.Typed?
    ensures r <= 20 && r <= e.amount && (r == 20 || r == e.amount)
  {
    if e.amount < 20 then e.amount else 20
  }

  /**
   * What the plant keeps of a form's resistances: only entries against an
   * energy type, each the form's own or one of its energy immunities at
   * 20; a form with a plain-text resistance entry makes the preview throw.
   */
  lemma PlantEresElemental(form: FormChanges)
    ensures PlantEres(form).None? <==> exists e :: e in OrEmpty(form.eres) && e.Plain?
    ensures PlantEres(form).Some? ==>
              forall e :: e in PlantEres(form).value ==>
                && Elemental(e)
                && (e in OrEmpty(form.eres) || (e.amount == 20 && e.types[0] in OrEmpty(form.di)))
  {
    FilterEresMembers(OrEmpty(form.eres));
    FilterElementsMembers(OrEmpty(form.di));
    match FilterEres(OrEmpty(form.eres))
    case None =>
    case Some(eres) =>
      var di := FilterElements(OrEmpty(form.di));
      var folded := seq(|di|, i requires 0 <= i < |di| => ImmunityAsResistance(di[i]));
      assert PlantEres(form).value == eres + folded;
      forall e | e in eres + folded
        ensures Elemental(e) && (e in OrEmpty(form.eres) || (e.amount == 20 && e.types[0] in OrEmpty(form.di)))
      {
        if e !in eres {
          var i :| 0 <= i < |folded| && folded[i] == e;
          assert di[i] in di;
        }
      }
  }

  // -----------------------------------------------------------------------
  // The dialog
  // -----------------------------------------------------------------------

  /**
   * What the Plant Shape preview records on its dialog; `eres`, `dr` and
   * `regen` stay None until a level exposes them.
   */
  datatype PlantRecord = PlantRecord(
    changes: seq<Change>,
    speeds: seq<Speed>,
    senses: seq<int>,
    special: seq<Option<string>>,
    eres: Option<seq<Resistance>>,
    dv: seq<string>,
    dr: Option<seq<Resistance>>,
    regen: Option<seq<Regen>>)

  /** The preview throws at the resistances: a level that shows them and a plain-text entry. */
  predicate EresThrows(level: int, form: FormChanges)
  {
    level >= 2 && PlantEres(form).None?
  }

  /**
   * The preview throws at some point: at the resistances, or at level 3
   * while rendering a damage-reduction entry or a regeneration entry.
   */
  predicate PreviewThrows(level: int, form: FormChanges)
  {
    || EresThrows(level, form)
    || (level == 3 && (!DrRenders(OrEmpty(form.dr)) || !RegenRenders(OrEmpty(form.regen))))
  }

  /**
   * The record after the preview of `form` at `level` got past the stat
   * lookup: stat changes, speeds (uncapped), gated senses and kept special
   * qualities always; then, unless the resistances throw, resistances
   * from level 2 and filtered vulnerabilities; at level 3 damage reduction
   * unless its rendering throws, and after it regeneration unless its
   * rendering throws. Whatever is not reached keeps its prior value.
   */
  function ExpectedRecord(level: int, form: FormChanges, changes: seq<Change>,
                          senseTable: seq<SenseDef>, allowance: map<string, Allowance>, allowedSpecials: seq<string>,
                          prior: PlantRecord): (r: PlantRecord)
    requires AllowancesResolve(senseTable, allowance) && ValidSenses(senseTable, form.senses)
    ensures r.changes == changes && r.speeds == form.speed
    ensures r.senses == GatedSenses(senseTable, allowance, form.senses)
    ensures r.special == KeptSpecials(OrEmpty(form.special), allowedSpecials)
    ensures EresThrows(level, form) ==> r.eres == prior.eres && r.dv == prior.dv && r.dr == prior.dr && r.regen == prior.regen
    ensures !EresThrows(level, form) ==>
              && r.eres == (if level >= 2 then PlantEres(form) else prior.eres)
              && r.dv == FilterElements(OrEmpty(form.dv))
              && r.dr == (if level == 3 && DrRenders(OrEmpty(form.dr)) then Some(OrEmpty(form.dr)) else prior.dr)
              && r.regen == (if level == 3 && DrRenders(OrEmpty(form.dr)) && RegenRenders(OrEmpty(form.regen))
                             then Some(OrEmpty(form.regen)) else prior.regen)
    ensures r.regen != prior.regen ==> level == 3 && !PreviewThrows(level, form)
  {
    var gated := GatedSenses(senseTable, allowance, form.senses);
    var kept := KeptSpecials(OrEmpty(form.special), allowedSpecials);
    if EresThrows(level, form) then
      PlantRecord(changes, form.speed, gated, kept, prior.eres, prior.dv, prior.dr, prior.regen)
    else
      PlantRecord(changes, form.speed, gated, kept,
                  if level >= 2 then PlantEres(form) else prior.eres,
                  FilterElements(OrEmpty(form.dv)),
                  if level == 3 && DrRenders(OrEmpty(form.dr)) then Some(OrEmpty(form.dr)) else prior.dr,
                  if level == 3 && DrRenders(OrEmpty(form.dr)) && RegenRenders(OrEmpty(form.regen))
                  then Some(OrEmpty(form.regen)) else prior.regen)
  }

  /** The computation of the preview past the stat lookup, on values: the sense, special-quality and resistance loops and the level gates. */
  method PreviewRecord(level: int, form: FormChanges, changes: seq<Change>,
                       senseTable: seq<SenseDef>, allowance: map<string, Allowance>, allowedSpecials: seq<string>,
                       prior: PlantRecord) returns (r: PlantRecord)
    requires AllowancesResolve(senseTable, allowance) && ValidSenses(senseTable, form.senses)
    ensures r == ExpectedRecord(level, form, changes, senseTable, allowance, allowedSpecials, prior)
  {
    var senses := GateSenseList(senseTable, allowance, form.senses);
    var special := DeleteDisallowedSpecials(OrEmpty(form.special), allowedSpecials);
    r := PlantRecord(changes, form.speed, senses, special, prior.eres, prior.dv, prior.dr, prior.regen);
    if level >= 2 {
      var filtered := FilterEres(OrEmpty(form.eres));
      if filtered.None? {
        return;
      }
      var eres := FoldImmunities(filtered.value, FilterElements(OrEmpty(form.di)));
      r := r.(eres := Some(eres));
    }
    r := r.(dv := FilterElements(OrEmpty(form.dv)));
    if level == 3 {
      if !DrRenders(OrEmpty(form.dr)) {
        return;
      }
      r := r.(dr := Some(OrEmpty(form.dr)));
      if RegenRenders(OrEmpty(form.regen)) {
        r := r.(regen := Some(OrEmpty(form.regen)));
      }
    }
  }

  class PlantShapeDialog {
    const level: int
    const durationLevel: int
    const actorId: string
    const source: string
    const sizes: seq<string>
    const options: seq<FormOption>

    var chosenForm: Option<FormOption>
    var changes: seq<Change>
    var speeds: seq<Speed>
    var senses: seq<int>
    /** The special qualities; a deleted one leaves an empty slot. */
    var special: seq<Option<string>>
    /** Energy resistances, recorded from level 2 only; None while never recorded. */
    var eres: Option<seq<Resistance>>
    var dv: seq<string>
    /** Damage reduction, recorded at level 3 only. */
    var dr: Option<seq<Resistance>>
    /** Regeneration, recorded at level 3 only. */
    var regen: Option<seq<Regen>>

    /** The level is one the spell has, and the preview never recorded a category its level does not expose. */
    ghost predicate Valid()
      reads this
    {
      && 1 <= level <= 3
      && (eres.Some? ==> level >= 2)
      && (dr.Some? ==> level == 3)
      && (regen.Some? ==> level == 3)
    }

    function Recorded(): PlantRecord
      reads this
    {
      PlantRecord(changes, speeds, senses, special, eres, dv, dr, regen)
    }

    /**
     * The constructor: the sizes of the level and the catalog's forms of
     * those sizes, sorted by name. A level outside 1 to 3 leaves the size
     * list undefined and the source throws.
     */
    constructor (level: int, durationLevel: int, actorId: string, source: string, catalog: seq<FormOption>)
      requires 1 <= level <= 3
      ensures Valid()
      ensures this.level == level && this.durationLevel == durationLevel
      ensures this.actorId == actorId && this.source == source
      ensures sizes == AllowedSizes(level)
      ensures options == SortByName(FilterBySize(catalog, AllowedSizes(level)))
      ensures chosenForm.None? && eres.None? && dr.None? && regen.None?
    {
      this.level := level;
      this.durationLevel := durationLevel;
      this.actorId := actorId;
      this.source := source;
      var sizes := AllowedSizes(level);
      this.sizes := sizes;
      this.options := SortByName(FilterBySize(catalog, sizes));
      chosenForm := None;
      changes := [];
      speeds := [];
      senses := [];
      special := [];
      eres := None;
      dv := [];
      dr := None;
      regen := None;
    }

    /**
     * `buildPreviewTemplate`, without the text it renders: records the
     * form's values and returns the tags shown for each natural attack and
     * the special attacks listed. `plantStats` holds the stat changes by
     * size and `allowedSpecials` the spell's allowed tags by level. It
     * fails when the stat table has no entry for the form's size (nothing
     * but the chosen form is recorded) or when rendering the resistances,
     * the damage reduction or the regeneration throws.
     */
    method BuildPreview(chosen: string, forms: map<string, FormChanges>, plantStats: map<string, seq<Change>>,
                        senseTable: seq<SenseDef>, allowedSenses: map<int, map<string, Allowance>>,
                        allowedSpecials: map<int, seq<string>>)
      returns (ok: bool, attackTags: seq<seq<string>>, specialAttacks: seq<AttackDescriptor>)
      requires Valid()
      requires FindOption(options, chosen).Some? && chosen in forms
      requires level in allowedSenses && AllowancesResolve(senseTable, allowedSenses[level])
      requires level in allowedSpecials
      requires ValidSenses(senseTable, forms[chosen].senses)
      modifies this
      ensures Valid()
      ensures chosenForm == FindOption(options, chosen)
      ensures ok <==> FindOption(options, chosen).value.size in plantStats && !PreviewThrows(level, forms[chosen])
      ensures FindOption(options, chosen).value.size !in plantStats ==> Recorded() == old(Recorded())
      ensures FindOption(options, chosen).value.size in plantStats ==>
                && Recorded() == ExpectedRecord(level, forms[chosen], plantStats[FindOption(options, chosen).value.size],
                                                senseTable, allowedSenses[level], allowedSpecials[level], old(Recorded()))
                && attackTags == AttackTags(forms[chosen].attacks, allowedSpecials[level])
                && specialAttacks == ListedSpecialAttacks(OrEmpty(forms[chosen].specialAttack), allowedSpecials[level])
    {
      var option := FindOption(options, chosen);
      chosenForm := option;
      if option.value.size !in plantStats {
        return false, [], [];
      }
      var form := forms[chosen];
      attackTags := AttackTags(form.attacks, allowedSpecials[level]);
      specialAttacks := ListSpecialAttacks(OrEmpty(form.specialAttack), allowedSpecials[level]);
      RecordPreview(form, plantStats[option.value.size], senseTable, allowedSenses[level], allowedSpecials[level]);
      ok := !PreviewThrows(level, form);
    }

    /** The preview past the stat lookup: records what `form` gives at this dialog's level, up to a rendering throw. */
    method RecordPreview(form: FormChanges, stats: seq<Change>, senseTable: seq<SenseDef>,
                         allowance: map<string, Allowance>, allowedSpecials: seq<string>)
      requires Valid()
      requires AllowancesResolve(senseTable, allowance) && ValidSenses(senseTable, form.senses)
      modifies this
      ensures Valid() && chosenForm == old(chosenForm)
      ensures Recorded() == ExpectedRecord(level, form, stats, senseTable, allowance, allowedSpecials, old(Recorded()))
    {
      var record := PreviewRecord(level, form, stats, senseTable, allowance, allowedSpecials, Recorded());
      changes, speeds, senses, special, eres, dv, dr, regen :=
        record.changes, record.speeds, record.senses, record.special, record.eres, record.dv, record.dr, record.regen;
    }

    /** `processDr`: the inherited processing at level 3, else the empty trait. */
    function ProcessDr<T>(dr: T, inherited: T -> Trait): (r: Trait)
      ensures level == 3 ==> r == inherited(dr)
      ensures level != 3 ==> r == EmptyTrait
    {
      if level == 3 then inherited(dr) else EmptyTrait
    }

    /** `processEres`: the inherited processing from level 2, else the empty trait. */
    function ProcessEres<T>(eres: T, inherited: T -> Trait): (r: Trait)
      ensures level >= 2 ==> r == inherited(eres)
      ensures level < 2 ==> r == EmptyTrait
    {
      if level >= 2 then inherited(eres) else EmptyTrait
    }

    /** `processDv`: vulnerabilities pass through at every level. */
    function ProcessDv<T>(dv: T): (r: T)
      ensures r == dv
    {
      dv
    }

    /** `processDi`: a plant never keeps immunities as such (they were folded into the resistances). */
    function ProcessDi<T>(di: T): (r: Trait)
      ensures r == EmptyTrait
    {
      EmptyTrait
    }

    /** `processRegen`: regeneration passes through at level 3 only. */
    function ProcessRegen(regen: string): (r: string)
      ensures level == 3 ==> r == regen
      ensures level != 3 ==> r == ""
    {
      if level == 3 then regen else ""
    }
  }
}
