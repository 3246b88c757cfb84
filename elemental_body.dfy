/**
 * The Elemental Body dialog of `scripts/morphin-elemental-body.js`: the
 * sizes and forms a level offers, the level-gated values the preview
 * records on the dialog (stat changes, capped speeds, gated senses and the
 * resistance lists), and the `process*` gates applied to the form.
 */
module ElementalBody {
  import opened JsBase
  import opened Helpers
  import opened Polymorph

  /** The sizes the spell can reach, smallest first; level n offers the first n. */
  const ElementalSizes: seq<string> := ["sm", "med", "lg", "huge"]

  /** The size list of the constructor's `switch`. */
  function AllowedSizes(level: int): (r: seq<string>)
    requires 1 <= level <= 4
    ensures |r| == level && r == ElementalSizes[..level]
  {
    match level
    case 4 => ["sm", "med", "lg", "huge"]
    case 3 => ["sm", "med", "lg"]
    case 2 => ["sm", "med"]
    case 1 => ["sm"]
  }

  /** A higher level offers every size a lower one does. */
  lemma AllowedSizesGrow(lower: int, higher: int)
    requires 1 <= lower <= higher <= 4
    ensures forall s :: s in AllowedSizes(lower) ==> s in AllowedSizes(higher)
  {
    assert AllowedSizes(lower) == AllowedSizes(higher)[..lower];
  }

  // -----------------------------------------------------------------------
  // Speeds
  // -----------------------------------------------------------------------

  /** The swim and fly cap of a level: 60 ft for levels 1 to 3, 120 ft for level 4. */
  function SpeedCap(level: int): Option<int>
  {
    if 1 <= level <= 3 then Some(60)
    else if level == 4 then Some(120)
    else None
  }

  predicate Capped(s: Speed)
  {
    s.mode == "swim" || s.mode == "fly"
  }

  /**
   * One movement mode after the cap: a swim speed, or the base of a fly
   * speed, is lowered to the cap; every other mode, and the fly
   * maneuverability, is unchanged.
   */
  function CapSpeed(level: int, s: Speed): (r: Speed)
    ensures r.mode == s.mode && r.maneuverability == s.maneuverability
    ensures r.value <= s.value
    ensures Capped(s) && SpeedCap(level).Some? ==>
              r.value <= SpeedCap(level).value && (r.value == s.value || r.value == SpeedCap(level).value)
    ensures !Capped(s) || SpeedCap(level).None? ==> r == s
  {
    match SpeedCap(level)
    case Some(cap) => if Capped(s) then s.(value := if cap < s.value then cap else s.value) else s
    case None => s
  }

  function CappedSpeeds(level: int, speeds: seq<Speed>): (r: seq<Speed>)
    ensures |r| == |speeds|
    ensures forall i :: 0 <= i < |speeds| ==> r[i] == CapSpeed(level, speeds[i])
  {
    seq(|speeds|, i requires 0 <= i < |speeds| => CapSpeed(level, speeds[i]))
  }

  /** Capping twice is capping once. */
  lemma CapSpeedIdempotent(level: int, s: Speed)
    ensures CapSpeed(level, CapSpeed(level, s)) == CapSpeed(level, s)
  {
  }

  /** A level 4 fly speed of 150 ft (good maneuverability) is capped to 120 ft, and a level 2 swim speed of 90 ft to 60 ft. */
  lemma SpeedCapExamples()
    ensures CapSpeed(4, Speed("fly", 150, "good")) == Speed("fly", 120, "good")
    ensures CapSpeed(2, Speed("swim", 90, "")) == Speed("swim", 60, "")
    ensures CapSpeed(1, Speed("land", 90, "")) == Speed("land", 90, "")
  {
  }

  /** The loop over the speed modes, capping swim and fly in place. */
  method CapSpeedList(level: int, speeds0: seq<Speed>) returns (speeds: seq<Speed>)
    ensures speeds == CappedSpeeds(level, speeds0)
  {
    speeds := speeds0;
    for i := 0 to |speeds|
      invariant |speeds| == |speeds0|
      invariant forall k :: 0 <= k < i ==> speeds[k] == CapSpeed(level, speeds0[k])
      invariant forall k :: i <= k < |speeds| ==> speeds[k] == speeds0[k]
    {
      var element := speeds[i].mode;
      if element == "swim" {
        if level == 1 || level == 2 || level == 3 {
          speeds := speeds[i := speeds[i].(value := if 60 < speeds[i].value then 60 else speeds[i].value)];
        } else if level == 4 {
          speeds := speeds[i := speeds[i].(value := if 120 < speeds[i].value then 120 else speeds[i].value)];
        }
      }
      if element == "fly" {
        if level == 1 || level == 2 || level == 3 {
          speeds := speeds[i := speeds[i].(value := if 60 < speeds[i].value then 60 else speeds[i].value)];
        } else if level == 4 {
          speeds := speeds[i := speeds[i].(value := if 120 < speeds[i].value then 120 else speeds[i].value)];
        }
      }
    }
  }

  // -----------------------------------------------------------------------
  // The element of a form
  // -----------------------------------------------------------------------

  /**
   * The element of a form name, `chosenForm.split(' ')[1].toLowerCase()`:
   * the second word lower-cased, None when the name has no space (the
   * source then throws).
   */
  function ElementKey(name: string): (r: Option<string>)
    ensures r.None? <==> ' ' !in name
    ensures r.Some? ==> |r.value| == |SecondWord(name).value|
  {
    match SecondWord(name)
    case Some(w) => Some(ToLower(w))
    case None => None
  }

  /**
   * The stat changes of the element named by the form's second word at
   * `size`; None when either lookup fails (the source then throws).
   */
  function StatsFor(elementStats: map<string, map<string, seq<Change>>>, chosen: string, size: string): (r: Option<seq<Change>>)
    ensures r.Some? <==> ElementKey(chosen).Some? && ElementKey(chosen).value in elementStats
                         && size in elementStats[ElementKey(chosen).value]
    ensures r.Some? ==> r.value == elementStats[ElementKey(chosen).value][size]
  {
    match ElementKey(chosen)
    case None => None
    case Some(element) =>
      if element in elementStats && size in elementStats[element] then Some(elementStats[element][size]) else None
  }

  /** What the Elemental Body preview records on its dialog; `di` and `dr` stay None until a level exposes them. */
  datatype ElementalRecord = ElementalRecord(
    changes: seq<Change>,
    speeds: seq<Speed>,
    senses: seq<int>,
    special: seq<string>,
    eres: seq<Resistance>,
    dv: seq<string>,
    di: Option<seq<string>>,
    dr: Option<seq<Resistance>>)

  /**
   * The preview throws while rendering: an energy resistance typed entry
   * without a type, or at level 4 a damage-reduction entry it cannot split.
   */
  predicate PreviewThrows(level: int, form: FormChanges)
  {
    !EresRenders(OrEmpty(form.eres)) || (level == 4 && !DrRenders(OrEmpty(form.dr)))
  }

  /**
   * The record after the preview of `form` at `level` got past the stat
   * lookup: the stat changes, the capped speeds, the gated senses and the
   * form's special qualities always; then, unless the resistances throw,
   * resistances and vulnerabilities, immunities from level 3 and, unless
   * its own rendering throws, damage reduction at level 4. Whatever is not
   * reached keeps its prior value.
   */
  function ExpectedRecord(level: int, form: FormChanges, changes: seq<Change>,
                          senseTable: seq<SenseDef>, allowance: map<string, Allowance>,
                          prior: ElementalRecord): (r: ElementalRecord)
    requires AllowancesResolve(senseTable, allowance) && ValidSenses(senseTable, form.senses)
    ensures r.changes == changes && r.special == OrEmpty(form.special)
    ensures |r.speeds| == |form.speed|
    ensures forall i :: 0 <= i < |r.speeds| ==> r.speeds[i] == CapSpeed(level, form.speed[i])
    ensures r.senses == GatedSenses(senseTable, allowance, form.senses)
    ensures !EresRenders(OrEmpty(form.eres)) ==> r.eres == prior.eres && r.dv == prior.dv && r.di == prior.di && r.dr == prior.dr
    ensures EresRenders(OrEmpty(form.eres)) ==> r.eres == OrEmpty(form.eres) && r.dv == OrEmpty(form.dv)
    ensures r.di.Some? <==> (level >= 3 && EresRenders(OrEmpty(form.eres))) || prior.di.Some?
    ensures level >= 3 && EresRenders(OrEmpty(form.eres)) ==> r.di == Some(OrEmpty(form.di))
    ensures r.dr.Some? <==> (level == 4 && !PreviewThrows(level, form)) || prior.dr.Some?
    ensures level == 4 && !PreviewThrows(level, form) ==> r.dr == Some(OrEmpty(form.dr))
    ensures r.dr != prior.dr ==> level == 4 && !PreviewThrows(level, form)
  {
    var speeds := CappedSpeeds(level, form.speed);
    var gated := GatedSenses(senseTable, allowance, form.senses);
    if !EresRenders(OrEmpty(form.eres)) then
      ElementalRecord(changes, speeds, gated, OrEmpty(form.special), prior.eres, prior.dv, prior.di, prior.dr)
    else
      ElementalRecord(
        changes, speeds, gated, OrEmpty(form.special),
        OrEmpty(form.eres),
        OrEmpty(form.dv),
        if level >= 3 then Some(OrEmpty(form.di)) else prior.di,
        if level == 4 && DrRenders(OrEmpty(form.dr)) then Some(OrEmpty(form.dr)) else prior.dr)
  }

  /** The computation of the preview past the stat lookup, on values: the speed loop, the sense loop, the rendering checks and the level gates. */
  method PreviewRecord(level: int, form: FormChanges, changes: seq<Change>,
                       senseTable: seq<SenseDef>, allowance: map<string, Allowance>,
                       prior: ElementalRecord) returns (r: ElementalRecord)
    requires AllowancesResolve(senseTable, allowance) && ValidSenses(senseTable, form.senses)
    ensures r == ExpectedRecord(level, form, changes, senseTable, allowance, prior)
  {
    var speeds := CapSpeedList(level, form.speed);
    var senses := GateSenseList(senseTable, allowance, form.senses);
    r := ElementalRecord(changes, speeds, senses, OrEmpty(form.special), prior.eres, prior.dv, prior.di, prior.dr);
    if !EresRenders(OrEmpty(form.eres)) {
      return;
    }
    r := r.(eres := OrEmpty(form.eres), dv := OrEmpty(form.dv));
    if level >= 3 {
      r := r.(di := Some(OrEmpty(form.di)));
    }
    if level == 4 && DrRenders(OrEmpty(form.dr)) {
      r := r.(dr := Some(OrEmpty(form.dr)));
    }
  }

  // -----------------------------------------------------------------------
  // The dialog
  // -----------------------------------------------------------------------

  class ElementalBodyDialog {
    const level: int
    const durationLevel: int
    const actorId: string
    const source: string
    const sizes: seq<string>
    const options: seq<FormOption>

    var chosenForm: Option<FormOption>
    var changes: seq<Change>
    var speeds: seq<Speed>
    var senses: seq<int>
    var special: seq<string>
    var eres: seq<Resistance>
    var dv: seq<string>
    /** Immunities, recorded from level 3 only; None while never recorded. */
    var di: Option<seq<string>>
    /** Damage reduction, recorded at level 4 only; None while never recorded. */
    var dr: Option<seq<Resistance>>

    /** The level is one the spell has, and the preview never recorded a category its level does not expose. */
    ghost predicate Valid()
      reads this
    {
      && 1 <= level <= 4
      && (di.Some? ==> level >= 3)
      && (dr.Some? ==> level == 4)
    }

    /**
     * The constructor: the sizes of the level and the catalog's forms of
     * those sizes, sorted by name. A level outside 1 to 4 leaves the size
     * list undefined and the source throws.
     */
    constructor (level: int, durationLevel: int, actorId: string, source: string, catalog: seq<FormOption>)
      requires 1 <= level <= 4
      ensures Valid()
      ensures this.level == level && this.durationLevel == durationLevel
      ensures this.actorId == actorId && this.source == source
      ensures sizes == AllowedSizes(level)
      ensures options == SortByName(FilterBySize(catalog, AllowedSizes(level)))
      ensures chosenForm.None? && di.None? && dr.None?
    {
      this.level := level;
      this.durationLevel := durationLevel;
      this.actorId := actorId;
      this.source := source;
      var sizes := AllowedSizes(level);
      this.sizes := sizes;
      this.options := SortByName(FilterBySize(catalog, sizes));
      chosenForm := None;
      changes := [];
      speeds := [];
      senses := [];
      special := [];
      eres := [];
      dv := [];
      di := None;
      dr := None;
    }

    /** The values the preview records on the dialog. */
    function Recorded(): ElementalRecord
      reads this
    {
      ElementalRecord(changes, speeds, senses, special, eres, dv, di, dr)
    }

    /**
     * `buildPreviewTemplate`, without the text it renders. `forms` is the
     * catalog of form change records, `elementStats` the stat changes by
     * element and size, `senseTable` the sense table and `allowedSenses`
     * the spell's allowance table by level. It fails (the source throws)
     * when the form name has no second word or the stat table has no
     * entry for the element and size (only the chosen form is recorded
     * then), or when rendering a resistance or damage-reduction entry
     * throws (what was recorded before the throw stays).
     */
    method BuildPreview(chosen: string, forms: map<string, FormChanges>,
                        elementStats: map<string, map<string, seq<Change>>>,
                        senseTable: seq<SenseDef>, allowedSenses: map<int, map<string, Allowance>>)
      returns (ok: bool)
      requires Valid()
      requires FindOption(options, chosen).Some? && chosen in forms
      requires level in allowedSenses && AllowancesResolve(senseTable, allowedSenses[level])
      requires ValidSenses(senseTable, forms[chosen].senses)
      modifies this
      ensures Valid()
      ensures chosenForm == FindOption(options, chosen)
      ensures ok <==> StatsFor(elementStats, chosen, FindOption(options, chosen).value.size).Some? && !PreviewThrows(level, forms[chosen])
      ensures StatsFor(elementStats, chosen, FindOption(options, chosen).value.size).None? ==> Recorded() == old(Recorded())
      ensures StatsFor(elementStats, chosen, FindOption(options, chosen).value.size).Some? ==>
                Recorded() == ExpectedRecord(level, forms[chosen], StatsFor(elementStats, chosen, FindOption(options, chosen).value.size).value,
                                             senseTable, allowedSenses[level], old(Recorded()))
    {
      var option := FindOption(options, chosen);
      chosenForm := option;
      var stats := StatsFor(elementStats, chosen, option.value.size);
      if stats.None? {
        return false;
      }
      RecordPreview(forms[chosen], stats.value, senseTable, allowedSenses[level]);
      ok := !PreviewThrows(level, forms[chosen]);
    }

    /** The preview past the stat lookup: records what `form` gives at this dialog's level, up to a rendering throw. */
    method RecordPreview(form: FormChanges, stats: seq<Change>, senseTable: seq<SenseDef>, allowance: map<string, Allowance>)
      requires Valid()
      requires AllowancesResolve(senseTable, allowance) && ValidSenses(senseTable, form.senses)
      modifies this
      ensures Valid() && chosenForm == old(chosenForm)
      ensures Recorded() == ExpectedRecord(level, form, stats, senseTable, allowance, old(Recorded()))
    {
      var record := PreviewRecord(level, form, stats, senseTable, allowance, Recorded());
      changes, speeds, senses, special, eres, dv, di, dr :=
        record.changes, record.speeds, record.senses, record.special, record.eres, record.dv, record.di, record.dr;
    }

    /** `processDr`: the inherited processing at level 4, else the empty trait. */
    function ProcessDr<T>(dr: T, inherited: T -> Trait): (r: Trait)
      ensures level == 4 ==> r == inherited(dr)
      ensures level != 4 ==> r == EmptyTrait
    {
      if level == 4 then inherited(dr) else EmptyTrait
    }

    /** `processEres`: the inherited processing at every level. */
    function ProcessEres<T>(eres: T, inherited: T -> Trait): (r: Trait)
      ensures r == inherited(eres)
    {
      inherited(eres)
    }

    /** `processDv`: vulnerabilities pass through at every level. */
    function ProcessDv<T>(dv: T): (r: T)
      ensures r == dv
    {
      dv
    }

    /** `processDi`: immunities pass through from level 3, else the empty trait. */
    function ProcessDi(di: Trait): (r: Trait)
      ensures level >= 3 ==> r == di
      ensures level < 3 ==> r == EmptyTrait
    {
      if level >= 3 then di else EmptyTrait
    }

    /** `processRegen`: Elemental Body never grants regeneration. */
    function ProcessRegen(regen: string): (r: string)
      ensures r == ""
    {
      ""
    }
  }
}
