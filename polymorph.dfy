/**
 * What the Elemental Body and Plant Shape dialogs share: the form
 * options offered at a level, the catalog records of a form, the trait
 * record the `process*` gates return, and the sense gating against the
 * allowance table of a spell and level.
 */
module Polymorph {
  import opened JsBase
  import opened Helpers
  import opened Attacks

  // -----------------------------------------------------------------------
  // Form options
  // -----------------------------------------------------------------------

  /** An entry of the form options table: a form's name and its size. */
  datatype FormOption = FormOption(name: string, size: string)

  /** `options.filter(o => sizes.includes(o.size))`. */
  function FilterBySize(options: seq<FormOption>, sizes: seq<string>): (r: seq<FormOption>)
    ensures |r| <= |options|
  {
    if options == [] then []
    else
      var init, last := options[..|options| - 1], options[|options| - 1];
      assert options == init + [last];
      FilterBySize(init, sizes) + (if last.size in sizes then [last] else [])
  }

  /** The size filter keeps order and multiplicity: it distributes over `+`. */
  lemma {:induction false} FilterBySizeAppend(a: seq<FormOption>, b: seq<FormOption>, sizes: seq<string>)
    ensures FilterBySize(a + b, sizes) == FilterBySize(a, sizes) + FilterBySize(b, sizes)
    decreases |b|
  {
    if b == [] {
      assert a + b == a;
      assert FilterBySize(a, sizes) + [] == FilterBySize(a, sizes);
    } else {
      var init, last := b[..|b| - 1], b[|b| - 1];
      var tail := if last.size in sizes then [last] else [];
      var fa, fi := FilterBySize(a, sizes), FilterBySize(init, sizes);
      assert FilterBySize(b, sizes) == fi + tail;
      var ab := a + b;
      assert ab[..|ab| - 1] == a + init && ab[|ab| - 1] == last;
      FilterBySizeAppend(a, init, sizes);
      assert FilterBySize(ab, sizes) == fa + fi + tail;
      assert fa + fi + tail == fa + (fi + tail);
    }
  }

  /** An option of an allowed size is kept as often as the catalog lists it, any other never. */
  lemma {:induction false} FilterBySizeCount(options: seq<FormOption>, sizes: seq<string>, o: FormOption)
    ensures multiset(FilterBySize(options, sizes))[o] == if o.size in sizes then multiset(options)[o] else 0
    decreases |options|
  {
    if options != [] {
      var init, last := options[..|options| - 1], options[|options| - 1];
      assert options == init + [last];
      assert multiset(options) == multiset(init) + multiset{last};
      FilterBySizeCount(init, sizes, o);
    }
  }

  /** No name in the list comes before the name of the entry just before it. */
  predicate SortedByName(s: seq<FormOption>)
  {
    forall i :: 0 < i < |s| ==> !LexLess(s[i].name, s[i - 1].name)
  }

  /** `o` inserted before the first entry whose name does not come before its own. */
  function InsertByName(o: FormOption, s: seq<FormOption>): (r: seq<FormOption>)
    ensures multiset(r) == multiset(s) + multiset{o}
    ensures |r| == |s| + 1
  {
    if s == [] then [o]
    else if LexLess(s[0].name, o.name) then
      assert s == [s[0]] + s[1..];
      [s[0]] + InsertByName(o, s[1..])
    else [o] + s
  }

  lemma {:induction false} InsertByNameSorted(o: FormOption, s: seq<FormOption>)
    requires SortedByName(s)
    ensures SortedByName(InsertByName(o, s))
    ensures s != [] ==> InsertByName(o, s)[0] == o || InsertByName(o, s)[0] == s[0]
  {
    if s != [] && LexLess(s[0].name, o.name) {
      var rest := InsertByName(o, s[1..]);
      InsertByNameSorted(o, s[1..]);
      LexLessAsymmetric(s[0].name, o.name);
      var r := [s[0]] + rest;
      assert r == InsertByName(o, s);
      forall i | 0 < i < |r| ensures !LexLess(r[i].name, r[i - 1].name) {
        if i > 1 {
          assert r[i] == rest[i - 1] && r[i - 1] == rest[i - 2];
        }
      }
    }
  }

  /**
   * The options in name order: the result of `sort((a, b) => a.name >
   * b.name ? 1 : -1)`. The comparator orders distinct names; entries of
   * equal name may come in either order, and this is one of them.
   */
  function SortByName(s: seq<FormOption>): (r: seq<FormOption>)
    ensures multiset(r) == multiset(s)
    ensures SortedByName(r)
  {
    if s == [] then [] else
      assert s == [s[0]] + s[1..];
      InsertByNameSorted(s[0], SortByName(s[1..]));
      InsertByName(s[0], SortByName(s[1..]))
  }

  /** In a list sorted by name, no later entry's name comes before an earlier one's. */
  lemma {:induction false} SortedByNamePairwise(s: seq<FormOption>, i: nat, j: nat)
    requires SortedByName(s) && i < j < |s|
    ensures !LexLess(s[j].name, s[i].name)
    decreases j - i
  {
    if i + 1 < j {
      SortedByNamePairwise(s, i + 1, j);
      LexLeqTransitive(s[i].name, s[i + 1].name, s[j].name);
    }
  }

  lemma {:induction false} LexLessTransitive(a: string, b: string, c: string)
    requires LexLess(a, b) && LexLess(b, c)
    ensures LexLess(a, c)
  {
    if a != [] && b != [] && c != [] && a[0] == b[0] && b[0] == c[0] {
      LexLessTransitive(a[1..], b[1..], c[1..]);
    }
  }

  lemma LexLeqTransitive(a: string, b: string, c: string)
    requires !LexLess(b, a) && !LexLess(c, b)
    ensures !LexLess(c, a)
  {
    if LexLess(c, a) {
      LexLessTotal(a, b);
      if LexLess(a, b) {
        LexLessTransitive(c, a, b);
      }
    }
  }

  /**
   * The shape options a dialog offers: exactly the catalog entries whose
   * size is allowed, each as often as in the catalog, in name order.
   */
  lemma ShapeOptionsExact(catalog: seq<FormOption>, sizes: seq<string>)
    ensures var r := SortByName(FilterBySize(catalog, sizes));
            && (forall o :: o in r <==> o in catalog && o.size in sizes)
            && multiset(r) == multiset(FilterBySize(catalog, sizes))
            && (forall o: FormOption :: multiset(r)[o] == if o.size in sizes then multiset(catalog)[o] else 0)
            && (forall i, j :: 0 <= i < j < |r| ==> !LexLess(r[j].name, r[i].name))
  {
    var f := FilterBySize(catalog, sizes);
    var r := SortByName(f);
    forall o: FormOption ensures multiset(r)[o] == if o.size in sizes then multiset(catalog)[o] else 0 {
      FilterBySizeCount(catalog, sizes, o);
    }
    forall o ensures o in r <==> o in catalog && o.size in sizes {
      FilterBySizeCount(catalog, sizes, o);
      assert o in r <==> o in multiset(r);
      assert o in catalog <==> o in multiset(catalog);
    }
    forall i, j | 0 <= i < j < |r| ensures !LexLess(r[j].name, r[i].name) {
      SortedByNamePairwise(r, i, j);
    }
  }

  /** The first option with that name (`options.find(o => o.name === name)`). */
  function FindOption(options: seq<FormOption>, name: string): (r: Option<FormOption>)
    ensures r.Some? <==> exists i :: 0 <= i < |options| && options[i].name == name
    ensures r.Some? ==> r.value in options && r.value.name == name
    ensures r.Some? ==> exists i :: 0 <= i < |options| && options[i] == r.value &&
                                    forall j :: 0 <= j < i ==> options[j].name != name
  {
    if options == [] then None
    else if options[0].name == name then Some(options[0])
    else
      var r := FindOption(options[1..], name);
      assert r.Some? ==> forall i :: 0 <= i < |options| - 1 ==> options[1..][i] == options[i + 1];
      r
  }

  // -----------------------------------------------------------------------
  // The catalog record of a form
  // -----------------------------------------------------------------------

  /** A movement mode with its speed; for `fly` the speed is the base and the maneuverability is set. */
  datatype Speed = Speed(mode: string, value: int, maneuverability: string)

  /**
   * An energy-resistance or damage-reduction entry: either plain text,
   * or an amount against a pair of types joined by or (`operator` true)
   * or by and.
   */
  datatype Resistance = Plain(text: string) | Typed(amount: int, operator: bool, types: seq<string>)

  /** Regeneration: an amount and the damage types that stop it; a catalog entry may lack the list (None). */
  datatype Regen = Regen(value: int, counter: Option<seq<string>>)

  /**
   * The change record of a form in the catalog. Optional lists that the
   * source reads with `|| []` are None when absent.
   */
  datatype FormChanges = FormChanges(
    speed: seq<Speed>,
    attacks: seq<AttackDescriptor>,
    specialAttack: Option<seq<AttackDescriptor>>,
    senses: seq<int>,
    special: Option<seq<string>>,
    eres: Option<seq<Resistance>>,
    dv: Option<seq<string>>,
    di: Option<seq<string>>,
    dr: Option<seq<Resistance>>,
    regen: Option<seq<Regen>>)

  /** `xs || []` on an optional list. */
  function OrEmpty<T>(xs: Option<seq<T>>): (r: seq<T>)
    ensures xs.Some? ==> r == xs.value
    ensures xs.None? ==> r == []
  {
    match xs case Some(s) => s case None => []
  }

  /**
   * A damage-reduction list the preview can render: each text entry has a
   * `/` before its damage type, and each typed entry fills both type
   * slots. Any other entry makes the rendering throw.
   */
  predicate DrRenders(dr: seq<Resistance>)
  {
    forall e | e in dr :: if e.Plain? then '/' in e.text else |e.types| >= 2
  }

  /** An energy-resistance list Elemental Body can render: each typed entry names a first type. */
  predicate EresRenders(eres: seq<Resistance>)
  {
    forall e | e in eres :: e.Typed? ==> |e.types| >= 1
  }

  /** A regeneration list the preview can render: each entry has its counter list. */
  predicate RegenRenders(regen: seq<Regen>)
  {
    forall g | g in regen :: g.counter.Some?
  }

  /** The trait record a gate returns; `{value: [], custom: ''}` is the empty one. */
  datatype Trait = Trait(value: seq<string>, custom: string)

  const EmptyTrait: Trait := Trait([], "")

  // -----------------------------------------------------------------------
  // Senses
  // -----------------------------------------------------------------------

  /**
   * A row of the sense table: its key (`SENSES` is keyed by name), its
   * enum value, and the one setting it grants with its strength.
   */
  datatype SenseDef = SenseDef(key: string, value: int, settingKey: string, strength: int)

  /** An allowance: the strongest strength allowed, and the key prefix of the sense of that strength. */
  datatype Allowance = Allowance(prefix: string, value: int)

  /** The sense table is keyed by distinct names, and the enum value of the row at index i is i + 1. */
  predicate SenseTable(senses: seq<SenseDef>)
  {
    && (forall i :: 0 <= i < |senses| ==> senses[i].value == i + 1)
    && (forall i, j :: 0 <= i < j < |senses| ==> senses[i].key != senses[j].key)
  }

  /** `SENSES[key]`: the row with that key. */
  function SenseNamed(senses: seq<SenseDef>, key: string): (r: Option<SenseDef>)
    ensures r.Some? ==> r.value in senses && r.value.key == key
  {
    if senses == [] then None
    else if senses[0].key == key then Some(senses[0])
    else SenseNamed(senses[1..], key)
  }

  /** The key of the sense an allowance clamps to: the prefix followed by the strength. */
  function ClampKey(a: Allowance): string
  {
    a.prefix + IntToString(a.value)
  }

  /** Every allowance names a sense of the table. */
  predicate AllowancesResolve(senses: seq<SenseDef>, allowed: map<string, Allowance>)
  {
    forall k :: k in allowed ==> SenseNamed(senses, ClampKey(allowed[k])).Some?
  }

  /**
   * Every allowance names a sense granting the allowed setting at no more
   * than the allowed strength: what the allowance tables are written to hold.
   */
  predicate AllowancesConsistent(senses: seq<SenseDef>, allowed: map<string, Allowance>)
  {
    forall k :: k in allowed ==>
      var s := SenseNamed(senses, ClampKey(allowed[k]));
      s.Some? && s.value.settingKey == k && s.value.strength <= allowed[k].value
  }

  predicate ValidSense(senses: seq<SenseDef>, v: int)
  {
    1 <= v <= |senses|
  }

  /**
   * One sense of the form at this spell and level: dropped (None) when its
   * setting has no allowance, replaced by the allowance's sense when
   * stronger than allowed, kept otherwise.
   */
  function GateSense(senses: seq<SenseDef>, allowed: map<string, Allowance>, v: int): (r: Option<int>)
    requires ValidSense(senses, v) && AllowancesResolve(senses, allowed)
    ensures r.None? <==> senses[v - 1].settingKey !in allowed
    ensures r.Some? && senses[v - 1].strength <= allowed[senses[v - 1].settingKey].value ==> r.value == v
    ensures r.Some? && senses[v - 1].strength > allowed[senses[v - 1].settingKey].value ==>
              r.value == SenseNamed(senses, ClampKey(allowed[senses[v - 1].settingKey])).value.value
  {
    var def := senses[v - 1];
    if def.settingKey !in allowed then None
    else if def.strength > allowed[def.settingKey].value then
      Some(SenseNamed(senses, ClampKey(allowed[def.settingKey])).value.value)
    else Some(v)
  }

  predicate ValidSenses(senses: seq<SenseDef>, formSenses: seq<int>)
  {
    forall i :: 0 <= i < |formSenses| ==> ValidSense(senses, formSenses[i])
  }

  /** The senses pushed onto `this.senses`, in order. */
  function GatedSenses(senses: seq<SenseDef>, allowed: map<string, Allowance>, formSenses: seq<int>): (r: seq<int>)
    requires ValidSenses(senses, formSenses) && AllowancesResolve(senses, allowed)
    ensures |r| <= |formSenses|
  {
    if formSenses == [] then []
    else
      var init, last := formSenses[..|formSenses| - 1], formSenses[|formSenses| - 1];
      GatedSenses(senses, allowed, init) + (match GateSense(senses, allowed, last) case Some(g) => [g] case None => [])
  }

  /** The loop over the form's senses (the `continue` drops a sense). */
  method GateSenseList(senses: seq<SenseDef>, allowed: map<string, Allowance>, formSenses: seq<int>) returns (gated: seq<int>)
    requires ValidSenses(senses, formSenses) && AllowancesResolve(senses, allowed)
    ensures gated == GatedSenses(senses, allowed, formSenses)
  {
    gated := [];
    for i := 0 to |formSenses|
      invariant ValidSenses(senses, formSenses[..i])
      invariant gated == GatedSenses(senses, allowed, formSenses[..i])
    {
      GatedSensesStep(senses, allowed, formSenses, i);
      var keep, senseEnumValue := GateOne(senses, allowed, formSenses[i]);
      if !keep {
        continue;
      }
      gated := gated + [senseEnumValue];
    }
    assert formSenses[..|formSenses|] == formSenses;
  }

  /** One pass of the sense loop: skip a sense without allowance, clamp one stronger than allowed. */
  method GateOne(senses: seq<SenseDef>, allowed: map<string, Allowance>, v: int) returns (keep: bool, senseEnumValue: int)
    requires ValidSense(senses, v) && AllowancesResolve(senses, allowed)
    ensures keep <==> GateSense(senses, allowed, v).Some?
    ensures keep ==> senseEnumValue == GateSense(senses, allowed, v).value
  {
    senseEnumValue := v;
    var senseKey := senses[senseEnumValue - 1].settingKey;
    var senseValue := senses[senseEnumValue - 1].strength;
    if senseKey !in allowed {
      return false, senseEnumValue;
    }
    if senseValue > allowed[senseKey].value {
      senseEnumValue := SenseNamed(senses, ClampKey(allowed[senseKey])).value.value;
    }
    keep := true;
  }

  lemma GatedSensesStep(senses: seq<SenseDef>, allowed: map<string, Allowance>, formSenses: seq<int>, i: nat)
    requires ValidSenses(senses, formSenses) && AllowancesResolve(senses, allowed) && i < |formSenses|
    ensures ValidSenses(senses, formSenses[..i]) && ValidSenses(senses, formSenses[..i + 1])
    ensures ValidSense(senses, formSenses[i])
    ensures GateSense(senses, allowed, formSenses[i]).None? ==>
              GatedSenses(senses, allowed, formSenses[..i + 1]) == GatedSenses(senses, allowed, formSenses[..i])
    ensures GateSense(senses, allowed, formSenses[i]).Some? ==>
              GatedSenses(senses, allowed, formSenses[..i + 1]) ==
              GatedSenses(senses, allowed, formSenses[..i]) + [GateSense(senses, allowed, formSenses[i]).value]
  {
    assert formSenses[..i + 1][..i] == formSenses[..i];
  }

  /** With a well-formed sense table, a clamped sense is the table row named by the allowance. */
  lemma SenseNamedIsRow(senses: seq<SenseDef>, key: string)
    requires SenseTable(senses) && SenseNamed(senses, key).Some?
    ensures ValidSense(senses, SenseNamed(senses, key).value.value)
    ensures senses[SenseNamed(senses, key).value.value - 1] == SenseNamed(senses, key).value
  {
  }

  /** A sense within the allowance of its setting. */
  predicate WithinAllowance(senses: seq<SenseDef>, allowed: map<string, Allowance>, v: int)
  {
    && ValidSense(senses, v)
    && senses[v - 1].settingKey in allowed
    && senses[v - 1].strength <= allowed[senses[v - 1].settingKey].value
  }

  /** With consistent tables a sense that survives the gate is within its allowance. */
  lemma GateSenseWithinAllowance(senses: seq<SenseDef>, allowed: map<string, Allowance>, v: int)
    requires SenseTable(senses) && AllowancesConsistent(senses, allowed)
    requires ValidSense(senses, v) && AllowancesResolve(senses, allowed)
    requires GateSense(senses, allowed, v).Some?
    ensures WithinAllowance(senses, allowed, GateSense(senses, allowed, v).value)
  {
    var key := senses[v - 1].settingKey;
    if senses[v - 1].strength > allowed[key].value {
      var row := SenseNamed(senses, ClampKey(allowed[key])).value;
      SenseNamedIsRow(senses, ClampKey(allowed[key]));
      assert row.settingKey == key && row.strength <= allowed[key].value;
    }
  }

  /**
   * With consistent tables every gated sense is a sense of the table whose
   * setting has an allowance and whose strength is within it.
   */
  lemma {:induction false} GatedSensesWithinAllowance(senses: seq<SenseDef>, allowed: map<string, Allowance>, formSenses: seq<int>)
    requires SenseTable(senses) && AllowancesConsistent(senses, allowed)
    requires ValidSenses(senses, formSenses) && AllowancesResolve(senses, allowed)
    ensures forall v :: v in GatedSenses(senses, allowed, formSenses) ==> WithinAllowance(senses, allowed, v)
  {
    if formSenses != [] {
      var init, last := formSenses[..|formSenses| - 1], formSenses[|formSenses| - 1];
      assert ValidSenses(senses, init);
      GatedSensesWithinAllowance(senses, allowed, init);
      var g := GateSense(senses, allowed, last);
      if g.Some? {
        GateSenseWithinAllowance(senses, allowed, last);
        assert GatedSenses(senses, allowed, formSenses) == GatedSenses(senses, allowed, init) + [g.value];
      }
    }
  }

  /** With consistent tables, gating an already gated sense changes nothing: the rule is idempotent. */
  lemma GateSenseIdempotent(senses: seq<SenseDef>, allowed: map<string, Allowance>, v: int)
    requires SenseTable(senses) && AllowancesConsistent(senses, allowed)
    requires ValidSense(senses, v) && AllowancesResolve(senses, allowed)
    requires GateSense(senses, allowed, v).Some?
    ensures ValidSense(senses, GateSense(senses, allowed, v).value)
    ensures GateSense(senses, allowed, GateSense(senses, allowed, v).value) == GateSense(senses, allowed, v)
  {
    var key := senses[v - 1].settingKey;
    if senses[v - 1].strength > allowed[key].value {
      SenseNamedIsRow(senses, ClampKey(allowed[key]));
    }
  }
}
