/**
 * Size and carrying-capacity arithmetic of `scripts/helpers/index.js`:
 * stepping along the ordered size table, the "tiny or smaller" test and
 * the two compensating carry changes a size or strength change needs.
 */
module Helpers {
  import opened JsBase

  /**
   * One stat modifier on a buff. An empty `target` or `subTarget` stands
   * for an absent one (both are falsy in the source).
   */
  datatype Change = Change(
    formula: Formula,
    operator: string,
    target: string,
    subTarget: string,
    modifier: string,
    priority: int,
    value: Num)

  /** The size table (the keys of the system's actor-size table, smallest first) names no size twice. */
  predicate SizeTable(sizes: seq<string>)
  {
    forall i, j :: 0 <= i < j < |sizes| ==> sizes[i] != sizes[j]
  }

  /** The pf1 system's size table; `tiny` sits at index 2. */
  const StandardSizes: seq<string> := ["fine", "dim", "tiny", "sm", "med", "lg", "huge", "grg", "col"]

  lemma IndexOfDistinct(sizes: seq<string>, k: nat)
    requires SizeTable(sizes) && k < |sizes|
    ensures IndexOf(sizes, sizes[k]) == k
  {
  }

  function Clamp(x: int, lo: int, hi: int): int
  {
    if x < lo then lo else if x > hi then hi else x
  }

  /**
   * The index the new size is read from: a negative step stops at 0, a
   * non-negative one at the last index.
   */
  function NewSizeIndex(sizes: seq<string>, currentSize: string, mod: int): int
  {
    var sizeIndex := IndexOf(sizes, currentSize);
    if mod < 0 then
      (if 0 > sizeIndex + mod then 0 else sizeIndex + mod)
    else
      (if |sizes| - 1 < sizeIndex + mod then |sizes| - 1 else sizeIndex + mod)
  }

  /**
   * `getNewSize`: the size `mod` steps away from `currentSize`, clamped to
   * the table. None stands for the `undefined` the source reads when the
   * index falls outside the table (only possible for a size not in it).
   */
  function GetNewSize(sizes: seq<string>, currentSize: string, mod: int): (r: Option<string>)
    ensures currentSize in sizes ==>
              var i, k := IndexOf(sizes, currentSize), NewSizeIndex(sizes, currentSize, mod);
              && k == Clamp(i + mod, 0, |sizes| - 1)
              && r == Some(sizes[k])
              && (mod < 0 ==> k <= i)
              && (mod >= 0 ==> k >= i)
              && (mod == 0 ==> r == Some(currentSize))
    ensures currentSize in sizes && SizeTable(sizes) ==>
              IndexOf(sizes, r.value) == Clamp(IndexOf(sizes, currentSize) + mod, 0, |sizes| - 1)
    ensures currentSize !in sizes && mod == 0 ==> r.None?
  {
    var k := NewSizeIndex(sizes, currentSize, mod);
    assert currentSize in sizes && SizeTable(sizes) ==> IndexOf(sizes, sizes[k]) == k by {
      if currentSize in sizes && SizeTable(sizes) { IndexOfDistinct(sizes, k); }
    }
    if 0 <= k < |sizes| then Some(sizes[k]) else None
  }

  /** `isTinyOrSmaller`: the size's index is below 3; a size missing from the table (index -1) counts too. */
  function IsTinyOrSmaller(sizes: seq<string>, size: string): (r: bool)
    ensures size !in sizes ==> r
    ensures size in sizes ==> (r <==> exists k :: 0 <= k <= 2 && k < |sizes| && sizes[k] == size)
  {
    IndexOf(sizes, size) < 3
  }

  /** In a table without repeats, exactly the sizes at indices 0, 1 and 2 are tiny or smaller. */
  lemma IsTinyOrSmallerAt(sizes: seq<string>, k: nat)
    requires SizeTable(sizes) && k < |sizes|
    ensures IsTinyOrSmaller(sizes, sizes[k]) <==> k <= 2
  {
    IndexOfDistinct(sizes, k);
  }

  lemma StandardSizesAreATable()
    ensures SizeTable(StandardSizes)
  {
  }

  /** With the pf1 table: `tiny` is tiny or smaller, `sm` is not; one step down from `med` is `sm`; steps clamp at both ends. */
  lemma StandardSizeSteps()
    ensures IsTinyOrSmaller(StandardSizes, "tiny") && !IsTinyOrSmaller(StandardSizes, "sm")
    ensures GetNewSize(StandardSizes, "med", -1) == Some("sm")
    ensures GetNewSize(StandardSizes, "col", 5) == Some("col")
    ensures GetNewSize(StandardSizes, "fine", -3) == Some("fine")
  {
    StandardSizesAreATable();
    IsTinyOrSmallerAt(StandardSizes, 2);
    IsTinyOrSmallerAt(StandardSizes, 3);
    IndexOfDistinct(StandardSizes, 4);
    IndexOfDistinct(StandardSizes, 8);
    IndexOfDistinct(StandardSizes, 0);
  }

  // -----------------------------------------------------------------------
  // Carrying capacity
  // -----------------------------------------------------------------------

  /** The encumbrance multiplier of `size` when it is defined and non-zero, so that dividing by it is defined. */
  predicate Multiplier(enc: map<string, real>, size: string)
  {
    size in enc && enc[size] != 0.0
  }

  /** An untyped, zero-priority `add` change whose formula is the text of its value. */
  function CarryChange(subTarget: string, value: Num): (c: Change)
  {
    Change(Rendered(value), "add", "", subTarget, "untyped", 0, value)
  }

  /**
   * `generateCapacityChange`: the `carryStr` change cancels the strength
   * change against the user carry bonus (absent counts as 0); the
   * `carryMult` change cancels the ratio between the encumbrance
   * multipliers of the current and the new size.
   */
  function GenerateCapacityChange(
    userBonus: int, multiplierTotal: real, enc: map<string, real>,
    currentSize: string, newSize: string, strChange: Num): (r: seq<Change>)
    ensures |r| == 2 && r[0].subTarget == "carryStr" && r[1].subTarget == "carryMult"
    ensures forall c :: c in r ==>
              c.operator == "add" && c.modifier == "untyped" && c.priority == 0
              && c.target == "" && c.formula == Rendered(c.value)
    ensures r[0].value.Finite? <==> strChange.Finite?
    ensures strChange.Finite? ==> r[0].value.r + strChange.r == userBonus as real
    ensures currentSize in enc && Multiplier(enc, newSize) ==>
              r[1].value.Finite? && (multiplierTotal + r[1].value.r) * enc[newSize] == multiplierTotal * enc[currentSize]
    ensures currentSize == newSize && Multiplier(enc, newSize) ==> r[1].value == Finite(0.0)
  {
    var carryBonusChange := Sub(Finite(userBonus as real), strChange);
    var carryMultChange :=
      if currentSize in enc && Multiplier(enc, newSize) then
        Finite(multiplierTotal * enc[currentSize] / enc[newSize] - multiplierTotal)
      else NonFinite;
    assert currentSize in enc && Multiplier(enc, newSize) ==>
      (multiplierTotal + carryMultChange.r) * enc[newSize] == multiplierTotal * enc[currentSize] by {
      if currentSize in enc && Multiplier(enc, newSize) {
        CapacityNeutral(multiplierTotal, enc[currentSize], enc[newSize]);
      }
    }
    [CarryChange("carryStr", carryBonusChange), CarryChange("carryMult", carryMultChange)]
  }

  /** The multiplier after the compensating change, scaled by the new size's factor, is the old effective multiplier. */
  lemma CapacityNeutral(total: real, current: real, next: real)
    requires next != 0.0
    ensures (total + (total * current / next - total)) * next == total * current
  {
    calc {
      (total + (total * current / next - total)) * next;
      (total * current / next) * next;
      { assert (total * current / next) * next == total * current; }
      total * current;
    }
  }
}
