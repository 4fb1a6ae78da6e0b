/** The market-tier classifier: a fixed table of tiers in ascending order of
    their value ceiling, and the first-fit scan that assigns a property value
    to a tier, falling back to the last tier when no ceiling is high enough. */
module Tiers {

  /** One market segment: the highest property value it covers, the monthly
      rent as a fraction of value, and the bounds of the renovation cost as a
      fraction of value. */
  datatype Tier = Tier(name: string, maxValue: real, rentYield: real, minCapex: real, maxCapex: real)

  /** The tier table, in the order the scan visits it. */
  const Table: seq<Tier> := [
    Tier("Distressed", 100000.0, 0.0155, 0.25, 0.40),
    Tier("Value-Add", 180000.0, 0.013, 0.16, 0.25),
    Tier("Mid-Tier", 300000.0, 0.011, 0.08, 0.15),
    Tier("Retail-Ready", 400000.0, 0.009, 0.03, 0.07)
  ]

  /** Ceilings strictly increase along the table. */
  ghost predicate Ascending(table: seq<Tier>)
  {
    forall i, j :: 0 <= i < j < |table| ==> table[i].maxValue < table[j].maxValue
  }

  /** Every tier has a positive rent yield and a non-empty, positive
      renovation range. */
  ghost predicate Sensible(t: Tier)
  {
    0.0 < t.rentYield && 0.0 < t.minCapex <= t.maxCapex
  }

  lemma TableInvariant()
    ensures |Table| == 4
    ensures Ascending(Table)
    ensures forall i :: 0 <= i < |Table| ==> Sensible(Table[i])
  {
  }

  /** The scan of `table` starting at position `k`: the first position at or
      after `k` whose ceiling is at least `value`, or the last position when
      there is none. */
  function ScanFrom(table: seq<Tier>, value: real, k: nat): (i: nat)
    requires 0 < |table| && k <= |table|
    decreases |table| - k
    ensures i < |table|
    ensures forall j :: k <= j < i ==> table[j].maxValue < value
    ensures (exists j :: k <= j < |table| && value <= table[j].maxValue) ==> k <= i && value <= table[i].maxValue
    ensures (forall j :: k <= j < |table| ==> table[j].maxValue < value) ==> i == |table| - 1
  {
    if k == |table| then |table| - 1
    else if value <= table[k].maxValue then k
    else ScanFrom(table, value, k + 1)
  }

  /** Position of the first tier of `table` whose ceiling is at least `value`;
      the last position when every ceiling is below `value`. */
  function FirstFit(table: seq<Tier>, value: real): (i: nat)
    requires 0 < |table|
    ensures i < |table|
    ensures forall j :: 0 <= j < i ==> table[j].maxValue < value
    ensures value <= table[i].maxValue || (i == |table| - 1 && forall j :: 0 <= j < |table| ==> table[j].maxValue < value)
  {
    ScanFrom(table, value, 0)
  }

  /** Position in the tier table the classifier picks for `value`. */
  function TierIndex(value: real): (i: nat)
    ensures i < |Table|
  {
    FirstFit(Table, value)
  }

  /** The tier the classifier assigns to a property worth `value`. */
  function GetTier(value: real): (t: Tier)
    ensures t in Table
    ensures Sensible(t)
    ensures value > Table[|Table| - 1].maxValue ==> t == Table[|Table| - 1]
  {
    TableInvariant();
    Table[TierIndex(value)]
  }

  /** The value band tier `i` of `table` is responsible for: above the previous
      ceiling, and at most its own ceiling unless it is the catch-all last tier. */
  ghost predicate InBand(table: seq<Tier>, i: nat, value: real)
    requires i < |table|
  {
    && (i == 0 || table[i - 1].maxValue < value)
    && (i == |table| - 1 || value <= table[i].maxValue)
  }

  /** On an ascending table the first-fit scan picks exactly the tier whose
      band holds the value: the tier with the smallest ceiling at or above it,
      or the last tier when the value exceeds every ceiling. */
  lemma FirstFitIsBand(table: seq<Tier>, value: real, i: nat)
    requires Ascending(table) && i < |table|
    ensures FirstFit(table, value) == i <==> InBand(table, i, value)
  {
    if InBand(table, i, value) {
      assert forall j :: 0 <= j < i ==> table[j].maxValue < value;
    }
  }

  /** A larger value never lands in an earlier tier. */
  lemma FirstFitMonotone(table: seq<Tier>, v1: real, v2: real)
    requires 0 < |table| && v1 <= v2
    ensures FirstFit(table, v1) <= FirstFit(table, v2)
  {
    var i1 := FirstFit(table, v1);
    assert forall j :: 0 <= j < i1 ==> table[j].maxValue < v2;
  }

  /** The classifier on the tier table is monotone in both position and ceiling. */
  lemma GetTierMonotone(v1: real, v2: real)
    requires v1 <= v2
    ensures TierIndex(v1) <= TierIndex(v2)
    ensures GetTier(v1).maxValue <= GetTier(v2).maxValue
  {
    FirstFitMonotone(Table, v1, v2);
    TableInvariant();
  }

  /** Which named tier each value lands in; the boundaries are inclusive at the
      top of each band, and every value above 300,000 (including values above
      the last ceiling of 400,000) lands in the last tier. */
  lemma GetTierBands(value: real)
    ensures GetTier(value).name == "Distressed" <==> value <= 100000.0
    ensures GetTier(value).name == "Value-Add" <==> 100000.0 < value <= 180000.0
    ensures GetTier(value).name == "Mid-Tier" <==> 180000.0 < value <= 300000.0
    ensures GetTier(value).name == "Retail-Ready" <==> 300000.0 < value
  {
    TableInvariant();
    FirstFitIsBand(Table, value, 0);
    FirstFitIsBand(Table, value, 1);
    FirstFitIsBand(Table, value, 2);
    FirstFitIsBand(Table, value, 3);
  }

  /** The three boundary cases: a ceiling value belongs to its own tier, the
      next value up to the next tier, and values past the last ceiling fall
      back to the last tier. */
  lemma GetTierBoundaries(above: real)
    requires above > 400000.0
    ensures GetTier(100000.0).name == "Distressed"
    ensures GetTier(100000.01).name == "Value-Add"
    ensures GetTier(400000.0).name == "Retail-Ready"
    ensures GetTier(above).name == "Retail-Ready" && TierIndex(above) == |Table| - 1
  {
    GetTierBands(100000.0);
    GetTierBands(100000.01);
    GetTierBands(400000.0);
    GetTierBands(above);
  }
}
