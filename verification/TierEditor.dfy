/** The tiered-profit editor: rows typed by the user, and the price tiers derived from them. */
module TierEditor {
  import opened JsStrings
  import opened Options

  /** A number as a multiple of the smallest positive one; the editor only compares numbers. */
  type Amount = int

  datatype RateType = Percent | Amount

  datatype Row = Row(upper: string, rateType: RateType, rate: string, extraCosts: seq<string>)

  /** The interval [min, max) of costs; no max means no upper bound. */
  datatype Tier = Tier(min: Amount, max: Option<Amount>, rateType: RateType, rate: Amount, extraCosts: seq<Amount>)

  /** How text becomes a number and back; text that is no number reads as zero. */
  datatype Format = Format(num: string -> Amount, show: Amount -> string)

  predicate Blank(s: string) {
    forall c | c in s :: IsSpace(c)
  }

  ghost predicate Sound(f: Format) {
    && (forall x :: f.num(f.show(x)) == x)
    && (forall s {:trigger Blank(s)} :: Blank(s) ==> f.num(s) == 0)
  }

  const DEFAULT_ROW := Row("", Percent, "20", [])

  function PositiveCosts(f: Format, costs: seq<string>): seq<Amount> {
    if costs == [] then []
    else (if f.num(costs[0]) > 0 then [f.num(costs[0])] else []) + PositiveCosts(f, costs[1..])
  }

  function ShowAll(f: Format, costs: seq<Amount>): seq<string> {
    if costs == [] then [] else [f.show(costs[0])] + ShowAll(f, costs[1..])
  }

  function RowTier(f: Format, rows: seq<Row>, i: nat): Tier
    requires i < |rows|
  {
    Tier(if i == 0 then 0 else f.num(rows[i - 1].upper),
         if i == |rows| - 1 then None else Some(f.num(rows[i].upper)),
         rows[i].rateType, f.num(rows[i].rate), PositiveCosts(f, rows[i].extraCosts))
  }

  function RowsToTiers(f: Format, rows: seq<Row>): seq<Tier> {
    seq(|rows|, i requires 0 <= i < |rows| => RowTier(f, rows, i))
  }

  function TierRow(f: Format, t: Tier): Row {
    Row(if t.max == None then "" else f.show(t.max.value), t.rateType, f.show(t.rate), ShowAll(f, t.extraCosts))
  }

  function TiersToRows(f: Format, tiers: seq<Tier>): seq<Row> {
    if tiers == [] then [DEFAULT_ROW]
    else seq(|tiers|, i requires 0 <= i < |tiers| => TierRow(f, tiers[i]))
  }

  // ----- Shape -----

  /** Tiers start at zero, each ends where the next starts, and only the last is unbounded. */
  ghost predicate Contiguous(tiers: seq<Tier>) {
    && tiers != []
    && tiers[0].min == 0
    && (forall i | 0 <= i < |tiers| - 1 :: tiers[i].max == Some(tiers[i + 1].min))
    && tiers[|tiers| - 1].max == None
  }

  ghost predicate CostsPositive(tiers: seq<Tier>) {
    forall t | t in tiers :: forall x | x in t.extraCosts :: x > 0
  }

  lemma {:induction false} PositiveCostsArePositive(f: Format, costs: seq<string>)
    ensures forall x | x in PositiveCosts(f, costs) :: x > 0
  {
    if costs != [] {
      PositiveCostsArePositive(f, costs[1..]);
    }
  }

  lemma {:induction false} CostsInOrder(f: Format, a: seq<string>, b: seq<string>)
    ensures PositiveCosts(f, a + b) == PositiveCosts(f, a) + PositiveCosts(f, b)
  {
    if a == [] {
      assert a + b == b;
    } else {
      assert (a + b)[0] == a[0] && (a + b)[1..] == a[1..] + b;
      CostsInOrder(f, a[1..], b);
    }
  }

  /** The positive costs keep their order; a cost that is zero, negative or no number is dropped. */
  lemma CostIsKeptOrDropped(f: Format, a: seq<string>, cost: string, b: seq<string>)
    ensures PositiveCosts(f, a + [cost] + b)
         == PositiveCosts(f, a) + (if f.num(cost) > 0 then [f.num(cost)] else []) + PositiveCosts(f, b)
  {
    CostsInOrder(f, a + [cost], b);
    CostsInOrder(f, a, [cost]);
    assert [cost][1..] == [];
  }

  /** A tier has its row's rate and costs, and the row's limit unless it is the last. */
  lemma TierOfRow(f: Format, rows: seq<Row>, i: nat)
    requires i < |rows|
    ensures var t := RowsToTiers(f, rows)[i];
      && t.rateType == rows[i].rateType && t.rate == f.num(rows[i].rate)
      && t.extraCosts == PositiveCosts(f, rows[i].extraCosts)
      && (i < |rows| - 1 ==> t.max == Some(f.num(rows[i].upper)))
  {
  }

  /** Whatever the rows, the derived tiers are contiguous and carry positive extra costs only. */
  lemma DerivedTiersAreContiguous(f: Format, rows: seq<Row>)
    requires rows != []
    ensures Contiguous(RowsToTiers(f, rows)) && CostsPositive(RowsToTiers(f, rows))
  {
    forall t | t in RowsToTiers(f, rows) ensures forall x | x in t.extraCosts :: x > 0 {
      var i :| 0 <= i < |rows| && RowTier(f, rows, i) == t;
      PositiveCostsArePositive(f, rows[i].extraCosts);
    }
  }

  lemma {:induction false} CostsRoundTrip(f: Format, costs: seq<Amount>)
    requires Sound(f)
    requires forall k | 0 <= k < |costs| :: costs[k] > 0
    ensures PositiveCosts(f, ShowAll(f, costs)) == costs
  {
    if costs != [] {
      CostsRoundTrip(f, costs[1..]);
      assert f.num(f.show(costs[0])) == costs[0];
      assert ShowAll(f, costs)[1..] == ShowAll(f, costs[1..]);
    }
  }

  lemma TierRoundTrip(f: Format, tiers: seq<Tier>, i: nat)
    requires Sound(f) && Contiguous(tiers) && CostsPositive(tiers) && i < |tiers|
    ensures RowTier(f, TiersToRows(f, tiers), i) == tiers[i]
  {
    var t := tiers[i];
    assert t in tiers;
    forall k | 0 <= k < |t.extraCosts| ensures t.extraCosts[k] > 0 {
      assert t.extraCosts[k] in t.extraCosts;
    }
    CostsRoundTrip(f, t.extraCosts);
    assert f.num(f.show(t.rate)) == t.rate;
    if i > 0 {
      assert tiers[i - 1].max == Some(tiers[i - 1 + 1].min);
      assert f.num(f.show(t.min)) == t.min;
    }
    if i < |tiers| - 1 {
      assert tiers[i].max == Some(tiers[i + 1].min);
      assert f.num(f.show(t.max.value)) == t.max.value;
    }
  }

  /** Tiers survive the trip through rows exactly when they are contiguous with positive extra costs. */
  lemma TiersRoundTrip(f: Format, tiers: seq<Tier>)
    requires Sound(f)
    ensures RowsToTiers(f, TiersToRows(f, tiers)) == tiers <==> Contiguous(tiers) && CostsPositive(tiers)
  {
    var rows := TiersToRows(f, tiers);
    if Contiguous(tiers) && CostsPositive(tiers) {
      forall i | 0 <= i < |tiers| ensures RowTier(f, rows, i) == tiers[i] {
        TierRoundTrip(f, tiers, i);
      }
    }
    DerivedTiersAreContiguous(f, rows);
  }

  /** One pass through tiers and rows is already a fixed point. */
  lemma OnePassIsEnough(f: Format, rows: seq<Row>)
    requires Sound(f) && rows != []
    ensures var tiers := RowsToTiers(f, rows); RowsToTiers(f, TiersToRows(f, tiers)) == tiers
  {
    DerivedTiersAreContiguous(f, rows);
    TiersRoundTrip(f, RowsToTiers(f, rows));
  }

  // ----- Which tier a cost falls in -----

  predicate Holds(t: Tier, cost: Amount) {
    t.min <= cost && (t.max.Some? ==> cost < t.max.value)
  }

  ghost predicate InExactlyOne(tiers: seq<Tier>, cost: Amount) {
    exists i | 0 <= i < |tiers| ::
      Holds(tiers[i], cost) && forall j | 0 <= j < |tiers| && Holds(tiers[j], cost) :: j == i
  }

  /** The upper limit of row `i`; limits below zero act as zero. */
  function Limit(f: Format, rows: seq<Row>, i: nat): Amount
    requires i < |rows|
  {
    var u := f.num(rows[i].upper);
    if u < 0 then 0 else u
  }

  ghost predicate LimitsAscend(f: Format, rows: seq<Row>) {
    forall i | 0 < i < |rows| - 1 :: Limit(f, rows, i - 1) <= Limit(f, rows, i)
  }

  /** `cost` is at or above the lower bound of tier `i`; beyond the last tier it never is. */
  predicate Reaches(f: Format, rows: seq<Row>, cost: Amount, i: nat)
    requires i <= |rows|
  {
    i == 0 || (i < |rows| && Limit(f, rows, i - 1) <= cost)
  }

  lemma HoldsMeansReached(f: Format, rows: seq<Row>, cost: Amount, i: nat)
    requires i < |rows| && cost >= 0
    ensures Holds(RowsToTiers(f, rows)[i], cost) <==> Reaches(f, rows, cost, i) && !Reaches(f, rows, cost, i + 1)
  {
  }

  /** Between a bound the cost reaches and one it does not, some tier holds it. */
  lemma {:induction false} FindTier(f: Format, rows: seq<Row>, cost: Amount, lo: nat, hi: nat) returns (i: nat)
    requires lo < hi <= |rows| && cost >= 0
    requires Reaches(f, rows, cost, lo) && !Reaches(f, rows, cost, hi)
    ensures lo <= i < hi && Holds(RowsToTiers(f, rows)[i], cost)
    decreases hi - lo
  {
    if Reaches(f, rows, cost, lo + 1) {
      i := FindTier(f, rows, cost, lo + 1, hi);
    } else {
      HoldsMeansReached(f, rows, cost, lo);
      i := lo;
    }
  }

  lemma {:induction false} AscendingLimits(f: Format, rows: seq<Row>, i: nat, j: nat)
    requires LimitsAscend(f, rows) && i <= j < |rows| - 1
    ensures Limit(f, rows, i) <= Limit(f, rows, j)
    decreases j - i
  {
    if i < j {
      AscendingLimits(f, rows, i, j - 1);
    }
  }

  /** Every cost lies in exactly one tier exactly when the limits never fall. */
  lemma EveryCostInOneTier(f: Format, rows: seq<Row>)
    requires rows != []
    ensures (forall cost | cost >= 0 :: InExactlyOne(RowsToTiers(f, rows), cost)) <==> LimitsAscend(f, rows)
  {
    if LimitsAscend(f, rows) {
      forall cost | cost >= 0 ensures InExactlyOne(RowsToTiers(f, rows), cost) {
        AscendingMeansOne(f, rows, cost);
      }
    } else {
      var i :| 0 < i < |rows| - 1 && Limit(f, rows, i) < Limit(f, rows, i - 1);
      FallingMeansTwo(f, rows, i);
    }
  }

  lemma AscendingMeansOne(f: Format, rows: seq<Row>, cost: Amount)
    requires rows != [] && LimitsAscend(f, rows) && cost >= 0
    ensures InExactlyOne(RowsToTiers(f, rows), cost)
  {
    var i := FindTier(f, rows, cost, 0, |rows|);
    HoldsMeansReached(f, rows, cost, i);
    forall j | 0 <= j < |rows| && Holds(RowsToTiers(f, rows)[j], cost) ensures j == i {
      HoldsMeansReached(f, rows, cost, j);
      if i < j {
        AscendingLimits(f, rows, i, j - 1);
      } else if j < i {
        AscendingLimits(f, rows, j, i - 1);
      }
    }
  }

  lemma FallingMeansTwo(f: Format, rows: seq<Row>, i: nat)
    requires 0 < i < |rows| - 1 && Limit(f, rows, i) < Limit(f, rows, i - 1)
    ensures Limit(f, rows, i) >= 0 && !InExactlyOne(RowsToTiers(f, rows), Limit(f, rows, i))
  {
    var cost := Limit(f, rows, i);
    var below := FindTier(f, rows, cost, 0, i);
    var above := FindTier(f, rows, cost, i + 1, |rows|);
  }

  // ----- The warning -----

  datatype Warning = NoWarning | MissingUpper(row: nat) | NotLarger(row: nat)

  function RowWarning(f: Format, rows: seq<Row>, i: nat): Warning
    requires i < |rows|
  {
    if Blank(rows[i].upper) || f.num(rows[i].upper) <= 0 then MissingUpper(i + 1)
    else if i > 0 && f.num(rows[i].upper) <= f.num(rows[i - 1].upper) then NotLarger(i + 1)
    else NoWarning
  }

  ghost predicate NonEmpty(t: Tier) {
    t.max.Some? ==> t.min < t.max.value
  }

  ghost predicate FirstEmpty(tiers: seq<Tier>, i: int) {
    0 <= i < |tiers| && !NonEmpty(tiers[i]) && forall k | 0 <= k < i :: NonEmpty(tiers[k])
  }

  /** The first row that warns belongs to the first empty tier. */
  lemma FirstWarningIsFirstEmpty(f: Format, rows: seq<Row>, i: nat)
    requires Sound(f) && i < |rows| - 1 && RowWarning(f, rows, i) != NoWarning
    requires forall k | 0 <= k < i :: RowWarning(f, rows, k) == NoWarning
    ensures FirstEmpty(RowsToTiers(f, rows), i)
  {
    var tiers := RowsToTiers(f, rows);
    forall k | 0 <= k < i ensures NonEmpty(tiers[k]) {
      assert RowWarning(f, rows, k) == NoWarning;
      assert k > 0 ==> RowWarning(f, rows, k - 1) == NoWarning;
    }
    assert i > 0 ==> RowWarning(f, rows, i - 1) == NoWarning;
  }

  /** The first row that warns, with what is wrong with its limit. */
  method FindWarning(f: Format, rows: seq<Row>) returns (w: Warning)
    requires Sound(f) && rows != []
    ensures w == NoWarning <==> forall t | t in RowsToTiers(f, rows) :: NonEmpty(t)
    ensures w == NoWarning ==> forall cost | cost >= 0 :: InExactlyOne(RowsToTiers(f, rows), cost)
    ensures w != NoWarning ==> 0 < w.row < |rows| && FirstEmpty(RowsToTiers(f, rows), w.row - 1)
    ensures w.MissingUpper? ==> f.num(rows[w.row - 1].upper) <= 0
    ensures w.NotLarger? ==> w.row > 1 && 0 < f.num(rows[w.row - 1].upper) <= f.num(rows[w.row - 2].upper)
  {
    w := NoWarning;
    WarningsMeanEmptyTiers(f, rows);
    EveryCostInOneTier(f, rows);
    for i := 0 to |rows| - 1
      invariant forall k | 0 <= k < i :: RowWarning(f, rows, k) == NoWarning
    {
      if Blank(rows[i].upper) || f.num(rows[i].upper) <= 0 {
        assert RowWarning(f, rows, i) == MissingUpper(i + 1);
        FirstWarningIsFirstEmpty(f, rows, i);
        return MissingUpper(i + 1);
      }
      if i > 0 && f.num(rows[i].upper) <= f.num(rows[i - 1].upper) {
        assert RowWarning(f, rows, i) == NotLarger(i + 1);
        FirstWarningIsFirstEmpty(f, rows, i);
        return NotLarger(i + 1);
      }
    }
  }

  lemma {:induction false} NonEmptyTiersRise(f: Format, rows: seq<Row>, i: nat)
    requires i < |rows| - 1 && forall k | 0 <= k < |rows| :: NonEmpty(RowsToTiers(f, rows)[k])
    ensures f.num(rows[i].upper) > 0
  {
    assert NonEmpty(RowsToTiers(f, rows)[i]);
    if i > 0 {
      NonEmptyTiersRise(f, rows, i - 1);
    }
  }

  /** No row warns exactly when no tier is empty, and then the limits ascend. */
  lemma WarningsMeanEmptyTiers(f: Format, rows: seq<Row>)
    requires Sound(f) && rows != []
    ensures (forall i | 0 <= i < |rows| - 1 :: RowWarning(f, rows, i) == NoWarning)
       <==> (forall t | t in RowsToTiers(f, rows) :: NonEmpty(t))
    ensures (forall i | 0 <= i < |rows| - 1 :: RowWarning(f, rows, i) == NoWarning) ==> LimitsAscend(f, rows)
  {
    var tiers := RowsToTiers(f, rows);
    if forall t | t in tiers :: NonEmpty(t) {
      forall i | 0 <= i < |rows| - 1 ensures RowWarning(f, rows, i) == NoWarning {
        assert tiers[i] in tiers && NonEmpty(tiers[i]);
        NonEmptyTiersRise(f, rows, i);
      }
    }
    if forall i | 0 <= i < |rows| - 1 :: RowWarning(f, rows, i) == NoWarning {
      forall i | 0 < i < |rows| - 1 ensures Limit(f, rows, i - 1) <= Limit(f, rows, i) {
        assert RowWarning(f, rows, i) == NoWarning;
      }
      forall t | t in tiers ensures NonEmpty(t) {
        var i :| 0 <= i < |rows| && tiers[i] == t;
        assert i < |rows| - 1 ==> RowWarning(f, rows, i) == NoWarning;
      }
    }
  }

  // ----- The editor -----

  class Editor {
    const f: Format
    var rows: seq<Row>
    /** What the parent form last received. */
    var emitted: seq<Tier>

    ghost predicate Valid()
      reads this
    {
      rows != [] && emitted == RowsToTiers(f, rows) && Contiguous(emitted)
    }

    constructor (f: Format, initialTiers: seq<Tier>)
      ensures Valid() && this.f == f && rows == TiersToRows(f, initialTiers)
    {
      this.f := f;
      rows := TiersToRows(f, initialTiers);
      emitted := RowsToTiers(f, TiersToRows(f, initialTiers));
      new;
      DerivedTiersAreContiguous(f, rows);
    }

    method Update(next: seq<Row>)
      requires next != []
      modifies this
      ensures Valid() && rows == next
    {
      rows := next;
      emitted := RowsToTiers(f, next);
      DerivedTiersAreContiguous(f, next);
    }

    method SetRow(i: nat, row: Row)
      requires Valid()
      modifies this
      ensures Valid() && rows == if i < |old(rows)| then old(rows)[i := row] else old(rows)
    {
      Update(if i < |rows| then rows[i := row] else rows);
    }

    /** The new row goes before the unbounded last one. */
    method AddRow()
      requires Valid()
      modifies this
      ensures Valid() && |rows| == |old(rows)| + 1
      ensures rows[..|rows| - 2] == old(rows)[..|rows| - 2]
      ensures rows[|rows| - 1] == old(rows)[|old(rows)| - 1]
      ensures rows[|rows| - 2] == rows[|rows| - 1].(upper := "", extraCosts := [])
    {
      var last := rows[|rows| - 1];
      Update(rows[..|rows| - 1] + [Row("", last.rateType, last.rate, [])] + [last]);
    }

    method RemoveRow(i: nat)
      requires Valid()
      modifies this
      ensures Valid()
      ensures rows == if |old(rows)| <= 1 || i >= |old(rows)| then old(rows) else old(rows)[..i] + old(rows)[i + 1..]
    {
      if |rows| <= 1 { return; }
      Update(if i < |rows| then rows[..i] + rows[i + 1..] else rows);
    }

    method Warn() returns (w: Warning)
      requires Valid() && Sound(f)
      ensures w == NoWarning <==> forall t | t in emitted :: NonEmpty(t)
      ensures w == NoWarning ==> forall cost | cost >= 0 :: InExactlyOne(emitted, cost)
    {
      w := FindWarning(f, rows);
    }
  }
}
