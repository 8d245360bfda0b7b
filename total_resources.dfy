/**
  The header totals across all of a user's planets (user/total-resources/route.ts): each
  planet's resource row is projected to the present as the resources route does, and the
  projected stocks, the energy-scaled rates and the raw energy figures are summed.
 */
module TotalResources {
  import opened Wrappers
  import opened Numeric
  import opened GameTypes
  import opened Accrual

  /** The eight sums the route answers with. */
  datatype Totals = Totals(
    metal: real, crystal: real, deuterium: real,
    metalProduction: real, crystalProduction: real, deuteriumProduction: real,
    energyProduction: real, energyConsumption: real)

  const Zero := Totals(0.0, 0.0, 0.0, 0.0, 0.0, 0.0, 0.0, 0.0)

  function Add(a: Totals, b: Totals): Totals
  {
    Totals(a.metal + b.metal, a.crystal + b.crystal, a.deuterium + b.deuterium,
      a.metalProduction + b.metalProduction, a.crystalProduction + b.crystalProduction,
      a.deuteriumProduction + b.deuteriumProduction,
      a.energyProduction + b.energyProduction, a.energyConsumption + b.energyConsumption)
  }

  /**
    What one planet adds: its stocks exactly as the resources route would answer them at `now`,
    its rates scaled by its energy ratio, its energy figures unscaled. A planet without a
    resource row adds nothing.
   */
  function Contribution(row: Option<PlanetResources>, now: int): Totals
  {
    match row
    case None => Zero
    case Some(r) =>
      var p := Projected(r, now);
      var ratio := EnergyRatio(r);
      Totals(p.metal, p.crystal, p.deuterium,
        r.metalProduction * ratio, r.crystalProduction * ratio, r.deuteriumProduction * ratio,
        r.energyProduction, r.energyConsumption)
  }

  /**
    A planet's share of the totals: nothing without a resource row; otherwise the stocks the
    resources route would answer at `now` (so within capacity) and the raw energy figures.
   */
  lemma ContributionMeaning(row: Option<PlanetResources>, now: int)
    ensures row.None? ==> Contribution(row, now) == Zero
    ensures row.Some? ==> (var c, p := Contribution(row, now), Projected(row.value, now);
      c.metal == p.metal && c.crystal == p.crystal && c.deuterium == p.deuterium)
    ensures row.Some? ==> (var c := Contribution(row, now);
      c.metal <= row.value.metalCapacity && c.crystal <= row.value.crystalCapacity
      && c.deuterium <= row.value.deuteriumCapacity)
    ensures row.Some? ==> (var c := Contribution(row, now);
      c.energyProduction == row.value.energyProduction && c.energyConsumption == row.value.energyConsumption)
  {
  }

  /** The sums over the first planets, in list order. */
  function Sum(rows: seq<Option<PlanetResources>>, now: int): Totals
  {
    if |rows| == 0 then Zero else Add(Sum(rows[..|rows| - 1], now), Contribution(rows[|rows| - 1], now))
  }

  /**
    The route's loop over the user's planets, its eight accumulators held in one `Totals`;
    a planet without a resource row is skipped, and no planets at all answers nothing. It
    reads the rows and writes nothing back.
   */
  method Total(rows: seq<Option<PlanetResources>>, now: int) returns (t: Option<Totals>)
    ensures |rows| == 0 <==> t.None?
    ensures t.Some? ==> t.value == Sum(rows, now)
  {
    if |rows| == 0 {
      return None;
    }
    var acc := Zero;
    for i := 0 to |rows|
      invariant acc == Sum(rows[..i], now)
    {
      assert rows[..i + 1][..i] == rows[..i];
      if rows[i].Some? {
        acc := Add(acc, Contribution(rows[i], now));
      }
    }
    assert rows[..|rows|] == rows;
    t := Some(acc);
  }

  lemma AddAssociative(x: Totals, y: Totals, z: Totals)
    ensures Add(Add(x, y), z) == Add(x, Add(y, z))
  {
  }

  /** Sums split over consecutive runs of planets. */
  lemma {:induction false} SumAppend(a: seq<Option<PlanetResources>>, b: seq<Option<PlanetResources>>, now: int)
    ensures Sum(a + b, now) == Add(Sum(a, now), Sum(b, now))
    decreases |b|
  {
    if |b| == 0 {
      assert a + b == a;
    } else {
      var b' := b[..|b| - 1];
      var c := Contribution(b[|b| - 1], now);
      assert (a + b)[..|a + b| - 1] == a + b';
      assert (a + b)[|a + b| - 1] == b[|b| - 1];
      assert Sum(a + b, now) == Add(Sum(a + b', now), c);
      SumAppend(a, b', now);
      assert Sum(b, now) == Add(Sum(b', now), c);
      AddAssociative(Sum(a, now), Sum(b', now), c);
    }
  }

  /** Planets without a resource row change no total. */
  lemma RowlessPlanetAddsNothing(rows: seq<Option<PlanetResources>>, now: int)
    ensures Sum(rows + [None], now) == Sum(rows, now)
  {
    assert (rows + [None])[..|rows|] == rows;
  }

  /** The three mined resources, the ones with a stock, a rate and a capacity. */
  type StockKind = k: ResourceKind | k == Metal || k == Crystal || k == Deuterium witness Metal

  /** The summed stock of kind `k`. */
  function StockTotal(t: Totals, k: StockKind): real
  {
    match k
    case Metal => t.metal
    case Crystal => t.crystal
    case Deuterium => t.deuterium
  }

  /** The summed (throttled) production rate of kind `k`. */
  function RateTotal(t: Totals, k: StockKind): real
  {
    match k
    case Metal => t.metalProduction
    case Crystal => t.crystalProduction
    case Deuterium => t.deuteriumProduction
  }

  /** A planet's capacity for kind `k`; a planet without a row holds nothing. */
  function CapacityOf(row: Option<PlanetResources>, k: StockKind): real
  {
    match row
    case None => 0.0
    case Some(r) => match k case Metal => r.metalCapacity case Crystal => r.crystalCapacity case Deuterium => r.deuteriumCapacity
  }

  /** A planet's unthrottled production rate of kind `k`; a planet without a row produces nothing. */
  function RawRate(row: Option<PlanetResources>, k: StockKind): real
  {
    match row
    case None => 0.0
    case Some(r) => match k case Metal => r.metalProduction case Crystal => r.crystalProduction case Deuterium => r.deuteriumProduction
  }

  /** The summed capacity of kind `k` of the planets that have a resource row. */
  function CapacitySum(rows: seq<Option<PlanetResources>>, k: StockKind): real
  {
    if |rows| == 0 then 0.0 else CapacitySum(rows[..|rows| - 1], k) + CapacityOf(rows[|rows| - 1], k)
  }

  /** The unthrottled production of kind `k` summed over the planets with a row. */
  function RawProduction(rows: seq<Option<PlanetResources>>, k: StockKind): real
  {
    if |rows| == 0 then 0.0 else RawProduction(rows[..|rows| - 1], k) + RawRate(rows[|rows| - 1], k)
  }

  /** No stock total exceeds the summed capacity of that resource over the planets with a row. */
  lemma {:induction false} TotalWithinCapacity(rows: seq<Option<PlanetResources>>, now: int, k: StockKind)
    ensures StockTotal(Sum(rows, now), k) <= CapacitySum(rows, k)
  {
    if |rows| > 0 {
      TotalWithinCapacity(rows[..|rows| - 1], now, k);
      ContributionMeaning(rows[|rows| - 1], now);
      SumStep(rows, now, k);
    }
  }

  /** Energy throttling can only lower the production totals of non-negative rates. */
  lemma {:induction false} ScaledProductionBelowRaw(rows: seq<Option<PlanetResources>>, now: int, k: StockKind)
    requires forall i :: 0 <= i < |rows| ==> RawRate(rows[i], k) >= 0.0
    ensures 0.0 <= RateTotal(Sum(rows, now), k) <= RawProduction(rows, k)
  {
    if |rows| > 0 {
      var prefix := rows[..|rows| - 1];
      var last := rows[|rows| - 1];
      ScaledProductionBelowRaw(prefix, now, k);
      ThrottledBelowRaw(last, now, k);
      SumStep(rows, now, k);
    }
  }

  /** The last planet's share of the kind-`k` totals. */
  lemma SumStep(rows: seq<Option<PlanetResources>>, now: int, k: StockKind)
    requires |rows| > 0
    ensures StockTotal(Sum(rows, now), k)
         == StockTotal(Sum(rows[..|rows| - 1], now), k) + StockTotal(Contribution(rows[|rows| - 1], now), k)
    ensures RateTotal(Sum(rows, now), k)
         == RateTotal(Sum(rows[..|rows| - 1], now), k) + RateTotal(Contribution(rows[|rows| - 1], now), k)
  {
  }

  /** One planet's throttled rate of kind `k` lies between 0 and its raw rate. */
  lemma ThrottledBelowRaw(row: Option<PlanetResources>, now: int, k: StockKind)
    requires RawRate(row, k) >= 0.0
    ensures 0.0 <= RateTotal(Contribution(row, now), k) <= RawRate(row, k)
  {
    if row.Some? {
      var m, e := RawRate(row, k), EnergyRatio(row.value);
      assert RateTotal(Contribution(row, now), k) == m * e;
      assert 0.0 <= m * e <= m by {
        assert 0.0 <= e <= 1.0;
        MulMonotone(m, e, 1.0);
        ProductNonNegative(m, e);
      }
    } else {
      assert Contribution(row, now) == Zero;
    }
  }
}
