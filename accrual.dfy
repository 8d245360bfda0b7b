/**
  Resource accrual: how a planet's stored stock is projected to the present. Between
  reconciliations the stock grows linearly at its hourly rates, throttled by the energy ratio
  and cut off at the storage capacity (planet/resources/route.ts; the same projection is
  repeated per planet in user/total-resources/route.ts).
 */
module Accrual {
  import opened Numeric
  import opened GameTypes

  /** Milliseconds per hour, and the one-minute write-back threshold in milliseconds. */
  const MillisPerHour: int := 3600000
  const WriteBackMillis: int := 60000

  /** Hours elapsed since the row's last reconciliation (negative if that lies ahead of `now`). */
  function HoursPassed(lastUpdated: int, now: int): real
  {
    (now - lastUpdated) as real / MillisPerHour as real
  }

  /**
    The production efficiency: 1 without energy production, otherwise production over
    consumption (the consumption counted as at least 1), capped at 1.
   */
  function EnergyRatio(r: PlanetResources): (e: real)
    ensures r.energyProduction <= 0.0 ==> e == 1.0
    ensures r.energyProduction > 0.0 ==> 0.0 < e <= 1.0
    ensures r.energyProduction >= Max(1.0, r.energyConsumption) ==> e == 1.0
    ensures 1.0 <= r.energyConsumption && 0.0 < r.energyProduction < r.energyConsumption
      ==> e == r.energyProduction / r.energyConsumption
    ensures r.energyConsumption < 1.0 && 0.0 < r.energyProduction < 1.0 ==> e == r.energyProduction
  {
    if r.energyProduction > 0.0 then
      Min(1.0, r.energyProduction / Max(1.0, r.energyConsumption))
    else
      1.0
  }

  /** One stock projected over `hours`, cut off at its capacity. */
  function ProjectStock(stock: real, rate: real, hours: real, ratio: real, capacity: real): (v: real)
    ensures v <= capacity
    ensures v == capacity || v == stock + rate * hours * ratio
  {
    Min(capacity, stock + rate * hours * ratio)
  }

  /**
    The row as the resources route answers it at `now`: every stored field kept, only metal,
    crystal and deuterium replaced by their projections; rare earth is not projected.
   */
  function Projected(r: PlanetResources, now: int): (p: PlanetResources)
    ensures p.metal <= r.metalCapacity && p.crystal <= r.crystalCapacity && p.deuterium <= r.deuteriumCapacity
    ensures p.(metal := r.metal, crystal := r.crystal, deuterium := r.deuterium) == r
  {
    var hours := HoursPassed(r.lastUpdated, now);
    var ratio := EnergyRatio(r);
    r.(metal := ProjectStock(r.metal, r.metalProduction, hours, ratio, r.metalCapacity),
       crystal := ProjectStock(r.crystal, r.crystalProduction, hours, ratio, r.crystalCapacity),
       deuterium := ProjectStock(r.deuterium, r.deuteriumProduction, hours, ratio, r.deuteriumCapacity))
  }

  /** The route writes the projection back only once more than a minute has passed. */
  predicate ShouldWriteBack(lastUpdated: int, now: int)
  {
    HoursPassed(lastUpdated, now) > 1.0 / 60.0
  }

  /** The row stored by a write-back: the projection, reconciled at `now`. */
  function WrittenBack(r: PlanetResources, now: int): (w: PlanetResources)
    ensures w.lastUpdated == now
    ensures w.(lastUpdated := r.lastUpdated) == Projected(r, now)
  {
    Projected(r, now).(lastUpdated := now)
  }

  /** The hour-based threshold is exactly "more than 60000 milliseconds". */
  lemma WriteBackThreshold(lastUpdated: int, now: int)
    ensures ShouldWriteBack(lastUpdated, now) <==> now - lastUpdated > WriteBackMillis
  {
    var d := (now - lastUpdated) as real;
    assert HoursPassed(lastUpdated, now) == d / 3600000.0;
    if d > 60000.0 {
      assert d / 3600000.0 > 60000.0 / 3600000.0;
    } else {
      assert d / 3600000.0 <= 60000.0 / 3600000.0;
    }
  }

  /** One stock, with a non-negative rate over non-negative time, does not fall if it was within capacity. */
  lemma ProjectStockGrows(stock: real, rate: real, hours: real, ratio: real, capacity: real)
    requires rate >= 0.0 && hours >= 0.0 && ratio >= 0.0 && stock <= capacity
    ensures ProjectStock(stock, rate, hours, ratio, capacity) >= stock
  {
    ProductNonNegative(rate, hours);
    ProductNonNegative(rate * hours, ratio);
  }

  /** With non-negative rates and time moving forward, no stock within capacity shrinks. */
  lemma ProjectionNeverShrinks(r: PlanetResources, now: int)
    requires now >= r.lastUpdated
    requires r.metalProduction >= 0.0 && r.crystalProduction >= 0.0 && r.deuteriumProduction >= 0.0
    requires r.metal <= r.metalCapacity && r.crystal <= r.crystalCapacity && r.deuterium <= r.deuteriumCapacity
    ensures Projected(r, now).metal >= r.metal
    ensures Projected(r, now).crystal >= r.crystal
    ensures Projected(r, now).deuterium >= r.deuterium
  {
    var hours := HoursPassed(r.lastUpdated, now);
    var ratio := EnergyRatio(r);
    ProjectStockGrows(r.metal, r.metalProduction, hours, ratio, r.metalCapacity);
    ProjectStockGrows(r.crystal, r.crystalProduction, hours, ratio, r.crystalCapacity);
    ProjectStockGrows(r.deuterium, r.deuteriumProduction, hours, ratio, r.deuteriumCapacity);
  }

  /** At the instant of the last reconciliation the projection only applies the capacity cut-off. */
  lemma ProjectionAtSameInstant(r: PlanetResources)
    ensures Projected(r, r.lastUpdated).metal == Min(r.metalCapacity, r.metal)
    ensures Projected(r, r.lastUpdated).crystal == Min(r.crystalCapacity, r.crystal)
    ensures Projected(r, r.lastUpdated).deuterium == Min(r.deuteriumCapacity, r.deuterium)
  {
    assert HoursPassed(r.lastUpdated, r.lastUpdated) == 0.0;
  }

  /**
    Two reads at the same instant agree: whatever the first read stored (the write-back or the
    untouched row), the second answers the same stocks and differs at most in the reconciliation
    instant, so time is never counted twice.
   */
  lemma RepeatedReadsAgree(r: PlanetResources, now: int)
    ensures var stored := if ShouldWriteBack(r.lastUpdated, now) then WrittenBack(r, now) else r;
      var first, second := Projected(r, now), Projected(stored, now);
      && second.metal == first.metal && second.crystal == first.crystal && second.deuterium == first.deuterium
      && second == first.(lastUpdated := stored.lastUpdated)
  {
    if ShouldWriteBack(r.lastUpdated, now) {
      ReadAfterWriteBack(r, now);
    }
  }

  /** Reading right after a write-back answers the stored stock, which was already within capacity. */
  lemma ReadAfterWriteBack(r: PlanetResources, now: int)
    ensures Projected(WrittenBack(r, now), now) == WrittenBack(r, now)
  {
    var w := WrittenBack(r, now);
    ProjectionAtSameInstant(w);
  }
}
