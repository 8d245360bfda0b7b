/**
  Fleet arithmetic: the ship catalog, the cost and build time of a batch of ships, and the
  fuel, speed and cargo of a fleet given as a count per ship type.
 */
module Ships {
  import opened Numeric
  import opened GameTypes

  datatype ShipType = Fighter | Bomber | Cruiser | Battleship | Transporter | SpyProbe

  const AllShipTypes: seq<ShipType> := [Fighter, Bomber, Cruiser, Battleship, Transporter, SpyProbe]

  datatype ShipDefinition = ShipDefinition(
    kind: ShipType,
    attack: nat,
    defense: nat,
    shields: nat,
    speed: nat,
    cargoCapacity: nat,
    fuelConsumption: nat,
    cost: Resources,
    buildTime: nat,
    shipyardLevel: nat)

  /** The catalog; every ship's one requirement is the shipyard at the level given last. */
  function ShipDef(t: ShipType): (d: ShipDefinition)
    ensures d.kind == t
    ensures d.cost.energy == 0 && d.cost.rareEarth == 0
    ensures d.speed > 0 && d.buildTime > 0
  {
    match t
    case Fighter => ShipDefinition(Fighter, 50, 40, 10, 12500, 50, 20, Resources(3000, 1000, 0, 0, 0), 120, 1)
    case Bomber => ShipDefinition(Bomber, 1000, 75, 500, 4000, 500, 700, Resources(50000, 25000, 15000, 0, 0), 1800, 8)
    case Cruiser => ShipDefinition(Cruiser, 400, 120, 50, 15000, 800, 300, Resources(20000, 7000, 2000, 0, 0), 600, 5)
    case Battleship => ShipDefinition(Battleship, 1000, 700, 400, 10000, 1500, 500, Resources(45000, 15000, 0, 0, 0), 1200, 7)
    case Transporter => ShipDefinition(Transporter, 5, 35, 25, 7500, 25000, 250, Resources(6000, 6000, 0, 0, 0), 300, 4)
    case SpyProbe => ShipDefinition(SpyProbe, 0, 1, 0, 100000000, 5, 1, Resources(0, 1000, 0, 0, 0), 30, 3)
  }

  lemma AllShipTypesComplete(t: ShipType)
    ensures t in AllShipTypes
    ensures |AllShipTypes| == 6
    ensures forall i, j :: 0 <= i < j < |AllShipTypes| ==> AllShipTypes[i] != AllShipTypes[j]
  {
  }

  /** No ship can be built without a shipyard. */
  lemma EveryShipNeedsShipyard(t: ShipType)
    ensures ShipDef(t).shipyardLevel >= 1
  {
  }

  /** calculateShipCost: the unit cost times the count, with energy always zero. */
  function ShipCost(t: ShipType, count: int): Resources
  {
    var c := ShipDef(t).cost;
    Resources(c.metal * count, c.crystal * count, c.deuterium * count, 0, c.rareEarth * count)
  }

  function AddResources(a: Resources, b: Resources): Resources
  {
    Resources(a.metal + b.metal, a.crystal + b.crystal, a.deuterium + b.deuterium, a.energy + b.energy,
              a.rareEarth + b.rareEarth)
  }

  /** Ordering two batches costs the same as ordering them together; one ship costs its unit cost. */
  lemma ShipCostAdditive(t: ShipType, a: int, b: int)
    ensures ShipCost(t, a + b) == AddResources(ShipCost(t, a), ShipCost(t, b))
    ensures ShipCost(t, 1) == ShipDef(t).cost
    ensures ShipCost(t, 0) == Resources(0, 0, 0, 0, 0)
  {
    var c := ShipDef(t).cost;
    assert c.metal * (a + b) == c.metal * a + c.metal * b;
    assert c.crystal * (a + b) == c.crystal * a + c.crystal * b;
    assert c.deuterium * (a + b) == c.deuterium * a + c.deuterium * b;
    assert c.rareEarth * (a + b) == c.rareEarth * a + c.rareEarth * b;
  }

  /** calculateShipBuildTime: the batch's time in seconds, shortened by 10% per shipyard level. */
  function ShipBuildTime(t: ShipType, count: int, shipyardLevel: nat): int
  {
    Ceil((ShipDef(t).buildTime * count) as real / (1.0 + shipyardLevel as real * 0.1))
  }

  lemma ShipBuildTimeWithoutShipyard(t: ShipType, count: int)
    ensures ShipBuildTime(t, count, 0) == ShipDef(t).buildTime * count
  {
  }

  /** A better shipyard never makes a batch take longer. */
  lemma ShipBuildTimeFallsWithShipyard(t: ShipType, count: nat, l1: nat, l2: nat)
    requires l1 <= l2
    ensures ShipBuildTime(t, count, l2) <= ShipBuildTime(t, count, l1)
  {
    var x := (ShipDef(t).buildTime * count) as real;
    var s1 := 1.0 + l1 as real * 0.1;
    var s2 := 1.0 + l2 as real * 0.1;
    QuotientFallsWithDivisor(x, s1, s2);
    CeilMonotone(x / s2, x / s1);
  }

  /** A fleet: how many ships of each type; types left out have none. */
  type Fleet = map<ShipType, int>

  /** The types a fleet's loops take into account: those with a positive count. */
  predicate Present(fleet: Fleet, t: ShipType)
  {
    t in fleet && fleet[t] > 0
  }

  /** Fuel of the present types among the first `n` catalog types, for a flight of `distance`. */
  function FuelAfter(fleet: Fleet, n: nat, distance: real): real
    requires n <= |AllShipTypes|
  {
    if n == 0 then 0.0
    else
      var t := AllShipTypes[n - 1];
      FuelAfter(fleet, n - 1, distance) + FuelTerm(fleet, t) as real * (distance / 1000.0)
  }

  /** What one type adds to the fleet's fuel per thousand units: nothing unless it is present. */
  function FuelTerm(fleet: Fleet, t: ShipType): int
  {
    if Present(fleet, t) then ShipDef(t).fuelConsumption * fleet[t] else 0
  }

  /** The fleet's fuel consumption per unit of distance, summed over the present types. */
  function FuelRate(fleet: Fleet, n: nat): int
    requires n <= |AllShipTypes|
  {
    if n == 0 then 0
    else
      var t := AllShipTypes[n - 1];
      FuelRate(fleet, n - 1) + FuelTerm(fleet, t)
  }

  /** The accumulated fuel is the fleet's rate times the distance in thousands. */
  lemma {:induction false} FuelIsRateTimesDistance(fleet: Fleet, n: nat, distance: real)
    requires n <= |AllShipTypes|
    ensures FuelAfter(fleet, n, distance) == FuelRate(fleet, n) as real * (distance / 1000.0)
  {
    if n > 0 {
      FuelIsRateTimesDistance(fleet, n - 1, distance);
      var k := FuelTerm(fleet, AllShipTypes[n - 1]);
      var a := FuelRate(fleet, n - 1);
      var d := distance / 1000.0;
      assert (a + k) as real * d == a as real * d + k as real * d;
    }
  }

  /** Only present types contribute: the rate is non-negative and zero for a fleet with none. */
  lemma {:induction false} FuelRateBounds(fleet: Fleet, n: nat)
    requires n <= |AllShipTypes|
    ensures FuelRate(fleet, n) >= 0
    ensures (forall i :: 0 <= i < n ==> !Present(fleet, AllShipTypes[i])) ==> FuelRate(fleet, n) == 0
  {
    if n > 0 {
      FuelRateBounds(fleet, n - 1);
    }
  }

  /** calculateFuelConsumption: zero for an empty fleet, never negative for a non-negative distance. */
  lemma FuelConsumptionBounds(fleet: Fleet, distance: real)
    ensures fleet == map[] ==> FuelConsumption(fleet, distance) == 0
    ensures distance >= 0.0 ==> FuelConsumption(fleet, distance) >= 0
  {
    FuelIsRateTimesDistance(fleet, |AllShipTypes|, distance);
    FuelRateBounds(fleet, |AllShipTypes|);
    var r := FuelRate(fleet, |AllShipTypes|) as real;
    if distance >= 0.0 {
      ProductNonNegative(r, distance / 1000.0);
      CeilMonotone(0.0, r * (distance / 1000.0));
    }
  }

  /** The fuel the fleet burns over `distance`, rounded up. */
  function FuelConsumption(fleet: Fleet, distance: real): int
  {
    Ceil(FuelAfter(fleet, |AllShipTypes|, distance))
  }

  /** calculateFuelConsumption's loop. */
  method CalculateFuelConsumption(fleet: Fleet, distance: real) returns (fuel: int)
    ensures fuel == FuelConsumption(fleet, distance)
  {
    var total := 0.0;
    for i := 0 to |AllShipTypes|
      invariant total == FuelAfter(fleet, i, distance)
    {
      var t := AllShipTypes[i];
      if t in fleet && fleet[t] > 0 {
        total := total + (ShipDef(t).fuelConsumption * fleet[t]) as real * (distance / 1000.0);
      }
    }
    fuel := Ceil(total);
  }

  /**
    calculateFleetSpeed: the speed of the slowest present type, or 0 when no type is present.
   */
  method CalculateFleetSpeed(fleet: Fleet) returns (speed: nat)
    ensures (forall t :: !Present(fleet, t)) ==> speed == 0
    ensures (exists t :: Present(fleet, t)) ==>
      (exists t :: Present(fleet, t) && speed == ShipDef(t).speed)
      && (forall t :: Present(fleet, t) ==> speed <= ShipDef(t).speed)
  {
    var slowest: nat := 0;
    var found := false;
    for i := 0 to |AllShipTypes|
      invariant found <==> exists j :: 0 <= j < i && Present(fleet, AllShipTypes[j])
      invariant found ==> exists j :: 0 <= j < i && Present(fleet, AllShipTypes[j]) && slowest == ShipDef(AllShipTypes[j]).speed
      invariant forall j :: 0 <= j < i && Present(fleet, AllShipTypes[j]) ==> slowest <= ShipDef(AllShipTypes[j]).speed
    {
      var t := AllShipTypes[i];
      if t in fleet && fleet[t] > 0 {
        if !found || ShipDef(t).speed < slowest {
          slowest := ShipDef(t).speed;
        }
        found := true;
      }
    }
    forall t | Present(fleet, t)
      ensures exists j :: 0 <= j < |AllShipTypes| && AllShipTypes[j] == t
    {
      AllShipTypesComplete(t);
    }
    speed := if found then slowest else 0;
  }

  /** Cargo of the present types among the first `n` catalog types. */
  function CargoAfter(fleet: Fleet, n: nat): int
    requires n <= |AllShipTypes|
  {
    if n == 0 then 0
    else
      var t := AllShipTypes[n - 1];
      CargoAfter(fleet, n - 1) + (if Present(fleet, t) then ShipDef(t).cargoCapacity * fleet[t] else 0)
  }

  /** calculateCargoCapacity: the summed cargo of the present types. */
  function Cargo(fleet: Fleet): int
  {
    CargoAfter(fleet, |AllShipTypes|)
  }

  /** calculateCargoCapacity's loop. */
  method CalculateCargoCapacity(fleet: Fleet) returns (cargo: int)
    ensures cargo == Cargo(fleet)
  {
    cargo := 0;
    for i := 0 to |AllShipTypes|
      invariant cargo == CargoAfter(fleet, i)
    {
      var t := AllShipTypes[i];
      if t in fleet && fleet[t] > 0 {
        cargo := cargo + ShipDef(t).cargoCapacity * fleet[t];
      }
    }
  }

  /** Two fleets of different ship types carry together what they carry apart. */
  lemma {:induction false} CargoAdditiveAfter(f: Fleet, g: Fleet, n: nat)
    requires n <= |AllShipTypes|
    requires f.Keys !! g.Keys
    ensures CargoAfter(f + g, n) == CargoAfter(f, n) + CargoAfter(g, n)
  {
    if n > 0 {
      CargoAdditiveAfter(f, g, n - 1);
      var t := AllShipTypes[n - 1];
      if t in f {
        assert t !in g && (f + g)[t] == f[t];
      } else if t in g {
        assert (f + g)[t] == g[t];
      }
    }
  }

  lemma CargoAdditive(f: Fleet, g: Fleet)
    requires f.Keys !! g.Keys
    ensures Cargo(f + g) == Cargo(f) + Cargo(g)
  {
    CargoAdditiveAfter(f, g, |AllShipTypes|);
  }

  /** Entries with a count of zero or less carry nothing. */
  lemma {:induction false} CargoIgnoresEmptyEntries(fleet: Fleet, t: ShipType, count: int, n: nat)
    requires n <= |AllShipTypes| && count <= 0
    ensures CargoAfter(fleet[t := count], n) == CargoAfter(fleet - {t}, n)
  {
    if n > 0 {
      CargoIgnoresEmptyEntries(fleet, t, count, n - 1);
    }
  }
}
