/**
  The building catalog and the economy formulas: upgrade cost, build time, mine production,
  solar output, mine energy draw and storage capacity.
 */
module Buildings {
  import opened Numeric
  import opened GameTypes

  /**
    Depth of a type in the prerequisite graph: every requirement of a type has a smaller rank,
    which is what makes the graph acyclic.
   */
  function Rank(t: BuildingType): nat
  {
    match t
    case DeuteriumSynthesizer => 1
    case FusionReactor => 2
    case DeuteriumTank => 2
    case ResearchLab => 1
    case Shipyard => 1
    case DefenseFactory => 2
    case SensorStation => 2
    case TradePost => 1
    case _ => 0
  }

  /** A cost growth that lifts every non-zero base component by at least one unit per level. */
  predicate GrowsEveryLevel(base: int, multiplier: real)
  {
    base >= 0 && (base == 0 || base as real * (multiplier - 1.0) >= 1.0)
  }

  /** The static catalog entry of each building type. */
  function Definition(t: BuildingType): (d: BuildingDefinition)
    ensures d.kind == t
    ensures d.costMultiplier > 1.0 && d.maxLevel > 0 && d.baseBuildTime > 0
    ensures forall k :: GrowsEveryLevel(Component(d.baseCost, k), d.costMultiplier)
    ensures d.baseCost.energy == 0 && d.baseCost.rareEarth == 0
    ensures forall i :: 0 <= i < |d.requirements| ==> Rank(d.requirements[i].building) < Rank(t)
  {
    match t
    case MetalMine =>
      BuildingDefinition(MetalMine, "Metallmine", Production, Resources(60, 15, 0, 0, 0), 1.5, 60, 50, [])
    case CrystalMine =>
      BuildingDefinition(CrystalMine, "Kristallmine", Production, Resources(48, 24, 0, 0, 0), 1.6, 75, 50, [])
    case DeuteriumSynthesizer =>
      BuildingDefinition(DeuteriumSynthesizer, "Deuterium-Synthesizer", Production, Resources(225, 75, 0, 0, 0), 1.5, 120, 50,
                         [Requirement(MetalMine, 3)])
    case SolarPlant =>
      BuildingDefinition(SolarPlant, "Solarkraftwerk", Production, Resources(75, 30, 0, 0, 0), 1.5, 60, 50, [])
    case FusionReactor =>
      BuildingDefinition(FusionReactor, "Fusionsreaktor", Production, Resources(900, 360, 180, 0, 0), 1.8, 300, 30,
                         [Requirement(DeuteriumSynthesizer, 5), Requirement(ResearchLab, 3)])
    case MetalStorage =>
      BuildingDefinition(MetalStorage, "Metallspeicher", Storage, Resources(1000, 0, 0, 0, 0), 2.0, 90, 20, [])
    case CrystalStorage =>
      BuildingDefinition(CrystalStorage, "Kristallspeicher", Storage, Resources(1000, 500, 0, 0, 0), 2.0, 90, 20, [])
    case DeuteriumTank =>
      BuildingDefinition(DeuteriumTank, "Deuteriumtank", Storage, Resources(1000, 1000, 0, 0, 0), 2.0, 90, 20,
                         [Requirement(DeuteriumSynthesizer, 1)])
    case CommandCenter =>
      BuildingDefinition(CommandCenter, "Kommandozentrale", Infrastructure, Resources(400, 200, 100, 0, 0), 2.0, 180, 10, [])
    case ResearchLab =>
      BuildingDefinition(ResearchLab, "Forschungslabor", Infrastructure, Resources(200, 400, 200, 0, 0), 2.0, 240, 20,
                         [Requirement(CommandCenter, 1)])
    case Shipyard =>
      BuildingDefinition(Shipyard, "Raumschiffwerft", Infrastructure, Resources(400, 200, 100, 0, 0), 2.0, 300, 20,
                         [Requirement(CommandCenter, 2)])
    case DefenseFactory =>
      BuildingDefinition(DefenseFactory, "Verteidigungsanlage", Infrastructure, Resources(300, 300, 150, 0, 0), 2.0, 300, 20,
                         [Requirement(Shipyard, 2)])
    case SensorStation =>
      BuildingDefinition(SensorStation, "Sensorstation", Special, Resources(500, 1000, 500, 0, 0), 2.0, 600, 15,
                         [Requirement(ResearchLab, 5)])
    case TradePost =>
      BuildingDefinition(TradePost, "Handelsposten", Special, Resources(1000, 500, 500, 0, 0), 2.0, 600, 10,
                         [Requirement(CommandCenter, 3)])
  }

  /** Every type a building transitively depends on through catalog requirements. */
  function Prerequisites(t: BuildingType): (ps: set<BuildingType>)
    ensures forall p :: p in ps ==> Rank(p) < Rank(t)
    decreases Rank(t), 1
  {
    RequirementClosure(Definition(t).requirements, Rank(t))
  }

  function RequirementClosure(reqs: seq<Requirement>, bound: nat): (ps: set<BuildingType>)
    requires forall i :: 0 <= i < |reqs| ==> Rank(reqs[i].building) < bound
    ensures forall p :: p in ps ==> Rank(p) < bound
    ensures forall i :: 0 <= i < |reqs| ==> reqs[i].building in ps
    decreases bound, 0, |reqs|
  {
    if reqs == [] then {}
    else {reqs[0].building} + Prerequisites(reqs[0].building) + RequirementClosure(reqs[1..], bound)
  }

  /** The requirement graph is acyclic: no building is among its own (transitive) prerequisites. */
  lemma RequirementsAcyclic(t: BuildingType)
    ensures t !in Prerequisites(t)
    ensures forall i :: 0 <= i < |Definition(t).requirements| ==> Definition(t).requirements[i].building in Prerequisites(t)
  {
  }

  /** calculateBuildingCost: base cost times multiplier^level, each component floored. */
  function BuildingCost(t: BuildingType, currentLevel: nat): Resources
  {
    var d := Definition(t);
    Resources(
      ScaledCost(d.baseCost.metal, d.costMultiplier, currentLevel),
      ScaledCost(d.baseCost.crystal, d.costMultiplier, currentLevel),
      ScaledCost(d.baseCost.deuterium, d.costMultiplier, currentLevel),
      ScaledCost(d.baseCost.energy, d.costMultiplier, currentLevel),
      ScaledCost(d.baseCost.rareEarth, d.costMultiplier, currentLevel))
  }

  /** One cost component: the base amount times multiplier^level, floored. */
  function ScaledCost(base: int, multiplier: real, level: nat): int
  {
    Floor(base as real * Pow(multiplier, level))
  }

  lemma BuildingCostComponent(t: BuildingType, level: nat, k: ResourceKind)
    ensures Component(BuildingCost(t, level), k)
         == ScaledCost(Component(Definition(t).baseCost, k), Definition(t).costMultiplier, level)
  {
  }

  lemma {:induction false} ScaledCostStep(base: int, multiplier: real, level: nat)
    requires multiplier > 1.0 && GrowsEveryLevel(base, multiplier)
    ensures ScaledCost(base, multiplier, level) <= ScaledCost(base, multiplier, level + 1)
    ensures base > 0 ==> ScaledCost(base, multiplier, level) < ScaledCost(base, multiplier, level + 1)
  {
    var p := Pow(multiplier, level);
    var q := Pow(multiplier, level + 1);
    assert q == multiplier * p;
    PowAtLeastOne(multiplier, level);
    var b := base as real;
    GrowthGap(b, multiplier, p);
    assert b * q == b * (multiplier * p);
    assert ScaledCost(base, multiplier, level) == Floor(b * p);
    assert ScaledCost(base, multiplier, level + 1) == Floor(b * q);
    FloorMonotone(b * p, b * q);
    if base > 0 {
      FloorMonotone(b * p + 1.0, b * q);
    }
  }

  /** From one level to the next a base cost grows by base * (multiplier - 1) * multiplier^level. */
  lemma GrowthGap(b: real, multiplier: real, p: real)
    requires b >= 0.0 && multiplier > 1.0 && p >= 1.0
    requires b == 0.0 || b * (multiplier - 1.0) >= 1.0
    ensures b * (multiplier * p) >= b * p
    ensures b > 0.0 ==> b * (multiplier * p) >= b * p + 1.0
  {
    var g := b * (multiplier - 1.0);
    assert b * (multiplier * p) == b * p + g * p;
    MulMonotone(g, 1.0, p);
  }

  /**
    Each cost component never shrinks from one level to the next, and every component with a
    non-zero base cost strictly grows.
   */
  lemma BuildingCostIncreases(t: BuildingType, level: nat, k: ResourceKind)
    ensures Component(BuildingCost(t, level), k) <= Component(BuildingCost(t, level + 1), k)
    ensures Component(Definition(t).baseCost, k) > 0 ==>
              Component(BuildingCost(t, level), k) < Component(BuildingCost(t, level + 1), k)
  {
    var d := Definition(t);
    BuildingCostComponent(t, level, k);
    BuildingCostComponent(t, level + 1, k);
    ScaledCostStep(Component(d.baseCost, k), d.costMultiplier, level);
  }

  lemma {:induction false} BuildingCostMonotone(t: BuildingType, a: nat, b: nat, k: ResourceKind)
    requires a <= b
    ensures Component(BuildingCost(t, a), k) <= Component(BuildingCost(t, b), k)
    decreases b - a
  {
    if a < b {
      BuildingCostIncreases(t, a, k);
      BuildingCostMonotone(t, a + 1, b, k);
    }
  }

  /** At level 0 the cost is exactly the catalog's base cost. */
  lemma BuildingCostAtZero(t: BuildingType)
    ensures BuildingCost(t, 0) == Definition(t).baseCost
  {
    var c := Definition(t).baseCost;
    FloorOfInt(c.metal);
    FloorOfInt(c.crystal);
    FloorOfInt(c.deuterium);
  }

  lemma MetalMineFirstCosts()
    ensures BuildingCost(MetalMine, 0) == Resources(60, 15, 0, 0, 0)
    ensures BuildingCost(MetalMine, 1) == Resources(90, 22, 0, 0, 0)
  {
    BuildingCostAtZero(MetalMine);
    assert Pow(1.5, 1) == 1.5;
  }

  /** calculateBuildTime: baseBuildTime * target^1.5 / (1 + 0.1 * command-center level), rounded up (seconds). */
  function BuildTime(tr: Transcendentals, t: BuildingType, targetLevel: nat, commandCenterLevel: nat): int
  {
    var baseTime := Definition(t).baseBuildTime as real * tr.pow15(targetLevel as real);
    var speedBonus := 1.0 + commandCenterLevel as real * 0.1;
    Ceil(baseTime / speedBonus)
  }

  lemma BuildTimeNonNegative(tr: Transcendentals, t: BuildingType, targetLevel: nat, cc: nat)
    requires Lawful(tr)
    ensures BuildTime(tr, t, targetLevel, cc) >= 0
  {
    var baseTime := Definition(t).baseBuildTime as real * tr.pow15(targetLevel as real);
    assert baseTime >= 0.0;
  }

  /** A higher command-center level never lengthens a build. */
  lemma BuildTimeFallsWithCommandCenter(tr: Transcendentals, t: BuildingType, targetLevel: nat, cc1: nat, cc2: nat)
    requires Lawful(tr) && cc1 <= cc2
    ensures BuildTime(tr, t, targetLevel, cc2) <= BuildTime(tr, t, targetLevel, cc1)
  {
    var baseTime := Definition(t).baseBuildTime as real * tr.pow15(targetLevel as real);
    var s1 := 1.0 + cc1 as real * 0.1;
    var s2 := 1.0 + cc2 as real * 0.1;
    assert baseTime >= 0.0;
    QuotientFallsWithDivisor(baseTime, s1, s2);
    CeilMonotone(baseTime / s2, baseTime / s1);
  }

  /** A higher target level never shortens a build (x^1.5 is monotone). */
  lemma BuildTimeGrowsWithLevel(tr: Transcendentals, t: BuildingType, l1: nat, l2: nat, cc: nat)
    requires Lawful(tr) && l1 <= l2
    ensures BuildTime(tr, t, l1, cc) <= BuildTime(tr, t, l2, cc)
  {
    var base, speedBonus := Definition(t).baseBuildTime as real, 1.0 + cc as real * 0.1;
    var p1, p2 := tr.pow15(l1 as real), tr.pow15(l2 as real);
    assert p1 <= p2 by { assert 0.0 <= l1 as real <= l2 as real; }
    CeilScaledQuotientMonotone(base, p1, p2, speedBonus);
    assert BuildTime(tr, t, l1, cc) == Ceil(base * p1 / speedBonus);
    assert BuildTime(tr, t, l2, cc) == Ceil(base * p2 / speedBonus);
  }

  /** The three mines, the types calculateProduction and calculateEnergyConsumption accept. */
  type MineType = t: BuildingType | t == MetalMine || t == CrystalMine || t == DeuteriumSynthesizer
    witness MetalMine

  function BaseProduction(m: MineType): real
  {
    if m == MetalMine then 30.0 else if m == CrystalMine then 20.0 else 10.0
  }

  function BaseConsumption(m: MineType): real
  {
    if m == MetalMine then 10.0 else if m == CrystalMine then 10.0 else 20.0
  }

  /** level * 1.1^level, the growth shared by production, solar output and energy draw. */
  function Growth(level: nat): (g: real)
    ensures g >= 0.0
    ensures level == 0 ==> g == 0.0
  {
    PowAtLeastOne(1.1, level);
    level as real * Pow(1.1, level)
  }

  lemma {:induction false} GrowthMonotone(a: nat, b: nat)
    requires a <= b
    ensures Growth(a) <= Growth(b)
  {
    PowMonotone(1.1, a, b);
    PowAtLeastOne(1.1, a);
    var pa := Pow(1.1, a);
    var pb := Pow(1.1, b);
    assert a as real * pa <= b as real * pa;
    assert b as real * pa <= b as real * pb;
  }

  /** k * level * 1.1^level, floored: the shape of every mine and plant formula. */
  function Scaled(k: real, level: nat): (r: int)
    ensures level == 0 ==> r == 0
    ensures k >= 0.0 ==> r >= 0
  {
    ProductNonNegative(k, Growth(level));
    Floor(k * Growth(level))
  }

  /** A non-negative factor times a monotone growth, floored, is monotone. */
  lemma ScaledMonotone(k: real, a: nat, b: nat)
    requires k >= 0.0 && a <= b
    ensures Scaled(k, a) <= Scaled(k, b)
  {
    GrowthMonotone(a, b);
    MulMonotone(k, Growth(a), Growth(b));
    FloorMonotone(k * Growth(a), k * Growth(b));
  }

  /** calculateProduction: base * level * 1.1^level * planetBonus, floored (units per hour). */
  function MineProduction(m: MineType, level: nat, planetBonus: real): (r: int)
    ensures level == 0 ==> r == 0
    ensures planetBonus >= 0.0 ==> r >= 0
  {
    ProductNonNegative(BaseProduction(m), planetBonus);
    Scaled(BaseProduction(m) * planetBonus, level)
  }

  lemma MineProductionMonotone(m: MineType, a: nat, b: nat, planetBonus: real)
    requires a <= b && planetBonus >= 0.0
    ensures MineProduction(m, a, planetBonus) <= MineProduction(m, b, planetBonus)
  {
    ProductNonNegative(BaseProduction(m), planetBonus);
    ScaledMonotone(BaseProduction(m) * planetBonus, a, b);
  }

  /** calculateSolarEnergy: 20 * level * 1.1^level * planetBonus, floored. */
  function SolarEnergy(level: nat, planetBonus: real): (r: int)
    ensures level == 0 ==> r == 0
    ensures planetBonus >= 0.0 ==> r >= 0
  {
    Scaled(20.0 * planetBonus, level)
  }

  lemma SolarEnergyMonotone(a: nat, b: nat, planetBonus: real)
    requires a <= b && planetBonus >= 0.0
    ensures SolarEnergy(a, planetBonus) <= SolarEnergy(b, planetBonus)
  {
    ScaledMonotone(20.0 * planetBonus, a, b);
  }

  /** calculateEnergyConsumption: base * level * 1.1^level, floored. */
  function EnergyConsumption(m: MineType, level: nat): (r: int)
    ensures level == 0 ==> r == 0
    ensures r >= 0
  {
    Scaled(BaseConsumption(m), level)
  }

  lemma EnergyConsumptionMonotone(m: MineType, a: nat, b: nat)
    requires a <= b
    ensures EnergyConsumption(m, a) <= EnergyConsumption(m, b)
  {
    ScaledMonotone(BaseConsumption(m), a, b);
  }

  /** calculateStorageCapacity: 5000 * floor(2.5 * e^(20 * level / 33)). */
  function StorageCapacity(tr: Transcendentals, level: nat): (r: int)
    ensures r % 5000 == 0
    ensures Lawful(tr) && level == 0 ==> r == 10000
  {
    var k := Floor(2.5 * tr.exp((20 * level) as real / 33.0));
    FloorOfInt(5000 * k);
    Floor(5000.0 * k as real)
  }

  lemma StorageCapacityMonotone(tr: Transcendentals, a: nat, b: nat)
    requires Lawful(tr) && a <= b
    ensures StorageCapacity(tr, a) <= StorageCapacity(tr, b)
  {
    var xa := (20 * a) as real / 33.0;
    var xb := (20 * b) as real / 33.0;
    assert xa <= xb;
    assert tr.exp(xa) <= tr.exp(xb);
    FloorMonotone(2.5 * tr.exp(xa), 2.5 * tr.exp(xb));
    var ka := Floor(2.5 * tr.exp(xa));
    var kb := Floor(2.5 * tr.exp(xb));
    FloorOfInt(5000 * ka);
    FloorOfInt(5000 * kb);
  }
}
