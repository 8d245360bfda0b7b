/**
  Colonisation: the distance between two sectors of the 5x5 sector grid, the cost that grows
  with that distance, the cost quote, and the colonise request, which debits the user's oldest
  planet, takes over an unowned planet and seeds it as a new colony.
 */
module Colonize {
  import opened Wrappers
  import opened Numeric
  import opened GameTypes
  import opened Lifecycle
  import PlanetStore

  /** Grid row and column of a sector (sectors are numbered row by row from 1). */
  function GridRow(sector: int): int
  {
    (sector - 1) / 5
  }

  function GridColumn(sector: int): int
  {
    JsRem(sector - 1, 5)
  }

  /** calculateSectorDistance: the Euclidean distance between the two grid cells. */
  function SectorDistance(tr: Transcendentals, s1: int, s2: int): real
  {
    var dr := GridRow(s2) - GridRow(s1);
    var dc := GridColumn(s2) - GridColumn(s1);
    tr.sqrt((dr * dr + dc * dc) as real)
  }

  lemma SectorDistanceSymmetric(tr: Transcendentals, s1: int, s2: int)
    ensures SectorDistance(tr, s1, s2) == SectorDistance(tr, s2, s1)
  {
    var dr := GridRow(s2) - GridRow(s1);
    var dc := GridColumn(s2) - GridColumn(s1);
    assert (-dr) * (-dr) == dr * dr && (-dc) * (-dc) == dc * dc;
  }

  lemma SameSectorDistanceZero(tr: Transcendentals, s: int)
    requires Lawful(tr)
    ensures SectorDistance(tr, s, s) == 0.0
  {
  }

  /** On the grid's own sectors, row and column are the position in the 5x5 grid. */
  lemma GridPositionInRange(s: int)
    requires 1 <= s <= 25
    ensures 0 <= GridRow(s) < 5 && 0 <= GridColumn(s) < 5
    ensures s == 5 * GridRow(s) + GridColumn(s) + 1
  {
  }

  datatype ColonyCost = ColonyCost(metal: int, crystal: int, deuterium: int, multiplier: real)

  /** Math.round on a number. */
  function Round(x: real): int
  {
    Floor(x + 0.5)
  }

  /**
    calculateColonizationCost: each base amount (10000 metal, 5000 crystal, 2500 deuterium)
    scaled by 1 + distance/2 and floored; the multiplier reported rounded to hundredths.
   */
  function ColonizationCost(distance: real): ColonyCost
  {
    var m := 1.0 + distance * 0.5;
    ColonyCost(Floor(10000.0 * m), Floor(5000.0 * m), Floor(2500.0 * m), Round(m * 100.0) as real / 100.0)
  }

  /** Next to the main planet's sector the cost is exactly the base amounts. */
  lemma ColonizationCostAtZero()
    ensures ColonizationCost(0.0) == ColonyCost(10000, 5000, 2500, 1.0)
  {
    FloorOfInt(10000);
    FloorOfInt(5000);
    FloorOfInt(2500);
    FloorOfInt(100);
    assert 1.0 * 100.0 + 0.5 == 100.5;
  }

  /** Every amount grows (weakly) with the distance. */
  lemma ColonizationCostMonotone(d1: real, d2: real)
    requires d1 <= d2
    ensures ColonizationCost(d1).metal <= ColonizationCost(d2).metal
    ensures ColonizationCost(d1).crystal <= ColonizationCost(d2).crystal
    ensures ColonizationCost(d1).deuterium <= ColonizationCost(d2).deuterium
  {
    var m1 := 1.0 + d1 * 0.5;
    var m2 := 1.0 + d2 * 0.5;
    MulMonotone(10000.0, m1, m2);
    MulMonotone(5000.0, m1, m2);
    MulMonotone(2500.0, m1, m2);
    FloorMonotone(10000.0 * m1, 10000.0 * m2);
    FloorMonotone(5000.0 * m1, 5000.0 * m2);
    FloorMonotone(2500.0 * m1, 2500.0 * m2);
  }

  /** A planet's sector as the routes read it: a missing or zero sector counts as sector 1. */
  function SectorOrFirst(sector: Option<int>): (s: int)
    ensures s != 0
    ensures sector.Some? && sector.value != 0 ==> s == sector.value
  {
    if sector.None? || sector.value == 0 then 1 else sector.value
  }

  datatype Quote = Quote(metal: int, crystal: int, deuterium: int, distance: real, multiplier: real, isFirstPlanet: bool)

  /**
    GET /api/planet/colonize: the quote for colonising a planet in `targetSector` (none when
    the target was not found), from the user's oldest planet in `mainSector` (none when the
    user owns no planet). The distance is reported rounded to tenths.
   */
  function QuoteFor(tr: Transcendentals, mainSector: Option<int>, targetSector: Option<int>): Quote
  {
    if mainSector.None? then Quote(0, 0, 0, 0.0, 0.0, true)
    else
      var d := SectorDistance(tr, SectorOrFirst(mainSector), SectorOrFirst(targetSector));
      var c := ColonizationCost(d);
      Quote(c.metal, c.crystal, c.deuterium, Round(d * 10.0) as real / 10.0, c.multiplier, false)
  }

  lemma FirstPlanetQuoteFree(tr: Transcendentals, targetSector: Option<int>)
    ensures QuoteFor(tr, None, targetSector) == Quote(0, 0, 0, 0.0, 0.0, true)
  {
  }

  /** A quote within the main planet's own sector asks exactly the base amounts. */
  lemma SameSectorQuote(tr: Transcendentals, s: int)
    requires Lawful(tr) && s != 0
    ensures QuoteFor(tr, Some(s), Some(s)) == Quote(10000, 5000, 2500, 0.0, 1.0, false)
  {
    SameSectorDistanceZero(tr, s);
    ColonizationCostAtZero();
    FloorOfInt(0);
    assert 0.0 * 10.0 + 0.5 == 0.5;
  }

  /** The three buildings a new colony starts with. */
  const ColonyTypes: seq<BuildingType> := [MetalMine, CrystalMine, SolarPlant]

  /** A colony's name: "Kolonie " and one more than the number of planets the user owned. */
  function ColonyName(owned: nat): string
  {
    "Kolonie " + NatToString(owned + 1)
  }

  datatype Colonization = Colonization(target: PlanetState, mainResources: Option<PlanetResources>, result: Result<(), ApiError>)

  /**
    POST /api/planet/colonize for a user owning `owned` planets, the oldest in `mainSector`
    with resources row `mainResources`. The stock check reads the stored row without
    projecting it; the debit writes the stored stock minus the cost and resets last_updated.
    `ownerWrites` is whether the owner update succeeds; the inserts after it are not checked,
    and an insert over an existing row changes nothing.
   */
  function ColonizeOutcome(tr: Transcendentals, target: PlanetState, owned: nat, mainSector: int,
                           mainResources: Option<PlanetResources>, caller: UserId, ownerWrites: bool,
                           now: int): Colonization
  {
    if target.owner.Some? then Colonization(target, mainResources, Err(AlreadyColonized))
    else
      var debited :=
        if owned == 0 then Ok(mainResources)
        else
          var c := ColonizationCost(SectorDistance(tr, SectorOrFirst(Some(mainSector)), SectorOrFirst(Some(target.sector))));
          match mainResources
          case None => Err(NoResourcesAvailable)
          case Some(r) =>
            if r.metal < c.metal as real || r.crystal < c.crystal as real || r.deuterium < c.deuterium as real then
              Err(InsufficientResources)
            else
              Ok(Some(r.(metal := r.metal - c.metal as real, crystal := r.crystal - c.crystal as real,
                         deuterium := r.deuterium - c.deuterium as real, lastUpdated := now)));
      match debited
      case Err(e) => Colonization(target, mainResources, Err(e))
      case Ok(main) =>
        if !ownerWrites then Colonization(target, main, Err(WriteFailed))
        else
          var res := if target.resources.None? then Some(StarterResources(now)) else target.resources;
          var colony := target.(owner := Some(caller), name := ColonyName(owned), resources := res,
                                buildings := Seed(target.buildings, ColonyTypes));
          Colonization(colony, main, Ok(()))
  }

  /** An owned target is refused and nothing changes. */
  lemma ColonizeRejectsOwned(tr: Transcendentals, target: PlanetState, owned: nat, mainSector: int,
                             mainResources: Option<PlanetResources>, caller: UserId, ownerWrites: bool, now: int)
    requires target.owner.Some?
    ensures ColonizeOutcome(tr, target, owned, mainSector, mainResources, caller, ownerWrites, now)
      == Colonization(target, mainResources, Err(AlreadyColonized))
  {
  }

  /** The first planet costs nothing: no resources row is needed and none is touched. */
  lemma FirstColonyFree(tr: Transcendentals, target: PlanetState, mainSector: int,
                        mainResources: Option<PlanetResources>, caller: UserId, now: int)
    requires target.owner.None?
    ensures var c := ColonizeOutcome(tr, target, 0, mainSector, mainResources, caller, true, now);
      c.result == Ok(()) && c.mainResources == mainResources && c.target.owner == Some(caller)
  {
  }

  /** Stock short of the quoted cost is refused before anything is debited or taken over. */
  lemma ColonizeRejectsUnaffordable(tr: Transcendentals, target: PlanetState, owned: nat, mainSector: int,
                                    r: PlanetResources, caller: UserId, ownerWrites: bool, now: int)
    requires target.owner.None? && owned > 0
    requires var q := QuoteFor(tr, Some(mainSector), Some(target.sector));
      r.metal < q.metal as real || r.crystal < q.crystal as real || r.deuterium < q.deuterium as real
    ensures ColonizeOutcome(tr, target, owned, mainSector, Some(r), caller, ownerWrites, now)
      == Colonization(target, Some(r), Err(InsufficientResources))
  {
  }

  /** Without a resources row on the main planet, a second colony is refused and nothing changes. */
  lemma ColonizeRejectsMissingResources(tr: Transcendentals, target: PlanetState, owned: nat, mainSector: int,
                                        caller: UserId, ownerWrites: bool, now: int)
    requires target.owner.None? && owned > 0
    ensures ColonizeOutcome(tr, target, owned, mainSector, None, caller, ownerWrites, now)
      == Colonization(target, None, Err(NoResourcesAvailable))
  {
  }

  /**
    A successful colonisation from an owned main planet debits exactly the amounts the quote
    shows for the same two sectors, and nothing else of the main planet's row but last_updated.
   */
  lemma ColonizeDebitsQuote(tr: Transcendentals, target: PlanetState, owned: nat, mainSector: int,
                            r: PlanetResources, caller: UserId, now: int)
    requires owned > 0
    requires ColonizeOutcome(tr, target, owned, mainSector, Some(r), caller, true, now).result.Ok?
    ensures var q := QuoteFor(tr, Some(mainSector), Some(target.sector));
      && q.metal as real <= r.metal && q.crystal as real <= r.crystal && q.deuterium as real <= r.deuterium
      && ColonizeOutcome(tr, target, owned, mainSector, Some(r), caller, true, now).mainResources
        == Some(r.(metal := r.metal - q.metal as real, crystal := r.crystal - q.crystal as real,
                   deuterium := r.deuterium - q.deuterium as real, lastUpdated := now))
  {
  }

  /**
    A colonised planet that had no rows is owned by the caller, named after the number of
    planets the user owned, holds the starter stock and exactly three level-0 buildings.
   */
  lemma ColonySeeded(tr: Transcendentals, target: PlanetState, owned: nat, mainSector: int,
                     mainResources: Option<PlanetResources>, caller: UserId, now: int)
    requires Valid(target)
    requires ColonizeOutcome(tr, target, owned, mainSector, mainResources, caller, true, now).result.Ok?
    ensures var c := ColonizeOutcome(tr, target, owned, mainSector, mainResources, caller, true, now).target;
      && Valid(c)
      && c.owner == Some(caller) && c.sector == target.sector
      && c.name == ColonyName(owned)
      && c.resources == Some(StarterResources(now))
      && c.buildings.Keys == {MetalMine, CrystalMine, SolarPlant}
      && (forall t :: t in c.buildings ==> c.buildings[t] == Building(t, 0, false, None))
  {
    assert forall u :: u in ColonyTypes <==> u in {MetalMine, CrystalMine, SolarPlant};
  }

  /** A colony seeds fewer buildings than a claimed starter planet: no storage buildings. */
  lemma ColonyLacksStorage(tr: Transcendentals, target: PlanetState, owned: nat, mainSector: int,
                           mainResources: Option<PlanetResources>, caller: UserId, now: int)
    requires Valid(target)
    requires ColonizeOutcome(tr, target, owned, mainSector, mainResources, caller, true, now).result.Ok?
    ensures var c := ColonizeOutcome(tr, target, owned, mainSector, mainResources, caller, true, now).target;
      MetalStorage !in c.buildings && CrystalStorage !in c.buildings
      && MetalStorage in Claim(target, caller, now).state.buildings
  {
    ColonySeeded(tr, target, owned, mainSector, mainResources, caller, now);
  }

  /** A failed owner write keeps the debit already made but takes nothing over. */
  lemma OwnerWriteFailureKeepsDebit(tr: Transcendentals, target: PlanetState, owned: nat, mainSector: int,
                                    r: PlanetResources, caller: UserId, now: int)
    requires Lawful(tr) && owned > 0
    requires ColonizeOutcome(tr, target, owned, mainSector, Some(r), caller, true, now).result.Ok?
    ensures var failed := ColonizeOutcome(tr, target, owned, mainSector, Some(r), caller, false, now);
      && failed.result == Err(WriteFailed)
      && failed.target == target
      && failed.mainResources == ColonizeOutcome(tr, target, owned, mainSector, Some(r), caller, true, now).mainResources
      && failed.mainResources.value.metal <= r.metal - 10000.0
  {
    ColonizeDebitsQuote(tr, target, owned, mainSector, r, caller, now);
    QuoteAtLeastBase(tr, mainSector, target.sector);
  }

  /** With a lawful square root, a quote from an owned planet asks at least the base amounts. */
  lemma QuoteAtLeastBase(tr: Transcendentals, mainSector: int, targetSector: int)
    requires Lawful(tr)
    ensures var q := QuoteFor(tr, Some(mainSector), Some(targetSector));
      q.metal >= 10000 && q.crystal >= 5000 && q.deuterium >= 2500
  {
    var d := SectorDistance(tr, SectorOrFirst(Some(mainSector)), SectorOrFirst(Some(targetSector)));
    SectorDistanceNonNegative(tr, SectorOrFirst(Some(mainSector)), SectorOrFirst(Some(targetSector)));
    ColonizationCostMonotone(0.0, d);
    ColonizationCostAtZero();
  }

  lemma SectorDistanceNonNegative(tr: Transcendentals, s1: int, s2: int)
    requires Lawful(tr)
    ensures SectorDistance(tr, s1, s2) >= 0.0
  {
    var dr := GridRow(s2) - GridRow(s1);
    var dc := GridColumn(s2) - GridColumn(s1);
    assert dr * dr >= 0 && dc * dc >= 0;
    assert (dr * dr + dc * dc) as real >= 0.0;
  }

  /**
    The colonise request against the stored planets: `target` is the planet asked for and
    `owned` the caller's planets, oldest first (the main planet is the first).
   */
  method ColonizePlanet(tr: Transcendentals, target: PlanetStore.Planet, owned: seq<PlanetStore.Planet>,
                        caller: UserId, ownerWrites: bool, now: int)
    returns (result: Result<(), ApiError>)
    requires forall i :: 0 <= i < |owned| ==> owned[i].owner == Some(caller)
    modifies target, if |owned| == 0 then {} else {owned[0]}
    ensures var c := ColonizeOutcome(tr, old(target.State()), |owned|,
                                     if |owned| == 0 then 0 else old(owned[0].sector),
                                     if |owned| == 0 then None else old(owned[0].resources),
                                     caller, ownerWrites, now);
      && target.State() == c.target && result == c.result
      && (|owned| > 0 ==> owned[0].State() == old(owned[0].State()).(resources := c.mainResources))
  {
    if target.owner.Some? {
      return Err(AlreadyColonized);
    }
    if |owned| > 0 {
      var main := owned[0];
      var cost := ColonizationCost(SectorDistance(tr, SectorOrFirst(Some(main.sector)), SectorOrFirst(Some(target.sector))));
      if main.resources.None? {
        return Err(NoResourcesAvailable);
      }
      var r := main.resources.value;
      if r.metal < cost.metal as real || r.crystal < cost.crystal as real || r.deuterium < cost.deuterium as real {
        return Err(InsufficientResources);
      }
      main.resources := Some(r.(metal := r.metal - cost.metal as real, crystal := r.crystal - cost.crystal as real,
                                deuterium := r.deuterium - cost.deuterium as real, lastUpdated := now));
    }
    if !ownerWrites {
      return Err(WriteFailed);
    }
    target.owner := Some(caller);
    target.name := ColonyName(|owned|);
    if target.resources.None? {
      target.resources := Some(StarterResources(now));
    }
    target.SeedRows(ColonyTypes);
    result := Ok(());
  }
}
