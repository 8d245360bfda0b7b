/**
  The upgrade lifecycle of one planet, as functions from the stored planet to the stored
  planet and the answer: starting an upgrade (building/upgrade/route.ts), completing the
  finished ones lazily (building/complete/route.ts), cancelling one (building/cancel/route.ts),
  and the storage helpers those routes and the claim flow use (supabase/queries.ts).
  The class in PlanetStore performs the same steps in place and is proved against these.
 */
module Lifecycle {
  import opened Wrappers
  import opened Numeric
  import opened GameTypes
  import opened Buildings

  /** A planet as stored: its row (owner, name, sector), its resource row and its building rows by type. */
  datatype PlanetState = PlanetState(
    owner: Option<UserId>,
    name: string,
    sector: int,
    resources: Option<PlanetResources>,
    buildings: map<BuildingType, Building>)

  /** The state after a handler and its answer. */
  datatype Step<T> = Step(state: PlanetState, result: Result<T, ApiError>)

  /** Every row sits under its own type, and a row is upgrading exactly when it has a deadline. */
  predicate RowsWellFormed(bs: map<BuildingType, Building>)
  {
    forall t :: t in bs ==> bs[t].kind == t && (bs[t].upgrading <==> bs[t].finishAt.Some?)
  }

  /** The stored shape every handler keeps: well-formed rows, and no rows at all on an unowned planet. */
  predicate Valid(s: PlanetState)
  {
    RowsWellFormed(s.buildings) && (s.owner.None? ==> s.resources.None? && s.buildings == map[])
  }

  predicate AnyUpgrading(bs: map<BuildingType, Building>)
  {
    exists t :: t in bs && bs[t].upgrading
  }

  /** The one-upgrade-per-planet rule the start route enforces. */
  predicate AtMostOneUpgrading(bs: map<BuildingType, Building>)
  {
    forall t, u :: t in bs && u in bs && bs[t].upgrading && bs[u].upgrading ==> t == u
  }

  /** A building's level, 0 when the planet has no row of that type (`b?.level || 0`). */
  function LevelOf(bs: map<BuildingType, Building>, t: BuildingType): nat
  {
    if t in bs then bs[t].level else 0
  }

  // ---------------------------------------------------------------------------------------
  // deductResources (supabase/queries.ts)

  /**
    What the `update_planet_resources` procedure leaves in the row. Its formula is not part of
    this model: it is an arbitrary value for the three stocks and the reconciliation instant.
   */
  datatype Reconciled = Reconciled(metal: real, crystal: real, deuterium: real, lastUpdated: int)

  /** The procedure changes the three stocks and the reconciliation instant of an existing row, nothing else. */
  function Reconcile(res: Option<PlanetResources>, rec: Reconciled): (o: Option<PlanetResources>)
    ensures o.None? <==> res.None?
    ensures o.Some? ==> o.value.(metal := res.value.metal, crystal := res.value.crystal,
      deuterium := res.value.deuterium, lastUpdated := res.value.lastUpdated) == res.value
  {
    match res
    case None => None
    case Some(r) =>
      Some(r.(metal := rec.metal, crystal := rec.crystal, deuterium := rec.deuterium, lastUpdated := rec.lastUpdated))
  }

  predicate Covers(r: PlanetResources, metal: int, crystal: int, deuterium: int)
  {
    r.metal >= metal as real && r.crystal >= crystal as real && r.deuterium >= deuterium as real
  }

  /** The row after a debit attempt, and whether the debit was made. */
  datatype Debit = Debit(resources: Option<PlanetResources>, ok: bool)

  /**
    deductResources: reconcile, then debit exactly the amounts if every stock covers them and
    the write succeeds; otherwise the row stays as reconciled.
   */
  function Deduct(res: Option<PlanetResources>, metal: int, crystal: int, deuterium: int,
                  rec: Reconciled, writeOk: bool, now: int): (d: Debit)
    ensures d.ok <==> res.Some? && Covers(Reconcile(res, rec).value, metal, crystal, deuterium) && writeOk
    ensures !d.ok ==> d.resources == Reconcile(res, rec)
    ensures d.ok ==> var r := Reconcile(res, rec).value;
      d.resources == Some(r.(metal := r.metal - metal as real, crystal := r.crystal - crystal as real,
        deuterium := r.deuterium - deuterium as real, lastUpdated := now))
  {
    match Reconcile(res, rec)
    case None => Debit(None, false)
    case Some(r) =>
      if r.metal < metal as real || r.crystal < crystal as real || r.deuterium < deuterium as real then
        Debit(Some(r), false)
      else if !writeOk then
        Debit(Some(r), false)
      else
        Debit(Some(r.(metal := r.metal - metal as real, crystal := r.crystal - crystal as real,
          deuterium := r.deuterium - deuterium as real, lastUpdated := now)), true)
  }

  predicate StocksNonNegative(r: PlanetResources)
  {
    r.metal >= 0.0 && r.crystal >= 0.0 && r.deuterium >= 0.0
  }

  /** The guard makes a debit unable to drive a stock below zero. */
  lemma DeductKeepsStocksNonNegative(res: Option<PlanetResources>, metal: int, crystal: int, deuterium: int,
                                     rec: Reconciled, writeOk: bool, now: int)
    requires rec.metal >= 0.0 && rec.crystal >= 0.0 && rec.deuterium >= 0.0
    requires metal >= 0 && crystal >= 0 && deuterium >= 0
    ensures var d := Deduct(res, metal, crystal, deuterium, rec, writeOk, now);
      d.resources.Some? ==> StocksNonNegative(d.resources.value)
  {
  }

  // ---------------------------------------------------------------------------------------
  // POST /api/building/upgrade

  /** The request body: the building type as sent, and the client's idea of its current level. */
  datatype UpgradeRequest = UpgradeRequest(buildingType: string, currentLevel: Option<nat>)

  /** The success answer: the stored row, its deadline and the build time in seconds. */
  datatype Started = Started(building: Building, finishAt: int, buildTimeSeconds: int)

  /**
    The start route. Guards in order: parameters present, type in the catalog, client level
    below the maximum, planet owned by the caller, no building of the planet upgrading, debit
    of the cost at the CLIENT's level. Then the deadline is `now` plus the build time of the
    next level (shortened by the command center), and the row is created at level 0 or marked
    upgrading with its level kept. Prerequisites are not consulted. A failed row write answers
    500 and leaves the debit in place.
   */
  function StartUpgrade(s: PlanetState, tr: Transcendentals, caller: UserId, req: UpgradeRequest,
                        rec: Reconciled, debitWrites: bool, rowWrites: bool, now: int): Step<Started>
  {
    if req.buildingType == "" || req.currentLevel.None? then Step(s, Err(MissingParameters))
    else
      match ParseBuildingType(req.buildingType)
      case None => Step(s, Err(InvalidBuildingType))
      case Some(t) =>
        var level := req.currentLevel.value;
        if level >= Definition(t).maxLevel then Step(s, Err(MaxLevelReached))
        else if s.owner != Some(caller) then Step(s, Err(PlanetNotOwned))
        else if AnyUpgrading(s.buildings) then Step(s, Err(UpgradeInProgress))
        else
          var cost := BuildingCost(t, level);
          var debit := Deduct(s.resources, cost.metal, cost.crystal, cost.deuterium, rec, debitWrites, now);
          var s1 := s.(resources := debit.resources);
          if !debit.ok then Step(s1, Err(InsufficientResources))
          else
            var seconds := BuildTime(tr, t, level + 1, LevelOf(s.buildings, CommandCenter));
            var finishAt := now + seconds * 1000;
            var b := if t in s.buildings then s.buildings[t].(upgrading := true, finishAt := Some(finishAt))
                     else Building(t, 0, true, Some(finishAt));
            if !rowWrites then Step(s1, Err(WriteFailed))
            else Step(s1.(buildings := s.buildings[t := b]), Ok(Started(b, finishAt, seconds)))
  }

  /** The guards that fire before the planet is read leave it untouched, whatever it holds. */
  lemma StartRejectsBadRequests(s: PlanetState, tr: Transcendentals, caller: UserId, req: UpgradeRequest,
                                rec: Reconciled, dw: bool, rw: bool, now: int)
    ensures req.buildingType == "" || req.currentLevel.None? ==>
      StartUpgrade(s, tr, caller, req, rec, dw, rw, now) == Step(s, Err(MissingParameters))
    ensures req.buildingType != "" && req.currentLevel.Some? && ParseBuildingType(req.buildingType).None? ==>
      StartUpgrade(s, tr, caller, req, rec, dw, rw, now) == Step(s, Err(InvalidBuildingType))
    ensures (req.buildingType != "" && req.currentLevel.Some? && ParseBuildingType(req.buildingType).Some?
      && req.currentLevel.value >= Definition(ParseBuildingType(req.buildingType).value).maxLevel) ==>
      StartUpgrade(s, tr, caller, req, rec, dw, rw, now) == Step(s, Err(MaxLevelReached))
  {
  }

  /** With another building upgrading, the request fails and nothing is debited. */
  lemma StartRejectsSecondUpgrade(s: PlanetState, tr: Transcendentals, caller: UserId, req: UpgradeRequest,
                                  rec: Reconciled, dw: bool, rw: bool, now: int)
    requires AnyUpgrading(s.buildings)
    ensures StartUpgrade(s, tr, caller, req, rec, dw, rw, now).state == s
    ensures StartUpgrade(s, tr, caller, req, rec, dw, rw, now).result.Err?
    ensures (s.owner == Some(caller) && req.buildingType != "" && req.currentLevel.Some?
      && ParseBuildingType(req.buildingType).Some?
      && req.currentLevel.value < Definition(ParseBuildingType(req.buildingType).value).maxLevel) ==>
      StartUpgrade(s, tr, caller, req, rec, dw, rw, now).result == Err(UpgradeInProgress)
  {
  }

  /**
    When the reconciled stock does not cover the cost at the client's level, the request fails
    with the stock as reconciled and no building row changed.
   */
  lemma StartRejectsUnaffordable(s: PlanetState, tr: Transcendentals, caller: UserId, t: BuildingType, level: nat,
                                 rec: Reconciled, dw: bool, rw: bool, now: int)
    requires s.owner == Some(caller) && !AnyUpgrading(s.buildings) && level < Definition(t).maxLevel
    requires s.resources.Some?
    requires var c := BuildingCost(t, level); !Covers(Reconcile(s.resources, rec).value, c.metal, c.crystal, c.deuterium)
    ensures var o := StartUpgrade(s, tr, caller, UpgradeRequest(TypeName(t), Some(level)), rec, dw, rw, now);
      o.result == Err(InsufficientResources) && o.state == s.(resources := Reconcile(s.resources, rec))
  {
    ParseTypeName(t);
  }

  /**
    A successful start debits exactly the cost at the client's level, sets the deadline to
    `now` plus the build time of the next level in milliseconds, keeps the row's level (or
    creates it at 0), and touches no other row and not the owner.
   */
  lemma StartSucceeds(s: PlanetState, tr: Transcendentals, caller: UserId, req: UpgradeRequest,
                      rec: Reconciled, dw: bool, rw: bool, now: int)
    requires StartUpgrade(s, tr, caller, req, rec, dw, rw, now).result.Ok?
    ensures var o := StartUpgrade(s, tr, caller, req, rec, dw, rw, now);
      var t := ParseBuildingType(req.buildingType).value;
      var level := req.currentLevel.value;
      var cost := BuildingCost(t, level);
      var r := Reconcile(s.resources, rec).value;
      && s.owner == Some(caller) && !AnyUpgrading(s.buildings)
      && o.state.owner == s.owner && o.state.name == s.name && o.state.sector == s.sector
      && o.state.resources == Some(r.(metal := r.metal - cost.metal as real, crystal := r.crystal - cost.crystal as real,
           deuterium := r.deuterium - cost.deuterium as real, lastUpdated := now))
      && o.result.value.finishAt == now + 1000 * BuildTime(tr, t, level + 1, LevelOf(s.buildings, CommandCenter))
      && o.state.buildings.Keys == s.buildings.Keys + {t}
      && o.state.buildings[t] == o.result.value.building
      && o.state.buildings[t].upgrading
      && o.state.buildings[t].finishAt == Some(o.result.value.finishAt)
      && o.state.buildings[t].level == LevelOf(s.buildings, t)
      && (forall u :: u in s.buildings && u != t ==> o.state.buildings[u] == s.buildings[u])
  {
    assert req.buildingType != "" && req.currentLevel.Some? && ParseBuildingType(req.buildingType).Some?;
    var t := ParseBuildingType(req.buildingType).value;
    var level := req.currentLevel.value;
    assert level < Definition(t).maxLevel && s.owner == Some(caller) && !AnyUpgrading(s.buildings);
    var cost := BuildingCost(t, level);
    var debit := Deduct(s.resources, cost.metal, cost.crystal, cost.deuterium, rec, dw, now);
    assert debit.ok && rw;
    var seconds := BuildTime(tr, t, level + 1, LevelOf(s.buildings, CommandCenter));
    var finishAt := now + seconds * 1000;
    var b := if t in s.buildings then s.buildings[t].(upgrading := true, finishAt := Some(finishAt))
             else Building(t, 0, true, Some(finishAt));
    assert StartUpgrade(s, tr, caller, req, rec, dw, rw, now)
      == Step(s.(resources := debit.resources, buildings := s.buildings[t := b]), Ok(Started(b, finishAt, seconds)));
  }

  /** A start keeps the stored shape, and afterwards exactly the started building is upgrading. */
  lemma StartLeavesOneUpgrading(s: PlanetState, tr: Transcendentals, caller: UserId, req: UpgradeRequest,
                                rec: Reconciled, dw: bool, rw: bool, now: int)
    requires Valid(s)
    ensures var o := StartUpgrade(s, tr, caller, req, rec, dw, rw, now);
      Valid(o.state) && (AtMostOneUpgrading(s.buildings) ==> AtMostOneUpgrading(o.state.buildings))
    ensures var o := StartUpgrade(s, tr, caller, req, rec, dw, rw, now);
      o.result.Ok? ==> forall u :: u in o.state.buildings ==>
        (o.state.buildings[u].upgrading <==> u == ParseBuildingType(req.buildingType).value)
  {
    var o := StartUpgrade(s, tr, caller, req, rec, dw, rw, now);
    if o.result.Ok? {
      StartSucceeds(s, tr, caller, req, rec, dw, rw, now);
    }
  }

  /**
    Prerequisites are never checked: on a freshly claimed planet (no command center) the
    shipyard, which the catalog locks behind command center level 2, can be started.
   */
  lemma LockedShipyardCanStart(tr: Transcendentals, caller: UserId, now: int)
    ensures Definition(Shipyard).requirements == [Requirement(CommandCenter, 2)]
    ensures LevelOf(ClaimedState(caller, now).buildings, CommandCenter) < 2
    ensures var rec := Reconciled(500.0, 300.0, 100.0, now);
      StartUpgrade(ClaimedState(caller, now), tr, caller, UpgradeRequest("shipyard", Some(0)), rec, true, true, now).result.Ok?
  {
    var s := ClaimedState(caller, now);
    BuildingCostAtZero(Shipyard);
    assert !AnyUpgrading(s.buildings);
  }
  // ---------------------------------------------------------------------------------------
  // claimStarterPlanet (supabase/queries.ts)

  /** The building rows a claimed starter planet is seeded with, in insertion order. */
  const StarterTypes: seq<BuildingType> := [MetalMine, CrystalMine, SolarPlant, MetalStorage, CrystalStorage]

  /** The resource row a claimed or colonised planet starts with, reconciled at `now`. */
  function StarterResources(now: int): PlanetResources
  {
    PlanetResources(500.0, 300.0, 100.0, 0.0, 30.0, 15.0, 0.0, 0.0, 0.0, 10000.0, 10000.0, 10000.0, now)
  }

  /** Inserting a level-0 row per listed type; an insert over an existing row of that type changes nothing. */
  function Seed(bs: map<BuildingType, Building>, types: seq<BuildingType>): (r: map<BuildingType, Building>)
    ensures forall t :: t in r <==> t in bs || t in types
    ensures forall t :: t in bs ==> r[t] == bs[t]
    ensures forall t :: t in r && t !in bs ==> r[t] == Building(t, 0, false, None)
  {
    if |types| == 0 then bs
    else
      var prefix := Seed(bs, types[..|types| - 1]);
      var t := types[|types| - 1];
      assert forall u :: u in types <==> u in types[..|types| - 1] || u == t;
      if t in prefix then prefix else prefix[t := Building(t, 0, false, None)]
  }

  datatype ClaimOutcome = ClaimOutcome(state: PlanetState, claimed: bool)

  /**
    claimStarterPlanet: only a planet without owner is claimed; it then gets the caller as
    owner, the starter resource row (unless one exists) and the five starter buildings.
   */
  function Claim(s: PlanetState, caller: UserId, now: int): ClaimOutcome
  {
    if s.owner.Some? then ClaimOutcome(s, false)
    else
      var res := if s.resources.None? then Some(StarterResources(now)) else s.resources;
      ClaimOutcome(s.(owner := Some(caller), resources := res, buildings := Seed(s.buildings, StarterTypes)), true)
  }

  function Unclaimed(name: string, sector: int): PlanetState
  {
    PlanetState(None, name, sector, None, map[])
  }

  /** A freshly claimed planet. */
  function ClaimedState(caller: UserId, now: int): PlanetState
  {
    Claim(Unclaimed("", 1), caller, now).state
  }

  /** A claim keeps the stored shape. */
  lemma ClaimKeepsValid(s: PlanetState, caller: UserId, now: int)
    requires Valid(s)
    ensures Valid(Claim(s, caller, now).state)
  {
  }

  /** An owned planet is never claimed again. */
  lemma ClaimOnlyUnowned(s: PlanetState, caller: UserId, now: int)
    ensures Claim(s, caller, now).claimed <==> s.owner.None?
    ensures s.owner.Some? ==> Claim(s, caller, now).state == s
  {
  }

  /**
    A claim of a stored unowned planet seeds exactly the starter row and exactly five level-0
    buildings: metal mine, crystal mine, solar plant, metal storage and crystal storage.
   */
  lemma ClaimSeedsStarter(s: PlanetState, caller: UserId, now: int)
    requires Valid(s) && s.owner.None?
    ensures var c := Claim(s, caller, now).state;
      && Valid(c)
      && c.owner == Some(caller) && c.name == s.name && c.sector == s.sector
      && c.resources == Some(StarterResources(now))
      && c.buildings.Keys == {MetalMine, CrystalMine, SolarPlant, MetalStorage, CrystalStorage}
      && (forall t :: t in c.buildings ==> c.buildings[t] == Building(t, 0, false, None))
  {
    var c := Claim(s, caller, now).state;
    assert forall u :: u in StarterTypes <==> u in {MetalMine, CrystalMine, SolarPlant, MetalStorage, CrystalStorage};
  }
  // ---------------------------------------------------------------------------------------
  // POST /api/building/complete

  /** A row the completion query selects: upgrading, with a deadline at or before `now`. */
  predicate Due(b: Building, now: int)
  {
    b.upgrading && b.finishAt.Some? && b.finishAt.value <= now
  }

  datatype Completed = Completed(kind: BuildingType, newLevel: nat)
  datatype CompleteResponse = CompleteResponse(completed: seq<Completed>, hasCompleted: bool)

  /** The production and energy figures stored in a resource row. */
  datatype Figures = Figures(metalProduction: real, crystalProduction: real, deuteriumProduction: real,
                             energyProduction: real, energyConsumption: real)

  /**
    The figures for given mine and solar plant levels; a level-0 mine falls back to the
    starter rates 30, 15 and 0, a level-0 plant to no energy, and only built mines draw energy.
   */
  function FiguresFor(metalLevel: nat, crystalLevel: nat, deuteriumLevel: nat, solarLevel: nat): Figures
  {
    Figures(
      (if metalLevel > 0 then MineProduction(MetalMine, metalLevel, 1.0) else 30) as real,
      (if crystalLevel > 0 then MineProduction(CrystalMine, crystalLevel, 1.0) else 15) as real,
      (if deuteriumLevel > 0 then MineProduction(DeuteriumSynthesizer, deuteriumLevel, 1.0) else 0) as real,
      (if solarLevel > 0 then SolarEnergy(solarLevel, 1.0) else 0) as real,
      ((if metalLevel > 0 then EnergyConsumption(MetalMine, metalLevel) else 0)
       + (if crystalLevel > 0 then EnergyConsumption(CrystalMine, crystalLevel) else 0)
       + (if deuteriumLevel > 0 then EnergyConsumption(DeuteriumSynthesizer, deuteriumLevel) else 0)) as real)
  }

  function StoredFigures(r: PlanetResources): Figures
  {
    Figures(r.metalProduction, r.crystalProduction, r.deuteriumProduction, r.energyProduction, r.energyConsumption)
  }

  /**
    updatePlanetStats, after `t` reached `newLevel` (`bs` already holds the new level): a mine or
    the solar plant recomputes all five figures, a storage building sets only its own capacity,
    any other type changes nothing. A planet without a resource row stays without one.
   */
  function UpdatePlanetStats(tr: Transcendentals, res: Option<PlanetResources>, bs: map<BuildingType, Building>,
                             t: BuildingType, newLevel: nat): Option<PlanetResources>
  {
    match res
    case None => None
    case Some(r) =>
      var r1 :=
        if t in {MetalMine, CrystalMine, DeuteriumSynthesizer, SolarPlant} then
          var f := FiguresFor(
            if t == MetalMine then newLevel else LevelOf(bs, MetalMine),
            if t == CrystalMine then newLevel else LevelOf(bs, CrystalMine),
            if t == DeuteriumSynthesizer then newLevel else LevelOf(bs, DeuteriumSynthesizer),
            if t == SolarPlant then newLevel else LevelOf(bs, SolarPlant));
          r.(metalProduction := f.metalProduction, crystalProduction := f.crystalProduction,
             deuteriumProduction := f.deuteriumProduction, energyProduction := f.energyProduction,
             energyConsumption := f.energyConsumption)
        else r;
      var capacity := StorageCapacity(tr, newLevel) as real;
      if t == MetalStorage then Some(r1.(metalCapacity := capacity))
      else if t == CrystalStorage then Some(r1.(crystalCapacity := capacity))
      else if t == DeuteriumTank then Some(r1.(deuteriumCapacity := capacity))
      else Some(r1)
  }

  /** The stored figures and capacities are the ones the building levels call for. */
  predicate StatsMatchLevels(tr: Transcendentals, r: PlanetResources, bs: map<BuildingType, Building>)
  {
    && StoredFigures(r) == FiguresFor(LevelOf(bs, MetalMine), LevelOf(bs, CrystalMine),
                                      LevelOf(bs, DeuteriumSynthesizer), LevelOf(bs, SolarPlant))
    && r.metalCapacity == StorageCapacity(tr, LevelOf(bs, MetalStorage)) as real
    && r.crystalCapacity == StorageCapacity(tr, LevelOf(bs, CrystalStorage)) as real
    && r.deuteriumCapacity == StorageCapacity(tr, LevelOf(bs, DeuteriumTank)) as real
  }

  predicate RowMatchesLevels(tr: Transcendentals, res: Option<PlanetResources>, bs: map<BuildingType, Building>)
  {
    res.Some? ==> StatsMatchLevels(tr, res.value, bs)
  }

  /** The recomputation never touches the stocks or the reconciliation instant. */
  lemma UpdatePlanetStatsKeepsStocks(tr: Transcendentals, res: Option<PlanetResources>, bs: map<BuildingType, Building>,
                                     t: BuildingType, newLevel: nat)
    ensures var o := UpdatePlanetStats(tr, res, bs, t, newLevel);
      o.Some? == res.Some? && (o.Some? ==> ( o.value.metal == res.value.metal && o.value.crystal == res.value.crystal
        && o.value.deuterium == res.value.deuterium && o.value.rareEarth == res.value.rareEarth
        && o.value.lastUpdated == res.value.lastUpdated))
  {
  }

  /**
    After one building's level changed to `newLevel` (and nothing else changed), the
    recomputation brings a row that matched the old levels back in line with the new ones.
   */
  lemma UpdatePlanetStatsRestoresMatch(tr: Transcendentals, res: Option<PlanetResources>,
                                       bs: map<BuildingType, Building>, t: BuildingType, b: Building)
    requires RowMatchesLevels(tr, res, bs)
    ensures RowMatchesLevels(tr, UpdatePlanetStats(tr, res, bs[t := b], t, b.level), bs[t := b])
  {
    if res.Some? {
      FiguresRestored(tr, res.value, bs, t, b);
      CapacitiesRestored(tr, res.value, bs, t, b);
    }
  }

  /** Replacing one row changes that type's level only. */
  lemma LevelsAfterReplace(bs: map<BuildingType, Building>, t: BuildingType, b: Building)
    ensures LevelOf(bs[t := b], t) == b.level
    ensures forall u :: u != t ==> LevelOf(bs[t := b], u) == LevelOf(bs, u)
  {
  }

  /** The production and energy part of UpdatePlanetStatsRestoresMatch. */
  lemma FiguresRestored(tr: Transcendentals, r: PlanetResources, bs: map<BuildingType, Building>,
                        t: BuildingType, b: Building)
    requires StatsMatchLevels(tr, r, bs)
    ensures var bs' := bs[t := b];
      StoredFigures(UpdatePlanetStats(tr, Some(r), bs', t, b.level).value)
        == FiguresFor(LevelOf(bs', MetalMine), LevelOf(bs', CrystalMine),
                      LevelOf(bs', DeuteriumSynthesizer), LevelOf(bs', SolarPlant))
  {
    LevelsAfterReplace(bs, t, b);
  }

  /** The capacity part of UpdatePlanetStatsRestoresMatch. */
  lemma CapacitiesRestored(tr: Transcendentals, r: PlanetResources, bs: map<BuildingType, Building>,
                           t: BuildingType, b: Building)
    requires StatsMatchLevels(tr, r, bs)
    ensures var bs', o := bs[t := b], UpdatePlanetStats(tr, Some(r), bs[t := b], t, b.level).value;
      && o.metalCapacity == StorageCapacity(tr, LevelOf(bs', MetalStorage)) as real
      && o.crystalCapacity == StorageCapacity(tr, LevelOf(bs', CrystalStorage)) as real
      && o.deuteriumCapacity == StorageCapacity(tr, LevelOf(bs', DeuteriumTank)) as real
  {
    LevelsAfterReplace(bs, t, b);
  }

  /** Whether the loop completes `t`: its row is due and its write succeeds. */
  predicate Completes(bs: map<BuildingType, Building>, t: BuildingType, now: int, failing: set<BuildingType>)
  {
    t in bs && Due(bs[t], now) && t !in failing
  }

  /** The row of `t` one level up with its upgrade flags cleared. */
  function Raised(b: Building): Building
  {
    b.(level := b.level + 1, upgrading := false, finishAt := None)
  }

  /** The building rows after the loop has visited the first `n` catalog types. */
  function RowsAfter(bs: map<BuildingType, Building>, n: nat, now: int, failing: set<BuildingType>): map<BuildingType, Building>
    requires n <= |AllBuildingTypes|
  {
    if n == 0 then bs
    else
      var prev := RowsAfter(bs, n - 1, now, failing);
      var t := AllBuildingTypes[n - 1];
      if Completes(prev, t, now, failing) then prev[t := Raised(prev[t])] else prev
  }

  /** The completion list after the first `n` catalog types. */
  function ListAfter(bs: map<BuildingType, Building>, n: nat, now: int, failing: set<BuildingType>): seq<Completed>
    requires n <= |AllBuildingTypes|
  {
    if n == 0 then []
    else
      var prev := RowsAfter(bs, n - 1, now, failing);
      var t := AllBuildingTypes[n - 1];
      ListAfter(bs, n - 1, now, failing) + (if Completes(prev, t, now, failing) then [Completed(t, prev[t].level + 1)] else [])
  }

  /** The resource row after the first `n` catalog types: one stats recomputation per completed row. */
  function ResourcesAfter(tr: Transcendentals, res: Option<PlanetResources>, bs: map<BuildingType, Building>,
                          n: nat, now: int, failing: set<BuildingType>): Option<PlanetResources>
    requires n <= |AllBuildingTypes|
  {
    if n == 0 then res
    else
      var prev := RowsAfter(bs, n - 1, now, failing);
      var t := AllBuildingTypes[n - 1];
      var before := ResourcesAfter(tr, res, bs, n - 1, now, failing);
      if Completes(prev, t, now, failing)
      then UpdatePlanetStats(tr, before, RowsAfter(bs, n, now, failing), t, prev[t].level + 1)
      else before
  }

  /**
    The completion route: for the caller's planet, every due row whose write succeeds is
    raised one level with its flags cleared, listed, and followed by the stats recomputation;
    rows in `failing` (a failed write) are skipped and not listed.
   */
  function CompleteDue(s: PlanetState, tr: Transcendentals, caller: UserId, now: int,
                       failing: set<BuildingType>): Step<CompleteResponse>
  {
    if s.owner != Some(caller) then Step(s, Err(PlanetNotOwned))
    else
      var n := |AllBuildingTypes|;
      var completed := ListAfter(s.buildings, n, now, failing);
      Step(s.(buildings := RowsAfter(s.buildings, n, now, failing),
              resources := ResourcesAfter(tr, s.resources, s.buildings, n, now, failing)),
           Ok(CompleteResponse(completed, |completed| > 0)))
  }

  /** The reference outcome for the rows: each completed row one level up with its flags cleared. */
  function Settled(bs: map<BuildingType, Building>, now: int, failing: set<BuildingType>): map<BuildingType, Building>
  {
    map t | t in bs :: if Completes(bs, t, now, failing) then Raised(bs[t]) else bs[t]
  }

  /** The reference list of completions: the completed rows of `types`, in that order. */
  function DueList(bs: map<BuildingType, Building>, types: seq<BuildingType>, now: int, failing: set<BuildingType>): seq<Completed>
  {
    if |types| == 0 then []
    else
      var t := types[|types| - 1];
      DueList(bs, types[..|types| - 1], now, failing)
      + (if Completes(bs, t, now, failing) then [Completed(t, bs[t].level + 1)] else [])
  }

  /** The rows after `n` catalog types agree with the reference outcome over those types. */
  lemma {:induction false} RowsAfterSettle(bs: map<BuildingType, Building>, n: nat, now: int, failing: set<BuildingType>)
    requires n <= |AllBuildingTypes|
    ensures var r := RowsAfter(bs, n, now, failing);
      && r.Keys == bs.Keys
      && (forall t :: t in bs ==> r[t] == if t in AllBuildingTypes[..n] && Completes(bs, t, now, failing) then Raised(bs[t]) else bs[t])
  {
    if n > 0 {
      RowsAfterSettle(bs, n - 1, now, failing);
      NextTypeUnvisited(n);
      assert AllBuildingTypes[..n] == AllBuildingTypes[..n - 1] + [AllBuildingTypes[n - 1]];
    }
  }

  /** The list after `n` catalog types is the reference list over those types. */
  lemma {:induction false} ListAfterIsDueList(bs: map<BuildingType, Building>, n: nat, now: int, failing: set<BuildingType>)
    requires n <= |AllBuildingTypes|
    ensures ListAfter(bs, n, now, failing) == DueList(bs, AllBuildingTypes[..n], now, failing)
  {
    if n > 0 {
      ListAfterIsDueList(bs, n - 1, now, failing);
      var t := AllBuildingTypes[n - 1];
      assert AllBuildingTypes[..n] == AllBuildingTypes[..n - 1] + [t];
      DueListSnoc(bs, AllBuildingTypes[..n - 1], t, now, failing);
      NextTypeUnvisited(n);
      RowsAfterKeepsUnvisited(bs, n - 1, t, now, failing);
    }
  }

  /** A type the loop has not reached yet still has its original row. */
  lemma {:induction false} RowsAfterKeepsUnvisited(bs: map<BuildingType, Building>, n: nat, t: BuildingType,
                                                   now: int, failing: set<BuildingType>)
    requires n <= |AllBuildingTypes| && t !in AllBuildingTypes[..n]
    ensures t in RowsAfter(bs, n, now, failing) <==> t in bs
    ensures t in bs ==> RowsAfter(bs, n, now, failing)[t] == bs[t]
  {
    if n > 0 {
      assert t != AllBuildingTypes[n - 1] by { assert AllBuildingTypes[..n][n - 1] == AllBuildingTypes[n - 1]; }
      assert t !in AllBuildingTypes[..n - 1] by { assert AllBuildingTypes[..n - 1] == AllBuildingTypes[..n][..n - 1]; }
      RowsAfterKeepsUnvisited(bs, n - 1, t, now, failing);
    }
  }

  lemma DueListSnoc(bs: map<BuildingType, Building>, types: seq<BuildingType>, t: BuildingType, now: int, failing: set<BuildingType>)
    ensures DueList(bs, types + [t], now, failing)
         == DueList(bs, types, now, failing) + (if Completes(bs, t, now, failing) then [Completed(t, bs[t].level + 1)] else [])
  {
    assert (types + [t])[..|types|] == types;
  }

  /** The rows after completion are exactly the reference outcome, and the list names exactly the completed rows. */
  lemma CompleteDueSettles(s: PlanetState, tr: Transcendentals, caller: UserId, now: int, failing: set<BuildingType>)
    requires s.owner == Some(caller)
    ensures var o := CompleteDue(s, tr, caller, now, failing);
      && o.state.buildings == Settled(s.buildings, now, failing)
      && o.result.value.completed == DueList(s.buildings, AllBuildingTypes, now, failing)
      && o.state.owner == s.owner && o.state.name == s.name && o.state.sector == s.sector
      && (o.result.value.hasCompleted <==> |o.result.value.completed| > 0)
  {
    var n := |AllBuildingTypes|;
    RowsAfterSettle(s.buildings, n, now, failing);
    ListAfterIsDueList(s.buildings, n, now, failing);
    assert AllBuildingTypes[..n] == AllBuildingTypes;
    forall t | t in s.buildings
      ensures t in AllBuildingTypes
    {
      AllBuildingTypesComplete(t);
    }
  }

  /** The list of completions names a type exactly when its row was due and its write succeeded. */
  lemma {:induction false} DueListMembers(bs: map<BuildingType, Building>, types: seq<BuildingType>, now: int,
                                          failing: set<BuildingType>, c: Completed)
    ensures c in DueList(bs, types, now, failing) <==>
      c.kind in types && c.kind in bs && Due(bs[c.kind], now) && c.kind !in failing && c.newLevel == bs[c.kind].level + 1
  {
    if |types| > 0 {
      DueListMembers(bs, types[..|types| - 1], now, failing, c);
      assert forall u :: u in types <==> u in types[..|types| - 1] || u == types[|types| - 1];
    }
  }

  /** Completion keeps the stored shape and the one-upgrade rule. */
  lemma CompleteDueKeepsValid(s: PlanetState, tr: Transcendentals, caller: UserId, now: int, failing: set<BuildingType>)
    requires Valid(s)
    ensures Valid(CompleteDue(s, tr, caller, now, failing).state)
    ensures AtMostOneUpgrading(s.buildings) ==> AtMostOneUpgrading(CompleteDue(s, tr, caller, now, failing).state.buildings)
  {
    if s.owner == Some(caller) {
      CompleteDueSettles(s, tr, caller, now, failing);
    }
  }

  /** With every write succeeding, a second completion at the same instant finds nothing and changes nothing. */
  lemma CompleteDueIdempotent(s: PlanetState, tr: Transcendentals, caller: UserId, now: int, failing: set<BuildingType>)
    requires s.owner == Some(caller)
    ensures var s1 := CompleteDue(s, tr, caller, now, {}).state;
      CompleteDue(s1, tr, caller, now, failing) == Step(s1, Ok(CompleteResponse([], false)))
  {
    var s1 := CompleteDue(s, tr, caller, now, {}).state;
    CompleteDueSettles(s, tr, caller, now, {});
    LoopIdle(tr, s1.resources, s1.buildings, |AllBuildingTypes|, now, failing);
  }

  /** With no due row, the loop changes nothing. */
  lemma {:induction false} LoopIdle(tr: Transcendentals, res: Option<PlanetResources>, bs: map<BuildingType, Building>,
                                    n: nat, now: int, failing: set<BuildingType>)
    requires n <= |AllBuildingTypes|
    requires forall t :: t in bs ==> !Due(bs[t], now)
    ensures RowsAfter(bs, n, now, failing) == bs
    ensures ListAfter(bs, n, now, failing) == []
    ensures ResourcesAfter(tr, res, bs, n, now, failing) == res
  {
    if n > 0 {
      LoopIdle(tr, res, bs, n - 1, now, failing);
    }
  }

  /** The loop keeps the stored figures and capacities in line with the building levels. */
  lemma {:induction false} LoopKeepsStats(tr: Transcendentals, res: Option<PlanetResources>, bs: map<BuildingType, Building>,
                                          n: nat, now: int, failing: set<BuildingType>)
    requires n <= |AllBuildingTypes|
    requires RowMatchesLevels(tr, res, bs)
    ensures RowMatchesLevels(tr, ResourcesAfter(tr, res, bs, n, now, failing), RowsAfter(bs, n, now, failing))
  {
    if n > 0 {
      LoopKeepsStats(tr, res, bs, n - 1, now, failing);
      var prev := RowsAfter(bs, n - 1, now, failing);
      var before := ResourcesAfter(tr, res, bs, n - 1, now, failing);
      var t := AllBuildingTypes[n - 1];
      if Completes(prev, t, now, failing) {
        var b := Raised(prev[t]);
        assert RowsAfter(bs, n, now, failing) == prev[t := b];
        assert ResourcesAfter(tr, res, bs, n, now, failing) == UpdatePlanetStats(tr, before, prev[t := b], t, b.level);
        UpdatePlanetStatsRestoresMatch(tr, before, prev, t, b);
      } else {
        assert RowsAfter(bs, n, now, failing) == prev;
        assert ResourcesAfter(tr, res, bs, n, now, failing) == before;
      }
    }
  }

  /** After a completion the planet's production, energy and capacity figures match its building levels. */
  lemma CompleteDueKeepsStats(s: PlanetState, tr: Transcendentals, caller: UserId, now: int, failing: set<BuildingType>)
    requires RowMatchesLevels(tr, s.resources, s.buildings)
    ensures var o := CompleteDue(s, tr, caller, now, failing).state; RowMatchesLevels(tr, o.resources, o.buildings)
  {
    LoopKeepsStats(tr, s.resources, s.buildings, |AllBuildingTypes|, now, failing);
  }
  // ---------------------------------------------------------------------------------------
  // POST /api/building/cancel

  /** The amounts a cancellation gives back. */
  datatype Refund = Refund(metal: int, crystal: int, deuterium: int)

  /** Half of each stock component of a cost, rounded down. */
  function HalfCost(c: Resources): (r: Refund)
    ensures 2 * r.metal <= c.metal < 2 * r.metal + 2
    ensures 2 * r.crystal <= c.crystal < 2 * r.crystal + 2
    ensures 2 * r.deuterium <= c.deuterium < 2 * r.deuterium + 2
  {
    Refund(Floor(c.metal as real * 0.5), Floor(c.crystal as real * 0.5), Floor(c.deuterium as real * 0.5))
  }

  /** The refund added to the stored stock as it stands (no capacity cut-off), reconciled at `now`. */
  function Credit(r: PlanetResources, refund: Refund, now: int): PlanetResources
  {
    r.(metal := r.metal + refund.metal as real, crystal := r.crystal + refund.crystal as real,
       deuterium := r.deuterium + refund.deuterium as real, lastUpdated := now)
  }

  /** Whether the planet has an upgrading row of the type named in the request. */
  predicate UpgradingNamed(bs: map<BuildingType, Building>, name: string)
  {
    var t := ParseBuildingType(name);
    t.Some? && t.value in bs && bs[t.value].upgrading
  }

  /**
    The cancel route. Guards in order: type given, planet owned by the caller, an upgrading
    row of that type. The refund is half the cost at the row's STORED level. The flags are
    cleared first; if that write fails nothing is refunded. Then the refund is added to the
    stored stock, uncapped, and the row counts as reconciled at `now`.
   */
  function Cancel(s: PlanetState, caller: UserId, buildingType: string, clearWrites: bool, now: int): Step<Refund>
  {
    if buildingType == "" then Step(s, Err(MissingParameters))
    else if s.owner != Some(caller) then Step(s, Err(PlanetNotOwned))
    else if !UpgradingNamed(s.buildings, buildingType) then Step(s, Err(NoActiveUpgrade))
    else
      var t := ParseBuildingType(buildingType).value;
      var refund := HalfCost(BuildingCost(t, s.buildings[t].level));
      if !clearWrites then Step(s, Err(WriteFailed))
      else
        var bs := s.buildings[t := s.buildings[t].(upgrading := false, finishAt := None)];
        var res := match s.resources case None => None case Some(r) => Some(Credit(r, refund, now));
        Step(s.(buildings := bs, resources := res), Ok(refund))
  }

  /** Without an upgrading row of that type, or when clearing the flags fails, nothing changes. */
  lemma CancelFailuresChangeNothing(s: PlanetState, caller: UserId, buildingType: string, clearWrites: bool, now: int)
    ensures !UpgradingNamed(s.buildings, buildingType) ==>
      Cancel(s, caller, buildingType, clearWrites, now).state == s && Cancel(s, caller, buildingType, clearWrites, now).result.Err?
    ensures !clearWrites ==>
      Cancel(s, caller, buildingType, clearWrites, now).state == s && Cancel(s, caller, buildingType, clearWrites, now).result.Err?
  {
  }

  /**
    A successful cancel refunds half the cost at the stored level, clears the row's flags with
    its level kept, adds exactly the refund to each stock with the capacities untouched, and
    changes no other row.
   */
  lemma CancelRefundsHalf(s: PlanetState, caller: UserId, buildingType: string, clearWrites: bool, now: int)
    requires Cancel(s, caller, buildingType, clearWrites, now).result.Ok?
    ensures var o := Cancel(s, caller, buildingType, clearWrites, now);
      var t := ParseBuildingType(buildingType).value;
      && UpgradingNamed(s.buildings, buildingType) && clearWrites && s.owner == Some(caller)
      && o.result.value == HalfCost(BuildingCost(t, s.buildings[t].level))
      && o.state.buildings == s.buildings[t := s.buildings[t].(upgrading := false, finishAt := None)]
      && o.state.owner == s.owner
      && (s.resources.Some? ==>
            o.state.resources.Some? && (
            var r := s.resources.value; var r' := o.state.resources.value;
           && r'.metal == r.metal + o.result.value.metal as real
           && r'.crystal == r.crystal + o.result.value.crystal as real
           && r'.deuterium == r.deuterium + o.result.value.deuterium as real
           && r'.lastUpdated == now
           && r'.(metal := r.metal, crystal := r.crystal, deuterium := r.deuterium, lastUpdated := r.lastUpdated) == r))
  {
    var t := ParseBuildingType(buildingType).value;
    ParseTypeName(t);
  }

  /** The refund is not cut off at the capacity: a full store overflows by the refund. */
  lemma CancelCanOverfillStorage(s: PlanetState, caller: UserId, buildingType: string, now: int)
    requires Cancel(s, caller, buildingType, true, now).result.Ok?
    requires s.resources.Some? && s.resources.value.metal == s.resources.value.metalCapacity
    requires Cancel(s, caller, buildingType, true, now).result.value.metal > 0
    ensures Cancel(s, caller, buildingType, true, now).state.resources.value.metal > s.resources.value.metalCapacity
  {
  }

  /** Cancelling keeps the stored shape and the one-upgrade rule, and no level changes. */
  lemma CancelKeepsValid(s: PlanetState, caller: UserId, buildingType: string, clearWrites: bool, now: int)
    requires Valid(s)
    ensures var o := Cancel(s, caller, buildingType, clearWrites, now).state;
      Valid(o) && (AtMostOneUpgrading(s.buildings) ==> AtMostOneUpgrading(o.buildings))
      && o.buildings.Keys == s.buildings.Keys
      && forall t :: t in s.buildings ==> o.buildings[t].level == s.buildings[t].level
  {
  }

  /**
    A start followed by a cancel of the same building gives back half of what was charged,
    rounded down, when the client sent the stored level: the level does not change in between.
   */
  lemma StartThenCancel(s: PlanetState, tr: Transcendentals, caller: UserId, t: BuildingType,
                        rec: Reconciled, now: int, later: int)
    requires var o := StartUpgrade(s, tr, caller, UpgradeRequest(TypeName(t), Some(LevelOf(s.buildings, t))), rec, true, true, now);
      o.result.Ok?
    ensures var charged := BuildingCost(t, LevelOf(s.buildings, t));
      var o := StartUpgrade(s, tr, caller, UpgradeRequest(TypeName(t), Some(LevelOf(s.buildings, t))), rec, true, true, now);
      var c := Cancel(o.state, caller, TypeName(t), true, later);
      && c.result == Ok(HalfCost(charged))
      && 2 * c.result.value.metal <= charged.metal && 2 * c.result.value.crystal <= charged.crystal
      && 2 * c.result.value.deuterium <= charged.deuterium
  {
    ParseTypeName(t);
    StartSucceeds(s, tr, caller, UpgradeRequest(TypeName(t), Some(LevelOf(s.buildings, t))), rec, true, true, now);
  }

  /**
    Because the start route charges the client's level and the cancel route refunds the stored
    one, a client that sends level 0 for a level-5 metal mine pays 60 metal and gets 227 back.
   */
  lemma StaleLevelCancelProfits(tr: Transcendentals, caller: UserId, r: PlanetResources, now: int)
    requires r.metal >= 60.0 && r.crystal >= 15.0 && r.deuterium >= 0.0
    ensures var s := PlanetState(Some(caller), "", 1, Some(r), map[MetalMine := Building(MetalMine, 5, false, None)]);
      var rec := Reconciled(r.metal, r.crystal, r.deuterium, r.lastUpdated);
      var o := StartUpgrade(s, tr, caller, UpgradeRequest("metal_mine", Some(0)), rec, true, true, now);
      && o.result.Ok?
      && o.state.resources.value.metal == r.metal - 60.0
      && Cancel(o.state, caller, "metal_mine", true, now).result == Ok(Refund(227, 56, 0))
  {
    var s := PlanetState(Some(caller), "", 1, Some(r), map[MetalMine := Building(MetalMine, 5, false, None)]);
    assert !AnyUpgrading(s.buildings);
    BuildingCostAtZero(MetalMine);
    assert Pow(1.5, 5) == 7.59375 by {
      assert Pow(1.5, 1) == 1.5;
      assert Pow(1.5, 2) == 2.25;
      assert Pow(1.5, 3) == 3.375;
      assert Pow(1.5, 4) == 5.0625;
    }
    assert BuildingCost(MetalMine, 5) == Resources(455, 113, 0, 0, 0);
    assert HalfCost(BuildingCost(MetalMine, 5)) == Refund(227, 56, 0);
  }

  // ---------------------------------------------------------------------------------------
  // The stored figures stay in line with the building levels through every handler.

  /** A claimed planet's starter row matches its level-0 buildings, given exp(0) = 1. */
  lemma ClaimEstablishesStats(s: PlanetState, tr: Transcendentals, caller: UserId, now: int)
    requires Lawful(tr) && Valid(s) && s.owner.None?
    ensures var c := Claim(s, caller, now).state; RowMatchesLevels(tr, c.resources, c.buildings)
  {
    ClaimSeedsStarter(s, caller, now);
    var c := Claim(s, caller, now).state;
    assert LevelOf(c.buildings, MetalStorage) == 0 && LevelOf(c.buildings, CrystalStorage) == 0;
    assert LevelOf(c.buildings, DeuteriumTank) == 0;
    assert StorageCapacity(tr, 0) == 10000;
  }

  /** Starting an upgrade changes no level, so the figures stay in line. */
  lemma StartKeepsStats(s: PlanetState, tr: Transcendentals, caller: UserId, req: UpgradeRequest,
                        rec: Reconciled, dw: bool, rw: bool, now: int)
    requires RowMatchesLevels(tr, s.resources, s.buildings)
    ensures var o := StartUpgrade(s, tr, caller, req, rec, dw, rw, now).state; RowMatchesLevels(tr, o.resources, o.buildings)
  {
    var o := StartUpgrade(s, tr, caller, req, rec, dw, rw, now);
    if o.result.Ok? {
      StartSucceeds(s, tr, caller, req, rec, dw, rw, now);
      forall u
        ensures LevelOf(o.state.buildings, u) == LevelOf(s.buildings, u)
      {
      }
    }
  }

  /** Cancelling changes no level, so the figures stay in line. */
  lemma CancelKeepsStats(s: PlanetState, tr: Transcendentals, caller: UserId, buildingType: string, clearWrites: bool, now: int)
    requires RowMatchesLevels(tr, s.resources, s.buildings)
    ensures var o := Cancel(s, caller, buildingType, clearWrites, now).state; RowMatchesLevels(tr, o.resources, o.buildings)
  {
    var o := Cancel(s, caller, buildingType, clearWrites, now).state;
    forall u
      ensures LevelOf(o.buildings, u) == LevelOf(s.buildings, u)
    {
    }
  }

  // ---------------------------------------------------------------------------------------
  // startBuildingUpgrade and completeBuildingUpgrade (supabase/queries.ts)

  /** The rows after a single-row write, and the row the write answers (none on failure). */
  datatype RowWrite = RowWrite(buildings: map<BuildingType, Building>, row: Option<Building>)

  /** startBuildingUpgrade: mark an existing row upgrading with a deadline, level untouched. */
  function MarkUpgrading(bs: map<BuildingType, Building>, t: BuildingType, finishAt: int, writeOk: bool): RowWrite
  {
    if t in bs && writeOk then
      var b := bs[t].(upgrading := true, finishAt := Some(finishAt));
      RowWrite(bs[t := b], Some(b))
    else RowWrite(bs, None)
  }

  /** completeBuildingUpgrade: raise an existing row one level and clear its flags. */
  function RaiseLevel(bs: map<BuildingType, Building>, t: BuildingType, writeOk: bool): RowWrite
  {
    if t in bs && writeOk then RowWrite(bs[t := Raised(bs[t])], Some(Raised(bs[t])))
    else RowWrite(bs, None)
  }

  /** Marking keeps the level and sets flag and deadline; a missing row or a failed write changes nothing. */
  lemma MarkUpgradingEffect(bs: map<BuildingType, Building>, t: BuildingType, finishAt: int, writeOk: bool)
    ensures var w := MarkUpgrading(bs, t, finishAt, writeOk);
      && (w.row.None? <==> t !in bs || !writeOk)
      && (w.row.None? ==> w.buildings == bs)
      && (w.row.Some? ==> w.row.value == bs[t].(upgrading := true, finishAt := Some(finishAt))
                          && w.row.value.level == bs[t].level)
      && (w.row.Some? ==> w.buildings.Keys == bs.Keys && w.buildings[t] == w.row.value)
      && (forall u :: u in bs && u != t ==> w.buildings[u] == bs[u])
  {
  }

  /** Unlike the start route, the helper does not check for another upgrade, so it can break the rule. */
  lemma MarkUpgradingCanBreakOneUpgradeRule()
    ensures var bs := map[MetalMine := Building(MetalMine, 1, true, Some(10)), CrystalMine := Building(CrystalMine, 1, false, None)];
      AtMostOneUpgrading(bs) && !AtMostOneUpgrading(MarkUpgrading(bs, CrystalMine, 20, true).buildings)
  {
    var bs := map[MetalMine := Building(MetalMine, 1, true, Some(10)), CrystalMine := Building(CrystalMine, 1, false, None)];
    var w := MarkUpgrading(bs, CrystalMine, 20, true).buildings;
    assert w[MetalMine].upgrading && w[CrystalMine].upgrading;
  }

  /** Raising gives the row the completion route gives a due row; a missing row answers nothing. */
  lemma RaiseLevelEffect(bs: map<BuildingType, Building>, t: BuildingType, writeOk: bool, now: int)
    ensures var w := RaiseLevel(bs, t, writeOk);
      && (w.row.None? <==> t !in bs || !writeOk)
      && (w.row.None? ==> w.buildings == bs)
      && (w.row.Some? ==> w.row.value == bs[t].(level := bs[t].level + 1, upgrading := false, finishAt := None))
      && (w.row.Some? ==> w.buildings.Keys == bs.Keys && w.buildings[t] == w.row.value)
      && (forall u :: u in bs && u != t ==> w.buildings[u] == bs[u])
    ensures Completes(bs, t, now, {}) ==> RaiseLevel(bs, t, true).row.value == Settled(bs, now, {})[t]
  {
  }
}
