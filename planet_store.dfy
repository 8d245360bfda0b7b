/**
  One planet's stored rows as an object, and the request handlers and storage helpers that
  change them in place. Each method is proved to leave exactly the state (and give exactly
  the answer) that the corresponding function of Lifecycle or Accrual describes; the
  properties of the handlers are proved about those functions.
 */
module PlanetStore {
  import opened Wrappers
  import opened Numeric
  import opened GameTypes
  import opened Buildings
  import opened Accrual
  import opened Lifecycle

  class Planet {
    var owner: Option<UserId>
    var name: string
    var sector: int
    var resources: Option<PlanetResources>
    var buildings: map<BuildingType, Building>

    /** An unclaimed planet of the galaxy: no owner and no rows. */
    constructor (name: string, sector: int)
      ensures State() == Unclaimed(name, sector)
      ensures Valid()
    {
      this.owner := None;
      this.name := name;
      this.sector := sector;
      this.resources := None;
      this.buildings := map[];
    }

    function State(): PlanetState
      reads this
    {
      PlanetState(owner, name, sector, resources, buildings)
    }

    predicate Valid()
      reads this
    {
      Lifecycle.Valid(State())
    }

    /** deductResources: reconcile the row, then debit the amounts if every stock covers them. */
    method DeductResources(metal: int, crystal: int, deuterium: int, rec: Reconciled, writeOk: bool, now: int)
      returns (ok: bool)
      modifies this
      ensures ok == Deduct(old(resources), metal, crystal, deuterium, rec, writeOk, now).ok
      ensures State() == old(State()).(resources := Deduct(old(resources), metal, crystal, deuterium, rec, writeOk, now).resources)
    {
      if resources.Some? {
        var r := resources.value;
        resources := Some(r.(metal := rec.metal, crystal := rec.crystal, deuterium := rec.deuterium,
                             lastUpdated := rec.lastUpdated));
      }
      if resources.None? {
        return false;
      }
      var r := resources.value;
      if r.metal < metal as real || r.crystal < crystal as real || r.deuterium < deuterium as real {
        return false;
      }
      if !writeOk {
        return false;
      }
      resources := Some(r.(metal := r.metal - metal as real, crystal := r.crystal - crystal as real,
                           deuterium := r.deuterium - deuterium as real, lastUpdated := now));
      ok := true;
    }

    /** POST /api/building/upgrade. */
    method PostUpgrade(tr: Transcendentals, caller: UserId, req: UpgradeRequest, rec: Reconciled,
                       debitWrites: bool, rowWrites: bool, now: int)
      returns (result: Result<Started, ApiError>)
      requires Valid()
      modifies this
      ensures Step(State(), result) == StartUpgrade(old(State()), tr, caller, req, rec, debitWrites, rowWrites, now)
      ensures Valid()
    {
      StartLeavesOneUpgrading(State(), tr, caller, req, rec, debitWrites, rowWrites, now);
      if req.buildingType == "" || req.currentLevel.None? {
        return Err(MissingParameters);
      }
      var parsed := ParseBuildingType(req.buildingType);
      if parsed.None? {
        return Err(InvalidBuildingType);
      }
      var t := parsed.value;
      var level := req.currentLevel.value;
      if level >= Definition(t).maxLevel {
        return Err(MaxLevelReached);
      }
      if owner != Some(caller) {
        return Err(PlanetNotOwned);
      }
      var rows := buildings;
      if AnyUpgrading(rows) {
        return Err(UpgradeInProgress);
      }
      var cost := BuildingCost(t, level);
      var deducted := DeductResources(cost.metal, cost.crystal, cost.deuterium, rec, debitWrites, now);
      if !deducted {
        return Err(InsufficientResources);
      }
      var seconds := BuildTime(tr, t, level + 1, LevelOf(rows, CommandCenter));
      var finishAt := now + seconds * 1000;
      var b: Building;
      if t !in rows {
        b := Building(t, 0, true, Some(finishAt));
      } else {
        b := rows[t].(upgrading := true, finishAt := Some(finishAt));
      }
      if !rowWrites {
        return Err(WriteFailed);
      }
      buildings := rows[t := b];
      result := Ok(Started(b, finishAt, seconds));
    }

    /** updatePlanetStats: recompute the figures after `t` reached `newLevel`. */
    method UpdateStats(tr: Transcendentals, t: BuildingType, newLevel: nat)
      modifies this
      ensures State() == old(State()).(resources := UpdatePlanetStats(tr, old(resources), old(buildings), t, newLevel))
    {
      if resources.None? {
        return;
      }
      var r := resources.value;
      if t in {MetalMine, CrystalMine, DeuteriumSynthesizer, SolarPlant} {
        var f := FiguresFor(
          if t == MetalMine then newLevel else LevelOf(buildings, MetalMine),
          if t == CrystalMine then newLevel else LevelOf(buildings, CrystalMine),
          if t == DeuteriumSynthesizer then newLevel else LevelOf(buildings, DeuteriumSynthesizer),
          if t == SolarPlant then newLevel else LevelOf(buildings, SolarPlant));
        r := r.(metalProduction := f.metalProduction, crystalProduction := f.crystalProduction,
                deuteriumProduction := f.deuteriumProduction, energyProduction := f.energyProduction,
                energyConsumption := f.energyConsumption);
      }
      var capacity := StorageCapacity(tr, newLevel) as real;
      if t == MetalStorage {
        r := r.(metalCapacity := capacity);
      } else if t == CrystalStorage {
        r := r.(crystalCapacity := capacity);
      } else if t == DeuteriumTank {
        r := r.(deuteriumCapacity := capacity);
      }
      resources := Some(r);
    }

    /**
      POST /api/building/complete. The loop visits the catalog types in order and completes
      those whose row is due; `failing` names the rows whose write fails.
     */
    method PostComplete(tr: Transcendentals, caller: UserId, now: int, failing: set<BuildingType>)
      returns (result: Result<CompleteResponse, ApiError>)
      requires Valid()
      modifies this
      ensures Step(State(), result) == CompleteDue(old(State()), tr, caller, now, failing)
      ensures Valid()
    {
      CompleteDueKeepsValid(State(), tr, caller, now, failing);
      if owner != Some(caller) {
        return Err(PlanetNotOwned);
      }
      ghost var rows0 := buildings;
      ghost var res0 := resources;
      var completed: seq<Completed> := [];
      for i := 0 to |AllBuildingTypes|
        invariant buildings == RowsAfter(rows0, i, now, failing)
        invariant resources == ResourcesAfter(tr, res0, rows0, i, now, failing)
        invariant completed == ListAfter(rows0, i, now, failing)
        invariant owner == old(owner) && name == old(name) && sector == old(sector)
      {
        var t := AllBuildingTypes[i];
        if t in buildings && Due(buildings[t], now) && t !in failing {
          var newLevel := buildings[t].level + 1;
          buildings := buildings[t := buildings[t].(level := newLevel, upgrading := false, finishAt := None)];
          completed := completed + [Completed(t, newLevel)];
          UpdateStats(tr, t, newLevel);
        }
      }
      result := Ok(CompleteResponse(completed, |completed| > 0));
    }

    /** POST /api/building/cancel. */
    method PostCancel(caller: UserId, buildingType: string, clearWrites: bool, now: int)
      returns (result: Result<Refund, ApiError>)
      requires Valid()
      modifies this
      ensures Step(State(), result) == Cancel(old(State()), caller, buildingType, clearWrites, now)
      ensures Valid()
    {
      CancelKeepsValid(State(), caller, buildingType, clearWrites, now);
      if buildingType == "" {
        return Err(MissingParameters);
      }
      if owner != Some(caller) {
        return Err(PlanetNotOwned);
      }
      var parsed := ParseBuildingType(buildingType);
      if parsed.None? || parsed.value !in buildings || !buildings[parsed.value].upgrading {
        return Err(NoActiveUpgrade);
      }
      var t := parsed.value;
      var refund := HalfCost(BuildingCost(t, buildings[t].level));
      if !clearWrites {
        return Err(WriteFailed);
      }
      buildings := buildings[t := buildings[t].(upgrading := false, finishAt := None)];
      if resources.Some? {
        var r := resources.value;
        resources := Some(r.(metal := r.metal + refund.metal as real, crystal := r.crystal + refund.crystal as real,
                             deuterium := r.deuterium + refund.deuterium as real, lastUpdated := now));
      }
      result := Ok(refund);
    }

    /**
      GET /api/planet/resources: the row projected to `now`; the projection is written back
      (and the row reconciled at `now`) only once more than a minute has passed.
     */
    method GetResources(caller: UserId, now: int) returns (result: Result<PlanetResources, ApiError>)
      modifies this
      ensures old(owner) != Some(caller) ==> result == Err(PlanetNotOwned) && State() == old(State())
      ensures old(owner) == Some(caller) && old(resources).None? ==>
        result == Err(ResourcesNotFound) && State() == old(State())
      ensures old(owner) == Some(caller) && old(resources).Some? ==>
        var r := old(resources).value;
        && result == Ok(Projected(r, now))
        && State() == old(State()).(resources := if ShouldWriteBack(r.lastUpdated, now) then Some(WrittenBack(r, now)) else Some(r))
    {
      if owner != Some(caller) {
        return Err(PlanetNotOwned);
      }
      if resources.None? {
        return Err(ResourcesNotFound);
      }
      var r := resources.value;
      var hours := HoursPassed(r.lastUpdated, now);
      var ratio := EnergyRatio(r);
      var projected := r.(metal := ProjectStock(r.metal, r.metalProduction, hours, ratio, r.metalCapacity),
                          crystal := ProjectStock(r.crystal, r.crystalProduction, hours, ratio, r.crystalCapacity),
                          deuterium := ProjectStock(r.deuterium, r.deuteriumProduction, hours, ratio, r.deuteriumCapacity));
      assert projected == Projected(r, now);
      if ShouldWriteBack(r.lastUpdated, now) {
        resources := Some(projected.(lastUpdated := now));
      }
      result := Ok(projected);
    }

    /** claimStarterPlanet: claim an unowned planet and seed its starter row and buildings. */
    method ClaimStarter(caller: UserId, now: int) returns (claimed: bool)
      requires Valid()
      modifies this
      ensures ClaimOutcome(State(), claimed) == Claim(old(State()), caller, now)
      ensures Valid()
    {
      if owner.Some? {
        return false;
      }
      ghost var expected := Claim(State(), caller, now).state;
      ClaimKeepsValid(State(), caller, now);
      owner := Some(caller);
      if resources.None? {
        resources := Some(StarterResources(now));
      }
      SeedRows(StarterTypes);
      claimed := true;
      assert State() == expected;
    }

    /** The claim's seeding loop: a level-0 row for each listed type the planet lacks. */
    method SeedRows(types: seq<BuildingType>)
      modifies this
      ensures State() == old(State()).(buildings := Seed(old(buildings), types))
    {
      for i := 0 to |types|
        invariant State() == old(State()).(buildings := Seed(old(buildings), types[..i]))
      {
        var t := types[i];
        assert types[..i + 1][..i] == types[..i];
        if t !in buildings {
          buildings := buildings[t := Building(t, 0, false, None)];
        }
      }
      assert types[..|types|] == types;
    }

    /** startBuildingUpgrade: mark an existing row upgrading; a missing row or failed write answers none. */
    method StartBuildingUpgrade(t: BuildingType, finishAt: int, writeOk: bool) returns (row: Option<Building>)
      modifies this
      ensures RowWrite(buildings, row) == MarkUpgrading(old(buildings), t, finishAt, writeOk)
      ensures owner == old(owner) && name == old(name) && sector == old(sector) && resources == old(resources)
    {
      if t !in buildings || !writeOk {
        return None;
      }
      var b := buildings[t].(upgrading := true, finishAt := Some(finishAt));
      buildings := buildings[t := b];
      row := Some(b);
    }

    /** completeBuildingUpgrade: raise an existing row one level and clear its flags. */
    method CompleteBuildingUpgrade(t: BuildingType, writeOk: bool) returns (row: Option<Building>)
      modifies this
      ensures RowWrite(buildings, row) == RaiseLevel(old(buildings), t, writeOk)
      ensures owner == old(owner) && name == old(name) && sector == old(sector) && resources == old(resources)
    {
      if t !in buildings {
        return None;
      }
      var b := buildings[t];
      if !writeOk {
        return None;
      }
      b := b.(level := b.level + 1, upgrading := false, finishAt := None);
      buildings := buildings[t := b];
      row := Some(b);
    }
  }
}
