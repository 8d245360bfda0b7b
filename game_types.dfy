/**
  The records of the game's economy: building types and their catalog entries, resource
  amounts, a planet's resource row and its building rows, and the error kinds the request
  handlers answer with.
 */
module GameTypes {
  import opened Wrappers

  type UserId = nat
  type PlanetId = nat

  /** The fourteen building types, in the order the catalog declares them. */
  datatype BuildingType =
    | MetalMine | CrystalMine | DeuteriumSynthesizer | SolarPlant | FusionReactor
    | MetalStorage | CrystalStorage | DeuteriumTank
    | CommandCenter | ResearchLab | Shipyard | DefenseFactory
    | SensorStation | TradePost

  /** The building types in catalog order. */
  const AllBuildingTypes: seq<BuildingType> := [
    MetalMine, CrystalMine, DeuteriumSynthesizer, SolarPlant, FusionReactor,
    MetalStorage, CrystalStorage, DeuteriumTank,
    CommandCenter, ResearchLab, Shipyard, DefenseFactory,
    SensorStation, TradePost]

  lemma AllBuildingTypesComplete(t: BuildingType)
    ensures t in AllBuildingTypes
    ensures |AllBuildingTypes| == 14
    ensures forall i, j :: 0 <= i < j < |AllBuildingTypes| ==> AllBuildingTypes[i] != AllBuildingTypes[j]
  {
  }

  /** A loop over the catalog meets each type once: the next type is not among those already visited. */
  lemma NextTypeUnvisited(n: nat)
    requires 0 < n <= |AllBuildingTypes|
    ensures AllBuildingTypes[n - 1] !in AllBuildingTypes[..n - 1]
  {
    AllBuildingTypesComplete(MetalMine);
    assert forall i :: 0 <= i < n - 1 ==> AllBuildingTypes[..n - 1][i] == AllBuildingTypes[i];
  }

  /** The identifier a building type has in requests and rows. */
  function TypeName(t: BuildingType): string
  {
    match t
    case MetalMine => "metal_mine"
    case CrystalMine => "crystal_mine"
    case DeuteriumSynthesizer => "deuterium_synthesizer"
    case SolarPlant => "solar_plant"
    case FusionReactor => "fusion_reactor"
    case MetalStorage => "metal_storage"
    case CrystalStorage => "crystal_storage"
    case DeuteriumTank => "deuterium_tank"
    case CommandCenter => "command_center"
    case ResearchLab => "research_lab"
    case Shipyard => "shipyard"
    case DefenseFactory => "defense_factory"
    case SensorStation => "sensor_station"
    case TradePost => "trade_post"
  }

  /** The catalog lookup by identifier: an identifier outside the catalog finds nothing. */
  function ParseBuildingType(s: string): (r: Option<BuildingType>)
    ensures r.Some? ==> TypeName(r.value) == s
  {
    if s == "metal_mine" then Some(MetalMine)
    else if s == "crystal_mine" then Some(CrystalMine)
    else if s == "deuterium_synthesizer" then Some(DeuteriumSynthesizer)
    else if s == "solar_plant" then Some(SolarPlant)
    else if s == "fusion_reactor" then Some(FusionReactor)
    else if s == "metal_storage" then Some(MetalStorage)
    else if s == "crystal_storage" then Some(CrystalStorage)
    else if s == "deuterium_tank" then Some(DeuteriumTank)
    else if s == "command_center" then Some(CommandCenter)
    else if s == "research_lab" then Some(ResearchLab)
    else if s == "shipyard" then Some(Shipyard)
    else if s == "defense_factory" then Some(DefenseFactory)
    else if s == "sensor_station" then Some(SensorStation)
    else if s == "trade_post" then Some(TradePost)
    else None
  }

  /** Every catalog identifier is found again, so lookup and naming are inverse. */
  lemma ParseTypeName(t: BuildingType)
    ensures ParseBuildingType(TypeName(t)) == Some(t)
  {
    match t
    case MetalMine =>
    case CrystalMine =>
    case DeuteriumSynthesizer =>
    case SolarPlant =>
    case FusionReactor =>
    case MetalStorage =>
    case CrystalStorage =>
    case DeuteriumTank =>
    case CommandCenter =>
    case ResearchLab =>
    case Shipyard =>
    case DefenseFactory =>
    case SensorStation =>
    case TradePost =>
  }

  datatype Category = Production | Storage | Infrastructure | Special

  /** An amount of each resource (a cost, a refund). */
  datatype Resources = Resources(metal: int, crystal: int, deuterium: int, energy: int, rareEarth: int)

  datatype ResourceKind = Metal | Crystal | Deuterium | Energy | RareEarth

  function Component(r: Resources, k: ResourceKind): int
  {
    match k
    case Metal => r.metal
    case Crystal => r.crystal
    case Deuterium => r.deuterium
    case Energy => r.energy
    case RareEarth => r.rareEarth
  }

  datatype Requirement = Requirement(building: BuildingType, level: nat)

  /** A catalog entry. The descriptions are display text and are not modelled. */
  datatype BuildingDefinition = BuildingDefinition(
    kind: BuildingType,
    name: string,
    category: Category,
    baseCost: Resources,
    costMultiplier: real,
    baseBuildTime: nat,
    maxLevel: nat,
    requirements: seq<Requirement>)

  /** A building row of a planet; `finishAt` is the upgrade deadline in milliseconds. */
  datatype Building = Building(kind: BuildingType, level: nat, upgrading: bool, finishAt: Option<int>)

  /**
    A planet's resource row: stock (fractional between reconciliations), hourly rates, energy
    figures, storage capacities and the instant (milliseconds) of the last reconciliation.
   */
  datatype PlanetResources = PlanetResources(
    metal: real, crystal: real, deuterium: real, rareEarth: real,
    metalProduction: real, crystalProduction: real, deuteriumProduction: real,
    energyProduction: real, energyConsumption: real,
    metalCapacity: real, crystalCapacity: real, deuteriumCapacity: real,
    lastUpdated: int)

  /** The error answers of the handlers, one per distinguishable failure. */
  datatype ApiError =
    | MissingParameters        // a required request field is absent or empty
    | InvalidBuildingType      // the type is not in the catalog
    | MaxLevelReached          // the (client-supplied) level is at the catalog maximum
    | PlanetNotOwned           // the planet does not exist or belongs to someone else
    | UpgradeInProgress        // another building of the planet is upgrading
    | InsufficientResources    // stock below the cost
    | NoActiveUpgrade          // cancel found no upgrading building of that type
    | AlreadyColonized         // the target planet has an owner
    | NoResourcesAvailable     // the main planet has no resource row
    | ResourcesNotFound        // the planet has no resource row
    | WriteFailed              // a storage write reported an error

  /** The HTTP status each error is answered with. */
  function Status(e: ApiError): (code: int)
    ensures code in {400, 403, 404, 500}
    ensures code == 500 <==> e == WriteFailed
  {
    match e
    case MissingParameters => 400
    case InvalidBuildingType => 400
    case MaxLevelReached => 400
    case PlanetNotOwned => 403
    case UpgradeInProgress => 400
    case InsufficientResources => 400
    case NoActiveUpgrade => 400
    case AlreadyColonized => 400
    case NoResourcesAvailable => 400
    case ResourcesNotFound => 404
    case WriteFailed => 500
  }
}
