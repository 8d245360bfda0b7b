# Vastum planet economy, in Dafny

Vastum is a browser space-strategy game. Players own planets in a galaxy of 25 sectors. On
each planet they upgrade buildings that mine metal, crystal and deuterium, produce energy,
store resources or unlock other functions. This project models that per-planet economy and
proves properties about it:

- **Catalog and formulas** (`game_types.dfy`, `buildings.dfy`): the fourteen building types
  and their catalog entries. Also the upgrade cost, build time, mine production, solar
  output, mine energy draw and storage capacity formulas.
- **Resource accrual** (`accrual.dfy`, `total_resources.dfy`): how the resources route
  projects a planet's stored stock to the present, and when it writes the projection back.
  Also the header totals over all of a user's planets.
- **Upgrade lifecycle** (`lifecycle.dfy`): starting, lazily completing and cancelling an
  upgrade, the claim of a starter planet, and the storage helpers those use. Each is a
  function from the stored planet to the stored planet plus the answer.
- **The planet as an object** (`planet_store.dfy`): a class whose fields are the stored rows.
  Its request-handler methods change them in place, and each method is proved to reach exactly
  the state the matching function describes.
- **Sign-in, colonisation and the galaxy** (`users.dfy`, `colonize.dfy`, `sectors.dfy`): the
  user table at sign-in, colonising a further planet and its distance-based cost, and the
  per-sector counts of the galaxy map.
- **Fleets, formatting and routing** (`ships.dfy`, `utils.dfy`, `middleware.dfy`): fleet
  arithmetic, the duration and number formatting and travel time, and the login guard.
- **The building list** (`building_list.dfy`): the client logic of the building list. It
  groups the buildings by category and locks the ones whose requirements are unmet. It also
  decides whether an upgrade is affordable, ticks the countdowns and formats them, and
  states the gains an upgrade brings.

### Modelling choices

- Times are whole milliseconds. Stocks, rates and capacities are `real`, because the game
  stores fractional stock between reconciliations. Levels are natural numbers.
- `Math.sqrt`, `Math.exp` and `x ** 1.5` are values supplied by the caller (`Transcendentals`).
  Only the facts the properties need are assumed about them (`Lawful`): zero at zero or one
  at zero, non-negative, monotone. Powers with natural exponents are computed exactly.
- The database is the class's fields. A failing write is a boolean or set parameter.
- The stored procedure that reconciles a resource row is a parameter. It supplies new values
  for the three stocks and for the reconciliation instant, and nothing else changes.
- Where a handler uses JavaScript's `%` on a possibly negative number, the model writes out
  JavaScript's truncating remainder (`JsRem`).

### Behaviour worth knowing

Where the game's design notes and the code differ, the model follows the code:

- The upgrade route does not check prerequisites. A freshly claimed planet can start the
  shipyard, which the catalog locks behind command center level 2
  (`Lifecycle.LockedShipyardCanStart`).
- The upgrade route charges the cost at the level the client sends. The cancel route refunds
  half the cost at the stored level. A client that sends level 0 for a level-5 metal mine
  pays 60 metal and gets 227 back (`Lifecycle.StaleLevelCancelProfits`). With the stored
  level sent, start then cancel refunds exactly half, rounded down
  (`Lifecycle.StartThenCancel`).
- Steps are not atomic:
  - a failed building-row write after a successful debit keeps the debit;
  - a failed owner write during colonisation keeps the colonisation debit
    (`Colonize.OwnerWriteFailureKeepsDebit`).
- The refund is added to the stored stock with no capacity cut-off
  (`Lifecycle.CancelCanOverfillStorage`).
- Cancel and colonisation set the reconciliation instant to the present without first
  accruing production. The production since the last reconciliation is therefore lost.
- Colonisation checks the main planet's stored stock, not its projection.

## Model

| member | source | states |
|---|---|---|
| GameTypes.AllBuildingTypesComplete | game/src/lib/game/buildings.ts:6-179 | the catalog lists exactly fourteen distinct types and every type is among them |
| GameTypes.ParseBuildingType | game/src/lib/game/buildings.ts:6-179 | a lookup by identifier that finds a type finds the type with that identifier |
| GameTypes.ParseTypeName | game/src/lib/game/buildings.ts:6-179 | every type's identifier is found again, so naming and lookup are inverse |
| GameTypes.Status | game/src/app/api/building/upgrade/route.ts:30-166 | the handlers answer 400, 403, 404 or 500, and 500 exactly for a failed write |
| Numeric.JsRem | game/src/app/api/planet/colonize/route.ts:11 | JavaScript's remainder: equal to the Euclidean one for a non-negative dividend, otherwise between -b and 0 |
| Numeric.JsRemIsTruncatedRemainder | game/src/app/api/planet/colonize/route.ts:11 | the JavaScript remainder differs from the dividend by a multiple of the divisor and, for a negative dividend, lies in (-b, 0] |
| Buildings.Definition | game/src/lib/game/buildings.ts:6-179 | every entry has multiplier above 1, positive build time and maximum level, no energy or rare-earth cost, a base cost that grows by at least 1 per level, and requirements of lower rank |
| Buildings.RequirementsAcyclic | game/src/lib/game/buildings.ts:6-179 | no building is among its own transitive prerequisites |
| Buildings.BuildingCostAtZero | game/src/lib/game/buildings.ts:184-198 | the cost at level 0 is the base cost |
| Buildings.BuildingCostIncreases | game/src/lib/game/buildings.ts:184-198 | from one level to the next no component falls and every component with a non-zero base strictly grows |
| Buildings.BuildingCostMonotone | game/src/lib/game/buildings.ts:184-198 | a higher level never costs less in any component |
| Buildings.MetalMineFirstCosts | game/src/lib/game/buildings.ts:184-198 | the metal mine costs 60/15 at level 0 and 90/22 at level 1 |
| Buildings.BuildingCost | game/src/lib/game/buildings.ts:184-198 | calculateBuildingCost: floor(base · multiplier^level) per component; characterised by BuildingCostAtZero, BuildingCostIncreases, BuildingCostMonotone and MetalMineFirstCosts |
| Buildings.BuildTime | game/src/lib/game/buildings.ts:204-212 | calculateBuildTime: ceil(base · level^1.5 / (1 + 0.1 · command center level)); characterised by BuildTimeNonNegative, BuildTimeFallsWithCommandCenter and BuildTimeGrowsWithLevel |
| Buildings.BuildTimeNonNegative | game/src/lib/game/buildings.ts:204-212 | a build time is never negative |
| Buildings.BuildTimeFallsWithCommandCenter | game/src/lib/game/buildings.ts:204-212 | a higher command center level never lengthens a build |
| Buildings.BuildTimeGrowsWithLevel | game/src/lib/game/buildings.ts:204-212 | a higher target level never shortens a build |
| Buildings.MineProduction | game/src/lib/game/buildings.ts:218-232 | a level-0 mine produces nothing; a non-negative planet bonus gives non-negative production |
| Buildings.MineProductionMonotone | game/src/lib/game/buildings.ts:218-232 | production never falls with the level |
| Buildings.SolarEnergy | game/src/lib/game/buildings.ts:237-240 | a level-0 plant gives nothing; output is non-negative under a non-negative bonus |
| Buildings.SolarEnergyMonotone | game/src/lib/game/buildings.ts:237-240 | solar output never falls with the level |
| Buildings.EnergyConsumption | game/src/lib/game/buildings.ts:245-257 | a level-0 mine draws nothing and no mine draws a negative amount |
| Buildings.EnergyConsumptionMonotone | game/src/lib/game/buildings.ts:245-257 | energy draw never falls with the level |
| Buildings.StorageCapacity | game/src/lib/game/buildings.ts:262-265 | capacity is a multiple of 5000 and 10000 at level 0 |
| Buildings.StorageCapacityMonotone | game/src/lib/game/buildings.ts:262-265 | capacity never falls with the level |
| Accrual.EnergyRatio | game/src/app/api/planet/resources/route.ts:76-78 | 1 without production; otherwise in (0, 1]: 1 when production is at least max(1, consumption), otherwise production / max(1, consumption), which is the production itself when consumption is below 1 |
| Accrual.ProjectStock | game/src/app/api/planet/resources/route.ts:81-92 | a projected stock never exceeds its capacity and is either the capacity or stock plus rate times hours times ratio |
| Accrual.Projected | game/src/app/api/planet/resources/route.ts:80-113 | the answered row is within capacity, and only metal, crystal and deuterium differ from the stored row |
| Accrual.WrittenBack | game/src/app/api/planet/resources/route.ts:94-105 | the written-back row is the projection reconciled at the present |
| Accrual.WriteBackThreshold | game/src/app/api/planet/resources/route.ts:95 | "more than 1/60 hour" is exactly "more than 60000 ms" |
| Accrual.ProjectStockGrows | game/src/app/api/planet/resources/route.ts:81-92 | with non-negative rate and time a stock within capacity does not fall |
| Accrual.ProjectionNeverShrinks | game/src/app/api/planet/resources/route.ts:71-92 | with non-negative rates and time moving forward no stock within capacity shrinks |
| Accrual.ProjectionAtSameInstant | game/src/app/api/planet/resources/route.ts:71-92 | at the reconciliation instant the projection only applies the capacity cut-off |
| Accrual.RepeatedReadsAgree | game/src/app/api/planet/resources/route.ts:71-113 | a second read at the same instant, after whatever the first stored, answers the same stocks and the same row up to the reconciliation instant (no double accrual) |
| Accrual.ReadAfterWriteBack | game/src/app/api/planet/resources/route.ts:94-113 | a read right after a write-back answers the stored row unchanged |
| TotalResources.Contribution | game/src/app/api/user/total-resources/route.ts:51-82 | one planet's share of the totals; characterised by ContributionMeaning and ThrottledBelowRaw |
| TotalResources.ContributionMeaning | game/src/app/api/user/total-resources/route.ts:51-82 | a rowless planet adds nothing; otherwise its projected stocks (within capacity) and its raw energy figures |
| TotalResources.Total | game/src/app/api/user/total-resources/route.ts:31-96 | no planets answers nothing; otherwise the eight sums (held in one record) over the planets in order |
| TotalResources.SumAppend | game/src/app/api/user/total-resources/route.ts:44-83 | sums split over consecutive runs of planets |
| TotalResources.RowlessPlanetAddsNothing | game/src/app/api/user/total-resources/route.ts:51 | a planet without a resource row changes no total |
| TotalResources.TotalWithinCapacity | game/src/app/api/user/total-resources/route.ts:61-74 | for each of metal, crystal and deuterium the total never exceeds the summed capacity |
| TotalResources.ScaledProductionBelowRaw | game/src/app/api/user/total-resources/route.ts:57-79 | for each of metal, crystal and deuterium the throttled rate total lies between 0 and the raw total |
| TotalResources.ThrottledBelowRaw | game/src/app/api/user/total-resources/route.ts:57-79 | for each of metal, crystal and deuterium one planet's throttled rate lies between 0 and its raw rate |
| Lifecycle.Reconcile | game/src/lib/supabase/queries.ts:301-302 | the procedure changes only the three stocks and the reconciliation instant of an existing row |
| Lifecycle.Deduct | game/src/lib/supabase/queries.ts:293-334 | the debit happens iff a row exists, covers all three amounts after reconciliation and the write succeeds; it subtracts exactly the amounts and stamps the present |
| Lifecycle.DeductKeepsStocksNonNegative | game/src/lib/supabase/queries.ts:313-331 | a debit never drives a stock below zero |
| Lifecycle.StartUpgrade | game/src/app/api/building/upgrade/route.ts:30-178 | the start route's new state and answer; characterised by StartRejectsBadRequests, StartRejectsSecondUpgrade, StartRejectsUnaffordable, StartSucceeds and StartLeavesOneUpgrading |
| Lifecycle.StartRejectsBadRequests | game/src/app/api/building/upgrade/route.ts:30-52 | missing parameters, an unknown type and a level at the maximum are refused with no change |
| Lifecycle.StartRejectsSecondUpgrade | game/src/app/api/building/upgrade/route.ts:80-89 | with a building upgrading, a start fails and changes nothing; for the owner with a valid request the error is "upgrade in progress" |
| Lifecycle.StartRejectsUnaffordable | game/src/app/api/building/upgrade/route.ts:91-107 | an unaffordable cost is refused, leaving only the reconciliation |
| Lifecycle.StartSucceeds | game/src/app/api/building/upgrade/route.ts:91-178 | a success debits exactly the cost at the client's level, sets the deadline now + build time, keeps the level and touches no other row |
| Lifecycle.StartLeavesOneUpgrading | game/src/app/api/building/upgrade/route.ts:80-171 | a start keeps the stored shape, and after success exactly the started building is upgrading |
| Lifecycle.LockedShipyardCanStart | game/src/app/api/building/upgrade/route.ts:37-107 | prerequisites are not checked: a fresh planet can start the shipyard |
| Lifecycle.Seed | game/src/lib/supabase/queries.ts:152-167 | seeding adds a level-0 idle row for each listed type the planet lacks and keeps every existing row |
| Lifecycle.Claim | game/src/lib/supabase/queries.ts:109-170 | claimPlanet's new state and answer; characterised by ClaimOnlyUnowned, ClaimSeedsStarter and ClaimEstablishesStats |
| Lifecycle.ClaimOnlyUnowned | game/src/lib/supabase/queries.ts:112-127 | a claim succeeds iff the planet has no owner; an owned planet is left as it was |
| Lifecycle.ClaimSeedsStarter | game/src/lib/supabase/queries.ts:109-170 | a claim sets the owner, the starter row and exactly the five starter buildings at level 0 |
| Lifecycle.ClaimEstablishesStats | game/src/lib/supabase/queries.ts:129-167 | a claimed planet's starter figures match its level-0 buildings |
| Lifecycle.UpdatePlanetStats | game/src/app/api/building/complete/route.ts:123-182 | updatePlanetStats' recomputed row; characterised by UpdatePlanetStatsKeepsStocks and UpdatePlanetStatsRestoresMatch |
| Lifecycle.UpdatePlanetStatsKeepsStocks | game/src/app/api/building/complete/route.ts:123-182 | the recomputation never touches stocks or the reconciliation instant |
| Lifecycle.UpdatePlanetStatsRestoresMatch | game/src/app/api/building/complete/route.ts:123-182 | after one level change the recomputation brings the figures back in line with the levels |
| Lifecycle.CompleteDue | game/src/app/api/building/complete/route.ts:52-113 | the completion route's new state and answer; characterised by CompleteDueSettles, DueListMembers, CompleteDueKeepsValid, CompleteDueIdempotent and CompleteDueKeepsStats |
| Lifecycle.RowsAfterSettle | game/src/app/api/building/complete/route.ts:81-108 | after visiting some types the rows equal the reference outcome over those types |
| Lifecycle.ListAfterIsDueList | game/src/app/api/building/complete/route.ts:81-108 | the completion list so far is the reference list over the visited types |
| Lifecycle.CompleteDueSettles | game/src/app/api/building/complete/route.ts:66-113 | completion leaves exactly the reference rows and lists exactly the completed ones; hasCompleted iff the list is non-empty |
| Lifecycle.DueListMembers | game/src/app/api/building/complete/route.ts:66-104 | a completion is listed iff its row was due, its write succeeded and its new level is one up |
| Lifecycle.CompleteDueKeepsValid | game/src/app/api/building/complete/route.ts:66-108 | completion keeps the stored shape and the one-upgrade rule |
| Lifecycle.CompleteDueIdempotent | game/src/app/api/building/complete/route.ts:66-113 | a second completion at the same instant finds nothing and changes nothing |
| Lifecycle.LoopIdle | game/src/app/api/building/complete/route.ts:81-108 | with nothing due the loop changes nothing and lists nothing |
| Lifecycle.LoopKeepsStats | game/src/app/api/building/complete/route.ts:81-108 | the loop keeps the figures in line with the levels |
| Lifecycle.CompleteDueKeepsStats | game/src/app/api/building/complete/route.ts:81-182 | after completion the figures match the building levels |
| Lifecycle.Cancel | game/src/app/api/building/cancel/route.ts:50-134 | the cancel route's new state and answer; characterised by CancelFailuresChangeNothing, CancelRefundsHalf, CancelCanOverfillStorage and CancelKeepsValid |
| Lifecycle.HalfCost | game/src/app/api/building/cancel/route.ts:84-87 | each refund component is half the cost rounded down |
| Lifecycle.CancelFailuresChangeNothing | game/src/app/api/building/cancel/route.ts:64-105 | without an upgrading row of that type, or when clearing the flags fails, nothing changes |
| Lifecycle.CancelRefundsHalf | game/src/app/api/building/cancel/route.ts:84-134 | a success refunds half the cost at the stored level, clears the flags with the level kept, adds exactly the refund and changes no other row |
| Lifecycle.CancelCanOverfillStorage | game/src/app/api/building/cancel/route.ts:114-124 | the refund is not cut off: a full store overflows |
| Lifecycle.CancelKeepsValid | game/src/app/api/building/cancel/route.ts:89-124 | cancel keeps the stored shape and the one-upgrade rule and changes no level |
| Lifecycle.StartThenCancel | game/src/app/api/building/cancel/route.ts:84-87 | a start then a cancel of the same building refunds exactly half the charged cost, rounded down |
| Lifecycle.StaleLevelCancelProfits | game/src/app/api/building/cancel/route.ts:84 | charging the client's level and refunding the stored one lets a player pay 60 metal and get 227 back |
| Lifecycle.StartKeepsStats | game/src/app/api/building/upgrade/route.ts:123-171 | starting changes no level, so the figures stay in line |
| Lifecycle.CancelKeepsStats | game/src/app/api/building/cancel/route.ts:89-124 | cancelling changes no level, so the figures stay in line |
| Lifecycle.MarkUpgradingEffect | game/src/lib/supabase/queries.ts:229-252 | the helper marks an existing row upgrading with the given deadline, everything else of it kept, stores the row it answers and leaves the keys and every other row as they were; a missing row or failed write changes nothing |
| Lifecycle.MarkUpgradingCanBreakOneUpgradeRule | game/src/lib/supabase/queries.ts:229-252 | the helper does not check for another upgrade, so it can leave two upgrading |
| Lifecycle.RaiseLevelEffect | game/src/lib/supabase/queries.ts:257-288 | the helper raises an existing row one level and clears its flags, as completion does, stores the row it answers and leaves the keys and every other row as they were; a missing row or failed write changes nothing |
| PlanetStore.Planet.constructor | game/src/types/game.ts:30-50 | a new planet is unclaimed: no owner, no resource row and no buildings |
| PlanetStore.Planet.DeductResources | game/src/lib/supabase/queries.ts:293-334 | the stored resource row becomes the debit outcome; nothing else changes |
| PlanetStore.Planet.PostUpgrade | game/src/app/api/building/upgrade/route.ts:30-178 | the new rows and the answer are exactly the start outcome, and the stored shape is kept |
| PlanetStore.Planet.UpdateStats | game/src/app/api/building/complete/route.ts:123-182 | only the resource row changes, to the recomputed figures |
| PlanetStore.Planet.PostComplete | game/src/app/api/building/complete/route.ts:52-113 | the loop leaves exactly the completion outcome and keeps the stored shape |
| PlanetStore.Planet.PostCancel | game/src/app/api/building/cancel/route.ts:50-134 | the new rows and answer are exactly the cancel outcome, and the stored shape is kept |
| PlanetStore.Planet.GetResources | game/src/app/api/planet/resources/route.ts:41-113 | a foreign planet or a missing row is refused with no change; otherwise the projection is answered and written back iff over a minute passed |
| PlanetStore.Planet.ClaimStarter | game/src/lib/supabase/queries.ts:109-170 | the planet becomes the claim outcome and keeps the stored shape |
| PlanetStore.Planet.SeedRows | game/src/lib/supabase/queries.ts:161-167 | the rows become the seeded rows; nothing else changes |
| PlanetStore.Planet.StartBuildingUpgrade | game/src/lib/supabase/queries.ts:229-252 | the rows and answer are the marking outcome; owner, name, sector and resources are kept |
| PlanetStore.Planet.CompleteBuildingUpgrade | game/src/lib/supabase/queries.ts:257-288 | the rows and answer are the raising outcome; owner, name, sector and resources are kept |
| Users.GetOrCreateUser | game/src/lib/supabase/queries.ts:7-47 | getOrCreateUser's table and answer; characterised by NewUserProtected, KnownUserKept, GetOrCreateKeepsTable and SecondSignInFindsSameUser |
| Users.NewUserProtected | game/src/lib/supabase/queries.ts:27-46 | a new user carries the given profile and is protected until exactly 604800000 ms from now |
| Users.KnownUserKept | game/src/lib/supabase/queries.ts:10-25 | a known user is answered as read, and only its last login changes |
| Users.GetOrCreateKeepsTable | game/src/lib/supabase/queries.ts:7-47 | the table stays keyed by Google id with distinct ids |
| Users.SecondSignInFindsSameUser | game/src/lib/supabase/queries.ts:7-47 | signing in twice finds the user the first sign-in stored |
| Users.UserDirectory.GetOrCreate | game/src/lib/supabase/queries.ts:7-47 | the table and answer are exactly the sign-in outcome |
| Colonize.SectorDistance | game/src/app/api/planet/colonize/route.ts:8-17 | calculateSectorDistance; characterised by SectorDistanceSymmetric, SameSectorDistanceZero and SectorDistanceNonNegative |
| Colonize.SectorDistanceSymmetric | game/src/app/api/planet/colonize/route.ts:8-17 | the sector distance is symmetric |
| Colonize.SameSectorDistanceZero | game/src/app/api/planet/colonize/route.ts:8-17 | a sector is at distance 0 from itself |
| Colonize.GridPositionInRange | game/src/app/api/planet/colonize/route.ts:10-13 | sectors 1 to 25 map one-to-one onto the 5x5 grid |
| Colonize.SectorDistanceNonNegative | game/src/app/api/planet/colonize/route.ts:8-17 | a sector distance is never negative |
| Colonize.ColonizationCost | game/src/app/api/planet/colonize/route.ts:22-38 | calculateColonizationCost; characterised by ColonizationCostAtZero and ColonizationCostMonotone |
| Colonize.ColonizationCostAtZero | game/src/app/api/planet/colonize/route.ts:22-38 | at distance 0 the cost is 10000/5000/2500 with multiplier 1 |
| Colonize.ColonizationCostMonotone | game/src/app/api/planet/colonize/route.ts:22-38 | every amount grows with the distance |
| Colonize.SectorOrFirst | game/src/app/api/planet/colonize/route.ts:111-114 | a missing or zero sector counts as sector 1; any other sector is kept |
| Colonize.QuoteFor | game/src/app/api/planet/colonize/route.ts:260-300 | the quote the GET handler answers; characterised by FirstPlanetQuoteFree, SameSectorQuote and QuoteAtLeastBase |
| Colonize.FirstPlanetQuoteFree | game/src/app/api/planet/colonize/route.ts:274-282 | a user without planets is quoted nothing |
| Colonize.SameSectorQuote | game/src/app/api/planet/colonize/route.ts:284-300 | a quote within the main planet's sector asks the base amounts at distance 0 and multiplier 1 |
| Colonize.QuoteAtLeastBase | game/src/app/api/planet/colonize/route.ts:284-300 | a quote from an owned planet asks at least the base amounts |
| Colonize.ColonizeOutcome | game/src/app/api/planet/colonize/route.ts:89-208 | the POST handler's target, main row and answer; characterised by ColonizeRejectsOwned, FirstColonyFree, ColonizeRejectsMissingResources, ColonizeRejectsUnaffordable, ColonizeDebitsQuote, ColonySeeded, ColonyLacksStorage and OwnerWriteFailureKeepsDebit |
| Colonize.ColonizeRejectsOwned | game/src/app/api/planet/colonize/route.ts:89-94 | an owned target is refused and nothing changes |
| Colonize.FirstColonyFree | game/src/app/api/planet/colonize/route.ts:103-106 | the first planet is taken over with no resources touched |
| Colonize.ColonizeRejectsUnaffordable | game/src/app/api/planet/colonize/route.ts:133-144 | stock below the quote is refused before any change |
| Colonize.ColonizeRejectsMissingResources | game/src/app/api/planet/colonize/route.ts:119-131 | a second colony with no resources row on the main planet is refused with "no resources available" and nothing changes |
| Colonize.ColonizeDebitsQuote | game/src/app/api/planet/colonize/route.ts:106-156 | a success debits exactly the quoted amounts and stamps the present |
| Colonize.ColonySeeded | game/src/app/api/planet/colonize/route.ts:158-208 | the colony gets the caller as owner, its name, the starter row and exactly three level-0 buildings |
| Colonize.ColonyLacksStorage | game/src/app/api/planet/colonize/route.ts:194-199 | a colony has no storage buildings, unlike a claimed starter planet |
| Colonize.OwnerWriteFailureKeepsDebit | game/src/app/api/planet/colonize/route.ts:146-174 | a failed owner write keeps the debit and takes nothing over |
| Colonize.ColonizePlanet | game/src/app/api/planet/colonize/route.ts:89-208 | the target, the main planet's row and the answer are exactly the colonisation outcome |
| Sectors.Tally | game/src/app/api/galaxy/sectors/route.ts:64-76 | each counter keeps mine <= colonized <= total <= number of planets |
| Sectors.Counts | game/src/app/api/galaxy/sectors/route.ts:52-78 | the sector table as a value; characterised by CountsOrdered, OutOfRangeIgnored and TotalsAddUp |
| Sectors.CountsOrdered | game/src/app/api/galaxy/sectors/route.ts:52-78 | the table has 25 entries for sectors 1 to 25 in order, each ordered |
| Sectors.OutOfRangeIgnored | game/src/app/api/galaxy/sectors/route.ts:65-67 | a planet outside sectors 1 to 25 leaves the table unchanged |
| Sectors.TotalsAddUp | game/src/app/api/galaxy/sectors/route.ts:64-76 | the totals add up to the number of in-range planets |
| Sectors.UnknownCallerOwnsNothing | game/src/app/api/galaxy/sectors/route.ts:28-73 | without a known caller no planet counts as the caller's |
| Sectors.CountPlanet | game/src/app/api/galaxy/sectors/route.ts:65-76 | exactly the planet's counter changes, by one in total and as owned and mine |
| Sectors.EmptyTable | game/src/app/api/galaxy/sectors/route.ts:54-62 | a fresh table equal to the count over no planets |
| Sectors.SectorsOverview | game/src/app/api/galaxy/sectors/route.ts:52-78 | the table is the count over all planets |
| Sectors.OwnershipOverview | game/src/app/api/galaxy/ownership/route.ts:47-74 | the same table; skipping sector 0 changes nothing |
| Ships.ShipDef | game/src/lib/game/ships.ts:6-91 | every ship has positive speed and build time and no energy or rare-earth cost |
| Ships.AllShipTypesComplete | game/src/lib/game/ships.ts:6-91 | six distinct ship types |
| Ships.EveryShipNeedsShipyard | game/src/lib/game/ships.ts:6-91 | every ship requires a shipyard of level at least 1 |
| Ships.ShipCost | game/src/lib/game/ships.ts:96-105 | calculateShipCost; characterised by ShipCostAdditive |
| Ships.ShipCostAdditive | game/src/lib/game/ships.ts:96-105 | batch costs add up; one ship costs the unit cost, none costs nothing |
| Ships.ShipBuildTime | game/src/lib/game/ships.ts:111-119 | calculateShipBuildTime; characterised by ShipBuildTimeWithoutShipyard and ShipBuildTimeFallsWithShipyard |
| Ships.ShipBuildTimeWithoutShipyard | game/src/lib/game/ships.ts:111-119 | without a shipyard bonus the time is unit time times count |
| Ships.ShipBuildTimeFallsWithShipyard | game/src/lib/game/ships.ts:111-119 | a better shipyard never lengthens a batch |
| Ships.FuelConsumption | game/src/lib/game/ships.ts:124-139 | the fleet's fuel for a distance, rounded up; characterised by FuelIsRateTimesDistance and FuelConsumptionBounds, and computed by CalculateFuelConsumption |
| Ships.FuelIsRateTimesDistance | game/src/lib/game/ships.ts:124-139 | accumulated fuel is the fleet's rate times the distance in thousands |
| Ships.FuelRateBounds | game/src/lib/game/ships.ts:124-139 | the rate is non-negative and zero without present ships |
| Ships.FuelConsumptionBounds | game/src/lib/game/ships.ts:124-139 | an empty fleet burns nothing; a non-negative distance never burns a negative amount |
| Ships.CalculateFuelConsumption | game/src/lib/game/ships.ts:124-139 | the loop answers the fleet's fuel, rounded up |
| Ships.CalculateFleetSpeed | game/src/lib/game/ships.ts:144-155 | the speed is the minimum over present types, or 0 without any |
| Ships.CalculateCargoCapacity | game/src/lib/game/ships.ts:160-171 | the loop answers the summed cargo of the present types |
| Ships.Cargo | game/src/lib/game/ships.ts:160-171 | the fleet's summed cargo; characterised by CargoAdditive and CargoIgnoresEmptyEntries, and computed by CalculateCargoCapacity |
| Ships.CargoAdditiveAfter | game/src/lib/game/ships.ts:160-171 | fleets of different types carry together what they carry apart, over any prefix of the catalog |
| Ships.CargoAdditive | game/src/lib/game/ships.ts:160-171 | fleets of different types carry together what they carry apart |
| Ships.CargoIgnoresEmptyEntries | game/src/lib/game/ships.ts:160-171 | entries of count zero or less carry nothing |
| Utils.FormatDuration | game/src/lib/utils.ts:30-47 | formatDuration's choice of unit and parts; characterised by FormatDurationShape and ShortDurationText |
| Utils.FormatDurationShape | game/src/lib/utils.ts:30-47 | each shape is chosen iff its threshold holds, smaller units stay below the next unit, and the parts give back the duration |
| Utils.ShortDurationText | game/src/lib/utils.ts:30-33 | under a minute the text is the seconds and "s" |
| Utils.MagnitudeChoice | game/src/lib/utils.ts:14-25 | the shown number is at least 1 under every suffix and below 1000 under K and M |
| Utils.Distance | game/src/lib/utils.ts:52-59 | calculateDistance; characterised by DistanceSymmetric, DistanceToItself and DistanceNonNegative |
| Utils.DistanceSymmetric | game/src/lib/utils.ts:52-59 | the distance is symmetric |
| Utils.DistanceToItself | game/src/lib/utils.ts:52-59 | a point is at distance 0 from itself |
| Utils.DistanceNonNegative | game/src/lib/utils.ts:52-59 | a distance is never negative |
| Utils.TravelTime | game/src/lib/utils.ts:64-71 | calculateTravelTime; characterised by TravelTimeDefaultSpeed and TravelTimeMonotone |
| Utils.TravelTimeDefaultSpeed | game/src/lib/utils.ts:64-71 | no speed means speed 1: 600 s per unit rounded up |
| Utils.TravelTimeMonotone | game/src/lib/utils.ts:64-71 | a longer way never takes less and a faster fleet never more |
| Middleware.Decide | game/src/middleware.ts:8-33 | the guard's decision; characterised by PublicRoutesPass, RedirectExactly, EitherCookieSuffices and UnprotectedPathsPass |
| Middleware.PublicRoutesPass | game/src/middleware.ts:11-14 | "/" and "/login" always pass |
| Middleware.RedirectExactly | game/src/middleware.ts:8-33 | a redirect happens iff the path is not public, is under a protected section and has no session cookie; it carries the path |
| Middleware.EitherCookieSuffices | game/src/middleware.ts:16-18 | either session cookie alone lets every path through |
| Middleware.PrefixMatchesLongerNames | game/src/middleware.ts:20-23 | "/planetary" counts as under "/planet" |
| Middleware.UnprotectedPathsPass | game/src/middleware.ts:20-32 | paths outside every protected section pass without a session |
| BuildingList.MissingExactly | game/src/components/game/building-list.tsx:137-150 | the missing list holds exactly one entry per unmet requirement, with name, level and current level |
| BuildingList.LockedIffUnmet | game/src/components/game/building-list.tsx:137-162 | a card is locked iff some requirement is unmet |
| BuildingList.OwnedRowListed | game/src/components/game/building-list.tsx:127-132 | every row of a known type is listed unlocked at its level under its category |
| BuildingList.OwnedCardsFromRows | game/src/components/game/building-list.tsx:127-132 | every owned card is unlocked, of its category and comes from a row of a known type |
| BuildingList.UnownedListedOnce | game/src/components/game/building-list.tsx:134-164 | among distinct types each type without a row is listed once under its category, and an owned type not at all |
| BuildingList.CatalogTypeListedOnce | game/src/components/game/building-list.tsx:134-164 | every catalog type without a row appears exactly once in its category |
| BuildingList.UnownedCardsAreLevelZero | game/src/components/game/building-list.tsx:152-162 | each card of an unowned type is its level-0 card, of its category, with no row |
| BuildingList.CollectMissing | game/src/components/game/building-list.tsx:137-150 | the loop collects exactly the unmet requirements in order |
| BuildingList.GroupOwned | game/src/components/game/building-list.tsx:119-132 | each category holds its owned cards in row order |
| BuildingList.AppendUnowned | game/src/components/game/building-list.tsx:134-164 | each category gets its unowned cards appended in catalog order |
| BuildingList.GroupByCategory | game/src/components/game/building-list.tsx:119-164 | each category lists its owned cards then its unowned cards |
| BuildingList.CanAffordLowerLevels | game/src/components/game/building-list.tsx:221-228 | what is affordable at a level stays affordable at every lower level |
| BuildingList.EnabledButtonMeansIdle | game/src/components/game/building-list.tsx:454 | an enabled button means no listed building upgrades, no request is pending and the stock covers all three costs |
| BuildingList.TickOf | game/src/components/game/building-list.tsx:100-117 | one second of the countdown map; characterised by Tick and CountdownRunsOut |
| BuildingList.Tick | game/src/components/game/building-list.tsx:100-117 | positive countdowns lose one second, others are dropped, and a check is due iff one was at or below 0 |
| BuildingList.CountdownRunsOut | game/src/components/game/building-list.tsx:100-117 | a countdown of s seconds shows s - n after n ticks and is dropped at tick s + 1 |
| BuildingList.CountdownParts | game/src/components/game/building-list.tsx:232-238 | hours, minutes and seconds give back the duration, minutes and seconds below 60 |
| BuildingList.Pad2TwoDigits | game/src/components/game/building-list.tsx:236-237 | below 100 the padded field is two digits that read back as the number |
| BuildingList.FormatCountdown | game/src/components/game/building-list.tsx:232-238 | formatCountdown; characterised by CountdownShape and Pad2TwoDigits |
| BuildingList.CountdownShape | game/src/components/game/building-list.tsx:232-238 | under an hour the text is m:ss; from an hour on it is h:mm:ss, each padded field two characters long |
| BuildingList.UpgradeBenefit | game/src/components/game/building-list.tsx:241-309 | getUpgradeBenefits as structured values; characterised by FusionTwiceSolar, BenefitsNonNegative and StorageBaselineIsLevelZero |
| BuildingList.FusionTwiceSolar | game/src/components/game/building-list.tsx:295-301 | the fusion reactor is announced at twice the solar gain and as burning deuterium |
| BuildingList.BenefitsNonNegative | game/src/components/game/building-list.tsx:241-309 | above level 0 no announced gain is negative |
| BuildingList.StorageBaselineIsLevelZero | game/src/components/game/building-list.tsx:279-285 | a level-0 store announces the capacity step from level 0 to level 1 |

## Left out

- Authentication and the user lookup by session are left out: every handler takes the caller's user id as given. The 401 and 404 answers before ownership is checked are not modelled.
- Request parsing is left out. The planet id parameter and its "missing parameter" answers are not modelled, and the request always targets the modelled planet.
- The client's `currentLevel` is a natural number. Negative or fractional levels, which JSON allows, are not modelled.
- Floating point is left out. Arithmetic is exact over `real`, so IEEE rounding, `toFixed` and `toLocaleString` are not modelled.
- `Math.sqrt`, `Math.exp` and `x ** 1.5` are parameters. Only the facts in `Lawful` are assumed about them.
- Concurrency is left out: requests are atomic steps with no interleaving.
- Reconciliation by the `update_planet_resources` stored procedure is a parameter. Its formula is not visible in the repository.
- Timestamps are left out. Database defaults are not modelled, and neither are `created_at` and `updated_at`. A claimed planet's resource row is taken to be reconciled at the claim.
- The stats write of the completion route is taken to succeed. That route does not check it.
- Sign-in does not check its last-login write; the model takes it to succeed.
- The colonisation route does not check its resource and building inserts. The model takes them to succeed, except over an existing row.
- The colonisation route does not check its debit of the main planet's row either. The model takes that write to succeed, so a failed debit that still hands over the colony is not modelled.
- The cancel route does not check its refund write and answers success either way. The model takes the refund to be credited.
- The resources route does not check its write-back. The model takes the projection to be stored whenever more than a minute passed.
- Claiming a planet does not check its resource-row and building inserts. The model takes them to succeed, except over an existing row.
- The completion route answers `{completed: []}`, without `hasCompleted`, when its query of finished buildings fails. Query failures are not modelled, so that answer is not either.
- A catalog lookup by type name is a property lookup on a plain object, so names inherited from `Object.prototype` such as "constructor" or "toString" are found too. The model's lookup finds only the fourteen catalog names. For such a name the start route goes on to a 403, a 400 or a 500, where the model answers 400 InvalidBuildingType; neither changes the stored state.
- The completion query has no order. The model visits due rows in catalog order.
- The cancel route's second catalog check comes after a row of that type has been found. It cannot fail, so it is not modelled.
- The sectors route's `galaxy` query parameter is not modelled. The planets passed in are the ones the query selected.
- The middleware's `config.matcher` is not modelled. The guard is applied to every path given.
- Utils.FormatDurationShape: whole seconds only. Fractional seconds are not modelled.
- Utils.MagnitudeChoice: the one-decimal rounding of `toFixed(1)` is not modelled.
- BuildingList.UpgradeBenefit: the benefits are structured values. The German display text and `formatNumber` are not modelled.
- The building list's rendering, polling, fetch calls and React state are not modelled. Only the grouping, affordability, button, countdown tick, countdown text and upgrade-benefit logic are.
- The galaxy visualisation, camera and procedural generator are not modelled.
- The system route, the dashboard and the remaining pages are not modelled.
