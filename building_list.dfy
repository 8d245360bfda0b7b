/**
  The logic inside the planet's building list: the cards it shows per category (owned
  buildings unlocked, every other catalog type at level 0, locked while a requirement is
  unmet), whether an upgrade is affordable and its button enabled, the per-second countdown
  tick, the countdown text and the benefits an upgrade announces.
 */
module BuildingList {
  import opened Wrappers
  import opened Numeric
  import opened GameTypes
  import opened Buildings

  /** A building row as the list receives it; the type is the stored identifier. */
  datatype ListedRow = ListedRow(typeName: string, level: nat, upgrading: bool)

  datatype MissingRequirement = MissingRequirement(building: string, level: nat, currentLevel: nat)

  datatype Card = Card(kind: BuildingType, level: nat, upgrading: bool, locked: bool, missing: seq<MissingRequirement>)

  // ---------------------------------------------------------------------------------------
  // Grouping by category

  /** The level of the first row of type `t`, or 0 without one. */
  function LevelIn(rows: seq<ListedRow>, t: BuildingType): nat
  {
    if |rows| == 0 then 0
    else if rows[0].typeName == TypeName(t) then rows[0].level
    else LevelIn(rows[1..], t)
  }

  predicate Owns(rows: seq<ListedRow>, t: BuildingType)
  {
    exists i :: 0 <= i < |rows| && rows[i].typeName == TypeName(t)
  }

  predicate Unmet(rows: seq<ListedRow>, r: Requirement)
  {
    LevelIn(rows, r.building) < r.level
  }

  /** The entry listed for a requirement: the required type's display name, level and current level. */
  function Entry(rows: seq<ListedRow>, r: Requirement): MissingRequirement
  {
    MissingRequirement(Definition(r.building).name, r.level, LevelIn(rows, r.building))
  }

  /** The unmet requirements among `reqs`, in order. */
  function MissingFor(rows: seq<ListedRow>, reqs: seq<Requirement>): seq<MissingRequirement>
  {
    if |reqs| == 0 then []
    else
      var r := reqs[|reqs| - 1];
      MissingFor(rows, reqs[..|reqs| - 1]) + (if Unmet(rows, r) then [Entry(rows, r)] else [])
  }

  /** The missing list holds exactly one entry for each unmet requirement and nothing else. */
  lemma {:induction false} MissingExactly(rows: seq<ListedRow>, reqs: seq<Requirement>)
    ensures forall m :: m in MissingFor(rows, reqs) <==> exists r :: r in reqs && Unmet(rows, r) && m == Entry(rows, r)
  {
    if |reqs| > 0 {
      var prefix := reqs[..|reqs| - 1];
      MissingExactly(rows, prefix);
      assert reqs == prefix + [reqs[|reqs| - 1]];
      forall m | m in MissingFor(rows, reqs)
        ensures exists r :: r in reqs && Unmet(rows, r) && m == Entry(rows, r)
      {
        if m in MissingFor(rows, prefix) {
          var r :| r in prefix && Unmet(rows, r) && m == Entry(rows, r);
          assert r in reqs;
        }
      }
    }
  }

  /** The card an unowned catalog type gets: level 0, locked while any requirement is unmet. */
  function UnownedCard(rows: seq<ListedRow>, t: BuildingType): Card
  {
    var missing := MissingFor(rows, Definition(t).requirements);
    Card(t, 0, false, |missing| > 0, missing)
  }

  lemma LockedIffUnmet(rows: seq<ListedRow>, t: BuildingType)
    ensures UnownedCard(rows, t).locked <==> exists r :: r in Definition(t).requirements && Unmet(rows, r)
  {
    var reqs := Definition(t).requirements;
    MissingExactly(rows, reqs);
    var missing := MissingFor(rows, reqs);
    if |missing| > 0 {
      assert missing[0] in missing;
    }
    if exists r :: r in reqs && Unmet(rows, r) {
      var r :| r in reqs && Unmet(rows, r);
      assert Entry(rows, r) in MissingFor(rows, reqs);
    }
  }

  /** Cards of the first `n` rows of category `c`: every row of a known type, unlocked. */
  function OwnedCards(rows: seq<ListedRow>, c: Category, n: nat): seq<Card>
    requires n <= |rows|
  {
    if n == 0 then []
    else
      var row := rows[n - 1];
      OwnedCards(rows, c, n - 1) +
        match ParseBuildingType(row.typeName)
        case Some(t) => if Definition(t).category == c then [Card(t, row.level, row.upgrading, false, [])] else []
        case None => []
  }

  /** Cards of category `c` for the types of `types` that no row has, in order. */
  function UnownedCards(rows: seq<ListedRow>, c: Category, types: seq<BuildingType>): seq<Card>
  {
    if |types| == 0 then []
    else
      var t := types[|types| - 1];
      UnownedCards(rows, c, types[..|types| - 1]) + Addition(rows, c, t)
  }

  /** The list shown under category `c`. */
  function Listed(rows: seq<ListedRow>, c: Category): seq<Card>
  {
    OwnedCards(rows, c, |rows|) + UnownedCards(rows, c, AllBuildingTypes)
  }

  /** Every row of a known type is shown unlocked, at its level, under its category. */
  lemma {:induction false} OwnedRowListed(rows: seq<ListedRow>, i: nat, n: nat, t: BuildingType)
    requires i < n <= |rows| && ParseBuildingType(rows[i].typeName) == Some(t)
    ensures Card(t, rows[i].level, rows[i].upgrading, false, []) in OwnedCards(rows, Definition(t).category, n)
  {
    if i < n - 1 {
      OwnedRowListed(rows, i, n - 1, t);
    }
  }

  /** Every owned card comes from a row of a known type of its category; other rows are dropped. */
  lemma {:induction false} OwnedCardsFromRows(rows: seq<ListedRow>, c: Category, n: nat)
    requires n <= |rows|
    ensures forall card :: card in OwnedCards(rows, c, n) ==>
      !card.locked && Definition(card.kind).category == c &&
      exists i :: 0 <= i < n && ParseBuildingType(rows[i].typeName) == Some(card.kind)
  {
    if n > 0 {
      OwnedCardsFromRows(rows, c, n - 1);
      var prev, row := OwnedCards(rows, c, n - 1), rows[n - 1];
      var parsed := ParseBuildingType(row.typeName);
      forall card | card in OwnedCards(rows, c, n)
        ensures !card.locked && Definition(card.kind).category == c
        ensures exists i :: 0 <= i < n && ParseBuildingType(rows[i].typeName) == Some(card.kind)
      {
        if card !in prev {
          assert parsed.Some? && card == Card(parsed.value, row.level, row.upgrading, false, []);
          assert ParseBuildingType(rows[n - 1].typeName) == Some(card.kind);
        }
      }
    }
  }

  /** How many cards of a list are of type `t`. */
  function KindCount(cards: seq<Card>, t: BuildingType): nat
  {
    if |cards| == 0 then 0
    else KindCount(cards[..|cards| - 1], t) + (if cards[|cards| - 1].kind == t then 1 else 0)
  }

  lemma {:induction false} KindCountAppend(a: seq<Card>, b: seq<Card>, t: BuildingType)
    ensures KindCount(a + b, t) == KindCount(a, t) + KindCount(b, t)
    decreases |b|
  {
    if |b| > 0 {
      assert (a + b)[..|a + b| - 1] == a + b[..|b| - 1];
      KindCountAppend(a, b[..|b| - 1], t);
    } else {
      assert a + b == a;
    }
  }

  /**
    Among distinct types, each one without a row is shown exactly once under its own category;
    a type some row has gets no card there.
   */
  lemma {:induction false} UnownedListedOnce(rows: seq<ListedRow>, c: Category, types: seq<BuildingType>, t: BuildingType)
    requires forall i, j :: 0 <= i < j < |types| ==> types[i] != types[j]
    ensures KindCount(UnownedCards(rows, c, types), t) ==
      (if t in types && Shown(rows, c, t) then 1 else 0)
  {
    if |types| > 0 {
      var prefix := types[..|types| - 1];
      var u := types[|types| - 1];
      UnownedListedOnce(rows, c, prefix, t);
      KindCountAppend(UnownedCards(rows, c, prefix), Addition(rows, c, u), t);
      LastNotInPrefix(types);
      assert t in types <==> t in prefix || t == u by {
        assert types == prefix + [u];
      }
    }
  }

  /** Whether a type without a row gets a card under category `c`. */
  predicate Shown(rows: seq<ListedRow>, c: Category, t: BuildingType)
  {
    !Owns(rows, t) && Definition(t).category == c
  }

  /** The card, if any, a type adds under category `c`. */
  function Addition(rows: seq<ListedRow>, c: Category, t: BuildingType): (cards: seq<Card>)
    ensures KindCount(cards, t) == (if Shown(rows, c, t) then 1 else 0)
    ensures forall other :: other != t ==> KindCount(cards, other) == 0
  {
    if Shown(rows, c, t) then [UnownedCard(rows, t)] else []
  }

  lemma LastNotInPrefix(types: seq<BuildingType>)
    requires |types| > 0
    requires forall i, j :: 0 <= i < j < |types| ==> types[i] != types[j]
    ensures types[|types| - 1] !in types[..|types| - 1]
  {
    assert forall i :: 0 <= i < |types| - 1 ==> types[..|types| - 1][i] == types[i];
  }

  /** Every catalog type without a row appears exactly once in the list of its category. */
  lemma CatalogTypeListedOnce(rows: seq<ListedRow>, t: BuildingType)
    ensures KindCount(UnownedCards(rows, Definition(t).category, AllBuildingTypes), t) == if Owns(rows, t) then 0 else 1
  {
    AllBuildingTypesComplete(t);
    UnownedListedOnce(rows, Definition(t).category, AllBuildingTypes, t);
  }

  /** Each card for an unowned type is that type's level-0 card, under the type's category. */
  lemma {:induction false} UnownedCardsAreLevelZero(rows: seq<ListedRow>, c: Category, types: seq<BuildingType>)
    ensures forall card :: card in UnownedCards(rows, c, types) ==>
      card == UnownedCard(rows, card.kind) && !Owns(rows, card.kind) && Definition(card.kind).category == c
  {
    if |types| > 0 {
      UnownedCardsAreLevelZero(rows, c, types[..|types| - 1]);
    }
  }

  /** The unmet requirements of a type, collected one requirement at a time. */
  method CollectMissing(rows: seq<ListedRow>, reqs: seq<Requirement>) returns (missing: seq<MissingRequirement>)
    ensures missing == MissingFor(rows, reqs)
  {
    missing := [];
    for i := 0 to |reqs|
      invariant missing == MissingFor(rows, reqs[..i])
    {
      var r := reqs[i];
      assert reqs[..i + 1][..i] == reqs[..i];
      var currentLevel := LevelIn(rows, r.building);
      if currentLevel < r.level {
        missing := missing + [MissingRequirement(Definition(r.building).name, r.level, currentLevel)];
      }
    }
    assert reqs[..|reqs|] == reqs;
  }

  /** The groups after the rows: each row of a known type appended, unlocked, to its category. */
  method GroupOwned(rows: seq<ListedRow>) returns (groups: map<Category, seq<Card>>)
    ensures forall c :: c in groups && groups[c] == OwnedCards(rows, c, |rows|)
  {
    groups := map[Production := [], Storage := [], Infrastructure := [], Special := []];
    forall c: Category
      ensures c in groups && groups[c] == []
    {
      match c
      case Production =>
      case Storage =>
      case Infrastructure =>
      case Special =>
    }
    for i := 0 to |rows|
      invariant forall c :: c in groups && groups[c] == OwnedCards(rows, c, i)
    {
      var parsed := ParseBuildingType(rows[i].typeName);
      if parsed.Some? {
        var t := parsed.value;
        var c := Definition(t).category;
        groups := groups[c := groups[c] + [Card(t, rows[i].level, rows[i].upgrading, false, [])]];
      }
    }
  }

  /** One loop step of AppendUnowned keeps its invariant. */
  lemma UnownedStepKeeps(rows: seq<ListedRow>, types: seq<BuildingType>, n: nat,
                         start: map<Category, seq<Card>>, before: map<Category, seq<Card>>, after: map<Category, seq<Card>>)
    requires n < |types| && forall c :: c in start
    requires forall c :: c in before && before[c] == start[c] + UnownedCards(rows, c, types[..n])
    requires Owns(rows, types[n]) ==> after == before
    requires !Owns(rows, types[n]) ==>
      var c := Definition(types[n]).category;
      after == before[c := before[c] + [UnownedCard(rows, types[n])]]
    ensures forall c :: c in after && after[c] == start[c] + UnownedCards(rows, c, types[..n + 1])
  {
    assert types[..n + 1][..n] == types[..n];
    forall c
      ensures c in after && after[c] == start[c] + UnownedCards(rows, c, types[..n + 1])
    {
      assert UnownedCards(rows, c, types[..n + 1]) == UnownedCards(rows, c, types[..n]) + Addition(rows, c, types[n]);
    }
  }

  /** Appends, for each of `types` that no row has, its level-0 card to its category. */
  method AppendUnowned(rows: seq<ListedRow>, types: seq<BuildingType>, start: map<Category, seq<Card>>)
    returns (groups: map<Category, seq<Card>>)
    requires forall c :: c in start
    ensures forall c :: c in groups && groups[c] == start[c] + UnownedCards(rows, c, types)
  {
    groups := start;
    for n := 0 to |types|
      invariant forall c :: c in groups && groups[c] == start[c] + UnownedCards(rows, c, types[..n])
    {
      var t := types[n];
      ghost var before := groups;
      if !Owns(rows, t) {
        var missing := CollectMissing(rows, Definition(t).requirements);
        var c := Definition(t).category;
        groups := groups[c := groups[c] + [Card(t, 0, false, |missing| > 0, missing)]];
      }
      UnownedStepKeeps(rows, types, n, start, before, groups);
    }
    assert types[..|types|] == types;
  }

  /** The grouping: owned rows first, then a card for each catalog type no row has. */
  method GroupByCategory(rows: seq<ListedRow>) returns (groups: map<Category, seq<Card>>)
    ensures forall c :: c in groups && groups[c] == Listed(rows, c)
  {
    var owned := GroupOwned(rows);
    groups := AppendUnowned(rows, AllBuildingTypes, owned);
  }

  // ---------------------------------------------------------------------------------------
  // Affordability and the upgrade button

  /** canAfford: the shown stock covers the metal, crystal and deuterium cost of the level. */
  predicate CanAfford(r: PlanetResources, t: BuildingType, level: nat)
  {
    var cost := BuildingCost(t, level);
    r.metal >= cost.metal as real && r.crystal >= cost.crystal as real && r.deuterium >= cost.deuterium as real
  }

  /** What is affordable at one level stays affordable at every lower level. */
  lemma CanAffordLowerLevels(r: PlanetResources, t: BuildingType, a: nat, b: nat)
    requires a <= b && CanAfford(r, t, b)
    ensures CanAfford(r, t, a)
  {
    BuildingCostMonotone(t, a, b, Metal);
    BuildingCostMonotone(t, a, b, Crystal);
    BuildingCostMonotone(t, a, b, Deuterium);
  }

  predicate AnyListedUpgrading(rows: seq<ListedRow>)
  {
    exists i :: 0 <= i < |rows| && rows[i].upgrading
  }

  /** The upgrade button is disabled when unaffordable, while any building upgrades, or while a request runs. */
  predicate UpgradeDisabled(affordable: bool, anyUpgrading: bool, pending: Option<string>)
  {
    !affordable || anyUpgrading || pending.Some?
  }

  /** An enabled button means nothing upgrades, no request runs and the shown stock covers the cost. */
  lemma EnabledButtonMeansIdle(rows: seq<ListedRow>, r: PlanetResources, t: BuildingType, level: nat, pending: Option<string>)
    requires !UpgradeDisabled(CanAfford(r, t, level), AnyListedUpgrading(rows), pending)
    ensures forall i :: 0 <= i < |rows| ==> !rows[i].upgrading
    ensures pending == None
    ensures r.metal >= BuildingCost(t, level).metal as real
    ensures r.crystal >= BuildingCost(t, level).crystal as real
    ensures r.deuterium >= BuildingCost(t, level).deuterium as real
  {
  }

  // ---------------------------------------------------------------------------------------
  // The countdown tick

  /** One tick of the countdowns: positive entries lose a second, the others are dropped. */
  function TickOf(countdowns: map<string, int>): map<string, int>
  {
    map k | k in countdowns && countdowns[k] > 0 :: countdowns[k] - 1
  }

  /** One tick, visiting the entries one at a time; `finished` says a completion check is due. */
  method Tick(countdowns: map<string, int>) returns (updated: map<string, int>, finished: bool)
    ensures updated == TickOf(countdowns)
    ensures finished <==> exists k :: k in countdowns && countdowns[k] <= 0
  {
    updated := map[];
    finished := false;
    var remaining := countdowns.Keys;
    while remaining != {}
      invariant remaining <= countdowns.Keys
      invariant forall k :: k in updated <==> k in countdowns && k !in remaining && countdowns[k] > 0
      invariant forall k :: k in updated ==> updated[k] == countdowns[k] - 1
      invariant finished <==> exists k :: k in countdowns && k !in remaining && countdowns[k] <= 0
      decreases |remaining|
    {
      var k :| k in remaining;
      if countdowns[k] > 0 {
        updated := updated[k := countdowns[k] - 1];
      } else {
        finished := true;
      }
      remaining := remaining - {k};
    }
  }

  function Ticks(countdowns: map<string, int>, n: nat): map<string, int>
  {
    if n == 0 then countdowns else TickOf(Ticks(countdowns, n - 1))
  }

  /**
    A countdown of `s` seconds shows s - n after n ticks and is dropped at the tick after it
    reached 0, the tick that triggers the completion check.
   */
  lemma {:induction false} CountdownRunsOut(countdowns: map<string, int>, k: string, n: nat)
    requires k in countdowns && countdowns[k] >= 0
    ensures k in Ticks(countdowns, n) <==> n <= countdowns[k]
    ensures n <= countdowns[k] ==> Ticks(countdowns, n)[k] == countdowns[k] - n
  {
    if n > 0 {
      CountdownRunsOut(countdowns, k, n - 1);
    }
  }

  // ---------------------------------------------------------------------------------------
  // Countdown text

  datatype Countdown = Countdown(hours: nat, minutes: nat, seconds: nat)

  function CountdownOf(seconds: nat): Countdown
  {
    Countdown(seconds / 3600, (seconds % 3600) / 60, seconds % 60)
  }

  /** The parts give back the duration, with minutes and seconds below 60. */
  lemma CountdownParts(seconds: nat)
    ensures var c := CountdownOf(seconds);
      c.minutes < 60 && c.seconds < 60 && 3600 * c.hours + 60 * c.minutes + c.seconds == seconds
  {
    var h, rest := seconds / 3600, seconds % 3600;
    var m, s := rest / 60, rest % 60;
    assert rest == 60 * m + s;
    assert seconds == 60 * (60 * h + m) + s;
    DivModOfSum(60 * h + m, s, 60);
  }

  /** A number padded to two digits with a leading zero. */
  function Pad2(n: nat): string
  {
    if n < 10 then "0" + NatToString(n) else NatToString(n)
  }

  /** formatCountdown: h:mm:ss with hours, m:ss without. */
  function FormatCountdown(seconds: nat): string
  {
    var c := CountdownOf(seconds);
    if c.hours > 0 then NatToString(c.hours) + ":" + Pad2(c.minutes) + ":" + Pad2(c.seconds)
    else NatToString(c.minutes) + ":" + Pad2(c.seconds)
  }

  lemma {:induction false} NatToStringShort(n: nat)
    ensures n < 10 ==> |NatToString(n)| == 1
    ensures 10 <= n < 100 ==> |NatToString(n)| == 2
  {
    if 10 <= n < 100 {
      NatToStringShort(n / 10);
    }
  }

  /** Below 100 the padded text is two digits that read back as the number. */
  lemma Pad2TwoDigits(n: nat)
    requires n < 100
    ensures |Pad2(n)| == 2 && '0' <= Pad2(n)[0] <= '9' && '0' <= Pad2(n)[1] <= '9'
    ensures ParseDigits(Pad2(n)) == n
  {
    NatToStringShort(n);
    NatToStringRoundTrip(n);
    if n < 10 {
      assert Pad2(n)[..1] == "0";
    }
  }

  /**
    Below an hour the text is the minutes, a colon and two digits of seconds; from an hour on
    it is the hours, then a colon and two digits of minutes, then a colon and two digits of seconds.
   */
  lemma CountdownShape(seconds: nat)
    ensures seconds < 3600 ==> FormatCountdown(seconds) == NatToString(seconds / 60) + ":" + Pad2(seconds % 60)
    ensures seconds >= 3600 ==>
      FormatCountdown(seconds) == NatToString(seconds / 3600) + ":" + Pad2((seconds % 3600) / 60) + ":" + Pad2(seconds % 60)
    ensures |Pad2((seconds % 3600) / 60)| == 2 && |Pad2(seconds % 60)| == 2
  {
    var c := CountdownOf(seconds);
    CountdownParts(seconds);
    if seconds < 3600 {
      assert c.hours == 0 && c.minutes == seconds / 60;
    }
    Pad2TwoDigits(c.minutes);
    Pad2TwoDigits(c.seconds);
  }

  // ---------------------------------------------------------------------------------------
  // Upgrade benefits

  /** What the card says an upgrade brings. */
  datatype Benefit =
    | MineGain(resource: ResourceKind, production: int, extraConsumption: int)
    | EnergyGain(energy: int, burnsDeuterium: bool)
    | CapacityGain(capacity: int)
    | Perk(text: string)

  /**
    getUpgradeBenefits: the gain from `currentLevel` to the next level. At level 0 the card
    assumes the starter rates (30 metal, 15 crystal, 0 deuterium, 0 energy) and 10000 capacity;
    the fusion reactor is announced at twice the solar plant's output.
   */
  function UpgradeBenefit(tr: Transcendentals, t: BuildingType, currentLevel: nat): Benefit
  {
    var next := currentLevel + 1;
    match t
    case MetalMine =>
      MineGain(Metal, MineProduction(MetalMine, next, 1.0) - (if currentLevel > 0 then MineProduction(MetalMine, currentLevel, 1.0) else 30),
               EnergyConsumption(MetalMine, next) - (if currentLevel > 0 then EnergyConsumption(MetalMine, currentLevel) else 0))
    case CrystalMine =>
      MineGain(Crystal, MineProduction(CrystalMine, next, 1.0) - (if currentLevel > 0 then MineProduction(CrystalMine, currentLevel, 1.0) else 15),
               EnergyConsumption(CrystalMine, next) - (if currentLevel > 0 then EnergyConsumption(CrystalMine, currentLevel) else 0))
    case DeuteriumSynthesizer =>
      MineGain(Deuterium, MineProduction(DeuteriumSynthesizer, next, 1.0) - (if currentLevel > 0 then MineProduction(DeuteriumSynthesizer, currentLevel, 1.0) else 0),
               EnergyConsumption(DeuteriumSynthesizer, next) - (if currentLevel > 0 then EnergyConsumption(DeuteriumSynthesizer, currentLevel) else 0))
    case SolarPlant =>
      EnergyGain(SolarEnergy(next, 1.0) - (if currentLevel > 0 then SolarEnergy(currentLevel, 1.0) else 0), false)
    case MetalStorage | CrystalStorage | DeuteriumTank =>
      CapacityGain(StorageCapacity(tr, next) - (if currentLevel > 0 then StorageCapacity(tr, currentLevel) else 10000))
    case CommandCenter => Perk("-10% Bauzeit für Gebäude")
    case Shipyard => Perk("-10% Bauzeit für Schiffe")
    case ResearchLab => Perk("-5% Forschungszeit")
    case FusionReactor =>
      EnergyGain(SolarEnergy(next, 1.0) * 2 - (if currentLevel > 0 then SolarEnergy(currentLevel, 1.0) * 2 else 0), true)
    case _ => Perk("Verbesserte Effizienz")
  }

  /** The fusion reactor is announced at exactly twice the solar plant's gain, and as burning deuterium. */
  lemma FusionTwiceSolar(tr: Transcendentals, level: nat)
    ensures UpgradeBenefit(tr, FusionReactor, level) == EnergyGain(2 * UpgradeBenefit(tr, SolarPlant, level).energy, true)
  {
  }

  /** Above level 0 no announced gain is negative. */
  lemma BenefitsNonNegative(tr: Transcendentals, t: BuildingType, level: nat)
    requires level > 0 && Lawful(tr)
    ensures UpgradeBenefit(tr, t, level).MineGain? ==>
      UpgradeBenefit(tr, t, level).production >= 0 && UpgradeBenefit(tr, t, level).extraConsumption >= 0
    ensures UpgradeBenefit(tr, t, level).EnergyGain? ==> UpgradeBenefit(tr, t, level).energy >= 0
    ensures UpgradeBenefit(tr, t, level).CapacityGain? ==> UpgradeBenefit(tr, t, level).capacity >= 0
  {
    match t
    case MetalMine =>
      MineProductionMonotone(MetalMine, level, level + 1, 1.0);
      EnergyConsumptionMonotone(MetalMine, level, level + 1);
    case CrystalMine =>
      MineProductionMonotone(CrystalMine, level, level + 1, 1.0);
      EnergyConsumptionMonotone(CrystalMine, level, level + 1);
    case DeuteriumSynthesizer =>
      MineProductionMonotone(DeuteriumSynthesizer, level, level + 1, 1.0);
      EnergyConsumptionMonotone(DeuteriumSynthesizer, level, level + 1);
    case SolarPlant =>
      SolarEnergyMonotone(level, level + 1, 1.0);
    case FusionReactor =>
      SolarEnergyMonotone(level, level + 1, 1.0);
    case MetalStorage =>
      StorageCapacityMonotone(tr, level, level + 1);
    case CrystalStorage =>
      StorageCapacityMonotone(tr, level, level + 1);
    case DeuteriumTank =>
      StorageCapacityMonotone(tr, level, level + 1);
    case _ =>
  }

  /** At level 0 the storage gain is measured from 10000, which is the level-0 capacity itself. */
  lemma StorageBaselineIsLevelZero(tr: Transcendentals)
    requires Lawful(tr)
    ensures UpgradeBenefit(tr, MetalStorage, 0) == CapacityGain(StorageCapacity(tr, 1) - StorageCapacity(tr, 0))
  {
  }
}
