/**
  The galaxy's sector overview: the sectors and ownership routes fill a table of 25 counters,
  one per sector of the 5x5 grid, counting the planets in each sector, the owned ones and
  the caller's own.
 */
module Sectors {
  import opened Wrappers
  import opened GameTypes

  const SectorCount: int := 25

  /** A planet as the routes select it: its sector and its owner. */
  datatype PlanetRow = PlanetRow(sector: int, owner: Option<UserId>)

  datatype SectorData = SectorData(sector: int, totalPlanets: nat, colonizedPlanets: nat, myPlanets: nat)

  /**
    The counter of sector `s` after counting `planets` in order. An owned planet counts as
    the caller's when its owner is the caller; an unknown caller owns nothing.
   */
  function Tally(planets: seq<PlanetRow>, s: int, caller: Option<UserId>): (d: SectorData)
    ensures d.sector == s
    ensures d.myPlanets <= d.colonizedPlanets <= d.totalPlanets <= |planets|
  {
    if |planets| == 0 then SectorData(s, 0, 0, 0)
    else
      var d := Tally(planets[..|planets| - 1], s, caller);
      var p := planets[|planets| - 1];
      if p.sector != s then d
      else
        var owned := p.owner.Some?;
        var mine := owned && p.owner == caller;
        SectorData(s, d.totalPlanets + 1,
                   d.colonizedPlanets + (if owned then 1 else 0),
                   d.myPlanets + (if mine then 1 else 0))
  }

  /** The response table: sectors 1 to 25 in ascending order. */
  function Counts(planets: seq<PlanetRow>, caller: Option<UserId>): seq<SectorData>
  {
    seq(SectorCount, k requires 0 <= k < SectorCount => Tally(planets, k + 1, caller))
  }

  /** Every entry keeps mine <= colonized <= total. */
  lemma CountsOrdered(planets: seq<PlanetRow>, caller: Option<UserId>)
    ensures |Counts(planets, caller)| == 25
    ensures forall k :: 0 <= k < 25 ==>
      var d := Counts(planets, caller)[k];
      d.sector == k + 1 && d.myPlanets <= d.colonizedPlanets <= d.totalPlanets
  {
  }

  /** A planet outside sectors 1 to 25 leaves the table as it was. */
  lemma OutOfRangeIgnored(planets: seq<PlanetRow>, p: PlanetRow, caller: Option<UserId>)
    requires p.sector < 1 || p.sector > 25
    ensures Counts(planets + [p], caller) == Counts(planets, caller)
  {
    forall k | 0 <= k < SectorCount
      ensures Counts(planets + [p], caller)[k] == Counts(planets, caller)[k]
    {
      assert (planets + [p])[..|planets|] == planets;
    }
  }

  /** Number of planets in sectors 1 to 25. */
  function InRange(planets: seq<PlanetRow>): (n: nat)
    ensures n <= |planets|
  {
    if |planets| == 0 then 0
    else
      var p := planets[|planets| - 1];
      InRange(planets[..|planets| - 1]) + (if 1 <= p.sector <= SectorCount then 1 else 0)
  }

  /** The sum of the total counters of a table. */
  function TotalOf(table: seq<SectorData>): int
  {
    if |table| == 0 then 0 else TotalOf(table[..|table| - 1]) + table[|table| - 1].totalPlanets
  }

  /** Raising one entry's total by one raises the sum by one. */
  lemma {:induction false} TotalOfBump(a: seq<SectorData>, b: seq<SectorData>, j: int)
    requires |a| == |b| && 0 <= j < |a|
    requires forall k :: 0 <= k < |a| && k != j ==> b[k].totalPlanets == a[k].totalPlanets
    requires b[j].totalPlanets == a[j].totalPlanets + 1
    ensures TotalOf(b) == TotalOf(a) + 1
    decreases |a|
  {
    var n := |a| - 1;
    if j == n {
      TotalOfSame(a[..n], b[..n]);
    } else {
      TotalOfBump(a[..n], b[..n], j);
    }
  }

  lemma {:induction false} TotalOfSame(a: seq<SectorData>, b: seq<SectorData>)
    requires |a| == |b|
    requires forall k :: 0 <= k < |a| ==> b[k].totalPlanets == a[k].totalPlanets
    ensures TotalOf(b) == TotalOf(a)
    decreases |a|
  {
    if |a| > 0 {
      TotalOfSame(a[..|a| - 1], b[..|b| - 1]);
    }
  }

  /** The totals over all 25 sectors add up to the number of in-range planets. */
  lemma {:induction false} TotalsAddUp(planets: seq<PlanetRow>, caller: Option<UserId>)
    ensures TotalOf(Counts(planets, caller)) == InRange(planets)
    decreases |planets|
  {
    if |planets| == 0 {
      TotalOfSame(Counts(planets, caller), seq(SectorCount, k => SectorData(k + 1, 0, 0, 0)));
      ZeroTable(SectorCount);
    } else {
      var prefix := planets[..|planets| - 1];
      var p := planets[|planets| - 1];
      assert planets == prefix + [p];
      TotalsAddUp(prefix, caller);
      if 1 <= p.sector <= SectorCount {
        TotalOfBump(Counts(prefix, caller), Counts(planets, caller), p.sector - 1);
      } else {
        OutOfRangeIgnored(prefix, p, caller);
      }
    }
  }

  lemma {:induction false} ZeroTable(n: nat)
    ensures TotalOf(seq(n, k => SectorData(k + 1, 0, 0, 0))) == 0
  {
    if n > 0 {
      assert seq(n, k => SectorData(k + 1, 0, 0, 0))[..n - 1] == seq(n - 1, k => SectorData(k + 1, 0, 0, 0));
      ZeroTable(n - 1);
    }
  }

  /** Without a known caller, no planet counts as the caller's. */
  lemma {:induction false} UnknownCallerOwnsNothing(planets: seq<PlanetRow>, s: int)
    ensures Tally(planets, s, None).myPlanets == 0
    decreases |planets|
  {
    if |planets| > 0 {
      UnknownCallerOwnsNothing(planets[..|planets| - 1], s);
    }
  }

  /** One planet counted into its sector's counter. */
  method CountPlanet(table: array<SectorData>, p: PlanetRow, caller: Option<UserId>)
    requires table.Length == SectorCount && 1 <= p.sector <= SectorCount
    modifies table
    ensures forall j :: 0 <= j < SectorCount && j != p.sector - 1 ==> table[j] == old(table[j])
    ensures var d := old(table[p.sector - 1]);
      table[p.sector - 1] == SectorData(d.sector, d.totalPlanets + 1,
        d.colonizedPlanets + (if p.owner.Some? then 1 else 0),
        d.myPlanets + (if p.owner.Some? && p.owner == caller then 1 else 0))
  {
    var k := p.sector - 1;
    var d := table[k];
    var colonized := d.colonizedPlanets;
    var mine := d.myPlanets;
    if p.owner.Some? {
      colonized := colonized + 1;
      if p.owner == caller {
        mine := mine + 1;
      }
    }
    table[k] := SectorData(d.sector, d.totalPlanets + 1, colonized, mine);
  }

  /** A table of 25 zeroed counters for sectors 1 to 25. */
  method EmptyTable() returns (table: array<SectorData>)
    ensures fresh(table) && table.Length == SectorCount
    ensures table[..] == Counts([], None)
  {
    table := new SectorData[SectorCount];
    for i := 1 to SectorCount + 1
      invariant forall k :: 0 <= k < i - 1 ==> table[k] == SectorData(k + 1, 0, 0, 0)
    {
      table[i - 1] := SectorData(i, 0, 0, 0);
    }
  }

  /** A table whose every entry is its sector's tally is the response table. */
  lemma EntriesMakeCounts(table: seq<SectorData>, planets: seq<PlanetRow>, caller: Option<UserId>)
    requires |table| == SectorCount
    requires forall k :: 0 <= k < SectorCount ==> table[k] == Tally(planets, k + 1, caller)
    ensures table == Counts(planets, caller)
  {
  }

  /** Counting one more planet changes only its own sector's entry. */
  lemma TallyStep(planets: seq<PlanetRow>, i: nat, caller: Option<UserId>)
    requires i < |planets|
    ensures forall s :: s != planets[i].sector ==> Tally(planets[..i + 1], s, caller) == Tally(planets[..i], s, caller)
    ensures var d, p := Tally(planets[..i], planets[i].sector, caller), planets[i];
      Tally(planets[..i + 1], p.sector, caller)
        == SectorData(p.sector, d.totalPlanets + 1, d.colonizedPlanets + (if p.owner.Some? then 1 else 0),
                      d.myPlanets + (if p.owner.Some? && p.owner == caller then 1 else 0))
  {
    assert planets[..i + 1][..i] == planets[..i];
  }

  /** GET /api/galaxy/sectors: every planet of the galaxy counted into its sector. */
  method SectorsOverview(planets: seq<PlanetRow>, caller: Option<UserId>) returns (table: array<SectorData>)
    ensures fresh(table)
    ensures table[..] == Counts(planets, caller)
  {
    table := EmptyTable();
    for i := 0 to |planets|
      invariant table.Length == SectorCount && fresh(table)
      invariant forall k :: 0 <= k < SectorCount ==> table[k] == Tally(planets[..i], k + 1, caller)
    {
      var p := planets[i];
      TallyStep(planets, i, caller);
      if 1 <= p.sector <= SectorCount {
        CountPlanet(table, p, caller);
      }
    }
    assert planets[..|planets|] == planets;
    EntriesMakeCounts(table[..], planets, caller);
  }

  /**
    GET /api/galaxy/ownership: the same count over all planets, skipping a zero sector first.
    The skip never changes the table, since sector 0 lies outside 1 to 25.
   */
  method OwnershipOverview(planets: seq<PlanetRow>, caller: Option<UserId>) returns (table: array<SectorData>)
    ensures fresh(table)
    ensures table[..] == Counts(planets, caller)
  {
    table := EmptyTable();
    for i := 0 to |planets|
      invariant table.Length == SectorCount && fresh(table)
      invariant forall k :: 0 <= k < SectorCount ==> table[k] == Tally(planets[..i], k + 1, caller)
    {
      var p := planets[i];
      TallyStep(planets, i, caller);
      if p.sector != 0 && 1 <= p.sector <= SectorCount {
        CountPlanet(table, p, caller);
      }
    }
    assert planets[..|planets|] == planets;
    EntriesMakeCounts(table[..], planets, caller);
  }
}
