/** The scrapper's pipeline: fetch the players, export them sorted by rank,
    aggregate them by nationality and export the aggregates sorted by name,
    stopping at the first failure.  The two exporters are opaque sinks
    passed in as functions. */
module StatsScrapper {
  import opened Wrappers
  import opened Ordering
  import opened PremierApi
  import opened NationalityStats
  import opened NationalityStatsProperties

  /** `sortByRank`: `a` may precede `b` when `a.rank - b.rank <= 0`. */
  predicate RankLe(a: Player, b: Player) {
    a.rank <= b.rank
  }

  /** `sortByName`: `a` may precede `b` when `a.name` does not compare
      after `b.name`. */
  predicate NameLe(a: Stats, b: Stats) {
    LexLe(a.name, b.name)
  }

  lemma RankLeTotalPreorder()
    ensures TotalPreorder(RankLe)
  {
  }

  lemma NameLeTotalPreorder()
    ensures TotalPreorder(NameLe)
  {
    forall a: Stats, b: Stats
      ensures NameLe(a, b) || NameLe(b, a)
    {
      LexLeTotal(a.name, b.name);
    }
    forall a: Stats, b: Stats, c: Stats | NameLe(a, b) && NameLe(b, c)
      ensures NameLe(a, c)
    {
      LexLeTransitive(a.name, b.name, c.name);
    }
  }

  /** `players.sort(sortByRank)`: the players in ascending rank order. */
  function SortByRank(ps: seq<Player>): (r: seq<Player>)
    ensures multiset(r) == multiset(ps)
    ensures SortedBy(r, RankLe)
  {
    RankLeTotalPreorder();
    Sort(ps, RankLe)
  }

  /** `stats.sort(sortByName)`: the aggregates in ascending name order. */
  function SortByName(ns: seq<Stats>): (r: seq<Stats>)
    ensures multiset(r) == multiset(ns)
    ensures SortedBy(r, NameLe)
  {
    NameLeTotalPreorder();
    Sort(ns, NameLe)
  }

  /** What an exporter reports: the promise resolved, or it failed. */
  datatype ExportResult = Written | Failed(reason: string)

  /** Where a run of the pipeline ended. */
  datatype Stage =
    | FetchFailed(fetchError: FetchError)
    | PlayersExportFailed(playersError: string)
    | NationalitiesExportFailed(nationalitiesError: string)
    | Exported

  /** What a run handed to each exporter (None: that exporter was not
      called) and where it ended. */
  datatype Run = Run(playersExported: Option<seq<Player>>, nationalitiesExported: Option<seq<Stats>>, stage: Stage)

  /** `Object.values(statsMap)`: the value of each key, once per key, in the
      order the keys `ks` are visited. */
  method StatsValues(m: StatsMap) returns (vs: seq<Stats>, ks: seq<string>)
    ensures |ks| == |m|
    ensures forall k :: k in m <==> k in ks
    ensures forall i, j :: 0 <= i < j < |ks| ==> ks[i] != ks[j]
    ensures |vs| == |ks|
    ensures forall i :: 0 <= i < |vs| ==> vs[i] == m[ks[i]]
  {
    vs, ks := [], [];
    var keys := m.Keys;
    while keys != {}
      invariant keys <= m.Keys
      invariant |ks| + |keys| == |m|
      invariant forall k :: k in m <==> k in ks || k in keys
      invariant forall i :: 0 <= i < |ks| ==> ks[i] in m && ks[i] !in keys
      invariant forall i, j :: 0 <= i < j < |ks| ==> ks[i] != ks[j]
      invariant |vs| == |ks|
      invariant forall i :: 0 <= i < |vs| ==> vs[i] == m[ks[i]]
      decreases keys
    {
      var k :| k in keys;
      vs, ks := vs + [m[k]], ks + [k];
      keys := keys - {k};
    }
  }

  /** `Object.values(statsMap).sort(sortByName)`: every entry once, in
      ascending name order. */
  method SortedNationalities(totals: StatsMap) returns (ns: seq<Stats>)
    ensures |ns| == |totals|
    ensures forall k :: k in totals ==> totals[k] in ns
    ensures WellFormed(totals) ==>
      forall i :: 0 <= i < |ns| ==> ns[i].name in totals && totals[ns[i].name] == ns[i]
    ensures SortedBy(ns, NameLe)
  {
    var values, keys := StatsValues(totals);
    ns := SortByName(values);
    forall i | 0 <= i < |ns|
      ensures ns[i] in totals.Values
    {
      assert ns[i] in multiset(values);
      var j :| 0 <= j < |values| && values[j] == ns[i];
      assert totals[keys[j]] == ns[i];
    }
    forall k | k in totals
      ensures totals[k] in ns
    {
      var j :| 0 <= j < |keys| && keys[j] == k;
      assert values[j] == totals[k];
      assert totals[k] in multiset(values);
    }
  }

  /** `exportStats`.  A fetch error ends the run before any export.  The
      players go to the first exporter sorted by rank; if that export fails
      the run ends there.  Otherwise the players are reduced by nationality
      and the aggregates -- one per key of the fold, each equal to its
      entry -- go to the second exporter sorted by name. */
  method ExportStats(
    server: nat -> Response,
    bound: nat,
    exportPlayers: seq<Player> -> ExportResult,
    exportNationalities: seq<Stats> -> ExportResult)
    returns (run: Run)
    requires PageCountsBounded(server, bound)
    ensures GetPlayersStats(server, bound).Err? ==>
      run == Run(None, None, FetchFailed(GetPlayersStats(server, bound).error))
    ensures GetPlayersStats(server, bound).Ok? ==>
      && run.playersExported.Some?
      && multiset(run.playersExported.value) == multiset(GetPlayersStats(server, bound).value)
      && SortedBy(run.playersExported.value, RankLe)
    ensures run.playersExported.Some? && exportPlayers(run.playersExported.value).Failed? ==>
      && run.nationalitiesExported.None?
      && run.stage == PlayersExportFailed(exportPlayers(run.playersExported.value).reason)
    ensures run.playersExported.Some? && exportPlayers(run.playersExported.value).Written? ==>
      run.nationalitiesExported.Some?
    ensures run.nationalitiesExported.Some? ==>
      var ns := run.nationalitiesExported.value;
      var totals := ReduceStats(map[], GetPlayersStats(server, bound).value);
      && GetPlayersStats(server, bound).Ok?
      && |ns| == |totals|
      && (forall i :: 0 <= i < |ns| ==> ns[i].name in totals && totals[ns[i].name] == ns[i])
      && (forall k :: k in totals ==> totals[k] in ns)
      && SortedBy(ns, NameLe)
      && run.stage == (match exportNationalities(ns)
                       case Written => Exported
                       case Failed(reason) => NationalitiesExportFailed(reason))
  {
    var fetched := GetPlayersStats(server, bound);
    if fetched.Err? {
      return Run(None, None, FetchFailed(fetched.error));
    }

    // Array.prototype.sort sorts in place: the fold below sees the sorted array.
    var players := SortByRank(fetched.value);
    var playersResult := exportPlayers(players);
    if playersResult.Failed? {
      return Run(Some(players), None, PlayersExportFailed(playersResult.reason));
    }

    var totals := ReduceStats(map[], players);
    ReducePermutation(map[], players, fetched.value);
    var nationalities := SortedNationalities(totals);
    var nationalitiesResult := exportNationalities(nationalities);
    var stage := match nationalitiesResult
      case Written => Exported
      case Failed(reason) => NationalitiesExportFailed(reason);
    return Run(Some(players), Some(nationalities), stage);
  }
}
