/** Per-nationality roll-up of player statistics: the `mapStats` reducer and
    the left fold `players.reduce(mapStats, {})` built on it. */
module NationalityStats {
  import opened Wrappers
  import opened PremierApi

  /** One nationality's aggregate.  Best rank is the numerically smallest,
      best goals the largest. */
  datatype Stats = Stats(
    name: string,
    bestPlayerRank: int,
    worstPlayerRank: int,
    bestPlayerGoals: int,
    worstPlayerGoals: int,
    totalPlayers: int,
    totalGoals: int)

  type StatsMap = map<string, Stats>

  function Min(a: int, b: int): int { if a <= b then a else b }

  function Max(a: int, b: int): int { if a <= b then b else a }

  /** The reducer's `if (nationality)`: a player is aggregated under `n` when
      its nationality is present and equals the non-empty string `n`. */
  predicate CountsTowards(p: Player, n: string) {
    n != "" && p.nationality == Some(n)
  }

  predicate HasNationality(p: Player) {
    p.nationality.Some? && CountsTowards(p, p.nationality.value)
  }

  /** The invariant every map built by the fold keeps: each entry is named
      after its key, has at least one player, and its best and worst values
      are ordered. */
  ghost predicate WellFormed(m: StatsMap) {
    forall k :: k in m ==>
      && m[k].name == k
      && m[k].bestPlayerRank <= m[k].worstPlayerRank
      && m[k].worstPlayerGoals <= m[k].bestPlayerGoals
      && m[k].totalPlayers >= 1
  }

  /** `mapStats(statsMap, player)`: folds one player into the entry of its
      nationality, starting from a default entry built from the player with
      zero totals when the nationality is new. */
  function MapStats(m: StatsMap, p: Player): (r: StatsMap)
    ensures !HasNationality(p) ==> r == m
    ensures HasNationality(p) ==>
      var n := p.nationality.value;
      && r.Keys == m.Keys + {n}
      && (forall k :: k in m && k != n ==> r[k] == m[k])
      && (n !in m ==> r[n] == Stats(n, p.rank, p.rank, p.goals, p.goals, 1, p.goals))
      && (n in m ==>
            && r[n].name == n
            && r[n].bestPlayerRank == Min(m[n].bestPlayerRank, p.rank)
            && r[n].worstPlayerRank == Max(m[n].worstPlayerRank, p.rank)
            && r[n].bestPlayerGoals == Max(m[n].bestPlayerGoals, p.goals)
            && r[n].worstPlayerGoals == Min(m[n].worstPlayerGoals, p.goals)
            && r[n].totalPlayers == m[n].totalPlayers + 1
            && r[n].totalGoals == m[n].totalGoals + p.goals)
    ensures WellFormed(m) ==> WellFormed(r)
  {
    if !HasNationality(p) then m
    else
      var n := p.nationality.value;
      var stats := if n in m then m[n] else Stats(n, p.rank, p.rank, p.goals, p.goals, 0, 0);
      m[n := Stats(
        n,
        Min(stats.bestPlayerRank, p.rank),
        Max(stats.worstPlayerRank, p.rank),
        Max(stats.bestPlayerGoals, p.goals),
        Min(stats.worstPlayerGoals, p.goals),
        stats.totalPlayers + 1,
        stats.totalGoals + p.goals)]
  }

  /** `ps.reduce(mapStats, m)`: the left fold, written as "fold everything
      but the last player, then fold the last one". */
  function ReduceStats(m: StatsMap, ps: seq<Player>): (r: StatsMap)
    ensures m.Keys <= r.Keys
    ensures WellFormed(m) ==> WellFormed(r)
    decreases |ps|
  {
    if |ps| == 0 then m else MapStats(ReduceStats(m, ps[..|ps| - 1]), ps[|ps| - 1])
  }

  /** Number of players aggregated under `n`. */
  function Count(ps: seq<Player>, n: string): nat
    decreases |ps|
  {
    if |ps| == 0 then 0
    else Count(ps[..|ps| - 1], n) + (if CountsTowards(ps[|ps| - 1], n) then 1 else 0)
  }

  /** Sum of the goals of the players aggregated under `n`. */
  function GoalSum(ps: seq<Player>, n: string): int
    decreases |ps|
  {
    if |ps| == 0 then 0
    else GoalSum(ps[..|ps| - 1], n) + (if CountsTowards(ps[|ps| - 1], n) then ps[|ps| - 1].goals else 0)
  }
}
