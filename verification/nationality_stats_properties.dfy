/** What the fold computes from an empty map, and why the order of the
    players does not matter. */
module NationalityStatsProperties {
  import opened PremierApi
  import opened NationalityStats

  /** Reducing from `{}` creates exactly one key per non-empty nationality
      that occurs among the players. */
  lemma {:induction false} ReduceKeys(ps: seq<Player>, n: string)
    ensures n in ReduceStats(map[], ps) <==> exists i :: 0 <= i < |ps| && CountsTowards(ps[i], n)
    decreases |ps|
  {
    if |ps| > 0 {
      var init := ps[..|ps| - 1];
      ReduceKeys(init, n);
      assert forall i :: 0 <= i < |init| ==> init[i] == ps[i];
    }
  }

  /** The totals of a key are the number of its players and the sum of their
      goals. */
  lemma {:induction false} ReduceTotals(ps: seq<Player>, n: string)
    ensures n in ReduceStats(map[], ps) ==>
      && ReduceStats(map[], ps)[n].totalPlayers == Count(ps, n)
      && ReduceStats(map[], ps)[n].totalGoals == GoalSum(ps, n)
    ensures n !in ReduceStats(map[], ps) ==> Count(ps, n) == 0 && GoalSum(ps, n) == 0
    decreases |ps|
  {
    if |ps| > 0 {
      ReduceTotals(ps[..|ps| - 1], n);
    }
  }

  /** Best and worst values bound the rank and goals of every player of the
      nationality. */
  lemma {:induction false} ReduceBounds(ps: seq<Player>, n: string)
    requires n in ReduceStats(map[], ps)
    ensures var s := ReduceStats(map[], ps)[n];
      forall i :: 0 <= i < |ps| && CountsTowards(ps[i], n) ==>
        && s.bestPlayerRank <= ps[i].rank <= s.worstPlayerRank
        && s.worstPlayerGoals <= ps[i].goals <= s.bestPlayerGoals
    decreases |ps|
  {
    var init := ps[..|ps| - 1];
    assert forall i :: 0 <= i < |init| ==> init[i] == ps[i];
    if n in ReduceStats(map[], init) {
      ReduceBounds(init, n);
    } else {
      ReduceKeys(init, n);
    }
  }

  /** Best and worst values are each attained by some player of the
      nationality, so together with ReduceBounds they are its minimum and
      maximum. */
  lemma {:induction false} ReduceAttained(ps: seq<Player>, n: string)
    requires n in ReduceStats(map[], ps)
    ensures var s := ReduceStats(map[], ps)[n];
      && (exists i :: 0 <= i < |ps| && CountsTowards(ps[i], n) && ps[i].rank == s.bestPlayerRank)
      && (exists i :: 0 <= i < |ps| && CountsTowards(ps[i], n) && ps[i].rank == s.worstPlayerRank)
      && (exists i :: 0 <= i < |ps| && CountsTowards(ps[i], n) && ps[i].goals == s.bestPlayerGoals)
      && (exists i :: 0 <= i < |ps| && CountsTowards(ps[i], n) && ps[i].goals == s.worstPlayerGoals)
    decreases |ps|
  {
    var init := ps[..|ps| - 1];
    assert forall i :: 0 <= i < |init| ==> init[i] == ps[i];
    if n in ReduceStats(map[], init) {
      ReduceAttained(init, n);
    }
  }

  /** Folding two players of the same nationality in either order gives
      the same entry: min, max and sum are commutative. */
  lemma MapStatsCommuteSameKey(m: StatsMap, a: Player, b: Player)
    requires HasNationality(a) && b.nationality == a.nationality
    ensures MapStats(MapStats(m, a), b) == MapStats(MapStats(m, b), a)
  {
    var n := a.nationality.value;
    var ma, mb := MapStats(m, a), MapStats(m, b);
    var ab, ba := MapStats(ma, b), MapStats(mb, a);
    assert ab == ma[n := ab[n]] && ba == mb[n := ba[n]];
    if n in m {
      assert ab[n] == ba[n];
    } else {
      assert ab[n] == Stats(n, Min(a.rank, b.rank), Max(a.rank, b.rank), Max(a.goals, b.goals), Min(a.goals, b.goals), 2, a.goals + b.goals);
      assert ba[n] == ab[n];
    }
    assert ab == m[n := ab[n]];
    assert ba == m[n := ba[n]];
  }

  /** Players of different nationalities write different keys. */
  lemma MapStatsCommuteOtherKeys(m: StatsMap, a: Player, b: Player)
    requires HasNationality(a) && HasNationality(b) && a.nationality != b.nationality
    ensures MapStats(MapStats(m, a), b) == MapStats(MapStats(m, b), a)
  {
    var na, nb := a.nationality.value, b.nationality.value;
    var ma, mb := MapStats(m, a), MapStats(m, b);
    assert ma == m[na := ma[na]] && mb == m[nb := mb[nb]];
    assert MapStats(ma, b) == ma[nb := mb[nb]];
    assert MapStats(mb, a) == mb[na := ma[na]];
  }

  /** Two players can be folded in either order. */
  lemma MapStatsCommute(m: StatsMap, a: Player, b: Player)
    ensures MapStats(MapStats(m, a), b) == MapStats(MapStats(m, b), a)
  {
    if HasNationality(a) && HasNationality(b) {
      if a.nationality == b.nationality {
        MapStatsCommuteSameKey(m, a, b);
      } else {
        MapStatsCommuteOtherKeys(m, a, b);
      }
    }
  }

  /** Moving one player to the end of the list leaves the fold unchanged. */
  lemma {:induction false} ReduceMoveToEnd(m: StatsMap, a: seq<Player>, x: Player, b: seq<Player>)
    ensures ReduceStats(m, a + [x] + b) == ReduceStats(m, a + b + [x])
    decreases |b|
  {
    if |b| > 0 {
      var b' := b[..|b| - 1];
      var y := b[|b| - 1];
      assert (a + [x] + b)[..|a + [x] + b| - 1] == a + [x] + b';
      assert (a + b + [x])[..|a + b + [x]| - 1] == a + b;
      assert (a + b)[..|a + b| - 1] == a + b';
      assert (a + b' + [x])[..|a + b' + [x]| - 1] == a + b';
      ReduceMoveToEnd(m, a, x, b');
      MapStatsCommute(ReduceStats(m, a + b'), x, y);
    } else {
      assert a + [x] + b == a + b + [x];
    }
  }

  /** Removing the element at `i` removes one copy of it from the multiset. */
  lemma MultisetWithout<T>(ps: seq<T>, i: nat)
    requires i < |ps|
    ensures multiset(ps[..i] + ps[i + 1..]) + multiset{ps[i]} == multiset(ps)
  {
    assert ps == ps[..i] + [ps[i]] + ps[i + 1..];
  }

  lemma MultisetCancel<T>(s: multiset<T>, t: multiset<T>, x: T)
    requires s + multiset{x} == t + multiset{x}
    ensures s == t
  {
    assert forall y :: s[y] == (s + multiset{x})[y] - multiset{x}[y];
    assert forall y :: t[y] == (t + multiset{x})[y] - multiset{x}[y];
  }

  /** Folding one more player is one more reducer step. */
  lemma ReduceSnoc(m: StatsMap, ps: seq<Player>, x: Player)
    ensures ReduceStats(m, ps + [x]) == MapStats(ReduceStats(m, ps), x)
  {
    assert (ps + [x])[..|ps + [x]| - 1] == ps;
  }

  /** Locates the last element of `qs` in its permutation `ps`: what is left
      around it is a permutation of the rest of `qs`. */
  lemma SplitAtLast<T>(ps: seq<T>, qs: seq<T>) returns (a: seq<T>, b: seq<T>)
    requires multiset(ps) == multiset(qs) && |qs| > 0
    ensures ps == a + [qs[|qs| - 1]] + b
    ensures multiset(a + b) == multiset(qs[..|qs| - 1])
  {
    var x := qs[|qs| - 1];
    var qs' := qs[..|qs| - 1];
    assert multiset(qs') + multiset{x} == multiset(qs) by {
      assert qs == qs' + [x];
    }
    assert x in multiset(ps);
    var i :| 0 <= i < |ps| && ps[i] == x;
    a, b := ps[..i], ps[i + 1..];
    MultisetWithout(ps, i);
    MultisetCancel(multiset(a + b), multiset(qs'), x);
    assert ps == a + [x] + b;
  }

  /** The fold depends only on the multiset of players: the aggregates do
      not depend on the order the API returned them in, nor on the sort
      applied before reducing. */
  lemma {:induction false} ReducePermutation(m: StatsMap, ps: seq<Player>, qs: seq<Player>)
    requires multiset(ps) == multiset(qs)
    ensures ReduceStats(m, ps) == ReduceStats(m, qs)
    decreases |qs|
  {
    if |qs| == 0 {
      assert |ps| == |multiset(ps)|;
    } else {
      var x := qs[|qs| - 1];
      var qs' := qs[..|qs| - 1];
      var a, b := SplitAtLast(ps, qs);
      calc {
        ReduceStats(m, ps);
        { ReduceMoveToEnd(m, a, x, b); }
        ReduceStats(m, a + b + [x]);
        { ReduceSnoc(m, a + b, x); }
        MapStats(ReduceStats(m, a + b), x);
        { ReducePermutation(m, a + b, qs'); }
        MapStats(ReduceStats(m, qs'), x);
        { assert qs == qs' + [x]; ReduceSnoc(m, qs', x); }
        ReduceStats(m, qs);
      }
    }
  }
}
