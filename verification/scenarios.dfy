/** The concrete scenarios the repository's tests pin down, stated against
    the model. */
module Scenarios {
  import opened Wrappers
  import opened Ordering
  import opened PremierApi
  import opened PremierApiProperties
  import opened NationalityStats
  import opened StatsScrapper

  function Record(name: string, country: string, rank: Option<int>, value: Option<int>): RawRecord {
    RawRecord(Some(Owner(Some(Birth(Some(Country(Some(country))))), Some(Name(Some(name))))), rank, value)
  }

  const Pele := Player(1, Some("Pelé"), Some("Brazil"), 1282)
  const VitorFeijao := Player(1500, Some("Vitor Feijão"), Some("Brazil"), 0)
  const Maradona := Player(2, Some("Maradona"), Some("Argentina"), 365)
  const Aguero := Player(4, Some("Sergio Agüero"), Some("Argentina"), 180)

  /** A complete record flattens field by field; missing rank and value
      default to 0; a record without `owner.name` or `owner.birth.country`
      is invalid. */
  lemma FlattenScenarios()
    ensures Flatten(Record("Pelé", "Brazil", Some(1), Some(1282))) == Ok(Player(1, Some("Pelé"), Some("Brazil"), 1282))
    ensures Flatten(Record("Vitor Feijão", "Brazil", None, None)) == Ok(Player(0, Some("Vitor Feijão"), Some("Brazil"), 0))
    ensures Flatten(RawRecord(None, None, None)) == Err(InvalidResult)
    ensures Flatten(RawRecord(None, Some(1), Some(1))) == Err(InvalidResult)
    ensures Flatten(RawRecord(Some(Owner(None, None)), Some(1), Some(1))) == Err(InvalidResult)
    ensures Flatten(RawRecord(Some(Owner(None, Some(Name(None)))), Some(1), Some(1))) == Err(InvalidResult)
    ensures Flatten(RawRecord(Some(Owner(Some(Birth(None)), Some(Name(None)))), Some(1), Some(1))) == Err(InvalidResult)
    ensures Flatten(RawRecord(Some(Owner(Some(Birth(None)), None)), Some(1), Some(1))) == Err(InvalidResult)
    ensures Flatten(RawRecord(Some(Owner(Some(Birth(Some(Country(None)))), None)), Some(1), Some(1))) == Err(InvalidResult)
  {
  }

  /** Records that do not match the expected shape are all dropped. */
  lemma UnusableRecordsScenario()
    ensures ValidPlayers([RawRecord(None, None, None), RawRecord(Some(Owner(None, None)), None, None)]) == []
  {
  }

  /** Folding a first player creates its nationality's entry; folding more
      players into an existing entry widens its bounds and grows its totals. */
  lemma MapStatsScenarios()
    ensures MapStats(map[], Pele) == map["Brazil" := Stats("Brazil", 1, 1, 1282, 1282, 1, 1282)]
    ensures MapStats(map["Brazil" := Stats("Brazil", 80, 120, 200, 10, 5, 500)], VitorFeijao)
         == map["Brazil" := Stats("Brazil", 80, 1500, 200, 0, 6, 500)]
    ensures MapStats(map["Brazil" := Stats("Brazil", 80, 1500, 200, 0, 6, 500)], Pele)
         == map["Brazil" := Stats("Brazil", 1, 1500, 1282, 0, 7, 1782)]
    ensures MapStats(map["Test" := Stats("Test", 0, 0, 0, 0, 1, 0)], Player(1, None, None, 2))
         == map["Test" := Stats("Test", 0, 0, 0, 0, 1, 0)]
  {
  }

  lemma SortTwo()
    ensures Sort([Pele, Maradona], RankLe) == [Pele, Maradona]
  {
    assert [Pele, Maradona][1..] == [Maradona];
    assert [Maradona][1..] == [];
    assert Sort([Maradona], RankLe) == [Maradona];
  }

  lemma SortThree()
    ensures Sort([VitorFeijao, Pele, Maradona], RankLe) == [Pele, Maradona, VitorFeijao]
  {
    SortTwo();
    assert [VitorFeijao, Pele, Maradona][1..] == [Pele, Maradona];
    assert [Pele, Maradona][1..] == [Maradona];
    assert [Maradona][1..] == [];
    assert Insert(VitorFeijao, [Maradona], RankLe) == [Maradona, VitorFeijao];
  }

  lemma InsertAguero()
    ensures Insert(Aguero, [Pele, Maradona, VitorFeijao], RankLe) == [Pele, Maradona, Aguero, VitorFeijao]
  {
    assert [Pele, Maradona, VitorFeijao][1..] == [Maradona, VitorFeijao];
    assert [Maradona, VitorFeijao][1..] == [VitorFeijao];
    assert Insert(Aguero, [VitorFeijao], RankLe) == [Aguero, VitorFeijao];
    assert Insert(Aguero, [Maradona, VitorFeijao], RankLe) == [Maradona, Aguero, VitorFeijao];
  }

  lemma SortFour()
    ensures Sort([Aguero, VitorFeijao, Pele, Maradona], RankLe) == [Pele, Maradona, Aguero, VitorFeijao]
  {
    SortThree();
    InsertAguero();
    assert [Aguero, VitorFeijao, Pele, Maradona][1..] == [VitorFeijao, Pele, Maradona];
  }

  /** Four players sorted by rank. */
  lemma SortScenario()
    ensures SortByRank([Aguero, VitorFeijao, Pele, Maradona]) == [Pele, Maradona, Aguero, VitorFeijao]
  {
    SortFour();
  }

  /** The four players sorted by rank, aggregated by nationality. */
  lemma ReduceScenario()
    ensures ReduceStats(map[], [Pele, Maradona, Aguero, VitorFeijao]) == map[
      "Argentina" := Stats("Argentina", 2, 4, 365, 180, 2, 545),
      "Brazil" := Stats("Brazil", 1, 1500, 1282, 0, 2, 1282)]
  {
    var ps := [Pele, Maradona, Aguero, VitorFeijao];
    assert ps[..1] == [Pele] && ps[..1][..0] == [];
    var m1 := map["Brazil" := Stats("Brazil", 1, 1, 1282, 1282, 1, 1282)];
    assert ReduceStats(map[], ps[..1]) == m1;
    assert ps[..2][..1] == ps[..1];
    var m2 := m1["Argentina" := Stats("Argentina", 2, 2, 365, 365, 1, 365)];
    assert ReduceStats(map[], ps[..2]) == m2;
    assert ps[..3][..2] == ps[..2];
    var m3 := m1["Argentina" := Stats("Argentina", 2, 4, 365, 180, 2, 545)];
    assert ReduceStats(map[], ps[..3]) == m3;
    assert ps[..3] == ps[..|ps| - 1];
  }

  /** Page `p` of a three-page listing holds one record. */
  function ThreePages(p: nat): Response {
    if p < 3 then Body(Some(PageInfo(Some(3))), Some([Record("Page", "Country", Some(p), None)]))
    else Body(None, None)
  }

  /** Three pages reporting `numPages = 3` are requested as pages 0, 1, 2 and
      their contents concatenated in that order. */
  lemma ThreePagesScenario()
    ensures GetApiResults(ThreePages, 3, 0).requested == [0, 1, 2]
    ensures GetApiResults(ThreePages, 3, 0).result == Ok([
      Record("Page", "Country", Some(0), None),
      Record("Page", "Country", Some(1), None),
      Record("Page", "Country", Some(2), None)])
  {
    assert PageCountsBounded(ThreePages, 3);
    UniformPagesFetch(ThreePages, 3, 3);
    assert Contents(ThreePages, 2, 1) == [Record("Page", "Country", Some(2), None)] + Contents(ThreePages, 3, 0);
    assert Contents(ThreePages, 1, 2) == [Record("Page", "Country", Some(1), None)] + Contents(ThreePages, 2, 1);
    assert Contents(ThreePages, 0, 3) == [Record("Page", "Country", Some(0), None)] + Contents(ThreePages, 1, 2);
    assert Contents(ThreePages, 3, 0) == [];
    assert Contents(ThreePages, 0, 3) == [
      Record("Page", "Country", Some(0), None),
      Record("Page", "Country", Some(1), None),
      Record("Page", "Country", Some(2), None)];
  }

  /** Page 0 announces two pages, page 1 fails in transport. */
  function FailingSecondPage(p: nat): Response {
    if p == 0 then Body(Some(PageInfo(Some(2))), Some([Record("Pelé", "Brazil", Some(1), Some(1282))]))
    else TransportErr("Error hapened!")
  }

  /** The failure of page 1 is the result; page 0's content is discarded. */
  lemma FailingSecondPageScenario()
    ensures GetApiResults(FailingSecondPage, 2, 0).requested == [0, 1]
    ensures GetApiResults(FailingSecondPage, 2, 0).result == Err(Transport("Error hapened!"))
    ensures GetPlayersStats(FailingSecondPage, 2) == Err(Transport("Error hapened!"))
  {
    assert PageCountsBounded(FailingSecondPage, 2);
    assert Continues(FailingSecondPage, 0);
    FirstErrorAbortsFetch(FailingSecondPage, 2, 1, Transport("Error hapened!"));
  }
}
