/** Properties of the paginated fetch and of the normaliser. */
module PremierApiProperties {
  import opened Wrappers
  import opened PremierApi

  /** The fetch goes past every page that is well formed and reports a
      further page. */
  lemma {:induction false} FetchPassesContinuingPages(server: nat -> Response, bound: nat, page: nat, k: nat)
    requires PageCountsBounded(server, bound)
    requires forall p: nat :: page <= p < page + k ==> Continues(server, p)
    ensures |GetApiResults(server, bound, page).requested| > k
  {
    var r := GetApiResults(server, bound, page);
    var last: nat := page + |r.requested| - 1;
    assert !Continues(server, last);
  }

  /** The fetch stops at the first page that is malformed or is the last
      one it announces. */
  lemma FetchStopsAtFirstFinalPage(server: nat -> Response, bound: nat, page: nat, k: nat)
    requires PageCountsBounded(server, bound)
    requires forall p: nat :: page <= p < page + k ==> Continues(server, p)
    requires !Continues(server, page + k)
    ensures |GetApiResults(server, bound, page).requested| == k + 1
  {
    FetchPassesContinuingPages(server, bound, page, k);
  }

  /** An error on any page reached -- a transport failure or a body missing
      `pageInfo` or `content` -- is the result of the whole fetch and of
      `getPlayersStats`; the content of earlier pages is discarded. */
  lemma FirstErrorAbortsFetch(server: nat -> Response, bound: nat, k: nat, e: FetchError)
    requires PageCountsBounded(server, bound)
    requires forall p: nat :: p < k ==> Continues(server, p)
    requires PageError(server(k)) == Some(e)
    ensures |GetApiResults(server, bound, 0).requested| == k + 1
    ensures GetApiResults(server, bound, 0).result == Err(e)
    ensures GetPlayersStats(server, bound) == Err(e)
  {
    FetchStopsAtFirstFinalPage(server, bound, 0, k);
  }

  /** A transport error on page `k` becomes the error of the whole fetch. */
  lemma TransportErrorAbortsFetch(server: nat -> Response, bound: nat, k: nat, message: string)
    requires PageCountsBounded(server, bound)
    requires forall p: nat :: p < k ==> Continues(server, p)
    requires server(k) == TransportErr(message)
    ensures GetApiResults(server, bound, 0).result == Err(Transport(message))
  {
    FirstErrorAbortsFetch(server, bound, k, Transport(message));
  }

  /** When page 0 is well formed and reports at most one page, page 0 is the
      only page requested and its content, empty or not, is the result. */
  lemma SinglePageFetch(server: nat -> Response, bound: nat)
    requires PageCountsBounded(server, bound)
    requires PageError(server(0)).None?
    requires ReportedPages(server(0)) <= 1
    ensures GetApiResults(server, bound, 0).requested == [0]
    ensures GetApiResults(server, bound, 0).result == Ok(server(0).content.value)
  {
    var r := GetApiResults(server, bound, 0);
    FetchStopsAtFirstFinalPage(server, bound, 0, 0);
    assert Contents(server, 0, 1) == server(0).content.value + [];
  }

  /** When every page is well formed and reports the same `numPages = k > 1`,
      pages `0 .. k-1` are requested in ascending order and the result is
      their contents concatenated in that order. */
  lemma UniformPagesFetch(server: nat -> Response, bound: nat, k: nat)
    requires PageCountsBounded(server, bound)
    requires k > 1
    requires forall p: nat :: p < k ==> PageError(server(p)).None? && ReportedPages(server(p)) == k
    ensures var r := GetApiResults(server, bound, 0);
      && |r.requested| == k
      && (forall i :: 0 <= i < k ==> r.requested[i] == i)
      && r.result == Ok(Contents(server, 0, k))
  {
    assert forall p: nat :: p < k - 1 ==> Continues(server, p);
    assert !HasNextPage(server(k - 1), k - 1);
    FetchStopsAtFirstFinalPage(server, bound, 0, k - 1);
  }

  /** Filtering distributes over concatenation, so valid records keep their
      input order. */
  lemma {:induction false} ValidPlayersAppend(a: seq<RawRecord>, b: seq<RawRecord>)
    ensures ValidPlayers(a + b) == ValidPlayers(a) + ValidPlayers(b)
  {
    if |a| == 0 {
      assert a + b == b;
    } else {
      var head := match Flatten(a[0]) case Ok(p) => [p] case Err(_) => [];
      assert (a + b)[0] == a[0] && (a + b)[1..] == a[1..] + b;
      assert ValidPlayers(a) == head + ValidPlayers(a[1..]);
      assert ValidPlayers(a + b) == head + ValidPlayers(a[1..] + b);
      ValidPlayersAppend(a[1..], b);
    }
  }

  /** The kept players are exactly the flattenings of the usable records. */
  lemma {:induction false} ValidPlayersMembership(raws: seq<RawRecord>)
    ensures forall p :: p in ValidPlayers(raws) <==> exists raw :: raw in raws && Flatten(raw) == Ok(p)
  {
    if |raws| > 0 {
      assert raws == [raws[0]] + raws[1..];
      ValidPlayersAppend([raws[0]], raws[1..]);
      ValidPlayersMembership(raws[1..]);
    }
  }

  /** The valid players of pages `from .. from + count - 1`, page by page. */
  function PlayersOfPages(server: nat -> Response, from: nat, count: nat): seq<Player>
    decreases count
  {
    if count == 0 then [] else ValidPlayers(ContentOf(server(from))) + PlayersOfPages(server, from + 1, count - 1)
  }

  lemma {:induction false} ValidPlayersOfContents(server: nat -> Response, from: nat, count: nat)
    ensures ValidPlayers(Contents(server, from, count)) == PlayersOfPages(server, from, count)
    decreases count
  {
    if count > 0 {
      var here := ContentOf(server(from));
      var later := Contents(server, from + 1, count - 1);
      assert Contents(server, from, count) == here + later;
      ValidPlayersAppend(here, later);
      ValidPlayersOfContents(server, from + 1, count - 1);
    }
  }

  /** `getPlayersStats` over `k > 1` uniform pages returns each page's valid
      records, in page order. */
  lemma UniformPagesPlayers(server: nat -> Response, bound: nat, k: nat)
    requires PageCountsBounded(server, bound)
    requires k > 1
    requires forall p: nat :: p < k ==> PageError(server(p)).None? && ReportedPages(server(p)) == k
    ensures GetPlayersStats(server, bound) == Ok(PlayersOfPages(server, 0, k))
  {
    UniformPagesFetch(server, bound, k);
    ValidPlayersOfContents(server, 0, k);
  }

  /** The raw record the API would send for a player. */
  function Encode(p: Player): RawRecord {
    RawRecord(Some(Owner(Some(Birth(Some(Country(p.nationality)))), Some(Name(p.name)))), Some(p.rank), Some(p.goals))
  }

  /** Flattening recovers exactly the player a record was built from. */
  lemma FlattenEncode(p: Player)
    ensures Flatten(Encode(p)) == Ok(p)
  {
  }
}
