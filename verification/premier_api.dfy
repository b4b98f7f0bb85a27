/** The Premier League statistics API client: paginated fetching of raw
    ranking records and their normalisation into flat player statistics.
    The HTTP transport is an oracle `server` from page index to response. */
module PremierApi {
  import opened Wrappers

  // ---------------------------------------------------------------------
  // Raw API records: only the fields the normaliser reads.  Every nested
  // object may be absent (`undefined`).
  // ---------------------------------------------------------------------

  datatype Name = Name(display: Option<string>)
  datatype Country = Country(country: Option<string>)
  datatype Birth = Birth(country: Option<Country>)
  datatype Owner = Owner(birth: Option<Birth>, name: Option<Name>)
  datatype RawRecord = RawRecord(owner: Option<Owner>, rank: Option<int>, value: Option<int>)

  /** A flattened record.  `name` and `nationality` are copied from leaves
      the validity check does not inspect, so they may be absent. */
  datatype Player = Player(rank: int, name: Option<string>, nationality: Option<string>, goals: int)

  // ---------------------------------------------------------------------
  // Server responses and fetch errors
  // ---------------------------------------------------------------------

  datatype PageInfo = PageInfo(numPages: Option<int>)

  /** What the request wrapper yields for one page: a transport error, or a
      body whose `stats.pageInfo` and `stats.content` may each be missing. */
  datatype Response =
    | TransportErr(message: string)
    | Body(pageInfo: Option<PageInfo>, content: Option<seq<RawRecord>>)

  datatype FetchError = Transport(message: string) | InvalidApiResult

  datatype FlattenError = InvalidResult

  /** The pages requested, in request order, and the overall outcome. */
  datatype Fetched = Fetched(requested: seq<nat>, result: Result<seq<RawRecord>, FetchError>)

  /** The error one response aborts the whole fetch with, if any. */
  function PageError(resp: Response): Option<FetchError> {
    match resp
    case TransportErr(m) => Some(Transport(m))
    case Body(info, content) =>
      if info.None? || content.None? then Some(InvalidApiResult) else None
  }

  /** `page < numPages - 1`; a missing `numPages` compares false. */
  predicate HasNextPage(resp: Response, page: nat) {
    && resp.Body?
    && resp.pageInfo.Some?
    && resp.pageInfo.value.numPages.Some?
    && page < resp.pageInfo.value.numPages.value - 1
  }

  /** Page `p` is well formed and asks for page `p + 1` to be fetched. */
  predicate Continues(server: nat -> Response, p: nat) {
    PageError(server(p)).None? && HasNextPage(server(p), p)
  }

  function ContentOf(resp: Response): seq<RawRecord> {
    if resp.Body? && resp.content.Some? then resp.content.value else []
  }

  /** The contents of pages `from .. from + count - 1`, concatenated in
      ascending page order. */
  function Contents(server: nat -> Response, from: nat, count: nat): seq<RawRecord>
    decreases count
  {
    if count == 0 then [] else ContentOf(server(from)) + Contents(server, from + 1, count - 1)
  }

  function ReportedPages(resp: Response): int {
    if resp.Body? && resp.pageInfo.Some? && resp.pageInfo.value.numPages.Some?
    then resp.pageInfo.value.numPages.value
    else 0
  }

  /** No page reports more than `bound` pages: the termination measure of
      the page recursion. */
  ghost predicate PageCountsBounded(server: nat -> Response, bound: nat) {
    forall p: nat :: ReportedPages(server(p)) <= bound
  }

  /** `getApiResults(page)`: fetch `page`; abort on a transport error or a
      body without `pageInfo` or `content`; otherwise, while
      `page < numPages - 1`, fetch the rest recursively and prepend this
      page's content.  The result records every page requested, and is
      either the concatenation of all their contents or the error of the
      last one. */
  function GetApiResults(server: nat -> Response, bound: nat, page: nat): (r: Fetched)
    requires PageCountsBounded(server, bound)
    decreases bound - page
    ensures |r.requested| >= 1
    ensures forall i :: 0 <= i < |r.requested| ==> r.requested[i] == page + i
    ensures forall p: nat :: page <= p < page + |r.requested| - 1 ==> Continues(server, p)
    ensures var last := page + |r.requested| - 1;
      match PageError(server(last))
      case Some(e) => r.result == Err(e)
      case None =>
        && !HasNextPage(server(last), last)
        && r.result == Ok(Contents(server, page, |r.requested|))
  {
    var resp := server(page);
    match PageError(resp)
    case Some(e) => Fetched([page], Err(e))
    case None =>
      if HasNextPage(resp, page) then
        var next := GetApiResults(server, bound, page + 1);
        var result := match next.result
          case Err(e) => Err(e)
          case Ok(rest) => Ok(resp.content.value + rest);
        Fetched([page] + next.requested, result)
      else
        var r := Fetched([page], Ok(resp.content.value));
        assert Contents(server, page, 1) == resp.content.value + [];
        assert Contents(server, page, 1) == resp.content.value;
        r
  }

  /** A record is usable when `owner`, `owner.birth`, `owner.birth.country`
      and `owner.name` are all present. */
  predicate HasRequiredFields(raw: RawRecord) {
    && raw.owner.Some?
    && raw.owner.value.birth.Some?
    && raw.owner.value.birth.value.country.Some?
    && raw.owner.value.name.Some?
  }

  /** `flattenResult`: the flat statistics of one raw record, or the
      invalid-record marker. */
  function Flatten(raw: RawRecord): (r: Result<Player, FlattenError>)
    ensures r.Err? <==> !HasRequiredFields(raw)
    ensures r.Ok? ==>
      && r.value.name == raw.owner.value.name.value.display
      && r.value.nationality == raw.owner.value.birth.value.country.value.country
      && (raw.rank.Some? ==> r.value.rank == raw.rank.value)
      && (raw.rank.None? ==> r.value.rank == 0)
      && (raw.value.Some? ==> r.value.goals == raw.value.value)
      && (raw.value.None? ==> r.value.goals == 0)
  {
    match raw.owner
    case None => Err(InvalidResult)
    case Some(owner) =>
      match (owner.birth, owner.name)
      case (Some(Birth(Some(country))), Some(name)) =>
        Ok(Player(raw.rank.GetOr(0), name.display, country.country, raw.value.GetOr(0)))
      case _ => Err(InvalidResult)
  }

  /** `records.map(flattenResult).filter(({err}) => !err)`. */
  function ValidPlayers(raws: seq<RawRecord>): (ps: seq<Player>)
    ensures |ps| <= |raws|
    ensures |ps| == |raws| <==> forall raw :: raw in raws ==> HasRequiredFields(raw)
  {
    if |raws| == 0 then []
    else
      var head := match Flatten(raws[0]) case Ok(p) => [p] case Err(_) => [];
      var tail := ValidPlayers(raws[1..]);
      assert raws == [raws[0]] + raws[1..];
      head + tail
  }

  /** `getPlayersStats`: a fetch error is returned unchanged; otherwise the
      flattened valid records of every fetched page. */
  function GetPlayersStats(server: nat -> Response, bound: nat): (r: Result<seq<Player>, FetchError>)
    requires PageCountsBounded(server, bound)
    ensures var fetched := GetApiResults(server, bound, 0).result;
      && (fetched.Err? <==> r.Err?)
      && (fetched.Err? ==> r.error == fetched.error)
      && (fetched.Ok? ==> r.value == ValidPlayers(fetched.value) && |r.value| <= |fetched.value|)
  {
    match GetApiResults(server, bound, 0).result
    case Err(e) => Err(e)
    case Ok(raws) => Ok(ValidPlayers(raws))
  }
}
