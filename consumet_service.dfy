/**
  The streaming-provider client (`consumetService.js`, whose server and browser
  copies share the functions modelled here): provider search, anime info with
  its episode listing, per-episode stream sources, the episode locator and the
  title resolver with its three-step query relaxation.

  The three HTTP endpoints are replaced by the functions of an `Upstream`
  value, each giving what one exchange produced: a transport failure, a
  non-OK status, or a decoded body. Every client function absorbs failures
  into an empty or absent result, as the source's `try`/`catch` blocks do.
  The order in which a caller issues requests is recorded as a list of
  `Call`s, so that "this endpoint is never called" can be stated.
*/
module ConsumetService {
  import opened Common
  import opened TitleCleaning

  /** One entry of a provider search result. */
  datatype Candidate = Candidate(id: string, title: string)

  datatype Episode = Episode(id: string, number: int)

  /** The provider's anime info; `episodes` may be missing from the body. */
  datatype AnimeInfo = AnimeInfo(id: string, episodes: Option<seq<Episode>>)

  datatype Source = Source(url: string, quality: string)

  /** The provider's watch body; `sources` may be missing (an empty list is present, and truthy). */
  datatype StreamData = StreamData(sources: Option<seq<Source>>)

  /** What one HTTP exchange produced. */
  datatype Reply<+T> = TransportError | NotOk(status: int) | Body(value: T)

  /**
    The provider's three endpoints: search (whose body carries an optional
    `results` list), info by anime id, and watch by episode id.
  */
  datatype Upstream = Upstream(
    search: string -> Reply<Option<seq<Candidate>>>,
    info: string -> Reply<AnimeInfo>,
    watch: string -> Reply<StreamData>)

  /** A request to the provider, in the order the caller issues them. */
  datatype Call = SearchCall(query: string) | InfoCall(animeId: string) | WatchCall(episodeId: string)

  /** `searchAnime`: the candidate list, never a failure; any error or a body without results is `[]`. */
  function SearchAnime(up: Upstream, query: string): (r: seq<Candidate>)
    ensures up.search(query).TransportError? || up.search(query).NotOk? ==> r == []
    ensures up.search(query) == Body(None) ==> r == []
    ensures r != [] ==> up.search(query) == Body(Some(r))
    ensures up.search(query).Body? && up.search(query).value.Some? ==> r == up.search(query).value.value
  {
    match up.search(query)
    case Body(Some(results)) => results
    case _ => []
  }

  /** `getAnimeInfo`: the info body, or nothing when the exchange failed. */
  function GetAnimeInfo(up: Upstream, animeId: string): (r: Option<AnimeInfo>)
    ensures r.None? <==> !up.info(animeId).Body?
    ensures r.Some? ==> up.info(animeId) == Body(r.value)
  {
    match up.info(animeId)
    case Body(info) => Some(info)
    case _ => None
  }

  /** `getStreamingLinks`: the watch body, or nothing when the exchange failed. */
  function GetStreamingLinks(up: Upstream, episodeId: string): (r: Option<StreamData>)
    ensures r.None? <==> !up.watch(episodeId).Body?
    ensures r.Some? ==> up.watch(episodeId) == Body(r.value)
  {
    match up.watch(episodeId)
    case Body(data) => Some(data)
    case _ => None
  }

  // ---------------------------------------------------------------------------
  // Episode locator

  /**
    `k` is the first position of `episodes` whose number is `episodeNumber`
    (`None` stands for a request number that is `NaN`, which no number equals).
  */
  predicate FirstWithNumber(episodes: seq<Episode>, episodeNumber: Option<int>, k: int) {
    && 0 <= k < |episodes|
    && episodeNumber == Some(episodes[k].number)
    && forall m :: 0 <= m < k ==> episodeNumber != Some(episodes[m].number)
  }

  /** `getEpisodeId`: the id of the first listed episode with the requested number. */
  function GetEpisodeId(up: Upstream, animeId: string, episodeNumber: Option<int>): (r: Option<string>)
    ensures GetAnimeInfo(up, animeId).None? ==> r.None?
    ensures GetAnimeInfo(up, animeId).Some? && GetAnimeInfo(up, animeId).value.episodes.None? ==> r.None?
    ensures r.None? && GetAnimeInfo(up, animeId).Some? && GetAnimeInfo(up, animeId).value.episodes.Some? ==>
              var eps := GetAnimeInfo(up, animeId).value.episodes.value;
              forall m :: 0 <= m < |eps| ==> episodeNumber != Some(eps[m].number)
    ensures r.Some? ==> GetAnimeInfo(up, animeId).Some? && GetAnimeInfo(up, animeId).value.episodes.Some?
    ensures r.Some? ==>
              var eps := GetAnimeInfo(up, animeId).value.episodes.value;
              exists k :: FirstWithNumber(eps, episodeNumber, k) && r.value == eps[k].id
  {
    match GetAnimeInfo(up, animeId)
    case None => None
    case Some(info) =>
      match info.episodes
      case None => None
      case Some(eps) =>
        match FindFirst(eps, (e: Episode) => episodeNumber == Some(e.number))
        case None => None
        case Some(k) =>
          assert FirstWithNumber(eps, episodeNumber, k);
          Some(eps[k].id)
  }

  /** What locating an episode and then fetching its sources produced, and the requests it took. */
  datatype Fetched = Fetched(stream: Option<StreamData>, calls: seq<Call>)

  /**
    The step shared by every stream lookup: locate the episode and, only when
    a (truthy) episode id came back, fetch its sources.
  */
  function FetchEpisodeStream(up: Upstream, animeId: string, episodeNumber: Option<int>): (r: Fetched)
    ensures 1 <= |r.calls| <= 2 && r.calls[0] == InfoCall(animeId)
    ensures |r.calls| == 2 <==> Truthy(GetEpisodeId(up, animeId, episodeNumber))
    ensures |r.calls| == 1 ==> r.stream.None?
    ensures |r.calls| == 2 ==> r.calls[1] == WatchCall(GetEpisodeId(up, animeId, episodeNumber).value)
    ensures |r.calls| == 2 ==> r.stream == GetStreamingLinks(up, r.calls[1].episodeId)
  {
    var episodeId := GetEpisodeId(up, animeId, episodeNumber);
    if Truthy(episodeId) then
      Fetched(GetStreamingLinks(up, episodeId.value), [InfoCall(animeId), WatchCall(episodeId.value)])
    else
      Fetched(None, [InfoCall(animeId)])
  }

  // ---------------------------------------------------------------------------
  // Title resolver

  /** The three queries of the relaxation chain, in the order they may be tried. */
  function RelaxedQueries(title: string): (qs: seq<string>)
    ensures |qs| == 3 && qs[0] == title
  {
    [title, StripParenGroups(title), StripSeasonTag(title)]
  }

  /** Whether a query finds anything. */
  predicate Hits(up: Upstream, query: string) {
    SearchAnime(up, query) != []
  }

  /**
    The queries of a relaxation chain that are actually sent, in order: up to
    and including the first one that finds anything, or all of them.
  */
  function SentQueries(up: Upstream, qs: seq<string>): (sent: seq<string>)
    ensures |sent| <= |qs| && sent == qs[..|sent|]
    ensures qs != [] ==> sent != []
    ensures forall k :: 0 <= k < |sent| - 1 ==> !Hits(up, sent[k])
    ensures |sent| < |qs| ==> Hits(up, sent[|sent| - 1])
  {
    match FindFirst(qs, q => Hits(up, q))
    case Some(k) => qs[..k + 1]
    case None => qs
  }

  /** The id of the first candidate of the first query in `qs` that finds anything. */
  function FirstHitId(up: Upstream, qs: seq<string>): (r: Option<string>)
    ensures r.None? <==> forall k :: 0 <= k < |qs| ==> !Hits(up, qs[k])
    ensures r.None? <==> forall q :: q in SentQueries(up, qs) ==> !Hits(up, q)
  {
    match FindFirst(qs, q => Hits(up, q))
    case Some(k) => Some(SearchAnime(up, qs[k])[0].id)
    case None => None
  }

  /** The queries the resolver sends for `title`: one, two or three of the relaxed queries. */
  function TitleQueries(up: Upstream, title: string): (qs: seq<string>)
    ensures 1 <= |qs| <= 3 && qs == RelaxedQueries(title)[..|qs|] && qs[0] == title
    ensures forall k :: 0 <= k < |qs| - 1 ==> !Hits(up, qs[k])
    ensures |qs| < 3 ==> Hits(up, qs[|qs| - 1])
  {
    SentQueries(up, RelaxedQueries(title))
  }

  /**
    `findAnimeIdByTitle`, declaratively: the id of the first candidate of the
    first relaxed query that finds anything.
  */
  function ResolveTitle(up: Upstream, title: string): (r: Option<string>)
    ensures r.None? <==> forall q :: q in TitleQueries(up, title) ==> !Hits(up, q)
    ensures r.None? <==> forall k :: 0 <= k < 3 ==> !Hits(up, RelaxedQueries(title)[k])
  {
    FirstHitId(up, RelaxedQueries(title))
  }

  /** The search requests for a list of queries. */
  function SearchCalls(queries: seq<string>): (calls: seq<Call>)
    ensures |calls| == |queries|
    ensures forall k :: 0 <= k < |calls| ==> calls[k] == SearchCall(queries[k])
  {
    seq(|queries|, k requires 0 <= k < |queries| => SearchCall(queries[k]))
  }

  /** The three ways a chain of three queries can end. */
  lemma ThreeStepChain(up: Upstream, qs: seq<string>)
    requires |qs| == 3
    ensures Hits(up, qs[0]) ==>
              SentQueries(up, qs) == [qs[0]] && FirstHitId(up, qs) == Some(SearchAnime(up, qs[0])[0].id)
    ensures !Hits(up, qs[0]) && Hits(up, qs[1]) ==>
              SentQueries(up, qs) == [qs[0], qs[1]] && FirstHitId(up, qs) == Some(SearchAnime(up, qs[1])[0].id)
    ensures !Hits(up, qs[0]) && !Hits(up, qs[1]) && Hits(up, qs[2]) ==>
              SentQueries(up, qs) == qs && FirstHitId(up, qs) == Some(SearchAnime(up, qs[2])[0].id)
    ensures !Hits(up, qs[0]) && !Hits(up, qs[1]) && !Hits(up, qs[2]) ==>
              SentQueries(up, qs) == qs && FirstHitId(up, qs).None?
  {
    var p := q => Hits(up, q);
    if Hits(up, qs[0]) {
      assert FindFirst(qs, p) == Some(0);
    } else if Hits(up, qs[1]) {
      assert FindFirst(qs, p) == Some(1);
    } else if Hits(up, qs[2]) {
      assert FindFirst(qs, p) == Some(2);
    }
  }

  /**
    The `let results` chain of `findAnimeIdByTitle` over the three queries it
    may send: search the first; on no result search the second; on no result
    again search the third; answer with the first candidate's id of the last
    search if it found anything.
  */
  method SearchChain(up: Upstream, qs: seq<string>) returns (id: Option<string>, sent: seq<string>)
    requires |qs| == 3
    ensures sent == SentQueries(up, qs)
    ensures id == FirstHitId(up, qs)
  {
    ThreeStepChain(up, qs);
    sent := [qs[0]];
    var results := SearchAnime(up, qs[0]);
    if results == [] {
      sent := sent + [qs[1]];
      results := SearchAnime(up, qs[1]);
    }
    if results == [] {
      sent := sent + [qs[2]];
      results := SearchAnime(up, qs[2]);
    }
    if results != [] {
      id := Some(results[0].id);
    } else {
      id := None;
    }
  }

  /**
    `findAnimeIdByTitle`: the chain over the title verbatim, the title with
    parenthesised groups stripped, and the original title with "season N"
    stripped.
  */
  method FindAnimeIdByTitle(up: Upstream, title: string) returns (id: Option<string>, queries: seq<string>)
    ensures queries == TitleQueries(up, title)
    ensures id == ResolveTitle(up, title)
  {
    id, queries := SearchChain(up, [title, StripParenGroups(title), StripSeasonTag(title)]);
  }

  /** A verbatim hit ends the chain at once: one search, and its first candidate. */
  lemma VerbatimHitSearchesOnce(up: Upstream, title: string)
    requires Hits(up, title)
    ensures TitleQueries(up, title) == [title]
    ensures ResolveTitle(up, title) == Some(SearchAnime(up, title)[0].id)
  {
    ThreeStepChain(up, RelaxedQueries(title));
  }

  /**
    A title found only once its parenthesised groups are gone is resolved by
    the second search, after the verbatim one and before any other.
  */
  lemma ParenStrippedHitSearchesTwice(up: Upstream, title: string)
    requires !Hits(up, title) && Hits(up, StripParenGroups(title))
    ensures TitleQueries(up, title) == [title, StripParenGroups(title)]
    ensures ResolveTitle(up, title) == Some(SearchAnime(up, StripParenGroups(title))[0].id)
  {
    ThreeStepChain(up, RelaxedQueries(title));
  }

  /**
    The third search strips "season N" from the ORIGINAL title (not from the
    parenthesis-stripped one), and runs only when the first two found nothing.
  */
  lemma SeasonStrippedSearchIsLast(up: Upstream, title: string)
    requires !Hits(up, title) && !Hits(up, StripParenGroups(title))
    ensures TitleQueries(up, title) == [title, StripParenGroups(title), StripSeasonTag(title)]
    ensures Hits(up, StripSeasonTag(title)) ==> ResolveTitle(up, title) == Some(SearchAnime(up, StripSeasonTag(title))[0].id)
    ensures !Hits(up, StripSeasonTag(title)) ==> ResolveTitle(up, title).None?
  {
    ThreeStepChain(up, RelaxedQueries(title));
  }

  /**
    A provider that knows "Example Show" but not "Example Show (2021)": the
    resolver finds it on the second attempt and never gives up after the first.
  */
  lemma ExampleFallback()
    ensures var up := Upstream(
              q => if q == "Example Show" then Body(Some([Candidate("example-show", "Example Show")])) else Body(Some([])),
              id => TransportError,
              ep => TransportError);
            && TitleQueries(up, ExampleTitle) == [ExampleTitle, "Example Show"]
            && ResolveTitle(up, ExampleTitle) == Some("example-show")
  {
    var up := Upstream(
      q => if q == "Example Show" then Body(Some([Candidate("example-show", "Example Show")])) else Body(Some([])),
      id => TransportError,
      ep => TransportError);
    StripParenGroupsExample();
    assert ExampleTitle != "Example Show" by { ExampleTitleChars(); }
    ParenStrippedHitSearchesTwice(up, ExampleTitle);
  }
}
