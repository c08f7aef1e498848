/**
  The anime endpoints of the server (`server/source/controllers/animeController.js`):
  reading one mapping, saving one with its required-field check, listing
  with filters and pagination, deleting and verifying by key, the admin
  search passthrough, and the stream proxy `getAnimeStream`, which resolves
  a TMDB entry to a provider stream and records what it discovers.

  Query-string parsing is done before these members are reached: a numeric
  parameter arrives as an integer, absent (`None`) or, where `parseInt` can
  yield `NaN`, as `None` too. Each endpoint's answer is a datatype whose
  `Code` is the HTTP status sent.
*/
module AnimeController {
  import opened Common
  import opened AnimeModel
  import opened ConsumetService

  // ---------------------------------------------------------------------------
  // GET /mapping/:tmdbId

  datatype MappingReply =
    | MappingNotFound
    | MappingFound(tmdbId: int, gogoAnimeId: string, mediaType: string, seasonNumber: Option<int>)
  {
    function Code(): int {
      if MappingNotFound? then 404 else 200
    }
  }

  /** `getAnimeMapping`: the stored id for the key (media type defaulting to "tv"), echoed with the query. */
  function GetAnimeMapping(docs: seq<Mapping>, tmdbId: int, mediaType: Option<string>, seasonNumber: Option<int>): (r: MappingReply)
    ensures r.MappingFound? ==> Truthy(Some(r.gogoAnimeId)) && r.tmdbId == tmdbId && r.seasonNumber == seasonNumber
    ensures r.MappingFound? ==> r.mediaType == mediaType.GetOr("tv")
    ensures r.MappingNotFound? <==> !Truthy(FindGoGoAnimeId(docs, tmdbId, mediaType.GetOr("tv"), seasonNumber))
    ensures r.MappingFound? ==> FindGoGoAnimeId(docs, tmdbId, mediaType.GetOr("tv"), seasonNumber) == Some(r.gogoAnimeId)
  {
    var gogoAnimeId := FindGoGoAnimeId(docs, tmdbId, mediaType.GetOr("tv"), seasonNumber);
    if !Truthy(gogoAnimeId) then MappingNotFound
    else MappingFound(tmdbId, gogoAnimeId.value, mediaType.GetOr("tv"), seasonNumber)
  }

  /**
    In a well-formed store, a stored "tv" document is found by its `tmdbId`
    alone, and a key with no document gives 404.
  */
  lemma GetAnimeMappingFindsStoredDocument(docs: seq<Mapping>, k: nat)
    requires WellFormed(docs) && k < |docs| && docs[k].mediaType == Tv
    ensures GetAnimeMapping(docs, docs[k].tmdbId, None, None)
            == MappingFound(docs[k].tmdbId, docs[k].gogoAnimeId, "tv", None)
  {
    LookupFallsBackToDefault(docs, k, None);
  }

  /** A non-zero season with an override for it is answered with the first such override's id. */
  lemma GetAnimeMappingUsesSeasonOverride(docs: seq<Mapping>, k: nat, n: int, j: nat)
    requires WellFormed(docs) && k < |docs|
    requires n != 0 && FirstOverride(docs[k].seasonMappings, n, j)
    requires docs[k].seasonMappings[j].gogoAnimeId != ""
    ensures var mediaType := MediaTypeName(docs[k].mediaType);
            GetAnimeMapping(docs, docs[k].tmdbId, Some(mediaType), Some(n))
            == MappingFound(docs[k].tmdbId, docs[k].seasonMappings[j].gogoAnimeId, mediaType, Some(n))
  {
    LookupPrefersSeasonOverride(docs, k, n, j);
  }

  /**
    An override whose id is empty (the schema does not require it) is falsy,
    so the endpoint answers 404 although the key is stored.
  */
  lemma GetAnimeMappingEmptyOverrideIsNotFound(docs: seq<Mapping>, k: nat, n: int, j: nat)
    requires WellFormed(docs) && k < |docs|
    requires n != 0 && FirstOverride(docs[k].seasonMappings, n, j)
    requires docs[k].seasonMappings[j].gogoAnimeId == ""
    ensures GetAnimeMapping(docs, docs[k].tmdbId, Some(MediaTypeName(docs[k].mediaType)), Some(n)).Code() == 404
  {
    LookupPrefersSeasonOverride(docs, k, n, j);
  }

  lemma GetAnimeMappingMissingKey(docs: seq<Mapping>, tmdbId: int, mediaType: string, seasonNumber: Option<int>)
    requires forall k :: 0 <= k < |docs| ==> docs[k].tmdbId != tmdbId
    ensures GetAnimeMapping(docs, tmdbId, Some(mediaType), seasonNumber).Code() == 404
  {
  }

  // ---------------------------------------------------------------------------
  // POST /mapping

  /**
    The request passes the required-field check: `tmdbId`, `gogoAnimeId` and
    `title` are all truthy (a `tmdbId` of 0 is falsy, as is an empty string).
  */
  predicate HasRequiredFields(body: MappingData) {
    && body.tmdbId.Some? && body.tmdbId.value != 0
    && Truthy(body.gogoAnimeId) && Truthy(body.title)
  }

  /** The body with `createdBy` set to the signed-in user, if there is one. */
  function WithCreator(body: MappingData, user: Option<string>): (r: MappingData)
    ensures user.Some? ==> r.createdBy == user
    ensures user.None? ==> r == body
    ensures r.(createdBy := body.createdBy) == body
  {
    if user.Some? then body.(createdBy := user) else body
  }

  datatype SaveReply = SaveBadRequest | SaveFailed | SaveOk(doc: Mapping)
  {
    function Code(): int {
      match this
      case SaveBadRequest => 400
      case SaveFailed => 500
      case SaveOk(_) => 200
    }
  }

  /**
    `createOrUpdateMapping`: 400 without the required fields, otherwise the
    store's upsert with the signed-in user recorded as creator; a refused
    save is a 500.
  */
  method CreateOrUpdateMapping(store: MappingStore, body: MappingData, user: Option<string>) returns (reply: SaveReply)
    requires store.Valid()
    modifies store
    ensures store.Valid()
    ensures !HasRequiredFields(body) ==> reply == SaveBadRequest && store.docs == old(store.docs)
    ensures HasRequiredFields(body) ==>
              match Upsert(old(store.docs), WithCreator(body, user))
              case Ok(s) => reply == SaveOk(s.doc) && store.docs == s.docs
              case Err(_) => reply == SaveFailed && store.docs == old(store.docs)
  {
    if !HasRequiredFields(body) {
      return SaveBadRequest;
    }
    var mappingData := body;
    if user.Some? {
      mappingData := mappingData.(createdBy := user);
    }
    var saved := store.CreateOrUpdateMapping(mappingData);
    if saved.Ok? {
      reply := SaveOk(saved.value);
    } else {
      reply := SaveFailed;
    }
  }

  /**
    A save that passes the check stores the supplied id and title and, for a
    signed-in user, records that user as creator.
  */
  lemma SavedMappingCarriesRequest(docs: seq<Mapping>, body: MappingData, user: Option<string>)
    requires HasRequiredFields(body)
    requires Upsert(docs, WithCreator(body, user)).Ok?
    ensures var doc := Upsert(docs, WithCreator(body, user)).value.doc;
            && doc.tmdbId == body.tmdbId.value
            && doc.gogoAnimeId == body.gogoAnimeId.value
            && doc.title == body.title.value
            && (user.Some? ==> doc.createdBy == user)
            && doc in Upsert(docs, WithCreator(body, user)).value.docs
  {
    var data := WithCreator(body, user);
    var s := Upsert(docs, data).value;
    match FindOne(docs, data.tmdbId, data.mediaType)
    case Some(k) =>
      assert s.docs[k] == s.doc;
    case None =>
      assert s.docs[|docs|] == s.doc;
  }

  // ---------------------------------------------------------------------------
  // GET /mappings

  /** The query of the listing endpoint; absent page and limit default to 1 and 20. */
  datatype ListQuery = ListQuery(
    page: Option<int>,
    limit: Option<int>,
    status: Option<string>,
    search: Option<string>,
    mediaType: Option<string>)

  /** The conditions of the listing's `filter`: one per truthy query value. */
  datatype ListFilter = ListFilter(status: Option<string>, mediaType: Option<string>, search: Option<string>)

  function BuildFilter(q: ListQuery): (f: ListFilter)
    ensures f.status.Some? <==> Truthy(q.status)
    ensures f.mediaType.Some? <==> Truthy(q.mediaType)
    ensures f.search.Some? <==> Truthy(q.search)
    ensures f.status.Some? ==> f.status == q.status
    ensures f.mediaType.Some? ==> f.mediaType == q.mediaType
    ensures f.search.Some? ==> f.search == q.search
  {
    ListFilter(
      if Truthy(q.status) then q.status else None,
      if Truthy(q.mediaType) then q.mediaType else None,
      if Truthy(q.search) then q.search else None)
  }

  /**
    A document satisfies the filter: equal status and media type where
    given, and the search text found, ignoring case, in the title, the
    original title or the provider id.
  */
  predicate MatchesFilter(d: Mapping, f: ListFilter) {
    && (f.status.None? || StatusName(d.status) == f.status.value)
    && (f.mediaType.None? || MediaTypeName(d.mediaType) == f.mediaType.value)
    && (f.search.None?
        || ContainsIgnoreCase(d.title, f.search.value)
        || (d.originalTitle.Some? && ContainsIgnoreCase(d.originalTitle.value, f.search.value))
        || ContainsIgnoreCase(d.gogoAnimeId, f.search.value))
  }

  /** The documents satisfying the filter, in creation order (what `countDocuments` counts). */
  function Matching(docs: seq<Mapping>, f: ListFilter): (r: seq<Mapping>)
    ensures |r| <= |docs|
    ensures forall d :: d in r <==> d in docs && MatchesFilter(d, f)
  {
    Filter(docs, d => MatchesFilter(d, f))
  }

  /**
    JavaScript's `Math.ceil(total / limit)`: the least integer at or above the
    quotient, or nothing for a zero limit, where the quotient is not a
    finite number and JSON writes `null`.
  */
  function CeilDiv(total: nat, limit: int): (r: Option<int>)
    ensures r.None? <==> limit == 0
    ensures limit > 0 ==> total <= r.value * limit && (r.value - 1) * limit < total
    ensures limit < 0 ==> r.value * limit <= total && total < (r.value - 1) * limit
  {
    if limit > 0 then Some((total + limit - 1) / limit)
    else if limit < 0 then Some(-(total / -limit))
    else None
  }

  /**
    `.skip(skip).limit(limit)` on a cursor: drop `skip` elements, then take
    `limit` of them; a zero limit takes all, a negative one its absolute value.
  */
  function Window<T>(s: seq<T>, skip: nat, limit: int): (r: seq<T>)
    ensures |r| == if skip >= |s| then 0
                   else if limit == 0 || |s| - skip <= Abs(limit) then |s| - skip
                   else Abs(limit)
    ensures forall k :: 0 <= k < |r| ==> r[k] == s[skip + k]
  {
    if skip >= |s| then []
    else if limit == 0 || |s| - skip <= Abs(limit) then s[skip..]
    else s[skip..skip + Abs(limit)]
  }

  function Abs(x: int): nat {
    if x < 0 then -x else x
  }

  datatype Pagination = Pagination(page: int, limit: int, total: nat, totalPages: Option<int>)

  datatype ListReply = ListFailed | Listed(items: seq<Mapping>, pagination: Pagination)
  {
    function Code(): int {
      if ListFailed? then 500 else 200
    }
  }

  /** How many documents precede the requested page: `(page - 1) * limit`. */
  function PageSkip(q: ListQuery): int {
    (q.page.GetOr(1) - 1) * q.limit.GetOr(20)
  }

  /**
    `getAllMappings`: the matching documents newest first, one page of them,
    and the pagination block. A negative skip is refused by the database,
    which the endpoint reports as a 500.
  */
  function GetAllMappings(docs: seq<Mapping>, q: ListQuery): (r: ListReply)
    ensures r.ListFailed? <==> PageSkip(q) < 0
    ensures r.Listed? ==> r.pagination.total == |Matching(docs, BuildFilter(q))|
    ensures r.Listed? ==> r.pagination.page == q.page.GetOr(1) && r.pagination.limit == q.limit.GetOr(20)
    ensures r.Listed? ==> r.pagination.totalPages == CeilDiv(r.pagination.total, q.limit.GetOr(20))
    ensures r.Listed? && q.limit.GetOr(20) != 0 ==> |r.items| <= Abs(q.limit.GetOr(20))
    ensures r.Listed? ==>
              var total, skip, limit := r.pagination.total, PageSkip(q), q.limit.GetOr(20);
              |r.items| == if skip >= total then 0
                           else if limit == 0 || total - skip <= Abs(limit) then total - skip
                           else Abs(limit)
    ensures r.Listed? ==> (r.items != [] <==> PageSkip(q) < r.pagination.total)
    ensures r.Listed? && r.items != [] ==> PageSkip(q) + |r.items| <= r.pagination.total
  {
    var page := q.page.GetOr(1);
    var limit := q.limit.GetOr(20);
    var skip := PageSkip(q);
    if skip < 0 then ListFailed
    else
      var matching := Matching(docs, BuildFilter(q));
      Listed(Window(Reverse(matching), skip, limit), Pagination(page, limit, |matching|, CeilDiv(|matching|, limit)))
  }

  /**
    A page holds matching documents only, and they are consecutive in
    newest-first order, starting `PageSkip` documents after the newest.
  */
  lemma ListedPageIsNewestFirstSlice(docs: seq<Mapping>, q: ListQuery)
    requires GetAllMappings(docs, q).Listed?
    ensures var r := GetAllMappings(docs, q);
            var matching := Matching(docs, BuildFilter(q));
            forall k :: 0 <= k < |r.items| ==> r.items[k] == matching[|matching| - 1 - (PageSkip(q) + k)]
    ensures forall d :: d in GetAllMappings(docs, q).items ==> d in docs && MatchesFilter(d, BuildFilter(q))
  {
    var r := GetAllMappings(docs, q);
    var matching := Matching(docs, BuildFilter(q));
    var newestFirst := Reverse(matching);
    assert r.items == Window(newestFirst, PageSkip(q), q.limit.GetOr(20));
    assert forall k :: 0 <= k < |r.items| ==> r.items[k] in matching;
  }

  /** `a <= b` scales by a positive factor. */
  lemma MulMonotonic(a: int, b: int, c: int)
    requires a <= b && c > 0
    ensures a * c <= b * c
  {
  }

  /**
    With a positive limit, a page from 1 up to `totalPages` holds documents
    and any later page is empty.
  */
  lemma PageNonEmptyIffWithinTotalPages(docs: seq<Mapping>, q: ListQuery)
    requires q.limit.GetOr(20) > 0 && q.page.GetOr(1) >= 1
    ensures GetAllMappings(docs, q).Listed?
    ensures var r := GetAllMappings(docs, q);
            r.items != [] <==> q.page.GetOr(1) <= r.pagination.totalPages.value
  {
    var page, limit := q.page.GetOr(1), q.limit.GetOr(20);
    MulMonotonic(0, page - 1, limit);
    var r := GetAllMappings(docs, q);
    var total := r.pagination.total;
    var pages := r.pagination.totalPages.value;
    if page <= pages {
      MulMonotonic(page - 1, pages - 1, limit);
    } else {
      MulMonotonic(pages, page - 1, limit);
    }
  }

  // ---------------------------------------------------------------------------
  // DELETE /mapping/:tmdbId and PATCH /mapping/:tmdbId/verify

  datatype DeleteReply = DeleteNotFound | Deleted
  {
    function Code(): int {
      if DeleteNotFound? then 404 else 200
    }
  }

  /** `deleteMapping`: remove the document of the key (media type defaulting to "tv"), or 404. */
  method DeleteMapping(store: MappingStore, tmdbId: int, mediaType: Option<string>) returns (reply: DeleteReply)
    requires store.Valid()
    modifies store
    ensures store.Valid()
    ensures store.docs == DeleteKey(old(store.docs), tmdbId, mediaType.GetOr("tv"))
    ensures reply.DeleteNotFound? <==> FindOne(old(store.docs), Some(tmdbId), Some(mediaType.GetOr("tv"))).None?
  {
    var result := store.FindOneAndDelete(tmdbId, mediaType.GetOr("tv"));
    if result.None? {
      return DeleteNotFound;
    }
    reply := Deleted;
  }

  datatype VerifyReply = VerifyNotFound | VerifiedOk(doc: Mapping)
  {
    function Code(): int {
      if VerifyNotFound? then 404 else 200
    }
  }

  /** `verifyMapping`: set the key's document to verified and return it, or 404. */
  method VerifyMapping(store: MappingStore, tmdbId: int, mediaType: Option<string>) returns (reply: VerifyReply)
    requires store.Valid()
    modifies store
    ensures store.Valid()
    ensures store.docs == VerifyKey(old(store.docs), tmdbId, mediaType.GetOr("tv"))
    ensures reply.VerifyNotFound? <==> FindOne(old(store.docs), Some(tmdbId), Some(mediaType.GetOr("tv"))).None?
    ensures reply.VerifiedOk? ==>
              var k := FindOne(old(store.docs), Some(tmdbId), Some(mediaType.GetOr("tv"))).value;
              && reply.doc == store.docs[k]
              && reply.doc == old(store.docs)[k].(status := Verified)
  {
    var anime := store.FindOneAndMarkVerified(tmdbId, mediaType.GetOr("tv"));
    if anime.None? {
      return VerifyNotFound;
    }
    reply := VerifiedOk(anime.value);
  }

  // ---------------------------------------------------------------------------
  // GET /search-gogoanime

  datatype SearchReply = SearchBadRequest | SearchOk(results: seq<Candidate>)
  {
    function Code(): int {
      if SearchBadRequest? then 400 else 200
    }
  }

  /** `searchGoGoAnime`: 400 without a (truthy) query, otherwise the provider's candidates, possibly none. */
  function SearchGoGoAnime(up: Upstream, q: Option<string>): (r: SearchReply)
    ensures r.SearchBadRequest? <==> !Truthy(q)
    ensures r.SearchOk? ==> r.results == SearchAnime(up, q.value)
  {
    if !Truthy(q) then SearchBadRequest else SearchOk(SearchAnime(up, q.value))
  }

  // ---------------------------------------------------------------------------
  // GET /stream/:tmdbId

  /** The `episodeNumber` query value: absent (or empty), or given and parsed (`None` for `NaN`). */
  datatype EpisodeParam = Missing | Given(number: Option<int>)

  datatype StreamRequest = StreamRequest(
    tmdbId: int,
    mediaType: Option<string>,
    seasonNumber: Option<int>,
    episodeNumber: EpisodeParam,
    title: Option<string>)

  datatype StreamReply =
    | StreamBadRequest
    | StreamNotFound
    | StreamFound(stream: StreamData, gogoAnimeId: string)
  {
    function Code(): int {
      match this
      case StreamBadRequest => 400
      case StreamNotFound => 404
      case StreamFound(_, _) => 200
    }
  }

  /** The answer, the collection afterwards, and the provider requests made, in order. */
  datatype StreamRun = StreamRun(reply: StreamReply, docs: seq<Mapping>, calls: seq<Call>)

  const AutoMapNote: string := "Auto-mapped from backend proxy"

  /** What the proxy saves for a discovered id: key, id, title, media type and a note, nothing else. */
  function AutoMapping(req: StreamRequest, foundId: string): MappingData {
    MappingData(
      Some(req.tmdbId), Some(foundId), req.title, None, Some(req.mediaType.GetOr("tv")),
      None, None, None, Some(Metadata(None, None, Some(AutoMapNote))))
  }

  /** The collection after an upsert whose failure is caught and only logged. */
  function SaveIgnoringFailure(docs: seq<Mapping>, data: MappingData): seq<Mapping> {
    match Upsert(docs, data)
    case Ok(s) => s.docs
    case Err(_) => docs
  }

  /** The final check: a stream with (truthy) `sources` is a 200 naming the id used; anything else a 404. */
  function StreamOutcome(stream: Option<StreamData>, usedId: string): (r: StreamReply)
    ensures r.StreamFound? <==> stream.Some? && stream.value.sources.Some?
    ensures r.StreamFound? ==> r == StreamFound(stream.value, usedId)
  {
    if stream.None? || stream.value.sources.None? then StreamNotFound else StreamFound(stream.value, usedId)
  }

  /**
    `getAnimeStream`, as a function of the collection and the provider:
    400 without an episode number; otherwise the stored mapping's id, or,
    without one, the id the title resolves to, is used to locate the episode
    and fetch its sources; a stream found through the title is saved as a
    mapping. Every failure after the first check is the same 404.
  */
  function ResolveStream(docs: seq<Mapping>, up: Upstream, req: StreamRequest): (r: StreamRun)
    ensures r.reply.StreamBadRequest? <==> req.episodeNumber.Missing?
    ensures req.episodeNumber.Missing? ==> r.docs == docs && r.calls == []
    ensures r.reply.StreamFound? ==> r.reply.stream.sources.Some?
    ensures |r.calls| <= 5
  {
    if req.episodeNumber.Missing? then StreamRun(StreamBadRequest, docs, [])
    else
      var mediaType := req.mediaType.GetOr("tv");
      var episodeNumber := req.episodeNumber.number;
      var mapped := FindGoGoAnimeId(docs, req.tmdbId, mediaType, req.seasonNumber);
      if Truthy(mapped) then
        var f := FetchEpisodeStream(up, mapped.value, episodeNumber);
        StreamRun(StreamOutcome(f.stream, mapped.value), docs, f.calls)
      else if Truthy(req.title) then
        var searches := SearchCalls(TitleQueries(up, req.title.value));
        var found := ResolveTitle(up, req.title.value);
        if Truthy(found) then
          var f := FetchEpisodeStream(up, found.value, episodeNumber);
          var reply := StreamOutcome(f.stream, found.value);
          var docs' := if reply.StreamFound? then SaveIgnoringFailure(docs, AutoMapping(req, found.value)) else docs;
          StreamRun(reply, docs', searches + f.calls)
        else
          StreamRun(StreamNotFound, docs, searches)
      else
        StreamRun(StreamNotFound, docs, [])
  }

  /**
    The step both branches of the proxy run: locate the episode and, when an
    episode id comes back, fetch its sources.
  */
  method FetchEpisode(up: Upstream, animeId: string, episodeNumber: Option<int>) returns (stream: Option<StreamData>, calls: seq<Call>)
    ensures Fetched(stream, calls) == FetchEpisodeStream(up, animeId, episodeNumber)
  {
    var episodeId := GetEpisodeId(up, animeId, episodeNumber);
    calls := [InfoCall(animeId)];
    stream := None;
    if Truthy(episodeId) {
      stream := GetStreamingLinks(up, episodeId.value);
      calls := calls + [WatchCall(episodeId.value)];
    }
  }

  /**
    `getAnimeStream`: the stream proxy, updating `stream` and `usedGogoId`
    step by step and saving a discovered mapping into the store.
  */
  method GetAnimeStream(store: MappingStore, up: Upstream, req: StreamRequest) returns (reply: StreamReply, calls: seq<Call>)
    requires store.Valid()
    modifies store
    ensures store.Valid()
    ensures ResolveStream(old(store.docs), up, req) == StreamRun(reply, store.docs, calls)
  {
    if req.episodeNumber.Missing? {
      return StreamBadRequest, [];
    }
    var mediaType := req.mediaType.GetOr("tv");
    var episodeNumber := req.episodeNumber.number;
    var gogoAnimeId := FindGoGoAnimeId(store.docs, req.tmdbId, mediaType, req.seasonNumber);

    var stream: Option<StreamData> := None;
    var usedGogoId := "";
    calls := [];

    if Truthy(gogoAnimeId) {
      usedGogoId := gogoAnimeId.value;
      stream, calls := FetchEpisode(up, gogoAnimeId.value, episodeNumber);
    } else if Truthy(req.title) {
      var foundId, queries := FindAnimeIdByTitle(up, req.title.value);
      calls := SearchCalls(queries);
      if Truthy(foundId) {
        usedGogoId := foundId.value;
        var fetchCalls;
        stream, fetchCalls := FetchEpisode(up, foundId.value, episodeNumber);
        calls := calls + fetchCalls;
        if stream.Some? && stream.value.sources.Some? {
          // A refused save is caught and only logged.
          var _ := store.CreateOrUpdateMapping(AutoMapping(req, foundId.value));
        }
      }
    }

    reply := StreamOutcome(stream, usedGogoId);
  }

  /**
    With a stored mapping the title is never searched, even when the mapped
    id yields no episode or no stream, and the store is left as it was.
  */
  lemma MappedRequestNeverSearches(docs: seq<Mapping>, up: Upstream, req: StreamRequest)
    requires req.episodeNumber.Given?
    requires Truthy(FindGoGoAnimeId(docs, req.tmdbId, req.mediaType.GetOr("tv"), req.seasonNumber))
    ensures var mapped := FindGoGoAnimeId(docs, req.tmdbId, req.mediaType.GetOr("tv"), req.seasonNumber).value;
            var r := ResolveStream(docs, up, req);
            && r.docs == docs
            && r.calls[0] == InfoCall(mapped)
            && (forall c :: c in r.calls ==> !c.SearchCall?)
            && (r.reply.StreamFound? ==> r.reply.gogoAnimeId == mapped)
  {
    var r := ResolveStream(docs, up, req);
    assert forall i :: 0 <= i < |r.calls| ==> !r.calls[i].SearchCall?;
  }

  /**
    The answer is a 200 exactly when the last request made was a watch whose
    body has `sources` (an empty list included); it returns that body, and
    names the anime id whose info request came just before.
  */
  lemma FoundIffLastWatchHasSources(docs: seq<Mapping>, up: Upstream, req: StreamRequest)
    ensures var r := ResolveStream(docs, up, req);
            r.reply.StreamFound? <==> LastIsWatchWithSources(up, r.calls)
    ensures var r := ResolveStream(docs, up, req);
            r.reply.StreamFound? ==>
              && r.reply.stream == GetStreamingLinks(up, r.calls[|r.calls| - 1].episodeId).value
              && r.calls[|r.calls| - 2] == InfoCall(r.reply.gogoAnimeId)
  {
    var r := ResolveStream(docs, up, req);
    if req.episodeNumber.Given? {
      var mediaType := req.mediaType.GetOr("tv");
      var mapped := FindGoGoAnimeId(docs, req.tmdbId, mediaType, req.seasonNumber);
      if Truthy(mapped) {
        EpisodeStepOutcome(up, mapped.value, req.episodeNumber.number, []);
      } else if Truthy(req.title) {
        var searches := SearchCalls(TitleQueries(up, req.title.value));
        var found := ResolveTitle(up, req.title.value);
        if Truthy(found) {
          EpisodeStepOutcome(up, found.value, req.episodeNumber.number, searches);
        } else {
          assert forall i :: 0 <= i < |r.calls| ==> r.calls[i].SearchCall?;
        }
      }
    }
  }

  /** The last request of `calls` is a watch whose body has `sources`. */
  predicate LastIsWatchWithSources(up: Upstream, calls: seq<Call>) {
    && |calls| >= 2
    && calls[|calls| - 1].WatchCall?
    && GetStreamingLinks(up, calls[|calls| - 1].episodeId).Some?
    && GetStreamingLinks(up, calls[|calls| - 1].episodeId).value.sources.Some?
  }

  /** After any earlier requests, the episode step ends the run the way `FoundIffLastWatchHasSources` states. */
  lemma EpisodeStepOutcome(up: Upstream, animeId: string, episodeNumber: Option<int>, before: seq<Call>)
    ensures var f := FetchEpisodeStream(up, animeId, episodeNumber);
            var calls := before + f.calls;
            var reply := StreamOutcome(f.stream, animeId);
            && (reply.StreamFound? <==> LastIsWatchWithSources(up, calls))
            && (reply.StreamFound? ==>
                  && reply.stream == GetStreamingLinks(up, calls[|calls| - 1].episodeId).value
                  && calls[|calls| - 2] == InfoCall(animeId))
  {
    var f := FetchEpisodeStream(up, animeId, episodeNumber);
    var calls := before + f.calls;
    assert calls[|calls| - 1] == f.calls[|f.calls| - 1];
    if |f.calls| == 2 {
      assert calls[|calls| - 2] == f.calls[0];
    }
  }

  /**
    The store changes only on the discovery path, only after a stream with
    `sources` was found, and then by the upsert of the discovered mapping.
  */
  lemma OnlyDiscoveryChangesStore(docs: seq<Mapping>, up: Upstream, req: StreamRequest)
    ensures var r := ResolveStream(docs, up, req);
            r.docs != docs ==>
              && r.reply.StreamFound?
              && !Truthy(FindGoGoAnimeId(docs, req.tmdbId, req.mediaType.GetOr("tv"), req.seasonNumber))
              && Truthy(req.title)
              && r.reply.gogoAnimeId == ResolveTitle(up, req.title.value).value
              && r.docs == Upsert(docs, AutoMapping(req, r.reply.gogoAnimeId)).value.docs
  {
  }

  /**
    Whether the save of a discovered mapping succeeds or fails makes no
    difference to the answer or to the requests made: both depend on the
    collection only through the lookup of the request's key.
  */
  lemma ReplyIgnoresSaveOutcome(docs1: seq<Mapping>, docs2: seq<Mapping>, up: Upstream, req: StreamRequest)
    requires FindGoGoAnimeId(docs1, req.tmdbId, req.mediaType.GetOr("tv"), req.seasonNumber)
          == FindGoGoAnimeId(docs2, req.tmdbId, req.mediaType.GetOr("tv"), req.seasonNumber)
    ensures ResolveStream(docs1, up, req).reply == ResolveStream(docs2, up, req).reply
    ensures ResolveStream(docs1, up, req).calls == ResolveStream(docs2, up, req).calls
  {
    if req.episodeNumber.Given? {
      var mapped := FindGoGoAnimeId(docs1, req.tmdbId, req.mediaType.GetOr("tv"), req.seasonNumber);
      var r1, r2 := ResolveStream(docs1, up, req), ResolveStream(docs2, up, req);
      if Truthy(mapped) {
        var f := FetchEpisodeStream(up, mapped.value, req.episodeNumber.number);
        assert r1.reply == r2.reply == StreamOutcome(f.stream, mapped.value);
        assert r1.calls == r2.calls == f.calls;
      } else if Truthy(req.title) && Truthy(ResolveTitle(up, req.title.value)) {
        var found := ResolveTitle(up, req.title.value).value;
        var f := FetchEpisodeStream(up, found, req.episodeNumber.number);
        assert r1.reply == r2.reply == StreamOutcome(f.stream, found);
        assert r1.calls == r2.calls;
      }
    }
  }

  /**
    The proxy never marks anything verified: every verified document
    afterwards was verified before, at the same position; at most one
    document is added, and the store stays well-formed.
  */
  lemma StreamNeverVerifies(docs: seq<Mapping>, up: Upstream, req: StreamRequest)
    requires WellFormed(docs)
    ensures var r := ResolveStream(docs, up, req);
            && |docs| <= |r.docs| <= |docs| + 1
            && WellFormed(r.docs)
            && forall k :: 0 <= k < |r.docs| && r.docs[k].status == Verified ==> k < |docs| && docs[k].status == Verified
  {
    var r := ResolveStream(docs, up, req);
    if r.docs != docs {
      OnlyDiscoveryChangesStore(docs, up, req);
      var data := AutoMapping(req, r.reply.gogoAnimeId);
      UpsertKeepsWellFormed(docs, data);
      var s := Upsert(docs, data).value;
      match FindOne(docs, data.tmdbId, data.mediaType)
      case Some(k) =>
        assert s.doc.status == docs[k].status;
      case None =>
        assert s.doc.status == Unverified;
    }
  }

  /**
    A cold request for a key no document holds, with a valid media type and a
    title that resolves to an id under which a stream with `sources` is found,
    answers with that stream and adds exactly one unverified document
    carrying the note; the same request afterwards is served from it
    without a search.
  */
  lemma DiscoveryPersistsUnverified(docs: seq<Mapping>, up: Upstream, req: StreamRequest)
    requires WellFormed(docs)
    requires req.episodeNumber.Given?
    requires forall k :: 0 <= k < |docs| ==> docs[k].tmdbId != req.tmdbId
    requires ParseMediaType(req.mediaType.GetOr("tv")).Some?
    requires Truthy(req.title) && Truthy(ResolveTitle(up, req.title.value))
    requires ResolveStream(docs, up, req).reply.StreamFound?
    ensures var found := ResolveTitle(up, req.title.value).value;
            var r := ResolveStream(docs, up, req);
            && r.reply.gogoAnimeId == found
            && |r.docs| == |docs| + 1
            && r.docs[|docs|].tmdbId == req.tmdbId
            && r.docs[|docs|].gogoAnimeId == found
            && r.docs[|docs|].title == req.title.value
            && MediaTypeName(r.docs[|docs|].mediaType) == req.mediaType.GetOr("tv")
            && r.docs[|docs|].status == Unverified
            && r.docs[|docs|].metadata == Some(Metadata(None, None, Some(AutoMapNote)))
            && (forall c :: c in ResolveStream(r.docs, up, req).calls ==> !c.SearchCall?)
  {
    var found := ResolveTitle(up, req.title.value).value;
    var data := AutoMapping(req, found);
    assert FindOne(docs, data.tmdbId, data.mediaType).None?;
    assert Create(data).Ok?;
    var r := ResolveStream(docs, up, req);
    assert r.docs == docs + [Create(data).value];
    UpsertKeepsWellFormed(docs, data);
    LookupFallsBackToDefault(r.docs, |docs|, req.seasonNumber);
    MappedRequestNeverSearches(r.docs, up, req);
  }

  /**
    The discovery path spelled out: with no stored mapping and a title that
    resolves, the searches, then the episode step under the found id, and a
    save only if that produced a stream with sources.
  */
  lemma DiscoveryRun(docs: seq<Mapping>, up: Upstream, req: StreamRequest, found: string)
    requires req.episodeNumber.Given?
    requires !Truthy(FindGoGoAnimeId(docs, req.tmdbId, req.mediaType.GetOr("tv"), req.seasonNumber))
    requires Truthy(req.title) && ResolveTitle(up, req.title.value) == Some(found) && found != ""
    ensures var f := FetchEpisodeStream(up, found, req.episodeNumber.number);
            var reply := StreamOutcome(f.stream, found);
            ResolveStream(docs, up, req) == StreamRun(reply,
              if reply.StreamFound? then SaveIgnoringFailure(docs, AutoMapping(req, found)) else docs,
              SearchCalls(TitleQueries(up, req.title.value)) + f.calls)
  {
  }

  // ---------------------------------------------------------------------------
  // A worked request

  /** The episodes the sample provider lists for "sample-anime". */
  const SampleEpisodes: seq<Episode> := [
    Episode("sample-anime-episode-1", 1),
    Episode("sample-anime-episode-2", 2),
    Episode("sample-anime-episode-3", 3)]

  /** The one source the sample provider hosts, for the third episode. */
  const SampleStream: StreamData := StreamData(Some([Source("https://cdn.example/ep3.m3u8", "default")]))

  /**
    A provider that finds the (non-empty) `title` as "sample-anime", lists its
    first three episodes, and hosts one source for the third.
  */
  predicate ServesSample(up: Upstream, title: string) {
    && title != ""
    && up.search(title) == Body(Some([Candidate("sample-anime", title)]))
    && up.info("sample-anime") == Body(AnimeInfo("sample-anime", Some(SampleEpisodes)))
    && up.watch("sample-anime-episode-3") == Body(SampleStream)
  }

  /** Such a provider for "Sample Anime", answering 404 to anything else. */
  function SampleProvider(): Upstream {
    Upstream(
      q => if q == "Sample Anime" then Body(Some([Candidate("sample-anime", "Sample Anime")])) else Body(Some([])),
      id => if id == "sample-anime" then Body(AnimeInfo("sample-anime", Some(SampleEpisodes))) else NotOk(404),
      ep => if ep == "sample-anime-episode-3" then Body(SampleStream) else NotOk(404))
  }

  lemma SampleProviderServesSample()
    ensures ServesSample(SampleProvider(), "Sample Anime")
  {
  }

  /** Such a provider resolves the title with one search and locates episode 3. */
  lemma SampleProviderFacts(up: Upstream, title: string)
    requires ServesSample(up, title)
    ensures TitleQueries(up, title) == [title]
    ensures ResolveTitle(up, title) == Some("sample-anime")
    ensures GetEpisodeId(up, "sample-anime", Some(3)) == Some("sample-anime-episode-3")
  {
    VerbatimHitSearchesOnce(up, title);
    SampleEpisodeThree(up);
  }

  lemma SampleEpisodeThree(up: Upstream)
    requires up.info("sample-anime") == Body(AnimeInfo("sample-anime", Some(SampleEpisodes)))
    ensures GetEpisodeId(up, "sample-anime", Some(3)) == Some("sample-anime-episode-3")
  {
    assert GetAnimeInfo(up, "sample-anime") == Some(AnimeInfo("sample-anime", Some(SampleEpisodes)));
    assert FirstWithNumber(SampleEpisodes, Some(3), 2);
  }

  /** Episode 3 of TMDB entry 500 under `title`, with the given media type. */
  function SampleRequest(mediaType: string, title: string): StreamRequest {
    StreamRequest(500, Some(mediaType), None, Given(Some(3)), Some(title))
  }

  /**
    Against an empty store the discovery path is taken: one search, one info
    and one watch request, the hosted source under "sample-anime", and the
    discovered mapping offered to the store.
  */
  lemma SampleDiscovery(up: Upstream, mediaType: string, title: string)
    requires ServesSample(up, title)
    ensures ResolveStream([], up, SampleRequest(mediaType, title))
            == StreamRun(StreamFound(SampleStream, "sample-anime"),
                         SaveIgnoringFailure([], AutoMapping(SampleRequest(mediaType, title), "sample-anime")),
                         [SearchCall(title), InfoCall("sample-anime"), WatchCall("sample-anime-episode-3")])
  {
    var req := SampleRequest(mediaType, title);
    SampleProviderFacts(up, title);
    SampleFetch(up, title);
    var f := FetchEpisodeStream(up, "sample-anime", Some(3));
    assert FindGoGoAnimeId([], 500, mediaType, None).None?;
    DiscoveryRun([], up, req, "sample-anime");
    assert StreamOutcome(f.stream, "sample-anime") == StreamFound(SampleStream, "sample-anime");
    assert SearchCalls(TitleQueries(up, title)) + f.calls
        == [SearchCall(title), InfoCall("sample-anime"), WatchCall("sample-anime-episode-3")];
  }

  /** The episode step under "sample-anime": one info and one watch request, and the hosted source. */
  lemma SampleFetch(up: Upstream, title: string)
    requires ServesSample(up, title)
    ensures FetchEpisodeStream(up, "sample-anime", Some(3))
            == Fetched(Some(SampleStream), [InfoCall("sample-anime"), WatchCall("sample-anime-episode-3")])
  {
    SampleEpisodeThree(up);
    assert GetStreamingLinks(up, "sample-anime-episode-3") == Some(SampleStream);
  }

  /** Saving the discovered "tv" mapping into an empty store inserts one unverified document with the note. */
  lemma SampleAutoMappingSaves(title: string)
    requires title != ""
    ensures SaveIgnoringFailure([], AutoMapping(SampleRequest("tv", title), "sample-anime"))
            == [Mapping(500, "sample-anime", title, None, Tv, [], Unverified, None,
                        Some(Metadata(None, None, Some(AutoMapNote))))]
  {
    var data := AutoMapping(SampleRequest("tv", title), "sample-anime");
    assert ParseMediaType("tv") == Some(Tv);
    assert Create(data).Ok?;
  }

  /**
    Episode 3 of TMDB entry 500 as a TV show, with an empty store: the hosted
    source under "sample-anime", one search, one info and one watch request,
    and one new unverified mapping to "sample-anime" carrying the note.
  */
  lemma SampleScenario(up: Upstream, title: string)
    requires ServesSample(up, title)
    ensures var r := ResolveStream([], up, SampleRequest("tv", title));
            && r.reply == StreamFound(SampleStream, "sample-anime")
            && r.calls == [SearchCall(title), InfoCall("sample-anime"), WatchCall("sample-anime-episode-3")]
            && r.docs == [Mapping(500, "sample-anime", title, None, Tv, [], Unverified, None,
                                  Some(Metadata(None, None, Some(AutoMapNote))))]
  {
    SampleDiscovery(up, "tv", title);
    SampleAutoMappingSaves(title);
  }

  /** The scenario for the sample provider and "Sample Anime". */
  lemma SampleProviderScenario()
    ensures var r := ResolveStream([], SampleProvider(), SampleRequest("tv", "Sample Anime"));
            && r.reply == StreamFound(SampleStream, "sample-anime")
            && r.calls == [SearchCall("Sample Anime"), InfoCall("sample-anime"), WatchCall("sample-anime-episode-3")]
            && |r.docs| == 1 && r.docs[0].gogoAnimeId == "sample-anime" && r.docs[0].status == Unverified
  {
    SampleProviderServesSample();
    SampleScenario(SampleProvider(), "Sample Anime");
  }

  /**
    The same request with the media type "series", which the schema's enum
    refuses: the stream is still returned, but the save fails and the store
    stays empty.
  */
  lemma SampleAsSeriesIsNotPersisted(up: Upstream, title: string)
    requires ServesSample(up, title)
    ensures var r := ResolveStream([], up, SampleRequest("series", title));
            && r.reply == StreamFound(SampleStream, "sample-anime")
            && r.docs == []
  {
    SampleDiscovery(up, "series", title);
    assert ParseMediaType("series").None?;
    assert Create(AutoMapping(SampleRequest("series", title), "sample-anime")).Err?;
  }
}
