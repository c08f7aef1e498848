/**
  The browser's stream lookup by title (`getAnimeStreamByTitle` in
  `client/src/services/consumetService.js`): resolve the title, locate the
  episode, fetch its sources, giving up with `null` at the first step that
  finds nothing. The search, info and watch functions it composes are the
  ones modelled in `ConsumetService`, which both copies of the service share.
*/
module ClientService {
  import opened Common
  import opened ConsumetService

  /**
    `getAnimeStreamByTitle(title, episodeNumber = 1)`: the stream data, or
    nothing, and the requests made on the way.
  */
  function GetAnimeStreamByTitle(up: Upstream, title: string, episodeNumber: int := 1): (r: Fetched)
    ensures !Truthy(ResolveTitle(up, title)) ==>
              r.stream.None? && r.calls == SearchCalls(TitleQueries(up, title))
    ensures Truthy(ResolveTitle(up, title)) ==>
              var animeId := ResolveTitle(up, title).value;
              r == Fetched(FetchEpisodeStream(up, animeId, Some(episodeNumber)).stream,
                           SearchCalls(TitleQueries(up, title)) + FetchEpisodeStream(up, animeId, Some(episodeNumber)).calls)
  {
    var animeId := ResolveTitle(up, title);
    var searches := SearchCalls(TitleQueries(up, title));
    if !Truthy(animeId) then
      Fetched(None, searches)
    else
      var fetched := FetchEpisodeStream(up, animeId.value, Some(episodeNumber));
      Fetched(fetched.stream, searches + fetched.calls)
  }

  /** An unresolvable title gives nothing, and neither the info nor the watch endpoint is called. */
  lemma UnresolvedTitleCallsOnlySearch(up: Upstream, title: string, episodeNumber: int)
    requires !Truthy(ResolveTitle(up, title))
    ensures GetAnimeStreamByTitle(up, title, episodeNumber).stream.None?
    ensures forall c :: c in GetAnimeStreamByTitle(up, title, episodeNumber).calls ==> c.SearchCall?
    ensures 1 <= |GetAnimeStreamByTitle(up, title, episodeNumber).calls| <= 3
  {
    var calls := GetAnimeStreamByTitle(up, title, episodeNumber).calls;
    assert forall i :: 0 <= i < |calls| ==> calls[i].SearchCall?;
  }

  /** A missing episode gives nothing, and the watch endpoint is never called. */
  lemma MissingEpisodeSkipsWatch(up: Upstream, title: string, episodeNumber: int)
    requires Truthy(ResolveTitle(up, title))
    requires !Truthy(GetEpisodeId(up, ResolveTitle(up, title).value, Some(episodeNumber)))
    ensures GetAnimeStreamByTitle(up, title, episodeNumber).stream.None?
    ensures forall c :: c in GetAnimeStreamByTitle(up, title, episodeNumber).calls ==> !c.WatchCall?
  {
    var r := GetAnimeStreamByTitle(up, title, episodeNumber);
    var n := |TitleQueries(up, title)|;
    assert |r.calls| == n + 1;
    assert forall i :: 0 <= i < n ==> r.calls[i].SearchCall?;
    assert r.calls[n].InfoCall?;
  }

  /** When the title and the episode are both found, the answer is exactly what the watch endpoint gave. */
  lemma FoundEpisodeReturnsWatchResult(up: Upstream, title: string, episodeNumber: int)
    requires Truthy(ResolveTitle(up, title))
    requires Truthy(GetEpisodeId(up, ResolveTitle(up, title).value, Some(episodeNumber)))
    ensures var episodeId := GetEpisodeId(up, ResolveTitle(up, title).value, Some(episodeNumber)).value;
            && GetAnimeStreamByTitle(up, title, episodeNumber).stream == GetStreamingLinks(up, episodeId)
            && GetAnimeStreamByTitle(up, title, episodeNumber).calls
               == SearchCalls(TitleQueries(up, title)) + [InfoCall(ResolveTitle(up, title).value), WatchCall(episodeId)]
  {
  }

  /** Without an episode number the first episode is asked for. */
  lemma EpisodeNumberDefaultsToOne(up: Upstream, title: string)
    ensures GetAnimeStreamByTitle(up, title) == GetAnimeStreamByTitle(up, title, 1)
  {
  }
}
