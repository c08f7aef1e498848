# My_webAnime: mapping store, stream resolution and comments, in Dafny

This project models the server core of My_webAnime, a site that shows anime
from The Movie Database (TMDB) and plays them from the GoGoAnime provider
through a Consumet API instance. The model covers:

- **The mapping store** (`server/source/models/Anime.js`). It is a collection of
  documents that map a TMDB id and media type to a GoGoAnime id, with optional
  per-season overrides, a `verified`/`unverified` status, an optional creator
  and metadata. The model covers:
  - the schema's rules: required strings, enums with defaults, and the unique
    index on `tmdbId`;
  - the lookup `findGoGoAnimeId` with its season-override precedence;
  - the upsert `createOrUpdateMapping`, which assigns the given fields onto
    the existing document or inserts a new one.

  The store is the class `AnimeModel.MappingStore`, whose `docs` sequence is
  kept in creation order. The queries and updates are specified by functions
  over that sequence.
- **The provider client** (both copies of `consumetService.js`):
  - search, info and watch, each of which swallows failures (empty list or
    `null`);
  - the episode locator `getEpisodeId`;
  - the title resolver `findAnimeIdByTitle` and its three searches: the title
    as given, the title without parenthesised groups (`/\s*\(.*?\)\s*/g`), and
    the original title without `season N` (`/season\s+\d+/gi`);
  - the browser's composed `getAnimeStreamByTitle`.

  The provider is a value of type `ConsumetService.Upstream`. It holds one
  function per endpoint, and each function returns a transport error, a
  non-OK status or a decoded body. Every request the code makes is recorded
  as a `Call`, so statements such as "never searches" or "the watch endpoint
  is not called" can be made about the recorded requests.
- **The anime controller** (`server/source/controllers/animeController.js`):
  - reading a mapping;
  - saving one, with its required-field check;
  - listing, with filters and the skip, limit and page arithmetic;
  - deleting and verifying by key;
  - the admin search passthrough;
  - the stream proxy `getAnimeStream`. It uses a stored mapping, or else
    discovers the anime by title. It then locates the episode and fetches
    its sources. It persists a discovered mapping only after a stream with
    sources was found, and ignores a failure of that save.

  `AnimeController.ResolveStream` specifies the proxy as a function. It
  returns the reply, the collection afterwards and the requests made.
  `AnimeController.GetAnimeStream` is the imperative version: it proves
  against that function while updating `stream` and `usedGogoId` as the
  source does.
- **The comment controller** (`server/source/controllers/commentController.js`,
  with the schema of `server/source/models/Comment.js`):
  - the comments of one title, newest first;
  - posting a comment as the signed-in user;
  - deleting one's own comment behind three guards: a well-formed ObjectId
    (400), an existing comment (404), and ownership (403).

  Each endpoint's reply is a datatype, and its `Code()` is the HTTP status
  the endpoint sends.

Files:

- `common.dfy`: `Option`, `Result`, and JavaScript's truthiness, `\s`, `trim`,
  `Array.prototype.find` and `filter`.
- `title_cleaning.dfy`: the two regular-expression clean-ups.
- `consumet_service.dfy`: the provider client shared by both copies.
- `client_service.dfy`: `getAnimeStreamByTitle`.
- `anime_model.dfy`: the mapping schema and store.
- `anime_controller.dfy`: the anime endpoints, and a worked request against a
  sample provider.
- `comment_model.dfy`: the comment schema and store.
- `comment_controller.dfy`: the comment endpoints.

Points of the code's behaviour that the model keeps as written:

- **Uniqueness.** The schema makes `tmdbId` alone `unique`
  (`Anime.js:12-17`), although lookups and upserts are keyed by `tmdbId`
  and `mediaType` together. Saving a movie mapping for a TMDB id already
  stored as a TV show therefore fails with a duplicate-key error, and the
  proxy's automatic save swallows that error.
- **When a discovery is saved.** The proxy saves a discovered mapping only
  after a stream with `sources` has been fetched for it
  (`animeController.js:315`), not as soon as the title resolves.
- **Failure replies.** Every failure after the `episodeNumber` check gets
  the same 404 (`animeController.js:336-341`): an unresolvable title, a
  missing episode and a stream without sources are not told apart.
- **Empty sources.** An empty `sources` array is truthy in JavaScript, so it
  counts as a success.
- **Media type names.** A media type outside the schema's enum, such as
  "series", fails validation. For such a request the proxy still answers
  with the stream but stores nothing
  (`AnimeController.SampleAsSeriesIsNotPersisted`).

## Model

| member | source | states |
|---|---|---|
| Common.Trim | server/source/services/consumetService.js:112 | `trim` leaves the slice of the input that remains after dropping white space at both ends: everything before and after the slice is white space, and the slice neither starts nor ends with it |
| TitleCleaning.ParenMatchAt | server/source/services/consumetService.js:112 | the pattern `\s*\(.*?\)\s*` matches at a position exactly when there is white space, a `(`, a stretch without `)` or line terminator, and a `)`; the match ends after the trailing white space |
| TitleCleaning.RemoveParenGroupsWithoutOpen | server/source/services/consumetService.js:112 | without a `(` the parenthesis replacement leaves the text unchanged |
| TitleCleaning.StripParenGroupsWithoutParens | server/source/services/consumetService.js:112 | a title without `(` is only trimmed by the second clean-up |
| TitleCleaning.RemoveParenGroupsKeepsPlainText | server/source/services/consumetService.js:112 | a stretch without `(` that does not end in white space passes through the replacement unchanged |
| TitleCleaning.StripParenGroupsExample | server/source/services/consumetService.js:112 | "Example Show (2021)" is cleaned to "Example Show" |
| TitleCleaning.SeasonMatchAt | server/source/services/consumetService.js:117 | `season\s+\d+` matches case-insensitively at a position exactly when "season" in any ASCII case is followed by white space and digits; the match takes all the digits |
| TitleCleaning.RemoveSeasonTagsWithoutDigits | server/source/services/consumetService.js:117 | without a digit the season replacement leaves the text unchanged |
| TitleCleaning.StripSeasonTagWithoutDigits | server/source/services/consumetService.js:117 | a title without digits is only trimmed by the third clean-up |
| TitleCleaning.StripSeasonTagExample | server/source/services/consumetService.js:117 | "Naruto Season 2" is cleaned to "Naruto": the tag goes, and `trim` drops the space left before it |
| TitleCleaning.RemoveSeasonTagsKeepsPlainText | server/source/services/consumetService.js:117 | a stretch of the title with no `s`/`S` in it passes the season replacement unchanged |
| ConsumetService.SearchAnime | server/source/services/consumetService.js:14-30 | a transport error, a non-OK status or a body without `results` gives the empty list; a body with `results` gives exactly that list |
| ConsumetService.GetAnimeInfo | server/source/services/consumetService.js:37-53 | `null` exactly when the request does not yield a body; otherwise the body |
| ConsumetService.GetStreamingLinks | server/source/services/consumetService.js:60-76 | `null` exactly when the request does not yield a body; otherwise the body |
| ConsumetService.GetEpisodeId | server/source/services/consumetService.js:84-100 | `null` when there is no info or no `episodes`; otherwise the id of the first episode whose number equals the one asked for, and `null` only when no episode has it |
| ConsumetService.FetchEpisodeStream | server/source/controllers/animeController.js:298-301 | the info request always comes first; the watch request is made exactly when the episode id is truthy, for that id, and the stream is what it returned |
| ConsumetService.TitleQueries | server/source/services/consumetService.js:107-119 | one to three searches, a prefix of verbatim, parenthesis-stripped and season-stripped title; every search but the last came back empty, and a chain shorter than three stopped at a hit |
| ConsumetService.ResolveTitle | server/source/services/consumetService.js:121-125 | no id exactly when every search that was made came back empty, exactly when all three candidate queries miss |
| ConsumetService.ThreeStepChain | server/source/services/consumetService.js:109-123 | the four outcomes of the chain: the queries sent and the id returned when the first, second, third or no search hits |
| ConsumetService.SearchChain | server/source/services/consumetService.js:109-125 | over any three candidate queries, the chain sends the first, then the next only after an empty result, and answers with the first candidate of the last search (`SentQueries`, `FirstHitId`) |
| ConsumetService.FindAnimeIdByTitle | server/source/services/consumetService.js:107-130 | the `let results` chain sends exactly the `TitleQueries` searches and returns `ResolveTitle`; the browser copy (`client/src/services/consumetService.js`, lines 65-92) runs the same chain, so the same contract holds for it |
| ConsumetService.VerbatimHitSearchesOnce | server/source/services/consumetService.js:109-110 | a title that hits as given is searched once and resolves to the first candidate's id |
| ConsumetService.ParenStrippedHitSearchesTwice | server/source/services/consumetService.js:111-114 | the parenthesis-stripped title is searched only after the verbatim search came back empty, and its first candidate is the answer when it hits |
| ConsumetService.SeasonStrippedSearchIsLast | server/source/services/consumetService.js:116-125 | after two misses the season tag is stripped from the original title; its first candidate is the answer, or `null` when it misses too |
| ConsumetService.ExampleFallback | server/source/services/consumetService.js:111-114 | "Example Show (2021)" against a provider that only knows "Example Show" is searched twice and resolves |
| ClientService.GetAnimeStreamByTitle | client/src/services/consumetService.js:153-176 | an unresolved title gives `null` after the searches alone; otherwise the episode step runs under the resolved id and its result is returned |
| ClientService.UnresolvedTitleCallsOnlySearch | client/src/services/consumetService.js:156-160 | an unresolvable title gives `null` after one to three searches and no other request |
| ClientService.MissingEpisodeSkipsWatch | client/src/services/consumetService.js:163-167 | a missing episode gives `null` and the watch endpoint is never called |
| ClientService.FoundEpisodeReturnsWatchResult | client/src/services/consumetService.js:170-171 | when title and episode are found, the answer is exactly the watch result, after the searches, one info and one watch request |
| ClientService.EpisodeNumberDefaultsToOne | client/src/services/consumetService.js:153 | without an episode number the first episode is fetched |
| AnimeModel.ParseMediaType | server/source/models/Anime.js:38-42 | only "tv" and "movie" pass the enum, each mapped to the value of that name |
| AnimeModel.ParseStatus | server/source/models/Anime.js:56-60 | only "verified" and "unverified" pass the enum, each mapped to the value of that name |
| AnimeModel.EnumNamesRoundTrip | server/source/models/Anime.js:38-60 | every media type and status survives the round trip through its stored name |
| AnimeModel.FindOne | server/source/models/Anime.js:100 | the first document in creation order matching `{ tmdbId, mediaType }`, none exactly when nothing matches |
| AnimeModel.FindOneOfKey | server/source/models/Anime.js:12-17 | with `tmdbId` unique, the document holding a TMDB id is what any filter on that id finds |
| AnimeModel.FindGoGoAnimeId | server/source/models/Anime.js:94-120 | no id exactly when no document matches the TMDB id and media type |
| AnimeModel.LookupPrefersSeasonOverride | server/source/models/Anime.js:105-111 | a non-zero season number with overrides yields the first override's id for that season |
| AnimeModel.LookupFallsBackToDefault | server/source/models/Anime.js:105-115 | with no season, season 0, or no override for it, the document's own id is returned |
| AnimeModel.Assign | server/source/models/Anime.js:132-138 | the supplied fields overwrite the existing ones and the rest stay; the save succeeds exactly when the supplied fields pass the schema |
| AnimeModel.Create | server/source/models/Anime.js:139-143 | a new document is valid exactly when the TMDB id, GoGoAnime id and title are present and the supplied fields pass the schema; it is the blank document overwritten by the data |
| AnimeModel.CreateDefaults | server/source/models/Anime.js:38-60 | a new document without media type, status or season list is "tv", "unverified" and has no overrides |
| AnimeModel.Upsert | server/source/models/Anime.js:127-149 | an existing key's document is replaced in place by the assigned one, and the save succeeds exactly when the assignment passes the schema; otherwise exactly one document is appended, which succeeds exactly when the new document is valid and its TMDB id is not stored yet; a valid new document whose TMDB id is stored is refused as a duplicate key |
| AnimeModel.UpsertKeepsWellFormed | server/source/models/Anime.js:12-17 | a save never creates a second document for a TMDB id nor leaves a required string empty |
| AnimeModel.UpsertThenLookup | server/source/models/Anime.js:127-149 | after saving a key with an id, the lookup of that key without a season answers that id |
| AnimeModel.UpsertLeavesOtherKeys | server/source/models/Anime.js:132-143 | saving under one TMDB id leaves every lookup of every other TMDB id as it was |
| AnimeModel.RepeatedUpsertKeepsOneDocument | server/source/models/Anime.js:132-138 | saving the same key twice leaves one document for it holding the second id, and the collection grows by at most one |
| AnimeModel.DeleteKey | server/source/controllers/animeController.js:169-172 | without a matching document nothing changes; with one, exactly that document goes and the others keep their order |
| AnimeModel.DeleteKeyKeepsTheRest | server/source/controllers/animeController.js:169-172 | exactly one document goes when the key matches, and every document not matching stays |
| AnimeModel.DeleteThenLookupMisses | server/source/controllers/animeController.js:169-172 | after the delete the key resolves to nothing for any season, and the store stays well formed |
| AnimeModel.VerifyKey | server/source/controllers/animeController.js:204-208 | without a matching document nothing changes; with one, that document becomes verified with its other fields as they were, and every other document stays |
| AnimeModel.VerifyKeyOnlyChangesStatus | server/source/controllers/animeController.js:204-208 | only `status` changes, and only that of the key's document, from unverified; every lookup answers as before, the key still finds the same document, doing it twice is doing it once, and the store stays well formed |
| AnimeModel.MappingStore.CreateOrUpdateMapping | server/source/models/Anime.js:127-149 | the store afterwards and the returned document are those of `Upsert`; a refused save changes nothing; the store stays well formed |
| AnimeModel.MappingStore.FindOneAndDelete | server/source/controllers/animeController.js:169-172 | the store loses the key's document, which is returned; nothing is returned exactly when no document matches |
| AnimeModel.MappingStore.FindOneAndMarkVerified | server/source/controllers/animeController.js:204-208 | the store becomes `VerifyKey` of the old one; the returned document is the key's document in its new, verified state; nothing is returned exactly when no document matches |
| AnimeController.GetAnimeMapping | server/source/controllers/animeController.js:22-58 | 404 exactly when the lookup of the key (media type defaulting to "tv") and season gives no truthy id; a 200 carries that id and echoes the TMDB id, the season and the media type |
| AnimeController.GetAnimeMappingFindsStoredDocument | server/source/controllers/animeController.js:25-49 | a stored "tv" document is found by TMDB id alone and its id returned |
| AnimeController.GetAnimeMappingUsesSeasonOverride | server/source/controllers/animeController.js:28-49 | a stored document's media type with a non-zero season that has an override is answered with the first such override's id |
| AnimeController.GetAnimeMappingEmptyOverrideIsNotFound | server/source/controllers/animeController.js:28-39 | an override with an empty id is falsy, so the stored key gets 404 for that season |
| AnimeController.GetAnimeMappingMissingKey | server/source/controllers/animeController.js:34-39 | a TMDB id with no document gives 404 |
| AnimeController.WithCreator | server/source/controllers/animeController.js:78-80 | with a signed-in user, `createdBy` becomes that user; without one the body is unchanged; no other field ever changes |
| AnimeController.CreateOrUpdateMapping | server/source/controllers/animeController.js:65-98 | a body without a truthy TMDB id, GoGoAnime id or title gives 400 and changes nothing; otherwise the upsert's document with 200, or 500 with nothing changed |
| AnimeController.SavedMappingCarriesRequest | server/source/controllers/animeController.js:77-89 | the saved document carries the request's TMDB id, id and title, the signed-in user as creator, and is in the store |
| AnimeController.BuildFilter | server/source/controllers/animeController.js:116-125 | one condition for each truthy query value among status, media type and search, holding that value |
| AnimeController.Matching | server/source/controllers/animeController.js:132-137 | exactly the stored documents satisfying the filter, which are what is counted |
| AnimeController.CeilDiv | server/source/controllers/animeController.js:147 | `totalPages` is the ceiling of total over limit, and absent when the limit is 0 |
| AnimeController.Window | server/source/controllers/animeController.js:133-135 | skip then limit: the elements from the skip position on, in order, at most as many as the limit's size, and all of them for a limit of 0 |
| AnimeController.GetAllMappings | server/source/controllers/animeController.js:105-158 | a negative skip fails; otherwise total, page, limit and total pages as computed, and exactly as many items as remain after the skip, capped by the limit's size (none for a limit of 0); a non-empty page exactly when the skip is below the total |
| AnimeController.ListedPageIsNewestFirstSlice | server/source/controllers/animeController.js:131-136 | a page is the run of matching documents in newest-first order starting after the skipped ones |
| AnimeController.PageNonEmptyIffWithinTotalPages | server/source/controllers/animeController.js:128-147 | with a positive limit a page from 1 on holds documents exactly when it is at most `totalPages` |
| AnimeController.DeleteMapping | server/source/controllers/animeController.js:164-193 | the key's document, media type defaulting to "tv", is deleted; 404 exactly when there was none |
| AnimeController.VerifyMapping | server/source/controllers/animeController.js:199-230 | the key's document, media type defaulting to "tv", is marked verified and returned in its new state; 404 exactly when there was none |
| AnimeController.SearchGoGoAnime | server/source/controllers/animeController.js:237-263 | 400 exactly without a truthy query; otherwise the provider's candidates |
| AnimeController.StreamOutcome | server/source/controllers/animeController.js:336-351 | 200 exactly when there is a stream with `sources`, carrying it and the id used |
| AnimeController.ResolveStream | server/source/controllers/animeController.js:270-360 | 400 exactly when `episodeNumber` is missing, and then no request and no change; a 200 always has `sources`; at most five requests |
| AnimeController.FetchEpisode | server/source/controllers/animeController.js:298-301 | the episode step's stream and requests are those of `FetchEpisodeStream` |
| AnimeController.GetAnimeStream | server/source/controllers/animeController.js:270-360 | the reply, the requests and the store afterwards are those of `ResolveStream`, and the store stays well formed |
| AnimeController.MappedRequestNeverSearches | server/source/controllers/animeController.js:294-302 | with a stored mapping no search is made, the mapped id's info comes first, the store is unchanged, and a 200 names the mapped id |
| AnimeController.FoundIffLastWatchHasSources | server/source/controllers/animeController.js:336-351 | 200 exactly when the last request was a watch whose body has `sources`; the reply carries that body and the id whose info request preceded it |
| AnimeController.OnlyDiscoveryChangesStore | server/source/controllers/animeController.js:302-334 | the store changes only on the discovery path after a 200, and then by upserting the discovered mapping |
| AnimeController.ReplyIgnoresSaveOutcome | server/source/controllers/animeController.js:317-330 | two stores with the same lookup for the key give the same reply and requests, so a failed save changes neither |
| AnimeController.StreamNeverVerifies | server/source/controllers/animeController.js:318-326 | no document becomes verified, at most one is added, and the store stays well formed |
| AnimeController.DiscoveryPersistsUnverified | server/source/controllers/animeController.js:302-326 | a discovery for an unstored TMDB id, with any season, adds one unverified document with the key, id, title and note, and the next identical request makes no search |
| AnimeController.DiscoveryRun | server/source/controllers/animeController.js:302-334 | without a mapping and with a resolving title, the proxy's run is the searches, the episode step under the found id, and a save only if a stream with sources came back |
| AnimeController.SampleScenario | server/source/controllers/animeController.js:302-351 | for episode 3 of TMDB entry 500 as a TV show, against a provider that serves the title as "sample-anime", an empty store ends with one unverified "tv" mapping to "sample-anime" carrying the note; the reply is the hosted source under that id, after one search, one info and one watch request in that order |
| AnimeController.SampleProviderScenario | server/source/controllers/animeController.js:302-326 | against a concrete provider and the title "Sample Anime": the hosted source under "sample-anime", one search, one info and one watch request, and one stored unverified mapping to "sample-anime" |
| AnimeController.SampleAsSeriesIsNotPersisted | server/source/controllers/animeController.js:317-330 | the same request with media type "series" still answers the stream but stores nothing |
| CommentModel.CanonicalId | server/source/controllers/commentController.js:62-66 | a valid id string, lower-cased, is the stored spelling of its ObjectId |
| CommentModel.StoredIdIsLowerCase | server/source/controllers/commentController.js:66 | a stored id is its own lower-case spelling |
| CommentModel.Construct | server/source/models/Comment.js:3-39 | the document is built exactly when the schema accepts the trimmed data, and it is then valid: enum media type, non-empty media id, trimmed non-empty content of at most 2000 characters |
| CommentModel.SaveResult | server/source/controllers/commentController.js:33-40 | the save succeeds exactly when the schema accepts the data and the id is unused, and the store stays well formed |
| CommentModel.FindById | server/source/controllers/commentController.js:66 | the comment whose id the string names in any case, and none exactly when there is none |
| CommentModel.RemoveAtKeepsWellFormed | server/source/controllers/commentController.js:77 | removing one comment keeps the others valid with distinct ids |
| CommentModel.RemoveAtRemovesOnlyThatId | server/source/controllers/commentController.js:77 | removing a comment removes exactly the comments with its id |
| CommentModel.DeleteByIdRemovesOnlyThatId | server/source/controllers/commentController.js:77 | deleting by id removes exactly the comment with that id, one fewer when there was one, nothing otherwise, and the store stays well formed |
| CommentModel.CommentStore.Save | server/source/controllers/commentController.js:33-40 | the result is `SaveResult`; a success appends exactly the new comment and a failure changes nothing |
| CommentModel.CommentStore.FindOne | server/source/controllers/commentController.js:66 | a stored comment with the id in lower case, none exactly when there is none |
| CommentModel.CommentStore.FindByIdAndDelete | server/source/controllers/commentController.js:77 | the store afterwards is `DeleteById` of the store before, and stays well formed |
| CommentController.GetComments | server/source/controllers/commentController.js:7-19 | exactly the stored comments with the requested media type and media id |
| CommentController.GetCommentsNewestFirst | server/source/controllers/commentController.js:11-13 | the answer lists the matching comments from the latest created back to the oldest |
| CommentController.CreateComment | server/source/controllers/commentController.js:24-52 | the reply is `CreateResult`; a 201 appends exactly the created comment, anything else changes nothing; the store stays well formed |
| CommentController.EmptyContentIsBadRequest | server/source/controllers/commentController.js:29-31 | 400 exactly when the content is missing or empty |
| CommentController.BlankContentIsServerError | server/source/models/Comment.js:16-21 | content made only of white space passes the 400 check but the schema's trim and required refuse it: a 500 |
| CommentController.CreatedIffAccepted | server/source/controllers/commentController.js:29-48 | a comment is created exactly when the schema accepts the body and the new id is unused |
| CommentController.CreatedCommentBelongsToCaller | server/source/controllers/commentController.js:33-40 | the new comment has the new id, the caller as owner, the body's media key and trimmed content, and the store stays well formed |
| CommentController.DeleteComment | server/source/controllers/commentController.js:57-83 | the reply is `DeleteResult`; only a 200 changes the store, by deleting that id |
| CommentController.MalformedIdIsBadRequest | server/source/controllers/commentController.js:62-64 | 400 exactly when the id is not 24 hexadecimal digits |
| CommentController.MissingCommentIsNotFound | server/source/controllers/commentController.js:66-70 | for a well-formed id, 404 exactly when no comment has it |
| CommentController.OthersCommentIsForbidden | server/source/controllers/commentController.js:73-75 | a request for someone else's stored comment gives 403 |
| CommentController.OwnerDeletesExactlyThatComment | server/source/controllers/commentController.js:77-79 | the owner's request, with the id in any case, gives 200 and removes that comment and no other |
| CommentController.DeleteTwiceIsNotFound | server/source/controllers/commentController.js:66-79 | repeating a successful delete gives 404 |

## Left out

- Network I/O, `fetch`, JSON decoding and `console` logging are not modelled. Each provider endpoint is a function from its argument to a reply.
- A JSON body that fails to decode is not modelled. The code would log it and answer `[]` or `null`; the model has no case for it.
- A reply whose `results` is not an array is not modelled: it is taken to be a list of candidates.
- `parseInt` on query strings is not modelled. Requests carry the parsed integer, or `None` where the code would see `NaN`, so a `NaN` TMDB id and the hexadecimal and partial-number forms of `parseInt` are not represented.
- Database failures are not modelled, apart from schema validation and the duplicate-key error. Lost connections and casting errors are left out, and so are the 500 replies of the `catch` blocks that only such failures reach.
- `populate` is left out because it only decorates replies with user fields. `createdAt` and `updatedAt` appear only as the creation order of the stored sequence.
- `AnimeController.MatchesFilter`: `$regex` search is a case-insensitive substring test. Regular-expression metacharacters in `search` are not interpreted.
- `AnimeController.MatchesFilter`: the case-insensitive test folds ASCII letters only (`Common.ContainsIgnoreCase`). MongoDB's `$regex` with option `i` also folds letters outside ASCII, such as accented Latin ones; that is not modelled.
- `AnimeModel.Upsert`: a body without `mediaType` finds the document by `tmdbId` alone. This follows Mongoose dropping a filter key whose value is `undefined`; a driver that sent it as `null` would match nothing.
- `AnimeController.GetAllMappings`: a negative limit with a non-negative skip is modelled as the absolute limit. MongoDB's batch semantics for it, and the page arithmetic for non-integer query values, are left out.
- Lengths are counted in Unicode scalar values, not UTF-16 code units, for `maxLength` and for `trim`.
- `CommentModel.IsObjectIdString` accepts only 24 hexadecimal digits. Some driver versions also accept any 12-character string; that form is left out.
- `CommentController.CreateComment`: the ObjectId the driver generates is a parameter, and the method requires it in stored form. Its freshness is not assumed: a clash is the duplicate-key 500.
- Authentication is outside the model. The middleware that supplies `req.user` and guards the mapping and comment routes is a signed-in user id parameter, optional where the code checks for it.
- Concurrency between requests is not modelled. Each endpoint runs to completion on the store, and the parallel `find` and `countDocuments` of the listing read the same state.
- The browser-side React components, the route tables and the authentication controller are not part of this model.
