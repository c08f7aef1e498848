/**
  The TMDB-to-GoGoAnime mapping store (`server/source/models/Anime.js`).

  The collection is a sequence of documents in creation order, so "newest
  first" is the reverse order. The schema's unique index is on `tmdbId`
  alone, so the store holds at most one document per `tmdbId` whatever its
  `mediaType`. Documents are values; the collection is the one piece of
  state, held by the class `MappingStore`, whose methods are specified by
  the pure functions over sequences defined first.
*/
module AnimeModel {
  import opened Common

  datatype MediaType = Tv | Movie

  function MediaTypeName(m: MediaType): string {
    match m
    case Tv => "tv"
    case Movie => "movie"
  }

  /** The enum check the schema applies to `mediaType` when a document is saved. */
  function ParseMediaType(s: string): (r: Option<MediaType>)
    ensures r.Some? <==> s == "tv" || s == "movie"
    ensures r.Some? ==> MediaTypeName(r.value) == s
  {
    if s == "tv" then Some(Tv) else if s == "movie" then Some(Movie) else None
  }

  datatype Status = Verified | Unverified

  function StatusName(s: Status): string {
    match s
    case Verified => "verified"
    case Unverified => "unverified"
  }

  /** The enum check the schema applies to `status` when a document is saved. */
  function ParseStatus(s: string): (r: Option<Status>)
    ensures r.Some? <==> s == "verified" || s == "unverified"
    ensures r.Some? ==> StatusName(r.value) == s
  {
    if s == "verified" then Some(Verified) else if s == "unverified" then Some(Unverified) else None
  }

  /** Every enum value survives the round trip through its stored name. */
  lemma EnumNamesRoundTrip(m: MediaType, s: Status)
    ensures ParseMediaType(MediaTypeName(m)) == Some(m)
    ensures ParseStatus(StatusName(s)) == Some(s)
  {
    match m
    case Tv =>
    case Movie => assert MediaTypeName(m) != "tv";
  }

  /**
    A per-season override. Both fields are optional in the schema; a missing
    season number is `None` (it equals no requested number) and a missing id
    reads as "" (falsy, like the `undefined` the source would return).
  */
  datatype SeasonMapping = SeasonMapping(seasonNumber: Option<int>, gogoAnimeId: string)

  datatype Metadata = Metadata(totalEpisodes: Option<int>, releaseYear: Option<int>, notes: Option<string>)

  /** A stored document; `createdBy` is the id of the creating user. */
  datatype Mapping = Mapping(
    tmdbId: int,
    gogoAnimeId: string,
    title: string,
    originalTitle: Option<string>,
    mediaType: MediaType,
    seasonMappings: seq<SeasonMapping>,
    status: Status,
    createdBy: Option<string>,
    metadata: Option<Metadata>)

  /**
    The plain object handed to `createOrUpdateMapping`; a key that is absent
    is `None`. The enum fields arrive as strings and are checked on save.
  */
  datatype MappingData = MappingData(
    tmdbId: Option<int>,
    gogoAnimeId: Option<string>,
    title: Option<string>,
    originalTitle: Option<string>,
    mediaType: Option<string>,
    seasonMappings: Option<seq<SeasonMapping>>,
    status: Option<string>,
    createdBy: Option<string>,
    metadata: Option<Metadata>)

  /** Why a save is refused: the schema's validation, or the unique index on `tmdbId`. */
  datatype StoreError = ValidationError | DuplicateKey

  /**
    What every saved collection satisfies: `tmdbId` is unique (the schema's
    `unique: true`), and the required strings are present and non-empty.
  */
  predicate WellFormed(docs: seq<Mapping>) {
    && (forall i, j :: 0 <= i < j < |docs| ==> docs[i].tmdbId != docs[j].tmdbId)
    && (forall i :: 0 <= i < |docs| ==> docs[i].gogoAnimeId != "" && docs[i].title != "")
  }

  // ---------------------------------------------------------------------------
  // Queries

  /** A document matches the filter `{ tmdbId, mediaType }`; an undefined filter value constrains nothing. */
  predicate KeyMatches(d: Mapping, tmdbId: Option<int>, mediaType: Option<string>) {
    && (tmdbId.None? || d.tmdbId == tmdbId.value)
    && (mediaType.None? || MediaTypeName(d.mediaType) == mediaType.value)
  }

  /** `findOne`: the position of the first document, in creation order, matching the filter. */
  function FindOne(docs: seq<Mapping>, tmdbId: Option<int>, mediaType: Option<string>): (r: Option<nat>)
    ensures r.Some? ==> r.value < |docs| && KeyMatches(docs[r.value], tmdbId, mediaType)
    ensures r.Some? ==> forall k :: 0 <= k < r.value ==> !KeyMatches(docs[k], tmdbId, mediaType)
    ensures r.None? <==> forall k :: 0 <= k < |docs| ==> !KeyMatches(docs[k], tmdbId, mediaType)
  {
    FindFirst(docs, d => KeyMatches(d, tmdbId, mediaType))
  }

  /** In a well-formed store the document carrying a `tmdbId` is the one any filter on that id finds. */
  lemma FindOneOfKey(docs: seq<Mapping>, k: nat, mediaType: Option<string>)
    requires WellFormed(docs) && k < |docs|
    requires mediaType.None? || MediaTypeName(docs[k].mediaType) == mediaType.value
    ensures FindOne(docs, Some(docs[k].tmdbId), mediaType) == Some(k)
  {
    var r := FindOne(docs, Some(docs[k].tmdbId), mediaType);
    assert r.Some? && r.value <= k;
    assert docs[r.value].tmdbId == docs[k].tmdbId;
  }

  /** `j` is the first override of the list for season `n`. */
  predicate FirstOverride(sms: seq<SeasonMapping>, n: int, j: int) {
    && 0 <= j < |sms|
    && sms[j].seasonNumber == Some(n)
    && forall i :: 0 <= i < j ==> sms[i].seasonNumber != Some(n)
  }

  /**
    `findGoGoAnimeId`: the id stored for `(tmdbId, mediaType)`; a truthy
    season number with an override for it picks the first such override's
    id instead. `seasonNumber` is `None` for `null` (and for `NaN`).
  */
  function FindGoGoAnimeId(docs: seq<Mapping>, tmdbId: int, mediaType: string, seasonNumber: Option<int>): (r: Option<string>)
    ensures r.None? <==> forall k :: 0 <= k < |docs| ==> !KeyMatches(docs[k], Some(tmdbId), Some(mediaType))
  {
    match FindOne(docs, Some(tmdbId), Some(mediaType))
    case None => None
    case Some(k) =>
      var d := docs[k];
      if seasonNumber.Some? && seasonNumber.value != 0 && |d.seasonMappings| > 0 then
        match FindFirst(d.seasonMappings, (sm: SeasonMapping) => sm.seasonNumber == seasonNumber)
        case Some(j) => Some(d.seasonMappings[j].gogoAnimeId)
        case None => Some(d.gogoAnimeId)
      else
        Some(d.gogoAnimeId)
  }

  /** A non-zero season number with an override for it resolves to the first such override. */
  lemma LookupPrefersSeasonOverride(docs: seq<Mapping>, k: nat, n: int, j: nat)
    requires WellFormed(docs) && k < |docs|
    requires n != 0 && FirstOverride(docs[k].seasonMappings, n, j)
    ensures FindGoGoAnimeId(docs, docs[k].tmdbId, MediaTypeName(docs[k].mediaType), Some(n))
            == Some(docs[k].seasonMappings[j].gogoAnimeId)
  {
    FindOneOfKey(docs, k, Some(MediaTypeName(docs[k].mediaType)));
    var sms := docs[k].seasonMappings;
    var p := (sm: SeasonMapping) => sm.seasonNumber == Some(n);
    var found := FindFirst(sms, p);
    assert found.Some? && found.value <= j;
    assert !(found.value < j);
  }

  /**
    Without a season number, with season 0 (falsy), or with no override for
    the season, the top-level id is the answer.
  */
  lemma LookupFallsBackToDefault(docs: seq<Mapping>, k: nat, seasonNumber: Option<int>)
    requires WellFormed(docs) && k < |docs|
    requires || seasonNumber.None?
             || seasonNumber.value == 0
             || forall i :: 0 <= i < |docs[k].seasonMappings| ==> docs[k].seasonMappings[i].seasonNumber != seasonNumber
    ensures FindGoGoAnimeId(docs, docs[k].tmdbId, MediaTypeName(docs[k].mediaType), seasonNumber)
            == Some(docs[k].gogoAnimeId)
  {
    FindOneOfKey(docs, k, Some(MediaTypeName(docs[k].mediaType)));
  }

  // ---------------------------------------------------------------------------
  // Upsert

  /** `after` is `supplied` when given, and `before` otherwise. */
  predicate Takes<T(==)>(supplied: Option<T>, before: T, after: T) {
    if supplied.Some? then after == supplied.value else after == before
  }

  /** The same, for a field that may itself be absent from the document. */
  predicate TakesOptional<T(==)>(supplied: Option<T>, before: Option<T>, after: Option<T>) {
    if supplied.Some? then after == supplied else after == before
  }

  /**
    `after` is `before` with every field supplied in `data` overwritten and
    every other field kept (`Object.assign`, a shallow copy: a supplied
    `seasonMappings` or `metadata` replaces the old one whole).
  */
  predicate Overwrites(before: Mapping, data: MappingData, after: Mapping) {
    && Takes(data.tmdbId, before.tmdbId, after.tmdbId)
    && Takes(data.gogoAnimeId, before.gogoAnimeId, after.gogoAnimeId)
    && Takes(data.title, before.title, after.title)
    && TakesOptional(data.originalTitle, before.originalTitle, after.originalTitle)
    && (if data.mediaType.Some? then MediaTypeName(after.mediaType) == data.mediaType.value
        else after.mediaType == before.mediaType)
    && Takes(data.seasonMappings, before.seasonMappings, after.seasonMappings)
    && (if data.status.Some? then StatusName(after.status) == data.status.value
        else after.status == before.status)
    && TakesOptional(data.createdBy, before.createdBy, after.createdBy)
    && TakesOptional(data.metadata, before.metadata, after.metadata)
  }

  /** The supplied fields pass the schema: required strings non-empty, enum fields within their values. */
  predicate AcceptedBySchema(data: MappingData) {
    && (data.gogoAnimeId.None? || data.gogoAnimeId.value != "")
    && (data.title.None? || data.title.value != "")
    && (data.mediaType.None? || ParseMediaType(data.mediaType.value).Some?)
    && (data.status.None? || ParseStatus(data.status.value).Some?)
  }

  /** `Object.assign(existing, mappingData)` followed by the validation `save` runs. */
  function Assign(before: Mapping, data: MappingData): (r: Result<Mapping, StoreError>)
    ensures r.Ok? ==> Overwrites(before, data, r.value)
    ensures r.Ok? ==> r.value.gogoAnimeId != "" && r.value.title != ""
    ensures before.gogoAnimeId != "" && before.title != "" ==> (r.Ok? <==> AcceptedBySchema(data))
    ensures r.Err? ==> r.error == ValidationError
  {
    var mediaType := if data.mediaType.Some? then ParseMediaType(data.mediaType.value) else Some(before.mediaType);
    var status := if data.status.Some? then ParseStatus(data.status.value) else Some(before.status);
    if mediaType.None? || status.None? then Err(ValidationError)
    else
      var after := Mapping(
        data.tmdbId.GetOr(before.tmdbId),
        data.gogoAnimeId.GetOr(before.gogoAnimeId),
        data.title.GetOr(before.title),
        if data.originalTitle.Some? then data.originalTitle else before.originalTitle,
        mediaType.value,
        data.seasonMappings.GetOr(before.seasonMappings),
        status.value,
        if data.createdBy.Some? then data.createdBy else before.createdBy,
        if data.metadata.Some? then data.metadata else before.metadata);
      if after.gogoAnimeId == "" || after.title == "" then Err(ValidationError) else Ok(after)
  }

  /**
    A new document before any field is supplied: the schema's defaults
    (`mediaType` "tv", `status` "unverified", no season overrides).
  */
  function Blank(tmdbId: int): Mapping {
    Mapping(tmdbId, "", "", None, Tv, [], Unverified, None, None)
  }

  /** `new this(mappingData)` followed by the validation `save` runs. */
  function Create(data: MappingData): (r: Result<Mapping, StoreError>)
    ensures r.Ok? <==> data.tmdbId.Some? && Truthy(data.gogoAnimeId) && Truthy(data.title) && AcceptedBySchema(data)
    ensures r.Ok? ==> Overwrites(Blank(data.tmdbId.value), data, r.value)
    ensures r.Err? ==> r.error == ValidationError
  {
    if data.tmdbId.None? then Err(ValidationError) else Assign(Blank(data.tmdbId.value), data)
  }

  /** A new document takes the schema's defaults for every enum and list the caller leaves out. */
  lemma CreateDefaults(data: MappingData)
    requires Create(data).Ok?
    ensures data.mediaType.None? ==> Create(data).value.mediaType == Tv
    ensures data.status.None? ==> Create(data).value.status == Unverified
    ensures data.seasonMappings.None? ==> Create(data).value.seasonMappings == []
    ensures Create(data).value.tmdbId == data.tmdbId.value
  {
  }

  /** The collection after a save, and the saved document. */
  datatype Saved = Saved(docs: seq<Mapping>, doc: Mapping)

  /**
    `createOrUpdateMapping`: the document matching `{ tmdbId, mediaType }` is
    updated in place; without one, a new document is inserted, which the
    unique index refuses when the `tmdbId` is already stored (under the
    other media type).
  */
  function Upsert(docs: seq<Mapping>, data: MappingData): (r: Result<Saved, StoreError>)
    ensures r.Ok? && FindOne(docs, data.tmdbId, data.mediaType).Some? ==>
              var k := FindOne(docs, data.tmdbId, data.mediaType).value;
              r.value.docs == docs[k := r.value.doc] && Overwrites(docs[k], data, r.value.doc)
    ensures r.Ok? && FindOne(docs, data.tmdbId, data.mediaType).None? ==>
              r.value.docs == docs + [r.value.doc] && Overwrites(Blank(r.value.doc.tmdbId), data, r.value.doc)
    ensures r.Err? && r.error == DuplicateKey ==>
              FindOne(docs, data.tmdbId, data.mediaType).None? && Create(data).Ok?
              && exists k :: 0 <= k < |docs| && docs[k].tmdbId == data.tmdbId.value
    ensures FindOne(docs, data.tmdbId, data.mediaType).Some? ==>
              (r.Ok? <==> Assign(docs[FindOne(docs, data.tmdbId, data.mediaType).value], data).Ok?)
    ensures WellFormed(docs) && FindOne(docs, data.tmdbId, data.mediaType).Some? ==> (r.Ok? <==> AcceptedBySchema(data))
    ensures FindOne(docs, data.tmdbId, data.mediaType).None? ==>
              (r.Ok? <==> Create(data).Ok? && forall k :: 0 <= k < |docs| ==> docs[k].tmdbId != data.tmdbId.value)
    ensures (&& FindOne(docs, data.tmdbId, data.mediaType).None?
             && Create(data).Ok?
             && exists k :: 0 <= k < |docs| && docs[k].tmdbId == data.tmdbId.value)
            ==> r == Err(DuplicateKey)
  {
    match FindOne(docs, data.tmdbId, data.mediaType)
    case Some(k) =>
      (match Assign(docs[k], data)
       case Ok(after) => Ok(Saved(docs[k := after], after))
       case Err(e) => Err(e))
    case None =>
      match Create(data)
      case Err(e) => Err(e)
      case Ok(doc) =>
        if exists k | 0 <= k < |docs| :: docs[k].tmdbId == doc.tmdbId then Err(DuplicateKey)
        else Ok(Saved(docs + [doc], doc))
  }

  /** A save never breaks the unique index or leaves a required string empty. */
  lemma UpsertKeepsWellFormed(docs: seq<Mapping>, data: MappingData)
    requires WellFormed(docs)
    ensures Upsert(docs, data).Ok? ==> WellFormed(Upsert(docs, data).value.docs)
  {
    if Upsert(docs, data).Ok? {
      var s := Upsert(docs, data).value;
      match FindOne(docs, data.tmdbId, data.mediaType)
      case Some(k) =>
        assert s.doc.tmdbId == docs[k].tmdbId;
        assert forall i :: 0 <= i < |s.docs| ==> s.docs[i].tmdbId == docs[i].tmdbId;
      case None =>
        assert forall i :: 0 <= i < |docs| ==> s.docs[i] == docs[i];
    }
  }

  /** Saving with a key and an id makes the lookup for that key (without a season) answer that id. */
  lemma UpsertThenLookup(docs: seq<Mapping>, data: MappingData)
    requires WellFormed(docs)
    requires data.tmdbId.Some? && data.mediaType.Some? && data.gogoAnimeId.Some?
    requires Upsert(docs, data).Ok?
    ensures FindGoGoAnimeId(Upsert(docs, data).value.docs, data.tmdbId.value, data.mediaType.value, None)
            == Some(data.gogoAnimeId.value)
  {
    var s := Upsert(docs, data).value;
    UpsertKeepsWellFormed(docs, data);
    var k: nat := match FindOne(docs, data.tmdbId, data.mediaType) case Some(k) => k case None => |docs|;
    assert k < |s.docs| && s.docs[k] == s.doc;
    FindOneOfKey(s.docs, k, data.mediaType);
  }

  /** Saving under one `tmdbId` leaves every lookup of every other `tmdbId` as it was. */
  lemma UpsertLeavesOtherKeys(docs: seq<Mapping>, data: MappingData, tmdbId: int, mediaType: string, seasonNumber: Option<int>)
    requires data.tmdbId.Some? && data.tmdbId.value != tmdbId
    requires Upsert(docs, data).Ok?
    ensures FindGoGoAnimeId(Upsert(docs, data).value.docs, tmdbId, mediaType, seasonNumber)
            == FindGoGoAnimeId(docs, tmdbId, mediaType, seasonNumber)
  {
    var s := Upsert(docs, data).value;
    var p := (d: Mapping) => KeyMatches(d, Some(tmdbId), Some(mediaType));
    assert !p(s.doc);
    assert forall i :: 0 <= i < |s.docs| && s.docs[i] != s.doc ==> i < |docs| && s.docs[i] == docs[i];
    FindFirstIgnoresNonMatching(docs, s.docs, p);
  }

  /**
    Two sequences whose elements agree wherever either satisfies `p`, the
    longer one adding only elements failing `p`, have the same first match.
  */
  lemma {:induction false} FindFirstIgnoresNonMatching<T>(a: seq<T>, b: seq<T>, p: T -> bool)
    requires |a| <= |b|
    requires forall i :: 0 <= i < |a| ==> (p(a[i]) || p(b[i]) ==> a[i] == b[i])
    requires forall i :: |a| <= i < |b| ==> !p(b[i])
    ensures FindFirst(a, p) == FindFirst(b, p)
  {
    if a != [] {
      FindFirstIgnoresNonMatching(a[1..], b[1..], p);
    } else if b != [] {
      FindFirstIgnoresNonMatching(a, b[1..], p);
    }
  }

  /**
    Saving the same key twice with two ids leaves one document for the key,
    holding the second id: the collection grows by at most one document over
    both saves, and no duplicate appears.
  */
  lemma RepeatedUpsertKeepsOneDocument(docs: seq<Mapping>, first: MappingData, second: MappingData)
    requires WellFormed(docs)
    requires first.tmdbId.Some? && first.mediaType.Some? && first.gogoAnimeId.Some?
    requires second.tmdbId == first.tmdbId && second.mediaType == first.mediaType && second.gogoAnimeId.Some?
    requires Upsert(docs, first).Ok?
    requires Upsert(Upsert(docs, first).value.docs, second).Ok?
    ensures var once := Upsert(docs, first).value.docs;
            var twice := Upsert(once, second).value.docs;
            && |twice| == |once| <= |docs| + 1
            && WellFormed(twice)
            && FindGoGoAnimeId(twice, first.tmdbId.value, first.mediaType.value, None) == Some(second.gogoAnimeId.value)
  {
    var once := Upsert(docs, first).value.docs;
    UpsertKeepsWellFormed(docs, first);
    UpsertThenLookup(docs, first);
    assert FindOne(once, second.tmdbId, second.mediaType).Some?;
    UpsertKeepsWellFormed(once, second);
    UpsertThenLookup(once, second);
  }

  // ---------------------------------------------------------------------------
  // Delete and verify (`findOneAndDelete`, `findOneAndUpdate` on the key)

  /** The collection without the document matching `{ tmdbId, mediaType }`, if there is one. */
  function DeleteKey(docs: seq<Mapping>, tmdbId: int, mediaType: string): (r: seq<Mapping>)
    ensures |r| <= |docs|
    ensures forall d :: d in r ==> d in docs
    ensures FindOne(docs, Some(tmdbId), Some(mediaType)).None? ==> r == docs
    ensures FindOne(docs, Some(tmdbId), Some(mediaType)).Some? ==>
              var k := FindOne(docs, Some(tmdbId), Some(mediaType)).value;
              && |r| == |docs| - 1
              && (forall i :: 0 <= i < k ==> r[i] == docs[i])
              && (forall i :: k <= i < |r| ==> r[i] == docs[i + 1])
  {
    match FindOne(docs, Some(tmdbId), Some(mediaType))
    case Some(k) => docs[..k] + docs[k + 1..]
    case None => docs
  }

  /** Deleting removes the matching document, if any, and keeps every other one in order. */
  lemma DeleteKeyKeepsTheRest(docs: seq<Mapping>, tmdbId: int, mediaType: string)
    ensures FindOne(docs, Some(tmdbId), Some(mediaType)).Some? <==> |DeleteKey(docs, tmdbId, mediaType)| == |docs| - 1
    ensures forall d :: d in docs && !KeyMatches(d, Some(tmdbId), Some(mediaType)) ==> d in DeleteKey(docs, tmdbId, mediaType)
  {
    var r := DeleteKey(docs, tmdbId, mediaType);
    match FindOne(docs, Some(tmdbId), Some(mediaType))
    case None =>
    case Some(k) =>
      forall d | d in docs && !KeyMatches(d, Some(tmdbId), Some(mediaType))
        ensures d in r
      {
        var i :| 0 <= i < |docs| && docs[i] == d;
        if i < k {
          assert r[i] == d;
        } else {
          assert r[i - 1] == d;
        }
      }
  }

  /** In a well-formed store a delete leaves the key unresolvable, and the store well-formed. */
  lemma DeleteThenLookupMisses(docs: seq<Mapping>, tmdbId: int, mediaType: string)
    requires WellFormed(docs)
    ensures WellFormed(DeleteKey(docs, tmdbId, mediaType))
    ensures forall s :: FindGoGoAnimeId(DeleteKey(docs, tmdbId, mediaType), tmdbId, mediaType, s).None?
  {
    var r := DeleteKey(docs, tmdbId, mediaType);
    match FindOne(docs, Some(tmdbId), Some(mediaType))
    case None =>
    case Some(k) =>
      assert forall i :: 0 <= i < |r| ==> r[i] == docs[if i < k then i else i + 1];
      assert forall i :: 0 <= i < |r| ==> r[i].tmdbId != tmdbId;
  }

  /** The collection with `status` set to verified on the document matching the key, if there is one. */
  function VerifyKey(docs: seq<Mapping>, tmdbId: int, mediaType: string): (r: seq<Mapping>)
    ensures |r| == |docs|
    ensures FindOne(docs, Some(tmdbId), Some(mediaType)).None? ==> r == docs
    ensures FindOne(docs, Some(tmdbId), Some(mediaType)).Some? ==>
              var k := FindOne(docs, Some(tmdbId), Some(mediaType)).value;
              && r[k].status == Verified
              && r[k] == docs[k].(status := Verified)
              && forall i :: 0 <= i < |docs| && i != k ==> r[i] == docs[i]
  {
    match FindOne(docs, Some(tmdbId), Some(mediaType))
    case Some(k) => docs[k := docs[k].(status := Verified)]
    case None => docs
  }

  /**
    Verifying changes `status` of the matching document and nothing else:
    every lookup answers as before, and verifying twice is verifying once.
  */
  lemma VerifyKeyOnlyChangesStatus(docs: seq<Mapping>, tmdbId: int, mediaType: string)
    ensures forall i :: 0 <= i < |docs| ==> VerifyKey(docs, tmdbId, mediaType)[i] == docs[i].(status := VerifyKey(docs, tmdbId, mediaType)[i].status)
    ensures forall t, m, s :: FindGoGoAnimeId(VerifyKey(docs, tmdbId, mediaType), t, m, s) == FindGoGoAnimeId(docs, t, m, s)
    ensures VerifyKey(VerifyKey(docs, tmdbId, mediaType), tmdbId, mediaType) == VerifyKey(docs, tmdbId, mediaType)
    ensures WellFormed(docs) ==> WellFormed(VerifyKey(docs, tmdbId, mediaType))
    ensures FindOne(VerifyKey(docs, tmdbId, mediaType), Some(tmdbId), Some(mediaType)) == FindOne(docs, Some(tmdbId), Some(mediaType))
    ensures forall i :: 0 <= i < |docs| && VerifyKey(docs, tmdbId, mediaType)[i].status != docs[i].status ==>
              FindOne(docs, Some(tmdbId), Some(mediaType)) == Some(i) && docs[i].status == Unverified
  {
    var r := VerifyKey(docs, tmdbId, mediaType);
    FindFirstIgnoresStatus(docs, r, (d: Mapping) => KeyMatches(d, Some(tmdbId), Some(mediaType)));
    forall t, m, s ensures FindGoGoAnimeId(r, t, m, s) == FindGoGoAnimeId(docs, t, m, s) {
      var p := (d: Mapping) => KeyMatches(d, Some(t), Some(m));
      FindFirstIgnoresStatus(docs, r, p);
    }
  }

  /** Two collections that differ only in `status` have the same first match for any key filter. */
  lemma {:induction false} FindFirstIgnoresStatus(a: seq<Mapping>, b: seq<Mapping>, p: Mapping -> bool)
    requires |a| == |b|
    requires forall i :: 0 <= i < |a| ==> a[i] == b[i].(status := a[i].status)
    requires forall d: Mapping, st: Status :: p(d) == p(d.(status := st))
    ensures FindFirst(a, p) == FindFirst(b, p)
  {
    if a != [] {
      assert p(a[0]) == p(b[0]);
      FindFirstIgnoresStatus(a[1..], b[1..], p);
    }
  }

  // ---------------------------------------------------------------------------
  // The collection

  class MappingStore {
    /** The documents, in creation order. */
    var docs: seq<Mapping>

    ghost predicate Valid()
      reads this
    {
      WellFormed(docs)
    }

    constructor ()
      ensures Valid() && docs == []
    {
      docs := [];
    }

    /** `createOrUpdateMapping`: update the matching document in place, or insert a new one. */
    method CreateOrUpdateMapping(data: MappingData) returns (r: Result<Mapping, StoreError>)
      requires Valid()
      modifies this
      ensures Valid()
      ensures Upsert(old(docs), data).Ok? ==>
                r == Ok(Upsert(old(docs), data).value.doc) && docs == Upsert(old(docs), data).value.docs
      ensures Upsert(old(docs), data).Err? ==> r == Err(Upsert(old(docs), data).error) && docs == old(docs)
    {
      UpsertKeepsWellFormed(docs, data);
      var existing := FindOne(docs, data.tmdbId, data.mediaType);
      if existing.Some? {
        r := Assign(docs[existing.value], data);
        if r.Ok? {
          docs := docs[existing.value := r.value];
        }
      } else {
        r := Create(data);
        if r.Ok? {
          if exists k | 0 <= k < |docs| :: docs[k].tmdbId == r.value.tmdbId {
            r := Err(DuplicateKey);
          } else {
            docs := docs + [r.value];
          }
        }
      }
    }

    /** `findOneAndDelete({ tmdbId, mediaType })`: remove the matching document and hand it back. */
    method FindOneAndDelete(tmdbId: int, mediaType: string) returns (deleted: Option<Mapping>)
      requires Valid()
      modifies this
      ensures Valid()
      ensures docs == DeleteKey(old(docs), tmdbId, mediaType)
      ensures deleted.None? <==> FindOne(old(docs), Some(tmdbId), Some(mediaType)).None?
      ensures deleted.Some? ==> deleted.value == old(docs)[FindOne(old(docs), Some(tmdbId), Some(mediaType)).value]
    {
      DeleteThenLookupMisses(docs, tmdbId, mediaType);
      var found := FindOne(docs, Some(tmdbId), Some(mediaType));
      if found.Some? {
        deleted := Some(docs[found.value]);
        docs := docs[..found.value] + docs[found.value + 1..];
      } else {
        deleted := None;
      }
    }

    /**
      `findOneAndUpdate({ tmdbId, mediaType }, { status: "verified" }, { new: true })`:
      mark the matching document verified and hand back its new state.
    */
    method FindOneAndMarkVerified(tmdbId: int, mediaType: string) returns (updated: Option<Mapping>)
      requires Valid()
      modifies this
      ensures Valid()
      ensures docs == VerifyKey(old(docs), tmdbId, mediaType)
      ensures updated.None? <==> FindOne(old(docs), Some(tmdbId), Some(mediaType)).None?
      ensures updated.Some? ==>
                var k := FindOne(old(docs), Some(tmdbId), Some(mediaType)).value;
                updated.value == docs[k] && updated.value == old(docs)[k].(status := Verified)
    {
      VerifyKeyOnlyChangesStatus(docs, tmdbId, mediaType);
      var found := FindOne(docs, Some(tmdbId), Some(mediaType));
      if found.Some? {
        var doc := docs[found.value].(status := Verified);
        docs := docs[found.value := doc];
        updated := Some(doc);
      } else {
        updated := None;
      }
    }
  }
}
