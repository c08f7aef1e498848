/**
  The comment collection (`server/source/models/Comment.js`): a comment on a
  movie or a TV show, its schema rules (required fields, the media-type enum,
  trimmed content of at most 2000 characters), and the store operations the
  comment controller uses: save, find by id, delete by id.

  Documents are identified by ObjectIds. An ObjectId is written as 24
  hexadecimal digits; the store keeps the lower-case spelling, and a lookup by
  a hexadecimal string matches whatever case the caller used.
*/
module CommentModel {
  import opened Common

  /** `maxLength` of `content`. */
  const MaxContentLength: nat := 2000

  datatype Comment = Comment(id: string, mediaType: string, mediaId: string, content: string, user: string)

  /** The fields of `new Comment({ mediaType, mediaId, content, user })`; a missing field is `None`. */
  datatype CommentData = CommentData(mediaType: Option<string>, mediaId: Option<string>, content: Option<string>, user: string)

  datatype SaveError = ValidationError | DuplicateKey

  predicate IsLowerHexDigit(c: char) {
    IsDigit(c) || ('a' <= c <= 'f')
  }

  /** What `ObjectId.isValid` accepts of a string: exactly 24 hexadecimal digits, in either case. */
  predicate IsObjectIdString(s: string) {
    |s| == 24 && forall k :: 0 <= k < |s| ==> IsHexDigit(s[k])
  }

  /** The spelling of an ObjectId as the store hands it out: 24 lower-case hexadecimal digits. */
  predicate IsStoredId(s: string) {
    |s| == 24 && forall k :: 0 <= k < |s| ==> IsLowerHexDigit(s[k])
  }

  /** Lower-casing a valid id string gives the stored spelling of the same ObjectId. */
  lemma CanonicalId(s: string)
    requires IsObjectIdString(s)
    ensures IsStoredId(LowerAsciiString(s))
  {
  }

  /** A stored spelling is its own lower-case form. */
  lemma StoredIdIsLowerCase(s: string)
    requires IsStoredId(s)
    ensures LowerAsciiString(s) == s
  {
    assert forall k :: 0 <= k < |s| ==> LowerAsciiString(s)[k] == s[k];
  }

  /** Content as the `trim` setter leaves it: no white space at either end. */
  predicate IsTrimmed(s: string) {
    s == [] || (!IsSpace(s[0]) && !IsSpace(s[|s| - 1]))
  }

  /** A document the schema accepts, stored under its ObjectId. */
  predicate SchemaValid(c: Comment) {
    && IsStoredId(c.id)
    && c.mediaType in {"movie", "tv"}
    && c.mediaId != ""
    && c.content != "" && IsTrimmed(c.content) && |c.content| <= MaxContentLength
    && c.user != ""
  }

  /** Every document is valid and no two share an id (the `_id` index). */
  predicate WellFormed(comments: seq<Comment>) {
    && (forall k :: 0 <= k < |comments| ==> SchemaValid(comments[k]))
    && (forall i, j :: 0 <= i < j < |comments| ==> comments[i].id != comments[j].id)
  }

  /** The schema's checks on the data once `trim` has run: every required string non-empty, the enum, the length. */
  predicate Acceptable(data: CommentData) {
    && data.mediaType.Some? && data.mediaType.value in {"movie", "tv"}
    && Truthy(data.mediaId)
    && data.content.Some? && Trim(data.content.value) != "" && |Trim(data.content.value)| <= MaxContentLength
    && data.user != ""
  }

  /** `new Comment(data)` followed by validation: the document under `id`, or the validation error. */
  function Construct(data: CommentData, id: string): (r: Result<Comment, SaveError>)
    requires IsStoredId(id)
    ensures r.Ok? <==> Acceptable(data)
    ensures r.Ok? ==> SchemaValid(r.value)
    ensures r.Ok? ==> r.value == Comment(id, data.mediaType.value, data.mediaId.value, Trim(data.content.value), data.user)
  {
    if Acceptable(data) then
      var content := Trim(data.content.value);
      TrimOfTrimmed(content);
      Ok(Comment(id, data.mediaType.value, data.mediaId.value, content, data.user))
    else
      Err(ValidationError)
  }

  /** Whether some document already has this id. */
  predicate HasId(comments: seq<Comment>, id: string) {
    exists k :: 0 <= k < |comments| && comments[k].id == id
  }

  /** Appending a valid document under an unused id keeps the store well formed. */
  lemma AppendKeepsWellFormed(comments: seq<Comment>, c: Comment)
    requires WellFormed(comments) && SchemaValid(c) && !HasId(comments, c.id)
    ensures WellFormed(comments + [c])
  {
    var after := comments + [c];
    forall i, j | 0 <= i < j < |after| ensures after[i].id != after[j].id {
      if j == |comments| {
        assert after[i] == comments[i];
      }
    }
  }

  /** `save()` of a new document: validation first, then the `_id` index. */
  function SaveResult(comments: seq<Comment>, data: CommentData, id: string): (r: Result<Comment, SaveError>)
    requires IsStoredId(id)
    ensures r.Ok? <==> Acceptable(data) && !HasId(comments, id)
    ensures r.Ok? ==> r.value == Construct(data, id).value
    ensures r.Ok? && WellFormed(comments) ==> WellFormed(comments + [r.value])
  {
    match Construct(data, id)
    case Err(e) => Err(e)
    case Ok(c) =>
      if HasId(comments, id) then Err(DuplicateKey)
      else if WellFormed(comments) then AppendKeepsWellFormed(comments, c); Ok(c)
      else Ok(c)
  }

  /** `findById(id)`: the position of the document whose ObjectId the string denotes. */
  function FindById(comments: seq<Comment>, id: string): (r: Option<nat>)
    ensures r.Some? ==> r.value < |comments| && comments[r.value].id == LowerAsciiString(id)
    ensures r.None? <==> !HasId(comments, LowerAsciiString(id))
  {
    FindFirst(comments, (c: Comment) => c.id == LowerAsciiString(id))
  }

  /** `comments` without its `i`-th document; the others keep their order. */
  function RemoveAt(comments: seq<Comment>, i: nat): (r: seq<Comment>)
    requires i < |comments|
    ensures |r| == |comments| - 1
    ensures forall k :: 0 <= k < i ==> r[k] == comments[k]
    ensures forall k :: i <= k < |r| ==> r[k] == comments[k + 1]
  {
    comments[..i] + comments[i + 1..]
  }

  /** `findByIdAndDelete(id)` on the store's documents. */
  function DeleteById(comments: seq<Comment>, id: string): seq<Comment> {
    match FindById(comments, id)
    case None => comments
    case Some(i) => RemoveAt(comments, i)
  }

  /** Removing a document keeps the others valid and their ids distinct. */
  lemma RemoveAtKeepsWellFormed(comments: seq<Comment>, i: nat)
    requires WellFormed(comments) && i < |comments|
    ensures WellFormed(RemoveAt(comments, i))
  {
    var r := RemoveAt(comments, i);
    forall a, b | 0 <= a < b < |r| ensures r[a].id != r[b].id {
      var a', b' := if a < i then a else a + 1, if b < i then b else b + 1;
      assert r[a] == comments[a'] && r[b] == comments[b'];
    }
  }

  /** Removing the `i`-th document of a store without repeated ids removes exactly the documents with its id. */
  lemma RemoveAtRemovesOnlyThatId(comments: seq<Comment>, i: nat)
    requires WellFormed(comments) && i < |comments|
    ensures forall c :: c in RemoveAt(comments, i) <==> c in comments && c.id != comments[i].id
  {
    var r := RemoveAt(comments, i);
    forall c | c in comments && c.id != comments[i].id ensures c in r {
      var k :| 0 <= k < |comments| && comments[k] == c;
      if k < i { assert r[k] == c; } else { assert r[k - 1] == c; }
    }
    forall c | c in r ensures c in comments && c.id != comments[i].id {
      var k :| 0 <= k < |r| && r[k] == c;
      if k < i { assert c == comments[k]; } else { assert c == comments[k + 1]; }
    }
  }

  /**
    Deleting by id removes exactly the document with that id, if there is one,
    and keeps the store well formed.
  */
  lemma DeleteByIdRemovesOnlyThatId(comments: seq<Comment>, id: string)
    requires WellFormed(comments)
    ensures WellFormed(DeleteById(comments, id))
    ensures forall c :: c in DeleteById(comments, id) <==> c in comments && c.id != LowerAsciiString(id)
    ensures HasId(comments, LowerAsciiString(id)) ==> |DeleteById(comments, id)| == |comments| - 1
    ensures !HasId(comments, LowerAsciiString(id)) ==> DeleteById(comments, id) == comments
  {
    match FindById(comments, id)
    case None =>
    case Some(i) =>
      RemoveAtKeepsWellFormed(comments, i);
      RemoveAtRemovesOnlyThatId(comments, i);
  }

  class CommentStore {
    /** The documents, in creation order. */
    var comments: seq<Comment>

    ghost predicate Valid()
      reads this
    {
      WellFormed(comments)
    }

    constructor ()
      ensures Valid() && comments == []
    {
      comments := [];
    }

    /** `new Comment(data).save()` under a freshly generated id. */
    method Save(data: CommentData, id: string) returns (r: Result<Comment, SaveError>)
      requires Valid() && IsStoredId(id)
      modifies this
      ensures Valid()
      ensures r == SaveResult(old(comments), data, id)
      ensures comments == if r.Ok? then old(comments) + [r.value] else old(comments)
    {
      r := Construct(data, id);
      if r.Ok? {
        if HasId(comments, id) {
          r := Err(DuplicateKey);
        } else {
          AppendKeepsWellFormed(comments, r.value);
          comments := comments + [r.value];
        }
      }
    }

    /** `findById(id)`. */
    method FindOne(id: string) returns (found: Option<Comment>)
      ensures found.None? <==> !HasId(comments, LowerAsciiString(id))
      ensures found.Some? ==> found.value in comments && found.value.id == LowerAsciiString(id)
    {
      var i := FindById(comments, id);
      if i.Some? {
        found := Some(comments[i.value]);
      } else {
        found := None;
      }
    }

    /** `findByIdAndDelete(id)`. */
    method FindByIdAndDelete(id: string)
      requires Valid()
      modifies this
      ensures Valid()
      ensures comments == DeleteById(old(comments), id)
    {
      DeleteByIdRemovesOnlyThatId(comments, id);
      var i := FindById(comments, id);
      if i.Some? {
        comments := comments[..i.value] + comments[i.value + 1..];
      }
    }
  }
}
