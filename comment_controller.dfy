/**
  The comment endpoints (`server/source/controllers/commentController.js`):
  the comments of one title, newest first; posting a comment as the signed-in
  user; and deleting one's own comment behind three guards (a well-formed id,
  an existing comment, the caller owning it). The signed-in user's id is a
  parameter: the authentication middleware that supplies it is not part of
  this model.
*/
module CommentController {
  import opened Common
  import opened CommentModel

  // ---------------------------------------------------------------------------
  // GET /:mediaType/:mediaId

  /** The query `{ mediaType, mediaId }`. */
  function OnMedia(mediaType: string, mediaId: string): Comment -> bool {
    (c: Comment) => c.mediaType == mediaType && c.mediaId == mediaId
  }

  /**
    `getComments`: the comments on one title, sorted newest first. Documents
    are kept in creation order, so newest first is that order reversed.
  */
  function GetComments(comments: seq<Comment>, mediaType: string, mediaId: string): (r: seq<Comment>)
    ensures forall c :: c in r <==> c in comments && c.mediaType == mediaType && c.mediaId == mediaId
  {
    var matching := Filter(comments, OnMedia(mediaType, mediaId));
    assert forall c :: c in matching <==> c in comments && c.mediaType == mediaType && c.mediaId == mediaId;
    assert forall k :: 0 <= k < |matching| ==> matching[k] == Reverse(matching)[|matching| - 1 - k];
    Reverse(matching)
  }

  /**
    The answer lists the matching documents from the most recently created
    one back to the oldest: its `k`-th entry is the document at the `k`-th
    largest of the matching positions.
  */
  lemma GetCommentsNewestFirst(comments: seq<Comment>, mediaType: string, mediaId: string)
    ensures var r := GetComments(comments, mediaType, mediaId);
            var positions := PositionsWhere(comments, OnMedia(mediaType, mediaId));
            && |r| == |positions|
            && forall k :: 0 <= k < |r| ==> r[k] == comments[positions[|positions| - 1 - k]]
  {
  }

  // ---------------------------------------------------------------------------
  // POST /

  /** The request body; a field the client left out is `None`. */
  datatype CreateBody = CreateBody(mediaType: Option<string>, mediaId: Option<string>, content: Option<string>)

  datatype CreateReply = EmptyContent | CreateFailed | Created(comment: Comment)
  {
    function Code(): int {
      match this
      case EmptyContent => 400
      case CreateFailed => 500
      case Created(_) => 201
    }
  }

  /** The document `createComment` builds for `user` from the body. */
  function DataFor(user: string, body: CreateBody): CommentData {
    CommentData(body.mediaType, body.mediaId, body.content, user)
  }

  /**
    `createComment` under the id the driver generates: missing or empty
    content is refused before anything is built; any schema or index error
    while saving is a server error.
  */
  function CreateResult(comments: seq<Comment>, user: string, body: CreateBody, newId: string): CreateReply
    requires IsStoredId(newId)
  {
    if !Truthy(body.content) then EmptyContent
    else match SaveResult(comments, DataFor(user, body), newId)
      case Ok(c) => Created(c)
      case Err(_) => CreateFailed
  }

  method CreateComment(store: CommentStore, user: string, body: CreateBody, newId: string) returns (reply: CreateReply)
    requires store.Valid() && IsStoredId(newId)
    modifies store
    ensures store.Valid()
    ensures reply == CreateResult(old(store.comments), user, body, newId)
    ensures store.comments == if reply.Created? then old(store.comments) + [reply.comment] else old(store.comments)
  {
    if !Truthy(body.content) {
      return EmptyContent;
    }
    var saved := store.Save(DataFor(user, body), newId);
    if saved.Err? {
      return CreateFailed;
    }
    reply := Created(saved.value);
  }

  /** Missing or empty content is answered 400, and by nothing else. */
  lemma EmptyContentIsBadRequest(comments: seq<Comment>, user: string, body: CreateBody, newId: string)
    requires IsStoredId(newId)
    ensures CreateResult(comments, user, body, newId).Code() == 400 <==> !Truthy(body.content)
  {
  }

  /**
    Content made only of white space gets past the emptiness check but not
    the schema: `trim` empties it and `required` refuses it, a 500.
  */
  lemma BlankContentIsServerError(comments: seq<Comment>, user: string, body: CreateBody, newId: string)
    requires IsStoredId(newId)
    requires Truthy(body.content) && Trim(body.content.value) == ""
    ensures CreateResult(comments, user, body, newId) == CreateFailed
  {
  }

  /**
    A comment is created exactly when the content is present, the schema
    accepts the data and the new id is unused.
  */
  lemma CreatedIffAccepted(comments: seq<Comment>, user: string, body: CreateBody, newId: string)
    requires IsStoredId(newId)
    ensures CreateResult(comments, user, body, newId).Created?
            <==> Acceptable(DataFor(user, body)) && !HasId(comments, newId)
  {
  }

  /**
    The new comment belongs to the caller, carries the body's media key and
    the trimmed content, and the store stays well formed with it added.
  */
  lemma CreatedCommentBelongsToCaller(comments: seq<Comment>, user: string, body: CreateBody, newId: string)
    requires WellFormed(comments) && IsStoredId(newId)
    requires CreateResult(comments, user, body, newId).Created?
    ensures var c := CreateResult(comments, user, body, newId).comment;
            && c.id == newId && c.user == user
            && Some(c.mediaType) == body.mediaType && Some(c.mediaId) == body.mediaId
            && c.content == Trim(body.content.value)
            && WellFormed(comments + [c])
  {
  }

  // ---------------------------------------------------------------------------
  // DELETE /:id

  datatype DeleteReply = InvalidId | NotFound | Forbidden | Deleted
  {
    function Code(): int {
      match this
      case InvalidId => 400
      case NotFound => 404
      case Forbidden => 403
      case Deleted => 200
    }
  }

  /** `deleteComment`'s guards, in order. */
  function DeleteResult(comments: seq<Comment>, user: string, id: string): DeleteReply {
    if !IsObjectIdString(id) then InvalidId
    else match FindById(comments, id)
      case None => NotFound
      case Some(i) => if comments[i].user != user then Forbidden else Deleted
  }

  method DeleteComment(store: CommentStore, user: string, id: string) returns (reply: DeleteReply)
    requires store.Valid()
    modifies store
    ensures store.Valid()
    ensures reply == DeleteResult(old(store.comments), user, id)
    ensures store.comments == if reply.Deleted? then DeleteById(old(store.comments), id) else old(store.comments)
  {
    if !IsObjectIdString(id) {
      return InvalidId;
    }
    var comment := store.FindOne(id);
    if comment.None? {
      return NotFound;
    }
    if comment.value.user != user {
      return Forbidden;
    }
    store.FindByIdAndDelete(id);
    reply := Deleted;
  }

  /** An id that is not 24 hexadecimal digits is answered 400; only such ids are. */
  lemma MalformedIdIsBadRequest(comments: seq<Comment>, user: string, id: string)
    ensures DeleteResult(comments, user, id) == InvalidId <==> !IsObjectIdString(id)
  {
  }

  /** A well-formed id that names no comment is answered 404. */
  lemma MissingCommentIsNotFound(comments: seq<Comment>, user: string, id: string)
    requires IsObjectIdString(id)
    ensures DeleteResult(comments, user, id) == NotFound <==> !HasId(comments, LowerAsciiString(id))
  {
  }

  /** Someone else's comment is answered 403 and stays in the store. */
  lemma OthersCommentIsForbidden(comments: seq<Comment>, user: string, c: Comment)
    requires WellFormed(comments) && c in comments && c.user != user
    ensures DeleteResult(comments, user, c.id) == Forbidden
  {
    StoredIdIsLowerCase(c.id);
    assert IsObjectIdString(c.id);
    var i := FindById(comments, c.id).value;
    var k :| 0 <= k < |comments| && comments[k] == c;
    assert i == k;
  }

  /**
    The owner's request deletes that comment, in whichever case the id is
    written, and every other comment stays.
  */
  lemma OwnerDeletesExactlyThatComment(comments: seq<Comment>, c: Comment, id: string)
    requires WellFormed(comments) && c in comments
    requires IsObjectIdString(id) && LowerAsciiString(id) == c.id
    ensures DeleteResult(comments, c.user, id) == Deleted
    ensures c !in DeleteById(comments, id)
    ensures forall d :: d in DeleteById(comments, id) <==> d in comments && d != c
    ensures |DeleteById(comments, id)| == |comments| - 1
  {
    var i := FindById(comments, id).value;
    var k :| 0 <= k < |comments| && comments[k] == c;
    assert i == k;
    DeleteByIdRemovesOnlyThatId(comments, id);
    forall d | d in comments && d != c ensures d.id != c.id {
      var m :| 0 <= m < |comments| && comments[m] == d;
    }
  }

  /** Once deleted, the same request finds nothing: a 404. */
  lemma DeleteTwiceIsNotFound(comments: seq<Comment>, c: Comment, id: string)
    requires WellFormed(comments) && c in comments
    requires IsObjectIdString(id) && LowerAsciiString(id) == c.id
    ensures DeleteResult(DeleteById(comments, id), c.user, id) == NotFound
  {
    DeleteByIdRemovesOnlyThatId(comments, id);
  }
}
