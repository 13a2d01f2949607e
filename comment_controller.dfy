/**
 * The `comments` blueprint, under /cards/<card_id>/comments. Delete and
 * update find the comment by its own id: the `card_id` of the route
 * reaches those views but plays no part in them, and they only require the
 * caller to be authenticated, never reading the identity.
 */
module CommentController {
  import opened Wrappers
  import opened Marshal
  import opened Models
  import opened Db
  import opened Http

  /**
   * POST /cards/<card_id>/comments/: a comment by the caller on that card,
   * with the body's message, or 404 when there is no such card.
   */
  method CreateComment(db: Database, actor: int, cardId: nat, body: CommentBody) returns (r: Response)
    requires db.Valid()
    modifies db
    ensures db.Valid()
    ensures cardId !in old(db.cards) ==> r == Response(NotFound, ErrorBody("Card not found with id " + NatToString(cardId)))
    ensures r.status == Created <==> cardId in old(db.cards) && actor in old(db.users)
    ensures cardId in old(db.cards) && actor !in old(db.users) ==> r == Crash
    ensures r.status == Created ==>
              var id := old(db.nextCommentId);
              && id !in old(db.comments)
              && db.comments == old(db.comments)[id := Comment(body.message, actor, cardId)]
              && r.body == CommentView(db.CommentRowOf(id))
    ensures r.status != Created ==> db.comments == old(db.comments)
    ensures db.users == old(db.users) && db.cards == old(db.cards)
    ensures db.nextCommentId == old(db.nextCommentId) + (if r.status == Created then 1 else 0)
    ensures db.nextUserId == old(db.nextUserId) && db.nextCardId == old(db.nextCardId)
  {
    if cardId in db.cards {
      var o := db.InsertComment(Comment(body.message, actor, cardId));
      if o.Committed? {
        r := Response(Created, DumpComment(db.CommentRowOf(o.id)));
      } else {
        r := Crash;
      }
    } else {
      r := Response(NotFound, ErrorBody("Card not found with id " + NatToString(cardId)));
    }
  }

  /** DELETE /cards/<card_id>/comments/<comment_id>, for any authenticated caller. */
  method DeleteComment(db: Database, cardId: nat, commentId: nat) returns (r: Response)
    requires db.Valid()
    modifies db
    ensures db.Valid()
    ensures commentId in old(db.comments) ==>
              && r == Response(Ok, MessageBody("Comment " + PyStr(old(db.comments[commentId].message)) + " deleted successfully"))
              && db.comments == old(db.comments) - {commentId}
    ensures commentId !in old(db.comments) ==>
              && r == Response(NotFound, ErrorBody("Comment with " + NatToString(commentId) + " not found."))
              && db.comments == old(db.comments)
    ensures db.users == old(db.users) && db.cards == old(db.cards)
    ensures db.nextUserId == old(db.nextUserId) && db.nextCardId == old(db.nextCardId) && db.nextCommentId == old(db.nextCommentId)
  {
    if commentId in db.comments {
      var message := db.comments[commentId].message;
      var _ := db.DeleteComment(commentId);
      r := Response(Ok, MessageBody("Comment " + PyStr(message) + " deleted successfully"));
    } else {
      r := Response(NotFound, ErrorBody("Comment with " + NatToString(commentId) + " not found."));
    }
  }

  /**
   * PUT or PATCH /cards/<card_id>/comments/<comment_id>: `message = supplied
   * or message`; author and card stay.
   */
  method UpdateComment(db: Database, cardId: nat, commentId: nat, body: CommentBody) returns (r: Response)
    requires db.Valid()
    modifies db
    ensures db.Valid()
    ensures commentId in old(db.comments) ==>
              var c := old(db.comments[commentId]);
              && db.comments == old(db.comments)[commentId := Comment(Or(body.message, c.message), c.userId, c.cardId)]
              && (Truthy(body.message) ==> db.comments[commentId].message == body.message)
              && (!Truthy(body.message) ==> db.comments[commentId].message == c.message)
              && r == Response(Ok, CommentView(db.CommentRowOf(commentId)))
    ensures commentId !in old(db.comments) ==>
              && r == Response(NotFound, ErrorBody("Comment with comment id " + NatToString(commentId) + " does not exist."))
              && db.comments == old(db.comments)
    ensures db.users == old(db.users) && db.cards == old(db.cards)
    ensures db.nextUserId == old(db.nextUserId) && db.nextCardId == old(db.nextCardId) && db.nextCommentId == old(db.nextCommentId)
  {
    if commentId in db.comments {
      var c := db.comments[commentId];
      var _ := db.UpdateComment(commentId, Comment(Or(body.message, c.message), c.userId, c.cardId));
      r := Response(Ok, DumpComment(db.CommentRowOf(commentId)));
    } else {
      r := Response(NotFound, ErrorBody("Comment with comment id " + NatToString(commentId) + " does not exist."));
    }
  }
}
