/**
 * The database behind the session: the three tables, the serial counters
 * that hand out ids, and one method per kind of statement a commit sends
 * (insert, update, delete), each either committing or rolling back with the
 * constraint PostgreSQL reports. `DeleteUser` is the cascade the User model
 * declares for its cards and comments.
 */
module Db {
  import opened Wrappers
  import opened Models

  /** The constraint a statement violated; `column` is the column PostgreSQL names. */
  datatype DbError =
    | NotNullViolation(column: string)
    | UniqueViolation(column: string)
    | ForeignKeyViolation(column: string)
    | ValueTooLong(column: string)

  /** The result of a commit: the row's id, or the error that rolled the transaction back. */
  datatype Outcome = Committed(id: int) | RolledBack(error: DbError)

  class Database {
    var users: map<int, User>
    var cards: map<int, Card>
    var comments: map<int, Comment>
    /** The next value of each table's id sequence. */
    var nextUserId: int
    var nextCardId: int
    var nextCommentId: int

    /**
     * What the schema guarantees of every committed state. Ids are unique
     * because they are map keys; each is below its sequence's next value.
     */
    ghost predicate Valid()
      reads this
    {
      && 1 <= nextUserId && 1 <= nextCardId && 1 <= nextCommentId
      && (forall id :: id in users ==> 1 <= id < nextUserId)
      && (forall id :: id in cards ==> 1 <= id < nextCardId)
      && (forall id :: id in comments ==> 1 <= id < nextCommentId)
      && (forall a, b :: a in users && b in users && a != b ==> users[a].email != users[b].email)
      && (forall id :: id in cards ==> cards[id].userId in users && TitleFits(cards[id].title))
      && (forall id :: id in comments ==> comments[id].userId in users && comments[id].cardId in cards)
    }

    /** An empty database. */
    constructor ()
      ensures Valid()
      ensures users == map[] && cards == map[] && comments == map[]
      ensures nextUserId == 1 && nextCardId == 1 && nextCommentId == 1
    {
      users, cards, comments := map[], map[], map[];
      nextUserId, nextCardId, nextCommentId := 1, 1, 1;
    }

    /** Whether some user already holds `email`. */
    predicate EmailTaken(email: string)
      reads this
    {
      exists id :: id in users && users[id].email == email
    }

    /** Whether some comment references card `id`. */
    predicate CardReferenced(id: int)
      reads this
    {
      exists k :: k in comments && comments[k].cardId == id
    }

    /** A card together with its `user` relationship. */
    function CardRowOf(id: int): CardRow
      reads this
      requires Valid() && id in cards
    {
      CardRow(id, cards[id], users[cards[id].userId])
    }

    /** A comment together with its `card` and `user` relationships. */
    function CommentRowOf(id: int): CommentRow
      reads this
      requires Valid() && id in comments
    {
      var c := comments[id];
      CommentRow(id, c, CardRowOf(c.cardId), users[c.userId])
    }

    /**
     * INSERT INTO users. NOT NULL is checked column by column (email before
     * password), then the UNIQUE index on email. `is_admin` takes its default.
     */
    method InsertUser(name: Option<string>, email: Option<string>, password: Option<string>) returns (o: Outcome)
      requires Valid()
      modifies this
      ensures Valid()
      ensures email.None? ==> o == RolledBack(NotNullViolation("email"))
      ensures email.Some? && password.None? ==> o == RolledBack(NotNullViolation("password"))
      ensures email.Some? && password.Some? && old(EmailTaken(email.value)) ==> o == RolledBack(UniqueViolation("email"))
      ensures o.RolledBack? ==> users == old(users) && nextUserId == old(nextUserId)
      ensures o.Committed? <==> email.Some? && password.Some? && !old(EmailTaken(email.value))
      ensures o.Committed? ==>
                o.id == old(nextUserId) && o.id !in old(users)
                && users == old(users)[o.id := User(name, email.value, password.value, IsAdminDefault)]
                && nextUserId == old(nextUserId) + 1
      ensures cards == old(cards) && comments == old(comments)
      ensures nextCardId == old(nextCardId) && nextCommentId == old(nextCommentId)
    {
      if email.None? {
        return RolledBack(NotNullViolation("email"));
      }
      if password.None? {
        return RolledBack(NotNullViolation("password"));
      }
      if EmailTaken(email.value) {
        return RolledBack(UniqueViolation("email"));
      }
      var id := nextUserId;
      users := users[id := User(name, email.value, password.value, IsAdminDefault)];
      nextUserId := nextUserId + 1;
      return Committed(id);
    }

    /**
     * INSERT INTO cards: the title must be accepted by `String(100)` (and is
     * stored cut to the limit), then `user_id` must reference a user.
     */
    method InsertCard(card: Card) returns (o: Outcome)
      requires Valid()
      modifies this
      ensures Valid()
      ensures !TitleAccepted(card.title) ==> o == RolledBack(ValueTooLong("title"))
      ensures TitleAccepted(card.title) && card.userId !in users ==> o == RolledBack(ForeignKeyViolation("user_id"))
      ensures o.RolledBack? ==> cards == old(cards) && nextCardId == old(nextCardId)
      ensures o.Committed? <==> TitleAccepted(card.title) && card.userId in users
      ensures o.Committed? ==>
                o.id == old(nextCardId) && o.id !in old(cards)
                && cards == old(cards)[o.id := Stored(card)]
                && nextCardId == old(nextCardId) + 1
      ensures users == old(users) && comments == old(comments)
      ensures nextUserId == old(nextUserId) && nextCommentId == old(nextCommentId)
    {
      if !TitleAccepted(card.title) {
        return RolledBack(ValueTooLong("title"));
      }
      if card.userId !in users {
        return RolledBack(ForeignKeyViolation("user_id"));
      }
      var id := nextCardId;
      cards := cards[id := Stored(card)];
      nextCardId := nextCardId + 1;
      return Committed(id);
    }

    /** UPDATE cards SET ... WHERE id = `id`, under the same checks and coercion as an insert. */
    method UpdateCard(id: int, card: Card) returns (o: Outcome)
      requires Valid() && id in cards
      modifies this
      ensures Valid()
      ensures !TitleAccepted(card.title) ==> o == RolledBack(ValueTooLong("title"))
      ensures TitleAccepted(card.title) && card.userId !in users ==> o == RolledBack(ForeignKeyViolation("user_id"))
      ensures o.RolledBack? ==> cards == old(cards)
      ensures o.Committed? <==> TitleAccepted(card.title) && card.userId in users
      ensures o.Committed? ==> o.id == id && cards == old(cards)[id := Stored(card)]
      ensures users == old(users) && comments == old(comments)
      ensures nextUserId == old(nextUserId) && nextCardId == old(nextCardId) && nextCommentId == old(nextCommentId)
    {
      if !TitleAccepted(card.title) {
        return RolledBack(ValueTooLong("title"));
      }
      if card.userId !in users {
        return RolledBack(ForeignKeyViolation("user_id"));
      }
      cards := cards[id := Stored(card)];
      return Committed(id);
    }

    /**
     * DELETE FROM cards WHERE id = `id`. Nothing cascades to comments, so a
     * card that a comment still references cannot be deleted. Without a
     * `Card.comments` relationship the referencing comment violates its
     * foreign key; with a plain one, SQLAlchemy would set its `card_id` to
     * NULL and violate NOT NULL instead. Either error rolls back the same
     * way; the outcome names the foreign key.
     */
    method DeleteCard(id: int) returns (o: Outcome)
      requires Valid() && id in cards
      modifies this
      ensures Valid()
      ensures old(CardReferenced(id)) <==> o.RolledBack?
      ensures o.RolledBack? ==> o.error == ForeignKeyViolation("card_id") && cards == old(cards)
      ensures o.Committed? ==> o.id == id && cards == old(cards) - {id}
      ensures users == old(users) && comments == old(comments)
      ensures nextUserId == old(nextUserId) && nextCardId == old(nextCardId) && nextCommentId == old(nextCommentId)
    {
      if CardReferenced(id) {
        return RolledBack(ForeignKeyViolation("card_id"));
      }
      cards := cards - {id};
      return Committed(id);
    }

    /** INSERT INTO comments: `user_id`, then `card_id`, must reference existing rows. */
    method InsertComment(comment: Comment) returns (o: Outcome)
      requires Valid()
      modifies this
      ensures Valid()
      ensures comment.userId !in users ==> o == RolledBack(ForeignKeyViolation("user_id"))
      ensures comment.userId in users && comment.cardId !in cards ==> o == RolledBack(ForeignKeyViolation("card_id"))
      ensures o.RolledBack? ==> comments == old(comments) && nextCommentId == old(nextCommentId)
      ensures o.Committed? <==> comment.userId in users && comment.cardId in cards
      ensures o.Committed? ==>
                o.id == old(nextCommentId) && o.id !in old(comments)
                && comments == old(comments)[o.id := comment]
                && nextCommentId == old(nextCommentId) + 1
      ensures users == old(users) && cards == old(cards)
      ensures nextUserId == old(nextUserId) && nextCardId == old(nextCardId)
    {
      if comment.userId !in users {
        return RolledBack(ForeignKeyViolation("user_id"));
      }
      if comment.cardId !in cards {
        return RolledBack(ForeignKeyViolation("card_id"));
      }
      var id := nextCommentId;
      comments := comments[id := comment];
      nextCommentId := nextCommentId + 1;
      return Committed(id);
    }

    /** UPDATE comments SET ... WHERE id = `id`, under the same checks as an insert. */
    method UpdateComment(id: int, comment: Comment) returns (o: Outcome)
      requires Valid() && id in comments
      modifies this
      ensures Valid()
      ensures comment.userId !in users ==> o == RolledBack(ForeignKeyViolation("user_id"))
      ensures comment.userId in users && comment.cardId !in cards ==> o == RolledBack(ForeignKeyViolation("card_id"))
      ensures o.RolledBack? ==> comments == old(comments)
      ensures o.Committed? <==> comment.userId in users && comment.cardId in cards
      ensures o.Committed? ==> o.id == id && comments == old(comments)[id := comment]
      ensures users == old(users) && cards == old(cards)
      ensures nextUserId == old(nextUserId) && nextCardId == old(nextCardId) && nextCommentId == old(nextCommentId)
    {
      if comment.userId !in users {
        return RolledBack(ForeignKeyViolation("user_id"));
      }
      if comment.cardId !in cards {
        return RolledBack(ForeignKeyViolation("card_id"));
      }
      comments := comments[id := comment];
      return Committed(id);
    }

    /** DELETE FROM comments WHERE id = `id`: nothing references a comment, so it always commits. */
    method DeleteComment(id: int) returns (o: Outcome)
      requires Valid() && id in comments
      modifies this
      ensures Valid()
      ensures o == Committed(id)
      ensures comments == old(comments) - {id}
      ensures users == old(users) && cards == old(cards)
      ensures nextUserId == old(nextUserId) && nextCardId == old(nextCardId) && nextCommentId == old(nextCommentId)
    {
      comments := comments - {id};
      return Committed(id);
    }

    /** The cards user `uid` owns. */
    function OwnedCards(uid: int): set<int>
      reads this
    {
      set c | c in cards && cards[c].userId == uid
    }

    /** The comments user `uid` wrote. */
    function AuthoredComments(uid: int): set<int>
      reads this
    {
      set k | k in comments && comments[k].userId == uid
    }

    /**
     * Whether someone else's comment sits on a card of user `uid`: the
     * cascade deletes that card but not the comment, whose `card_id` would
     * then dangle.
     */
    predicate CascadeBlocked(uid: int)
      reads this
    {
      exists k :: k in comments && comments[k].userId != uid && comments[k].cardId in OwnedCards(uid)
    }

    /**
     * `session.delete(user)`: `cascade='all, delete'` on `User.cards` and
     * `User.comments` deletes the user's cards and comments with it, in one
     * transaction that a comment of another user on one of those cards
     * makes fail (on its `card_id`, by foreign key or by NOT NULL, as for
     * `DeleteCard`).
     */
    method DeleteUser(uid: int) returns (o: Outcome)
      requires Valid() && uid in users
      modifies this
      ensures Valid()
      ensures old(CascadeBlocked(uid)) <==> o.RolledBack?
      ensures o.RolledBack? ==>
                o.error == ForeignKeyViolation("card_id")
                && users == old(users) && cards == old(cards) && comments == old(comments)
      ensures o.Committed? ==>
                o.id == uid
                && users == old(users) - {uid}
                && cards == old(cards) - old(OwnedCards(uid))
                && comments == old(comments) - old(AuthoredComments(uid))
      ensures o.Committed? ==> forall c :: c in cards ==> cards[c].userId != uid
      ensures o.Committed? ==> forall k :: k in comments ==> comments[k].userId != uid
      ensures nextUserId == old(nextUserId) && nextCardId == old(nextCardId) && nextCommentId == old(nextCommentId)
    {
      if CascadeBlocked(uid) {
        return RolledBack(ForeignKeyViolation("card_id"));
      }
      var owned := OwnedCards(uid);
      var authored := AuthoredComments(uid);
      users := users - {uid};
      cards := cards - owned;
      comments := comments - authored;
      return Committed(uid);
    }
  }
}
