# Task tracker store, modelled in Dafny

This project models the data layer of a small Flask task tracker. Users register; they create cards (tasks with a title, description, date, status and priority); and they comment on cards. The model covers:

- the three tables (`users`, `cards`, `comments`) as one `Database` object, with the constraints PostgreSQL enforces on them;
- the views of the `auth`, `cards` and `comments` blueprints, as methods over that object that return a status and a JSON body;
- the marshmallow schemas that decide which fields a dump shows.

Modules follow the program:

| module | file | models |
|---|---|---|
| `Wrappers` | wrappers.dfy | Python's None |
| `Marshal` | marshal.dfy | marshmallow's `fields` / `only` / `exclude` projection; dumped JSON values |
| `Models` | models.dfy | `models/user.py`, `models/card.py`, `models/comment.py`: records, column limits, schemas, dumps |
| `Db` | db.dfy | the tables and the session's insert/update/delete-and-commit, with the ORM's user cascade |
| `Http` | http.dfy | request bodies, replies, Python truthiness, `or`, `str(None)` |
| `AuthController` | auth_controller.dfy | `controllers/auth_controller.py` |
| `CardController` | card_controller.dfy | `controllers/card_controller.py` |
| `CommentController` | comment_controller.dfy | `controllers/comment_controller.py` |

Each row lives in its table as a map entry from id to record, so ids are unique by construction. `Database.Valid()` states what a committed state always satisfies:

- every id lies below its sequence's next value;
- e-mail addresses are unique across users (and, like the password, never null: both are plain strings in the record);
- every card's `user_id` names a user, and its stored title has at most 100 characters;
- every comment's `user_id` names a user and its `card_id` names a card.

Every state-changing method keeps `Valid()` and states its whole new state: the three tables and the three id sequences. Each view either commits or leaves the tables exactly as they were.

## How the source's behaviour is represented

- **Clock, identity and hashing.** `date.today()` becomes a `today` parameter. The JWT identity becomes an `actor: int` parameter. bcrypt becomes a `hash: string -> string` parameter, about which nothing is assumed.
- **Database errors.** PostgreSQL's constraint errors are the `DbError` values. NOT NULL is checked column by column (e-mail before password), then the unique index. A title over 100 characters is refused, unless every character past the 100th is a space. In that case PostgreSQL cuts the title to 100 characters and the statement commits (`TitleAccepted`, `StoredTitle`). A dangling reference violates a foreign key.
- **Errors the views do not catch.** A view that does not catch the error, or (in `auth_register`) falls through its `except` clause and returns None, ends in Flask's 500 page. That outcome is `Http.Crash`, and the transaction is rolled back.
- **Cards with comments.** `models/card.py` declares no `comments` relationship and nothing cascades from a card to its comments. So deleting a card that still has comments violates `comments.card_id`'s foreign key. With a plain `Card.comments` relationship (the wiring assumed below), SQLAlchemy would instead set those comments' `card_id` to NULL, and the commit would fail on NOT NULL. Either error rolls back and ends in 500. The model records the outcome as a foreign-key violation on `card_id`, for `DeleteCard` and for the blocked `DeleteUser` alike. Card deletion does not cascade to comments.
- **Deleting a user.** The user's cards and comments are deleted with it (`cascade='all, delete'`). If another user's comment sits on one of those cards, the transaction fails on that comment's `card_id`.
- **Wiring assumed, not present.** Two pieces of wiring are missing from the source.
  - `Comment.card` (models/comment.py:15) names `back_populates='comments'`, but `Card` has no `comments` property. SQLAlchemy therefore cannot configure the mappers. As written, the first query raises, and every view that touches the database answers 500.
  - `comments_bp` is never registered. controllers/comment_controller.py:10-11 says the card controller will register it, but neither controllers/card_controller.py nor main.py does. As written, the comment routes are not served at all.
  - The model assumes the evidently intended wiring: the relationships load, and the comment routes are served under /cards/<card_id>/comments.
- **Deliberately absent rules.** There is no title validation, no check on status or priority values, no "one Ongoing card" rule, no admin-only delete and no owner-only edit anywhere in the views, so none appears in the model. Any authenticated caller may delete or update any card or comment.

## Model

| member | source | states |
|---|---|---|
| Marshal.FilterKeeps | models/user.py:28-29 | a schema emits a field exactly when the field is declared and its `only`/`exclude` options let it through |
| Models.StoredTitle | models/card.py:8 | the stored title has at most 100 characters, is null only for a null title, is a prefix of the given one, equals it when it fits, and, for an accepted title, drops only spaces |
| Models.FitsAccepted | models/card.py:8 | a title of at most 100 characters is accepted and stored unchanged |
| Models.CardInCommentSchemaRejected | models/comment.py:22 | as written, the nested card schema's `exclude=['comments']` names a field CardSchema does not declare, so marshmallow refuses the schema |
| Models.UserSchemasDeclared | models/user.py:28 | `user_schema` and the nested `only=['name', 'email']` name only declared fields |
| Models.CardSchemasDeclared | models/user.py:21 | `card_schema` and the card nested in a user name only declared fields |
| Models.CommentSchemasDeclared | models/user.py:22 | `comment_schema` and the comment nested in a user name only declared fields |
| Models.FillKeys | models/card.py:24-27 | a dump has exactly the schema's emitted fields, in declared order |
| Models.Summary | models/card.py:22 | the nested user of a card or comment is exactly `{name, email}` |
| Models.FillCard | models/card.py:25 | the six own card fields are dumped in declared order, each with the row's value |
| Models.CardDumpShape | models/card.py:21-27 | with the card fields selected, the dump is id, title, description, date, status, priority, user |
| Models.CardInUserShape | models/user.py:21 | a card under `exclude=['user']` dumps its six own fields and no `user` |
| Models.DumpCard | models/card.py:21-27 | `card_schema.dump` has exactly keys id, title, description, date, status, priority, user in that order; the user is name and email only; `user_id` is not shown |
| Models.DumpCardInUser | models/user.py:21 | a card nested in a user dump has the six own fields and no `user` key |
| Models.CardInCommentShape | models/comment.py:22 | excluding `comments`, which CardSchema does not declare, leaves the full card dump |
| Models.DumpCardInComment | models/comment.py:22 | the card nested in a comment dump is the full card dump and has no `comments` key |
| Models.CommentDumpShape | models/comment.py:18-25 | the comment dump is id, message, card, user, with the given nested values |
| Models.CommentInUserShape | models/user.py:22 | a comment under `exclude=['user']` is id, message, card, with no `user` |
| Models.DumpComment | models/comment.py:18-25 | `comment_schema.dump` has exactly keys id, message, card, user; the card is the full card dump; the user is name and email only |
| Models.DumpCommentInUser | models/user.py:22 | a comment nested in a user dump has id, message and card and no `user` key |
| Models.UserDumpShape | models/user.py:26-28 | with the password excluded, the user dump is id, name, email, is_admin, cards, comments and has no `password` key |
| Models.DumpUser | models/user.py:18-29 | `user_schema.dump` is id, name, email, is_admin, cards, comments, with the nested cards and comments lacking `user`; it never has a `password` key |
| Db.Database.constructor | models/user.py:5-11 | a fresh database has empty tables, sequences at 1, and satisfies the invariant |
| Db.Database.InsertUser | models/user.py:7-11 | a null e-mail, then a null password, then an e-mail already held each roll back with that violation and leave the tables unchanged; otherwise exactly one user is added under the next id, with `is_admin` false; the invariant, including e-mail uniqueness, is kept |
| Db.Database.InsertCard | models/card.py:7-14 | commits iff `String(100)` accepts the title and `user_id` names a user; a commit adds exactly that card, its title cut to the column, under the next id; nothing else changes |
| Db.Database.UpdateCard | models/card.py:8-14 | commits iff `String(100)` accepts the new title and `user_id` names a user; a commit replaces only that card, its title cut to the column |
| Db.Database.DeleteCard | models/comment.py:12 | rolls back on `card_id` iff some comment references the card; otherwise removes exactly that card |
| Db.Database.InsertComment | models/comment.py:8-12 | commits iff `user_id` names a user and `card_id` names a card; a commit adds exactly that comment under the next id |
| Db.Database.UpdateComment | models/comment.py:11-12 | commits iff both references resolve; a commit replaces only that comment |
| Db.Database.DeleteComment | models/comment.py:5-12 | always commits and removes exactly that comment |
| Db.Database.DeleteUser | models/user.py:15-16 | fails iff another user's comment sits on one of the user's cards; otherwise removes the user, every card it owns and every comment it wrote, and nothing else, leaving no card or comment with its id; the invariant is kept |
| AuthController.Register | controllers/auth_controller.py:10-39 | 409 "The email is required" without an e-mail; 409 "The password is required" when the password is absent or empty; 409 "Email address already in use" for a held e-mail (no user added in any of these); otherwise 201, exactly one user with the given name and e-mail, `Hash(password)`, not admin, and the password-less dump; the user sequence advances only on 201 |
| CardController.IdsBelow | controllers/card_controller.py:11-12 | lists each card id below the bound exactly once |
| CardController.InsertByDate | controllers/card_controller.py:11 | inserting a card id yields a permutation of the list plus that id |
| CardController.HeadNewest | controllers/card_controller.py:11 | in a newest-first list the head is the newest and the tail is newest-first |
| CardController.ConsOrdered | controllers/card_controller.py:11 | a card at least as new as a newest-first list may precede it |
| CardController.InsertAtMost | controllers/card_controller.py:11 | inserting keeps a common upper bound on dates |
| CardController.InsertByDateOrdered | controllers/card_controller.py:11 | inserting into a newest-first list keeps it newest-first |
| CardController.SortByDate | controllers/card_controller.py:11 | the result is a permutation of the input, ordered by date descending |
| CardController.CardsByDate | controllers/card_controller.py:11-12 | every stored card exactly once, ordered by date descending |
| CardController.DumpCards | controllers/card_controller.py:13 | `cards_schema.dump` dumps each card in list order with the full card shape |
| CardController.GetAllCards | controllers/card_controller.py:9-13 | 200 and the list of every card, newest first, each in the full card shape |
| CardController.GetOneCard | controllers/card_controller.py:15-26 | 200 with the card's dump iff the id is stored (keys exactly the card fields); otherwise 404 "Card not found with id {id}"; only reads the database |
| CardController.CreateCard | controllers/card_controller.py:28-48 | 201 iff `String(100)` accepts the title and the caller is a user; then exactly one card added with the body's four text fields (the title cut to the column), `date` = today and `user_id` = caller whatever the body holds, and the card sequence advances; otherwise 500 and no card added |
| CardController.DeleteOneCard | controllers/card_controller.py:50-60 | a missing id gives 404 "Card not found with id {id}." and no change; an unreferenced card is removed alone, with the message naming its title; a card that has comments gives 500 and no change; no ownership or admin check |
| CardController.MergeCard | controllers/card_controller.py:76-79 | each of title, description, status, priority becomes the supplied value when truthy and keeps its own otherwise; date and user_id never change |
| CardController.MergeIdempotent | controllers/card_controller.py:76-79 | applying the same update twice equals applying it once |
| CardController.MergeFalsy | controllers/card_controller.py:76-79 | a body with no truthy field leaves the card unchanged |
| CardController.UpdateOneCard | controllers/card_controller.py:67-83 | a missing id gives 404 "Card not found with {id}" and no change; otherwise the card becomes its merge with the body, title cut to the column, and no other card changes (200), unless `String(100)` refuses the supplied title (500, no change); no sequence moves |
| CommentController.CreateComment | controllers/comment_controller.py:14-38 | a missing card gives 404 "Card not found with id {card_id}" and no comment; otherwise 201 iff the caller is a user, adding exactly one comment with the body's message, `user_id` = caller and `card_id` = that card, and the comment sequence advances only then |
| CommentController.DeleteComment | controllers/comment_controller.py:41-53 | looked up by comment id alone: an existing comment is removed alone with "Comment {message} deleted successfully"; otherwise 404 "Comment with {comment_id} not found." and no change; the route's card id and the caller play no part |
| CommentController.UpdateComment | controllers/comment_controller.py:55-70 | looked up by comment id alone: the message becomes the supplied one when truthy, else stays; author and card stay; 200 with the comment dump; otherwise 404 "Comment with comment id {comment_id} does not exist." and no change |

## Left out

- JWT issuance and checking (`jwt_required`, `get_jwt_identity`): the caller's identity is an `actor` parameter, and an authenticated request is assumed.
- bcrypt: `hash` is a parameter with no properties; its cryptography is not modelled.
- Flask routing and `request.get_json()`. A body is a record of optional fields, each typed as the view uses it. A JSON value of another type (a number for `title`, say) is not modelled, and neither is a request without a JSON body.
- JSON encoding and date formatting: a date is a day number (`Day`), and a 500 reply is Flask's HTML page, so it carries no JSON body (`Null`).
- Sequence gaps: PostgreSQL advances a sequence even when the insert is rolled back; here a failed insert leaves the next id as it was.
- 32-bit `Integer` columns: ids are unbounded integers.
- The order of cards that share a date: `ORDER BY date DESC` fixes none. The model picks one, and its contracts promise only the date order.
- `DeleteUser` is the ORM cascade declared on the User model. None of the three controllers has a view that deletes a user, so it is modelled at the database level only.
- DumpCardInComment: marshmallow 3 refuses to build the nested `CardSchema(exclude=['comments'])`, because CardSchema declares no `comments` field. As written, every comment dump therefore raises ValueError (`CardInCommentSchemaRejected`, and "## Findings"). This member models the evidently intended projection, in which the exclusion removes nothing.
- DumpComment: assumes that intended nested card, as above; as written it raises.
- DumpCommentInUser: a comment in a user's list is dumped with `CommentSchema(exclude=['user'])` (models/user.py:22), whose card field is the same `CardSchema(exclude=['comments'])`. As written it raises ValueError; the member models the intended shape.
- DumpUser: as written, `user_schema.dump` raises for a user with at least one comment, through DumpCommentInUser. For a user with no comments it does not raise; that includes the only call in the covered views, `Register`, which dumps a new user with no cards and no comments.
- CreateComment: as written, the comment is committed and then the dump raises, so the reply is 500 with the comment stored. The model replies 201 with the intended dump.
- UpdateComment: as written, the new message is committed and then the dump raises, so the reply is 500 with the update stored. The model replies 200 with the intended dump.
- The missing `Card.comments` property and the unregistered comment blueprint: the model assumes both are wired as intended.
- Concurrency and transaction isolation: each request runs alone.
- `controllers/cli_controller.py` and `init.py` are not part of this model.

## Findings

| source | as written | input that shows it | evidently intended | confidence | as-written member | corrected member |
|---|---|---|---|---|---|---|
| models/comment.py:22 | `fields.Nested('CardSchema', exclude=['comments'])` names a field CardSchema does not declare, and marshmallow 3 raises ValueError when it builds that schema during a dump | POST /cards/1/comments/ on an existing card: the comment commits, then `comment_schema.dump` raises and the reply is 500 | the card nested in a comment is the full card dump, with no `comments` key | not executed | Models.CardInCommentSchemaRejected | Models.DumpCardInComment |
