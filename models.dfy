/**
 * The three mapped tables (users, cards, comments) as records, the column
 * limits the database enforces, and the marshmallow schemas that shape their
 * dumps. Primary keys are not part of the records: a table is a map from id
 * to record, so ids are unique by construction.
 */
module Models {
  import opened Wrappers
  import opened Marshal

  /** A nullable text column, dumped as null or as its string. */
  function OptStr(v: Option<string>): Json
  {
    if v.Some? then Str(v.value) else Null
  }

  // ---------------------------------------------------------------- users

  /**
   * A users row. `email` and `password` are NOT NULL, so they are plain
   * strings; `password` holds the hash, never the raw value; `name` is nullable.
   */
  datatype User = User(name: Option<string>, email: string, password: string, isAdmin: bool)

  /** The value an omitted `is_admin` takes on insert. */
  const IsAdminDefault := false

  const UserFields :=
    Cons(Key.Id, Cons(Key.Name, Cons(Key.Email, Cons(Key.Password, Cons(Key.IsAdmin,
    Cons(Key.Cards, Cons(Key.Comments, Nil)))))))

  /** `user_schema`: every declared field except the password. */
  const UserDumpSchema := Schema(UserFields, None, {Key.Password})

  /** The nested user of a card or a comment: `only=['name', 'email']`. */
  const UserSummarySchema := Schema(UserFields, Some({Key.Name, Key.Email}), {})

  // ---------------------------------------------------------------- cards

  /** `title` is `String(100)`: a stored title has at most this many characters. */
  const TitleMax := 100

  predicate TitleFits(title: Option<string>)
  {
    title.None? || |title.value| <= TitleMax
  }

  /**
   * Whether PostgreSQL accepts `title` for a `varchar(100)` column: a longer
   * value is refused unless every character beyond the limit is a space.
   */
  predicate TitleAccepted(title: Option<string>)
  {
    title.None? || forall i :: TitleMax <= i < |title.value| ==> title.value[i] == ' '
  }

  /** The value the column then holds: an accepted over-long title is cut to the limit. */
  function StoredTitle(title: Option<string>): (r: Option<string>)
    ensures TitleFits(r)
    ensures r.None? <==> title.None?
    ensures TitleFits(title) ==> r == title
    ensures title.Some? ==> r.value <= title.value
    ensures TitleAccepted(title) && title.Some? ==>
              forall i :: |r.value| <= i < |title.value| ==> title.value[i] == ' '
  {
    if title.Some? && |title.value| > TitleMax then Some(title.value[..TitleMax]) else title
  }

  /** A title that already fits is accepted as it is. */
  lemma FitsAccepted(title: Option<string>)
    requires TitleFits(title)
    ensures TitleAccepted(title) && StoredTitle(title) == title
  {
  }

  /** The card a statement stores: the same card with its title coerced to the column. */
  function Stored(c: Card): Card
  {
    c.(title := StoredTitle(c.title))
  }

  /**
   * A cards row. `user_id` is NOT NULL and references users; `date` is set
   * by the server on creation; the text columns are nullable.
   */
  datatype Card = Card(
    title: Option<string>,
    description: Option<string>,
    date: int,
    status: Option<string>,
    priority: Option<string>,
    userId: int)

  /** A card loaded with its `user` relationship. */
  datatype CardRow = CardRow(id: int, card: Card, owner: User)

  const CardFields :=
    Cons(Key.Id, Cons(Key.Title, Cons(Key.Description, Cons(Key.Date, Cons(Key.Status,
    Cons(Key.Priority, Cons(Key.User, Nil)))))))

  /** `card_schema` / `cards_schema`. */
  const CardDumpSchema := Schema(CardFields, None, {})

  /** A card nested in a user dump: `exclude=['user']`. */
  const CardInUserSchema := Schema(CardFields, None, {Key.User})

  /** A card nested in a comment dump: `exclude=['comments']`, a field CardSchema does not declare. */
  const CardInCommentSchema := Schema(CardFields, None, {Key.Comments})

  // ------------------------------------------------------------- comments

  /** A comments row: `user_id` and `card_id` are NOT NULL foreign keys; `message` is nullable. */
  datatype Comment = Comment(message: Option<string>, userId: int, cardId: int)

  /** A comment loaded with its `card` and `user` relationships. */
  datatype CommentRow = CommentRow(id: int, comment: Comment, card: CardRow, author: User)

  const CommentFields := Cons(Key.Id, Cons(Key.Message, Cons(Key.Card, Cons(Key.User, Nil))))

  /** `comment_schema` / `comments_schema`. */
  const CommentDumpSchema := Schema(CommentFields, None, {})

  /** A comment nested in a user dump: `exclude=['user']`. */
  const CommentInUserSchema := Schema(CommentFields, None, {Key.User})

  // ---------------------------------------------------------------- dumps

  /**
   * An object handed to a schema. Its relationships are given already as the
   * nested schema shows them (marshmallow resolves nesting lazily; here the
   * caller does it).
   */
  datatype Entity =
    | UserObject(id: int, user: User, cards: seq<Json>, comments: seq<Json>)
    | CardObject(row: CardRow, owner: Json)
    | CommentObject(crow: CommentRow, card: Json, author: Json)

  /** The value of attribute `k` of an object; the foreign-key columns are attributes too. */
  function Attr(e: Entity, k: Key): Json
  {
    match e
    case UserObject(id, u, cards, comments) =>
      (match k
       case Id => Int(id)
       case Name => OptStr(u.name)
       case Email => Str(u.email)
       case Password => Str(u.password)
       case IsAdmin => Bool(u.isAdmin)
       case Cards => Arr(cards)
       case Comments => Arr(comments)
       case _ => Null)
    case CardObject(r, owner) =>
      (match k
       case Id => Int(r.id)
       case Title => OptStr(r.card.title)
       case Description => OptStr(r.card.description)
       case Date => Day(r.card.date)
       case Status => OptStr(r.card.status)
       case Priority => OptStr(r.card.priority)
       case UserId => Int(r.card.userId)
       case User => owner
       case _ => Null)
    case CommentObject(r, card, author) =>
      (match k
       case Id => Int(r.id)
       case Message => OptStr(r.comment.message)
       case UserId => Int(r.comment.userId)
       case CardId => Int(r.comment.cardId)
       case Card => card
       case User => author
       case _ => Null)
  }

  /** One member per listed field, valued from the object's attributes. */
  function Fill(ks: FieldList, e: Entity): Members
  {
    match ks
    case Nil => Empty
    case Cons(k, t) => Member(k, Attr(e, k), Fill(t, e))
  }

  /** `schema.dump(obj)`: the emitted fields, in order, each with the object's value. */
  function Dump(s: Schema, e: Entity): Json
  {
    Obj(Fill(Selected(s), e))
  }

  /** A dump carries exactly the keys its schema emits, in order; so never an excluded one. */
  lemma {:induction false} FillKeys(ks: FieldList, e: Entity)
    ensures Keys(Fill(ks, e)) == ks
  {
    match ks
    case Nil =>
    case Cons(k, t) => FillKeys(t, e);
  }

  /** The nested user of a card or comment dump: name and email only. */
  function Summary(id: int, u: User): (j: Json)
    ensures j == Obj(Member(Key.Name, OptStr(u.name), Member(Key.Email, Str(u.email), Empty)))
  {
    var e := UserObject(id, u, [], []);
    assert Selected(UserSummarySchema) == Cons(Key.Name, Cons(Key.Email, Nil));
    assert Fill(Cons(Key.Email, Nil), e).Member?;
    Dump(UserSummarySchema, e)
  }

  /** The six own fields of a card, in declared order, followed by `rest`. */
  function CardMembers(r: CardRow, rest: Members): Members
  {
    Member(Key.Id, Int(r.id),
    Member(Key.Title, OptStr(r.card.title),
    Member(Key.Description, OptStr(r.card.description),
    Member(Key.Date, Day(r.card.date),
    Member(Key.Status, OptStr(r.card.status),
    Member(Key.Priority, OptStr(r.card.priority), rest))))))
  }

  /** A card with its user as name and email: the shape of every full card dump. */
  function CardView(r: CardRow): Json
  {
    Obj(CardMembers(r, Member(Key.User, Summary(r.card.userId, r.owner), Empty)))
  }

  /** Filling the six own card fields followed by `ks`. */
  lemma FillCard(r: CardRow, owner: Json, ks: FieldList)
    ensures Fill(Cons(Key.Id, Cons(Key.Title, Cons(Key.Description, Cons(Key.Date, Cons(Key.Status, Cons(Key.Priority, ks)))))),
                 CardObject(r, owner))
            == CardMembers(r, Fill(ks, CardObject(r, owner)))
  {
    var e := CardObject(r, owner);
    var k5 := Cons(Key.Priority, ks);
    var k4 := Cons(Key.Status, k5);
    var k3 := Cons(Key.Date, k4);
    var k2 := Cons(Key.Description, k3);
    var k1 := Cons(Key.Title, k2);
    assert Fill(k5, e) == Member(Key.Priority, OptStr(r.card.priority), Fill(ks, e));
    assert Fill(k4, e) == Member(Key.Status, OptStr(r.card.status), Fill(k5, e));
    assert Fill(k3, e) == Member(Key.Date, Day(r.card.date), Fill(k4, e));
    assert Fill(k2, e) == Member(Key.Description, OptStr(r.card.description), Fill(k3, e));
    assert Fill(k1, e) == Member(Key.Title, OptStr(r.card.title), Fill(k2, e));
  }

  /** The dump of a card by the full card schema, alone or as nested in a comment. */
  lemma CardDumpShape(r: CardRow, owner: Json, s: Schema)
    requires Selected(s) == CardFields
    ensures Dump(s, CardObject(r, owner)) == Obj(CardMembers(r, Member(Key.User, owner, Empty)))
    ensures Keys(Dump(s, CardObject(r, owner)).members) == CardFields
  {
    FillCard(r, owner, Cons(Key.User, Nil));
    FillKeys(CardFields, CardObject(r, owner));
  }

  /** The dump of a card nested in a user. */
  lemma CardInUserShape(r: CardRow, owner: Json)
    ensures Dump(CardInUserSchema, CardObject(r, owner)) == Obj(CardMembers(r, Empty))
    ensures !Has(Keys(Dump(CardInUserSchema, CardObject(r, owner)).members), Key.User)
  {
    var ks := Cons(Key.Id, Cons(Key.Title, Cons(Key.Description, Cons(Key.Date, Cons(Key.Status, Cons(Key.Priority, Nil))))));
    assert Selected(CardInUserSchema) == ks;
    FillCard(r, owner, Nil);
    FillKeys(ks, CardObject(r, owner));
  }

  /**
   * `card_schema.dump(card)`: exactly id, title, description, date, status,
   * priority and user, in that order; the user shows name and email only,
   * and `user_id` is not emitted.
   */
  function DumpCard(r: CardRow): (j: Json)
    ensures j == CardView(r)
    ensures Keys(j.members) == CardFields
  {
    var owner := Summary(r.card.userId, r.owner);
    assert Selected(CardDumpSchema) == CardFields;
    CardDumpShape(r, owner, CardDumpSchema);
    Dump(CardDumpSchema, CardObject(r, owner))
  }

  /** A card as nested in a user's `cards` list: the same fields without `user`. */
  function DumpCardInUser(r: CardRow): (j: Json)
    ensures j == Obj(CardMembers(r, Empty))
    ensures !Has(Keys(j.members), Key.User)
  {
    var owner := Summary(r.card.userId, r.owner);
    CardInUserShape(r, owner);
    Dump(CardInUserSchema, CardObject(r, owner))
  }

  /** The dump of a card nested in a comment: `comments` is not among its fields to begin with. */
  lemma CardInCommentShape(r: CardRow, owner: Json)
    ensures Dump(CardInCommentSchema, CardObject(r, owner)) == Obj(CardMembers(r, Member(Key.User, owner, Empty)))
    ensures !Has(Keys(Dump(CardInCommentSchema, CardObject(r, owner)).members), Key.Comments)
  {
    assert Selected(CardInCommentSchema) == CardFields;
    CardDumpShape(r, owner, CardInCommentSchema);
    FilterKeeps(CardInCommentSchema, CardFields, Key.Comments);
  }

  /**
   * As written, the card schema nested in a comment excludes a field
   * CardSchema does not declare, so marshmallow 3 refuses to build it.
   */
  lemma CardInCommentSchemaRejected()
    ensures !OptionsDeclared(CardInCommentSchema)
  {
    assert Key.Comments in CardInCommentSchema.exclude;
    FilterKeeps(Schema(CardFields, None, {}), CardFields, Key.Comments);
  }

  /** The user schemas name only declared fields. */
  lemma UserSchemasDeclared()
    ensures OptionsDeclared(UserDumpSchema) && OptionsDeclared(UserSummarySchema)
  {
  }

  /** So do the other card schemas, */
  lemma CardSchemasDeclared()
    ensures OptionsDeclared(CardDumpSchema) && OptionsDeclared(CardInUserSchema)
  {
  }

  /** and the comment schemas. */
  lemma CommentSchemasDeclared()
    ensures OptionsDeclared(CommentDumpSchema) && OptionsDeclared(CommentInUserSchema)
  {
  }

  /** A card as nested in a comment: excluding `comments` leaves the full card dump. */
  function DumpCardInComment(r: CardRow): (j: Json)
    ensures j == CardView(r)
    ensures !Has(Keys(j.members), Key.Comments)
  {
    var owner := Summary(r.card.userId, r.owner);
    CardInCommentShape(r, owner);
    Dump(CardInCommentSchema, CardObject(r, owner))
  }

  /** The dump of a comment by the full comment schema. */
  lemma CommentDumpShape(r: CommentRow, card: Json, user: Json)
    ensures Dump(CommentDumpSchema, CommentObject(r, card, user))
            == Obj(Member(Key.Id, Int(r.id), Member(Key.Message, OptStr(r.comment.message),
                   Member(Key.Card, card, Member(Key.User, user, Empty)))))
    ensures Keys(Dump(CommentDumpSchema, CommentObject(r, card, user)).members) == CommentFields
  {
    var e := CommentObject(r, card, user);
    assert Selected(CommentDumpSchema) == CommentFields;
    assert Fill(Cons(Key.User, Nil), e) == Member(Key.User, user, Empty);
    assert Fill(Cons(Key.Card, Cons(Key.User, Nil)), e) == Member(Key.Card, card, Member(Key.User, user, Empty));
    FillKeys(CommentFields, e);
  }

  /** The dump of a comment nested in a user. */
  lemma CommentInUserShape(r: CommentRow, card: Json, user: Json)
    ensures Dump(CommentInUserSchema, CommentObject(r, card, user))
            == Obj(Member(Key.Id, Int(r.id), Member(Key.Message, OptStr(r.comment.message), Member(Key.Card, card, Empty))))
    ensures !Has(Keys(Dump(CommentInUserSchema, CommentObject(r, card, user)).members), Key.User)
  {
    var e := CommentObject(r, card, user);
    var ks := Cons(Key.Id, Cons(Key.Message, Cons(Key.Card, Nil)));
    assert Selected(CommentInUserSchema) == ks;
    assert Fill(Cons(Key.Card, Nil), e) == Member(Key.Card, card, Empty);
    FillKeys(ks, e);
  }

  /** A comment with its full card and its author as name and email: the shape of every full comment dump. */
  function CommentView(r: CommentRow): Json
  {
    Obj(Member(Key.Id, Int(r.id), Member(Key.Message, OptStr(r.comment.message),
        Member(Key.Card, CardView(r.card), Member(Key.User, Summary(r.comment.userId, r.author), Empty)))))
  }

  /**
   * `comment_schema.dump(comment)`: exactly id, message, card and user; the
   * card is the full card dump (it has no comments to omit) and the user
   * shows name and email only.
   */
  function DumpComment(r: CommentRow): (j: Json)
    ensures j == CommentView(r)
    ensures Keys(j.members) == CommentFields
  {
    var card := DumpCardInComment(r.card);
    var user := Summary(r.comment.userId, r.author);
    CommentDumpShape(r, card, user);
    Dump(CommentDumpSchema, CommentObject(r, card, user))
  }

  /** A comment as nested in a user's `comments` list: id, message and card, without `user`. */
  function DumpCommentInUser(r: CommentRow): (j: Json)
    ensures j == Obj(Member(Key.Id, Int(r.id), Member(Key.Message, OptStr(r.comment.message),
                     Member(Key.Card, CardView(r.card), Empty))))
    ensures !Has(Keys(j.members), Key.User)
  {
    var card := DumpCardInComment(r.card);
    var user := Summary(r.comment.userId, r.author);
    CommentInUserShape(r, card, user);
    Dump(CommentInUserSchema, CommentObject(r, card, user))
  }

  /** The dump of a user by `user_schema`, given its nested card and comment dumps. */
  lemma UserDumpShape(id: int, u: User, cs: seq<Json>, ms: seq<Json>)
    ensures Dump(UserDumpSchema, UserObject(id, u, cs, ms))
            == Obj(Member(Key.Id, Int(id), Member(Key.Name, OptStr(u.name), Member(Key.Email, Str(u.email),
                   Member(Key.IsAdmin, Bool(u.isAdmin), Member(Key.Cards, Arr(cs), Member(Key.Comments, Arr(ms), Empty)))))))
    ensures !Has(Keys(Dump(UserDumpSchema, UserObject(id, u, cs, ms)).members), Key.Password)
  {
    var e := UserObject(id, u, cs, ms);
    assert Selected(UserDumpSchema) == Cons(Key.Id, Cons(Key.Name, Cons(Key.Email, Cons(Key.IsAdmin, Cons(Key.Cards, Cons(Key.Comments, Nil))))));
    var k5 := Cons(Key.Comments, Nil);
    var k4 := Cons(Key.Cards, k5);
    var k3 := Cons(Key.IsAdmin, k4);
    var k2 := Cons(Key.Email, k3);
    assert Fill(k5, e) == Member(Key.Comments, Arr(ms), Empty);
    assert Fill(k4, e) == Member(Key.Cards, Arr(cs), Fill(k5, e));
    assert Fill(k3, e) == Member(Key.IsAdmin, Bool(u.isAdmin), Fill(k4, e));
    assert Fill(k2, e) == Member(Key.Email, Str(u.email), Fill(k3, e));
    FillKeys(Selected(UserDumpSchema), e);
    FilterKeeps(UserDumpSchema, UserFields, Key.Password);
  }

  /**
   * `user_schema.dump(user)`, given the user's loaded cards and comments:
   * id, name, email, is_admin, cards and comments, never the password; the
   * nested cards and comments omit their `user`.
   */
  function DumpUser(id: int, u: User, cards: seq<CardRow>, comments: seq<CommentRow>): (j: Json)
    ensures j == Obj(Member(Key.Id, Int(id), Member(Key.Name, OptStr(u.name), Member(Key.Email, Str(u.email),
                     Member(Key.IsAdmin, Bool(u.isAdmin),
                     Member(Key.Cards, Arr(seq(|cards|, i requires 0 <= i < |cards| => DumpCardInUser(cards[i]))),
                     Member(Key.Comments, Arr(seq(|comments|, i requires 0 <= i < |comments| => DumpCommentInUser(comments[i]))),
                     Empty)))))))
    ensures !Has(Keys(j.members), Key.Password)
  {
    var cs := seq(|cards|, i requires 0 <= i < |cards| => DumpCardInUser(cards[i]));
    var ms := seq(|comments|, i requires 0 <= i < |comments| => DumpCommentInUser(comments[i]));
    UserDumpShape(id, u, cs, ms);
    Dump(UserDumpSchema, UserObject(id, u, cs, ms))
  }
}
