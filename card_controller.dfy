/** The `cards` blueprint: list, read, create, delete and update cards. */
module CardController {
  import opened Wrappers
  import Marshal
  import opened Models
  import opened Db
  import opened Http

  // ------------------------------------------------------------ listing

  /** Every id of `ids` names a card, and their dates never increase. */
  predicate NewestFirst(cards: map<int, Card>, ids: seq<int>)
  {
    && (forall i :: 0 <= i < |ids| ==> ids[i] in cards)
    && (forall i, j :: 0 <= i < j < |ids| ==> cards[ids[i]].date >= cards[ids[j]].date)
  }

  /** The card ids in [1, n), ascending: the rows a scan of the table meets. */
  function IdsBelow(cards: map<int, Card>, n: int): (ids: seq<int>)
    ensures forall id :: multiset(ids)[id] == (if id in cards && 1 <= id < n then 1 else 0)
    decreases n
  {
    if n <= 1 then [] else IdsBelow(cards, n - 1) + (if n - 1 in cards then [n - 1] else [])
  }

  /** Places card `k` into the date-ordered `ids`, after the cards at least as new. */
  function InsertByDate(cards: map<int, Card>, k: int, ids: seq<int>): (r: seq<int>)
    requires k in cards && forall i :: 0 <= i < |ids| ==> ids[i] in cards
    ensures multiset(r) == multiset(ids) + multiset{k}
    ensures forall x :: x in r ==> x == k || x in ids
  {
    if ids == [] then [k]
    else if cards[k].date > cards[ids[0]].date then [k] + ids
    else
      assert ids == [ids[0]] + ids[1..];
      [ids[0]] + InsertByDate(cards, k, ids[1..])
  }

  /** Every id of `ids` names a card dated `d` or earlier. */
  predicate AtMost(cards: map<int, Card>, ids: seq<int>, d: int)
  {
    forall i :: 0 <= i < |ids| ==> ids[i] in cards && cards[ids[i]].date <= d
  }

  /** The first card of a date-ordered list is the newest; the rest is date-ordered too. */
  lemma HeadNewest(cards: map<int, Card>, ids: seq<int>)
    requires NewestFirst(cards, ids) && ids != []
    ensures AtMost(cards, ids, cards[ids[0]].date)
    ensures NewestFirst(cards, ids[1..])
  {
  }

  /** A card at least as new as every card of an ordered list may go in front of it. */
  lemma ConsOrdered(cards: map<int, Card>, h: int, ids: seq<int>)
    requires h in cards && NewestFirst(cards, ids) && AtMost(cards, ids, cards[h].date)
    ensures NewestFirst(cards, [h] + ids)
  {
  }

  /** Inserting a card no newer than `d` into a list of such cards gives such a list. */
  lemma {:induction false} InsertAtMost(cards: map<int, Card>, k: int, ids: seq<int>, d: int)
    requires k in cards && cards[k].date <= d && AtMost(cards, ids, d)
    ensures AtMost(cards, InsertByDate(cards, k, ids), d)
  {
    if ids != [] && cards[k].date <= cards[ids[0]].date {
      InsertAtMost(cards, k, ids[1..], d);
      var rest := InsertByDate(cards, k, ids[1..]);
      assert InsertByDate(cards, k, ids) == [ids[0]] + rest;
      forall i | 0 <= i < |[ids[0]] + rest|
        ensures cards[([ids[0]] + rest)[i]].date <= d
      {
        if i > 0 {
          assert ([ids[0]] + rest)[i] == rest[i - 1];
        }
      }
    }
  }

  /** Inserting into a date-ordered list keeps it date-ordered. */
  lemma {:induction false} InsertByDateOrdered(cards: map<int, Card>, k: int, ids: seq<int>)
    requires k in cards && NewestFirst(cards, ids)
    ensures NewestFirst(cards, InsertByDate(cards, k, ids))
  {
    if ids == [] {
      assert InsertByDate(cards, k, ids) == [k];
    } else {
      HeadNewest(cards, ids);
      if cards[k].date > cards[ids[0]].date {
        ConsOrdered(cards, k, ids);
      } else {
        InsertByDateOrdered(cards, k, ids[1..]);
        InsertAtMost(cards, k, ids[1..], cards[ids[0]].date);
        ConsOrdered(cards, ids[0], InsertByDate(cards, k, ids[1..]));
      }
    }
  }

  /** `ORDER BY date DESC` over `ids`. */
  function SortByDate(cards: map<int, Card>, ids: seq<int>): (r: seq<int>)
    requires forall i :: 0 <= i < |ids| ==> ids[i] in cards
    ensures multiset(r) == multiset(ids)
    ensures NewestFirst(cards, r)
  {
    if ids == [] then []
    else
      assert ids == [ids[0]] + ids[1..];
      var rest := SortByDate(cards, ids[1..]);
      InsertByDateOrdered(cards, ids[0], rest);
      InsertByDate(cards, ids[0], rest)
  }

  /**
   * The ids `select(Card).order_by(Card.date.desc())` yields: each stored
   * card exactly once, newest first. (Cards of equal date come out in some
   * order; the query fixes none and neither does this contract.)
   */
  function CardsByDate(db: Database): (rows: seq<int>)
    reads db
    requires db.Valid()
    ensures NewestFirst(db.cards, rows)
    ensures forall id :: multiset(rows)[id] == (if id in db.cards then 1 else 0)
  {
    var ids := IdsBelow(db.cards, db.nextCardId);
    assert forall i :: 0 <= i < |ids| ==> ids[i] in db.cards by {
      forall i | 0 <= i < |ids|
        ensures ids[i] in db.cards
      {
        assert ids[i] in multiset(ids);
      }
    }
    SortByDate(db.cards, ids)
  }

  /** `cards_schema.dump` of the cards `rows` names, in order. */
  function DumpCards(db: Database, rows: seq<int>): (items: seq<Marshal.Json>)
    reads db
    requires db.Valid() && forall i :: 0 <= i < |rows| ==> rows[i] in db.cards
    ensures |items| == |rows|
    ensures forall i :: 0 <= i < |rows| ==> items[i] == CardView(db.CardRowOf(rows[i]))
  {
    if rows == [] then [] else [DumpCard(db.CardRowOf(rows[0]))] + DumpCards(db, rows[1..])
  }

  /** GET /cards/: every card, newest first, each dumped with its user's name and email. */
  function GetAllCards(db: Database): (r: Response)
    reads db
    requires db.Valid()
    ensures r.status == Ok && r.body.Arr?
    ensures |r.body.items| == |CardsByDate(db)|
    ensures forall i :: 0 <= i < |r.body.items| ==> r.body.items[i] == CardView(db.CardRowOf(CardsByDate(db)[i]))
  {
    Response(Ok, Marshal.Arr(DumpCards(db, CardsByDate(db))))
  }

  // ------------------------------------------------------- one card

  /** GET /cards/<id>: the card with that id, or 404. A query: the database is only read. */
  function GetOneCard(db: Database, id: nat): (r: Response)
    reads db
    requires db.Valid()
    ensures r.status == Ok <==> id in db.cards
    ensures id in db.cards ==> r.body == CardView(db.CardRowOf(id)) && Marshal.Keys(r.body.members) == CardFields
    ensures id !in db.cards ==> r == Response(NotFound, ErrorBody("Card not found with id " + NatToString(id)))
  {
    if id in db.cards then Response(Ok, DumpCard(db.CardRowOf(id)))
    else Response(NotFound, ErrorBody("Card not found with id " + NatToString(id)))
  }

  /**
   * POST /cards/. The four text fields come from the body; `date` is today
   * and `user_id` the caller, whatever the body says. A title the column
   * refuses or a caller who is no longer a user makes the commit raise; an
   * accepted title is stored as the column holds it.
   */
  method CreateCard(db: Database, actor: int, body: CardBody, today: int) returns (r: Response)
    requires db.Valid()
    modifies db
    ensures db.Valid()
    ensures r.status == Created <==> TitleAccepted(body.title) && actor in old(db.users)
    ensures r.status != Created ==> r == Crash && db.cards == old(db.cards)
    ensures r.status == Created ==>
              var id := old(db.nextCardId);
              && id !in old(db.cards)
              && db.cards == old(db.cards)[id := Stored(Card(body.title, body.description, today, body.status, body.priority, actor))]
              && db.cards[id].date == today && db.cards[id].userId == actor
              && r.body == CardView(db.CardRowOf(id))
    ensures db.users == old(db.users) && db.comments == old(db.comments)
    ensures db.nextCardId == old(db.nextCardId) + (if r.status == Created then 1 else 0)
    ensures db.nextUserId == old(db.nextUserId) && db.nextCommentId == old(db.nextCommentId)
  {
    var card := Card(body.title, body.description, today, body.status, body.priority, actor);
    var o := db.InsertCard(card);
    if o.Committed? {
      r := Response(Created, DumpCard(db.CardRowOf(o.id)));
    } else {
      r := Crash;
    }
  }

  /**
   * DELETE /cards/<id>, for any authenticated caller. No comment cascades
   * with the card, so a card that has comments cannot be deleted.
   */
  method DeleteOneCard(db: Database, id: nat) returns (r: Response)
    requires db.Valid()
    modifies db
    ensures db.Valid()
    ensures id !in old(db.cards) ==>
              r == Response(NotFound, ErrorBody("Card not found with id " + NatToString(id) + "."))
    ensures id in old(db.cards) && !old(db.CardReferenced(id)) ==>
              r == Response(Ok, MessageBody("Card " + PyStr(old(db.cards[id].title)) + " was deleted successfully"))
              && db.cards == old(db.cards) - {id}
    ensures id in old(db.cards) && old(db.CardReferenced(id)) ==> r == Crash
    ensures r.status != Ok ==> db.cards == old(db.cards)
    ensures db.users == old(db.users) && db.comments == old(db.comments)
    ensures db.nextUserId == old(db.nextUserId) && db.nextCardId == old(db.nextCardId) && db.nextCommentId == old(db.nextCommentId)
  {
    if id in db.cards {
      var title := db.cards[id].title;
      var o := db.DeleteCard(id);
      if o.Committed? {
        r := Response(Ok, MessageBody("Card " + PyStr(title) + " was deleted successfully"));
      } else {
        r := Crash;
      }
    } else {
      r := Response(NotFound, ErrorBody("Card not found with id " + NatToString(id) + "."));
    }
  }

  // ------------------------------------------------------------ update

  /**
   * `card.<field> = body.get('<field>') or card.<field>` for the four text
   * fields: each takes the supplied value when it is truthy and keeps its own
   * otherwise; id, date and owner are not touched.
   */
  function MergeCard(c: Card, b: CardBody): (r: Card)
    ensures r.date == c.date && r.userId == c.userId
    ensures Truthy(b.title) ==> r.title == b.title
    ensures !Truthy(b.title) ==> r.title == c.title
    ensures Truthy(b.description) ==> r.description == b.description
    ensures !Truthy(b.description) ==> r.description == c.description
    ensures Truthy(b.status) ==> r.status == b.status
    ensures !Truthy(b.status) ==> r.status == c.status
    ensures Truthy(b.priority) ==> r.priority == b.priority
    ensures !Truthy(b.priority) ==> r.priority == c.priority
  {
    Card(Or(b.title, c.title), Or(b.description, c.description), c.date,
         Or(b.status, c.status), Or(b.priority, c.priority), c.userId)
  }

  /** Sending the same update twice changes no more than sending it once. */
  lemma MergeIdempotent(c: Card, b: CardBody)
    ensures MergeCard(MergeCard(c, b), b) == MergeCard(c, b)
  {
  }

  /** A body with none of the four fields, or only empty ones, leaves the card as it is. */
  lemma MergeFalsy(c: Card, b: CardBody)
    requires !Truthy(b.title) && !Truthy(b.description) && !Truthy(b.status) && !Truthy(b.priority)
    ensures MergeCard(c, b) == c
  {
  }

  /**
   * PUT or PATCH /cards/<id>, for any authenticated caller: the merged card
   * replaces the old one, its title coerced to the column, unless the
   * column refuses the title, which only a supplied one can make it do.
   */
  method UpdateOneCard(db: Database, id: nat, body: CardBody) returns (r: Response)
    requires db.Valid()
    modifies db
    ensures db.Valid()
    ensures id !in old(db.cards) ==> r == Response(NotFound, ErrorBody("Card not found with " + NatToString(id)))
    ensures r == Crash <==> id in old(db.cards) && !TitleAccepted(body.title)
    ensures r.status == Ok <==> id in old(db.cards) && TitleAccepted(body.title)
    ensures r.status == Ok ==>
              && db.cards == old(db.cards)[id := Stored(MergeCard(old(db.cards[id]), body))]
              && r.body == CardView(db.CardRowOf(id))
    ensures r.status != Ok ==> db.cards == old(db.cards)
    ensures db.users == old(db.users) && db.comments == old(db.comments)
    ensures db.nextUserId == old(db.nextUserId) && db.nextCardId == old(db.nextCardId) && db.nextCommentId == old(db.nextCommentId)
  {
    if id in db.cards {
      var merged := MergeCard(db.cards[id], body);
      if !Truthy(body.title) {
        FitsAccepted(db.cards[id].title);
      }
      var o := db.UpdateCard(id, merged);
      if o.Committed? {
        r := Response(Ok, DumpCard(db.CardRowOf(id)));
      } else {
        r := Crash;
      }
    } else {
      r := Response(NotFound, ErrorBody("Card not found with " + NatToString(id)));
    }
  }
}
