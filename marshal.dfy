/**
 * The part of marshmallow the models rely on: a schema lists the fields it
 * emits (`Meta.fields`), narrowed by the `only` and `exclude` options, and
 * `dump` copies each emitted field's value from the object's attributes, in
 * the declared order (the attributes themselves are in module Models, which
 * knows the objects). JSON encoding itself is not modelled.
 *
 * An object's members and a list of field names are cons lists rather than
 * sequences: unfolding a dump of a literal schema one constructor at a time
 * keeps the proofs about the schemas cheap for the verifier.
 */
module Marshal {
  import opened Wrappers

  /**
   * The member names that occur in this system's dumps and replies; each
   * stands for the JSON key spelled as in the comment beside it.
   */
  datatype Key =
    | Id          // "id"
    | Name        // "name"
    | Email       // "email"
    | Password    // "password"
    | IsAdmin     // "is_admin"
    | Cards       // "cards"
    | Comments    // "comments"
    | Title       // "title"
    | Description // "description"
    | Date        // "date"
    | Status      // "status"
    | Priority    // "priority"
    | User        // "user"
    | UserId      // "user_id"
    | CardId      // "card_id"
    | Message     // "message"
    | Card        // "card"
    | Error       // "error"

  /** A dumped value. `Day` stands for a date, whose ISO formatting is not modelled. */
  datatype Json =
    | Null
    | Bool(b: bool)
    | Int(i: int)
    | Str(s: string)
    | Day(day: int)
    | Arr(items: seq<Json>)
    | Obj(members: Members)

  /** The members of a dumped object, in order. */
  datatype Members = Empty | Member(key: Key, value: Json, rest: Members)

  /** A list of field names, in order (`Meta.fields`, and the keys of an object). */
  datatype FieldList = Nil | Cons(head: Key, tail: FieldList)

  function Keys(ms: Members): FieldList
  {
    match ms
    case Empty => Nil
    case Member(k, _, rest) => Cons(k, Keys(rest))
  }

  predicate Has(fs: FieldList, k: Key)
  {
    fs.Cons? && (fs.head == k || Has(fs.tail, k))
  }

  /** A schema: its declared fields and its `only` / `exclude` options. */
  datatype Schema = Schema(fields: FieldList, only: Option<set<Key>>, exclude: set<Key>)

  /** Whether the options let field `f` through. */
  predicate Emits(s: Schema, f: Key)
  {
    (s.only.None? || f in s.only.value) && f !in s.exclude
  }

  /** The fields of `fs` that the options of `s` let through, in order. */
  function Filter(s: Schema, fs: FieldList): FieldList
  {
    match fs
    case Nil => Nil
    case Cons(k, t) => if Emits(s, k) then Cons(k, Filter(s, t)) else Filter(s, t)
  }

  /**
   * marshmallow 3 builds a schema only when every name its `only` and
   * `exclude` options list is one of its fields; otherwise it raises
   * ValueError ("Invalid fields").
   */
  predicate OptionsDeclared(s: Schema)
  {
    && (s.only.Some? ==> forall k :: k in s.only.value ==> Has(s.fields, k))
    && (forall k :: k in s.exclude ==> Has(s.fields, k))
  }

  /** The keys a dump by `s` emits, in order. */
  function Selected(s: Schema): FieldList
  {
    Filter(s, s.fields)
  }

  /** A field is emitted exactly when it is declared and the options let it through. */
  lemma {:induction false} FilterKeeps(s: Schema, fs: FieldList, f: Key)
    ensures Has(Filter(s, fs), f) <==> Has(fs, f) && Emits(s, f)
  {
    match fs
    case Nil =>
    case Cons(k, t) =>
      FilterKeeps(s, t, f);
  }
}
