/**
 * What a view receives and returns: request bodies as records of optional
 * fields (a key the JSON body lacks reads as None through `dict.get`), the
 * reply as a status and a JSON body, and the bits of Python semantics the
 * views lean on (truthiness, `or`, `str()` inside an f-string).
 */
module Http {
  import opened Wrappers
  import opened Marshal

  const Ok := 200
  const Created := 201
  const NotFound := 404
  const Conflict := 409
  const ServerError := 500

  /** A view's reply. A view that returns a bare dict or list replies with 200. */
  datatype Response = Response(status: int, body: Json)

  /** `{'error': msg}` */
  function ErrorBody(msg: string): Json
  {
    Obj(Member(Key.Error, Str(msg), Empty))
  }

  /** `{'message': msg}` */
  function MessageBody(msg: string): Json
  {
    Obj(Member(Key.Message, Str(msg), Empty))
  }

  /**
   * What Flask sends when the view raises (an uncaught database error) or
   * returns None: status 500 and its HTML error page, which carries no JSON.
   */
  const Crash := Response(ServerError, Null)

  /** Python truthiness of an optional string: None and "" are falsy. */
  predicate Truthy(v: Option<string>)
  {
    v.Some? && v.value != ""
  }

  /** Python's `supplied or current`. */
  function Or(supplied: Option<string>, current: Option<string>): Option<string>
  {
    if Truthy(supplied) then supplied else current
  }

  /** `str(v)` for a nullable text value: None prints as "None". */
  function PyStr(v: Option<string>): string
  {
    if v.Some? then v.value else "None"
  }

  function DigitChar(d: int): char
    requires 0 <= d < 10
  {
    "0123456789"[d]
  }

  /** The decimal spelling of a route's `<int:...>` value. */
  function NatToString(n: nat): string
  {
    if n < 10 then [DigitChar(n)] else NatToString(n / 10) + [DigitChar(n % 10)]
  }

  /** The JSON body of POST /auth/register. `is_admin`, if present, is never read. */
  datatype RegisterBody = RegisterBody(
    name: Option<string>,
    email: Option<string>,
    password: Option<string>,
    isAdmin: Option<bool>)

  /** The JSON body of POST and PUT/PATCH on /cards; `date` and `user_id`, if present, are never read. */
  datatype CardBody = CardBody(
    title: Option<string>,
    description: Option<string>,
    status: Option<string>,
    priority: Option<string>,
    date: Option<int>,
    userId: Option<int>)

  /** The JSON body of POST and PUT/PATCH on comments; `user_id` and `card_id`, if present, are never read. */
  datatype CommentBody = CommentBody(
    message: Option<string>,
    userId: Option<int>,
    cardId: Option<int>)
}
