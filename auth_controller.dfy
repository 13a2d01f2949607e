/** The `auth` blueprint: registration. */
module AuthController {
  import opened Wrappers
  import opened Models
  import opened Db
  import opened Http

  /**
   * The `except IntegrityError` clause of the register view. A unique or a
   * not-null violation becomes a 409; any other error leaves the view either
   * falling through the clause (returning None) or not caught at all, and
   * Flask answers 500 either way.
   */
  function RegisterFailure(e: DbError): Response
  {
    match e
    case UniqueViolation(_) => Response(Conflict, ErrorBody("Email address already in use"))
    case NotNullViolation(column) => Response(Conflict, ErrorBody("The " + column + " is required"))
    case _ => Crash
  }

  /**
   * POST /auth/register. The password is hashed only when it is truthy, so a
   * missing or empty one stays NULL and the insert fails on that column.
   * `is_admin` is never read from the body.
   */
  method Register(db: Database, body: RegisterBody, hash: string -> string) returns (r: Response)
    requires db.Valid()
    modifies db
    ensures db.Valid()
    ensures r.status == Created || r.status == Conflict
    ensures body.email.None? ==> r == Response(Conflict, ErrorBody("The email is required"))
    ensures body.email.Some? && !Truthy(body.password) ==> r == Response(Conflict, ErrorBody("The password is required"))
    ensures body.email.Some? && Truthy(body.password) && old(db.EmailTaken(body.email.value)) ==>
              r == Response(Conflict, ErrorBody("Email address already in use"))
    ensures r.status == Created <==> body.email.Some? && Truthy(body.password) && !old(db.EmailTaken(body.email.value))
    ensures r.status == Conflict ==> db.users == old(db.users)
    ensures r.status == Created ==>
              var id := old(db.nextUserId);
              var u := User(body.name, body.email.value, hash(body.password.value), IsAdminDefault);
              && id !in old(db.users)
              && db.users == old(db.users)[id := u]
              && !db.users[id].isAdmin
              && r.body == DumpUser(id, u, [], [])
    ensures db.cards == old(db.cards) && db.comments == old(db.comments)
    ensures db.nextUserId == old(db.nextUserId) + (if r.status == Created then 1 else 0)
    ensures db.nextCardId == old(db.nextCardId) && db.nextCommentId == old(db.nextCommentId)
  {
    var password: Option<string> := None;
    if Truthy(body.password) {
      password := Some(hash(body.password.value));
    }
    var o := db.InsertUser(body.name, body.email, password);
    match o
    case Committed(id) =>
      r := Response(Created, DumpUser(id, db.users[id], [], []));
    case RolledBack(e) =>
      assert "The " + "email" + " is required" == "The email is required";
      assert "The " + "password" + " is required" == "The password is required";
      r := RegisterFailure(e);
  }
}
