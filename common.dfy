/**
 * Values shared by the controllers: optional values, request outcomes, the
 * error shapes a handler can end with, and the two documents that are only
 * read here (a gig of the gig catalogue and a user of the credential store).
 */
module Common {

  /** A string identifier: a storage id (`_id`), a user id or a composite id. */
  type Id = string

  datatype Option<+T> = None | Some(value: T)

  /** The database error code of a unique-index violation. */
  const DuplicateKeyCode: int := 11000

  /**
   * An error raised by the document database. `keyValue` lists the
   * offending field/value pairs of a unique-index violation, in the order
   * the driver reports them.
   */
  datatype DbError = DbError(code: int, keyValue: seq<(string, string)>)

  /** How a request ends when it does not succeed. */
  datatype Failure =
    | Http(status: int, message: string)   // next(createError(status, message))
    | Reply(status: int, message: string)  // res.status(status).send({ message }), without next
    | Db(error: DbError)                   // a database error forwarded unchanged to next(err)
    | Provider(message: string)            // a payment-provider error forwarded unchanged

  /** A request either produces a response body or fails. */
  datatype Result<+T> = Ok(value: T) | Err(error: Failure)

  /** JavaScript truthiness of a string: only the empty string is falsy. */
  predicate Truthy(s: string) { s != "" }

  /** `a || b` on two strings. */
  function OrElse(a: string, b: string): (r: string)
    ensures Truthy(a) ==> r == a
    ensures !Truthy(a) ==> r == b
  {
    if Truthy(a) then a else b
  }

  /** `a || b` where `a` may be undefined. */
  function OptOrElse(a: Option<string>, b: string): (r: string)
    ensures a.Some? && Truthy(a.value) ==> r == a.value
    ensures !(a.Some? && Truthy(a.value)) ==> r == b
  {
    match a
    case Some(s) => OrElse(s, b)
    case None => b
  }

  /** A gig of the gig catalogue: `userId` is the seller who owns it. */
  datatype Gig = Gig(userId: Id, title: string, cover: string, price: int)

  /** A document of the user collection. `password` holds the password hash. */
  datatype User = User(
    sid: Id,
    username: string,
    email: string,
    password: string,
    isSeller: bool,
    country: string,
    phone: Option<string>)
}
