/**
 * The auth service (controllers/authcontroller.js): registration with the
 * username check and duplicate-key reporting, login, and the current-user
 * lookup. Password hashing, hash comparison and token signing are the
 * function parameters `hash`, `compare` and `sign`.
 */
module Auth {
  import opened Common
  import opened Seqs
  import opened Usernames

  /** The fields a registration request carries. */
  datatype RegisterBody = RegisterBody(
    username: string,
    email: string,
    password: string,
    isSeller: bool,
    country: string,
    phone: Option<string>)

  /** A user document with its `password` field removed. */
  datatype PublicUser = PublicUser(
    sid: Id,
    username: string,
    email: string,
    isSeller: bool,
    country: string,
    phone: Option<string>)

  /** What a signed token carries. */
  datatype TokenPayload = TokenPayload(id: Id, isSeller: bool)

  /** The body `register` and `login` answer with: the public fields and the token. */
  datatype Session = Session(info: PublicUser, token: string)

  const EmailUsernameMessage: string :=
    "Username cannot be an email address. Please use a different username."

  /** `const { password, ...info } = user._doc`. */
  function WithoutPassword(u: User): (p: PublicUser)
    ensures p.sid == u.sid && p.username == u.username && p.email == u.email
    ensures p.isSeller == u.isSeller && p.country == u.country && p.phone == u.phone
  {
    PublicUser(u.sid, u.username, u.email, u.isSeller, u.country, u.phone)
  }

  /** The session handed out for `u`: its public fields and a token signed over its id and role. */
  function SessionFor(u: User, sign: TokenPayload -> string): (s: Session)
    ensures s.info == WithoutPassword(u)
    ensures s.token == sign(TokenPayload(u.sid, u.isSeller))
  {
    Session(WithoutPassword(u), sign(TokenPayload(u.sid, u.isSeller)))
  }

  /** The username check: 400 exactly for usernames the email regular expression matches. */
  function CheckUsername(username: string): (r: Option<Failure>)
    ensures r.Some? <==> MatchesEmailRegex(username)
    ensures r.Some? ==> r.value == Http(400, EmailUsernameMessage)
  {
    EmailShapeIsRegex(username);
    if IsEmailShaped(username) then Some(Http(400, EmailUsernameMessage)) else None
  }

  /** `s` starts with `p`. */
  predicate IsPrefix(p: string, s: string) { |p| <= |s| && s[..|p|] == p }

  /**
   * How `register` reports a failed save: a duplicate-key error becomes a
   * 400 that quotes the offending value, worded by whether the field is the
   * username, the email or another field; any other error goes on unchanged.
   * An error without key/value pairs reads the field and value as `undefined`.
   */
  function ClassifySaveError(err: DbError): (r: Failure)
    ensures err.code != DuplicateKeyCode ==> r == Db(err)
    ensures err.code == DuplicateKeyCode ==> r.Http? && r.status == 400
    ensures err.code == DuplicateKeyCode && |err.keyValue| > 0 ==>
              var (field, value) := err.keyValue[0];
              IsPrefix((if field == "username" then "Username"
                        else if field == "email" then "Email"
                        else field) + " \"" + value + "\"", r.message)
  {
    if err.code == DuplicateKeyCode then
      var field := if |err.keyValue| > 0 then err.keyValue[0].0 else "undefined";
      var value := if |err.keyValue| > 0 then err.keyValue[0].1 else "undefined";
      var head := if field == "username" then "Username" else if field == "email" then "Email" else field;
      var quoted := head + " \"" + value + "\"";
      var rest := if field == "username" then " is already taken. Please choose a different username."
                  else if field == "email" then " is already registered. Please use a different email or try logging in."
                  else " already exists.";
      assert (quoted + rest)[..|quoted|] == quoted;
      Http(400, quoted + rest)
    else Db(err)
  }

  /** A duplicated username and a duplicated email are never reported with the same message. */
  lemma DuplicateMessagesDiffer(u: string, e: string)
    ensures ClassifySaveError(DbError(DuplicateKeyCode, [("username", u)])) !=
            ClassifySaveError(DbError(DuplicateKeyCode, [("email", e)]))
  {
    var mu := ClassifySaveError(DbError(DuplicateKeyCode, [("username", u)])).message;
    var me := ClassifySaveError(DbError(DuplicateKeyCode, [("email", e)])).message;
    assert mu[0] == 'U' && me[0] == 'E';
  }

  predicate HasUsername(u: User, name: string) { u.username == name }
  predicate HasEmail(u: User, email: string) { u.email == email }
  predicate HasSid(u: User, sid: Id) { u.sid == sid }

  /** No two users share a storage id, a username or an email (the unique indexes). */
  ghost predicate UniqueUsers(us: seq<User>) {
    forall i, j :: 0 <= i < j < |us| ==>
      us[i].sid != us[j].sid && us[i].username != us[j].username && us[i].email != us[j].email
  }

  /**
   * `login`: 404 when no user has the username, 400 when the password does
   * not match the stored hash, otherwise the session of that user.
   */
  function Login(us: seq<User>, username: string, password: string,
                 compare: (string, string) -> bool, sign: TokenPayload -> string): (r: Result<Session>)
    ensures (forall u :: u in us ==> u.username != username) <==> r == Err(Http(404, "User not found!"))
    ensures r.Ok? ==> exists u :: u in us && u.username == username && compare(password, u.password)
                                  && r.value == SessionFor(u, sign)
    ensures r.Err? && r != Err(Http(404, "User not found!")) ==> r == Err(Http(400, "Wrong password or username!"))
    ensures forall i :: 0 <= i < |us| && us[i].username == username
                        && (forall j :: 0 <= j < i ==> us[j].username != username) ==>
              r == if compare(password, us[i].password) then Ok(SessionFor(us[i], sign))
                   else Err(Http(400, "Wrong password or username!"))
  {
    match FindFirst(us, u => HasUsername(u, username))
    case None => Err(Http(404, "User not found!"))
    case Some(u) =>
      if !compare(password, u.password) then Err(Http(400, "Wrong password or username!"))
      else Ok(SessionFor(u, sign))
  }

  /**
   * With unique usernames, a user whose stored hash accepts the password
   * logs in and gets its own session, and one whose hash refuses it gets
   * the 400.
   */
  lemma LoginByPasswordCheck(us: seq<User>, u: User, password: string,
                             compare: (string, string) -> bool, sign: TokenPayload -> string)
    requires UniqueUsers(us) && u in us
    ensures Login(us, u.username, password, compare, sign) ==
            if compare(password, u.password) then Ok(SessionFor(u, sign))
            else Err(Http(400, "Wrong password or username!"))
  {
    var k :| 0 <= k < |us| && us[k] == u;
    assert forall j :: 0 <= j < k ==> us[j].username != u.username;
  }

  /** `getMe`: the caller's public fields, or 404 when the caller's record is absent. */
  function GetMe(us: seq<User>, userId: Id): (r: Result<PublicUser>)
    ensures r.Err? <==> forall u :: u in us ==> u.sid != userId
    ensures r.Err? ==> r.error == Http(404, "User not found!")
    ensures r.Ok? ==> exists u :: u in us && u.sid == userId && r.value == WithoutPassword(u)
  {
    match FindFirst(us, u => HasSid(u, userId))
    case None => Err(Http(404, "User not found!"))
    case Some(u) => Ok(WithoutPassword(u))
  }

  /** The user document `register` saves: the body with its password replaced by the hash. */
  function NewUser(sid: Id, body: RegisterBody, hash: string -> string): (u: User)
    ensures u.password == hash(body.password)
    ensures u.sid == sid && u.username == body.username && u.email == body.email
    ensures u.isSeller == body.isSeller && u.country == body.country && u.phone == body.phone
  {
    User(sid, body.username, body.email, hash(body.password), body.isSeller, body.country, body.phone)
  }

  /** The user collection, in insertion order. */
  class UserStore {
    var users: seq<User>

    ghost predicate Valid()
      reads this
    {
      UniqueUsers(users)
    }

    constructor ()
      ensures Valid() && users == []
    {
      users := [];
    }

    /**
     * `register`: refuses an email-shaped username before anything else;
     * otherwise saves the user with its password hashed, reporting a taken
     * username (checked first) or email through ClassifySaveError, and
     * answers with the new user's session. `sid` is the storage id the
     * database assigns.
     */
    method Register(body: RegisterBody, sid: Id, hash: string -> string, sign: TokenPayload -> string)
      returns (r: Result<Session>)
      requires Valid()
      requires forall u :: u in users ==> u.sid != sid
      modifies this
      ensures Valid()
      ensures MatchesEmailRegex(body.username) ==>
                r == Err(Http(400, EmailUsernameMessage)) && users == old(users)
      ensures !MatchesEmailRegex(body.username) && (exists u :: u in old(users) && u.username == body.username) ==>
                r == Err(ClassifySaveError(DbError(DuplicateKeyCode, [("username", body.username)])))
                && users == old(users)
      ensures !MatchesEmailRegex(body.username) && (forall u :: u in old(users) ==> u.username != body.username)
              && (exists u :: u in old(users) && u.email == body.email) ==>
                r == Err(ClassifySaveError(DbError(DuplicateKeyCode, [("email", body.email)])))
                && users == old(users)
      ensures !MatchesEmailRegex(body.username)
              && (forall u :: u in old(users) ==> u.username != body.username && u.email != body.email) ==>
                users == old(users) + [NewUser(sid, body, hash)]
                && r == Ok(SessionFor(NewUser(sid, body, hash), sign))
    {
      var refused := CheckUsername(body.username);
      if refused.Some? {
        return Err(refused.value);
      }
      var u := NewUser(sid, body, hash);
      if FindFirst(users, x => HasUsername(x, body.username)).Some? {
        return Err(ClassifySaveError(DbError(DuplicateKeyCode, [("username", body.username)])));
      }
      if FindFirst(users, x => HasEmail(x, body.email)).Some? {
        return Err(ClassifySaveError(DbError(DuplicateKeyCode, [("email", body.email)])));
      }
      users := users + [u];
      r := Ok(SessionFor(u, sign));
    }
  }

  /**
   * A user who has just registered can log in with the same username and
   * password, and gets the same session, provided `compare` accepts a
   * password against its own hash.
   */
  lemma {:induction false} RegisterThenLogin(us: seq<User>, sid: Id, body: RegisterBody,
                                             hash: string -> string, compare: (string, string) -> bool,
                                             sign: TokenPayload -> string)
    requires forall u :: u in us ==> u.username != body.username
    requires compare(body.password, hash(body.password))
    ensures Login(us + [NewUser(sid, body, hash)], body.username, body.password, compare, sign)
            == Ok(SessionFor(NewUser(sid, body, hash), sign))
  {
    var u := NewUser(sid, body, hash);
    FindFirstAppend(us, u, x => HasUsername(x, body.username));
  }
}
