/** services/auth_service.py: registration, login and token refresh. Password
    hashing and the signed tokens are not modelled; they are handed in as a
    `Crypto` value whose functions stand for the library calls. Times are
    whole seconds since the epoch, as in a token's `exp` claim. */
module AuthService {
  import opened Common
  import opened Lists
  import opened Store
  import opened UserSchema

  /** The outcome of hashing a password: the hash, or the text of the
      `ValueError` the hashing library raised. */
  datatype Hashed = Hashed(hash: string) | HashFailed(message: string)

  /** The claims of a token that decodes: its subject user id and its type. */
  datatype Claims = Claims(sub: int, kind: string)

  /** The hashing and token functions: `hash_password`, `verify_password`,
      `create_access_token` and `create_refresh_token` (user id and time of
      issue), and `decode_token` (token and time of decoding; None for a
      token that does not decode). The two lifetimes are in seconds:
      `ACCESS_TTL_MIN` minutes and `REFRESH_TTL_DAYS` days. */
  datatype Crypto = Crypto(
    hash: string -> Hashed,
    verify: (string, string) -> bool,
    access: (int, int) -> string,
    refresh: (int, int) -> string,
    decode: (string, int) -> Option<Claims>,
    accessTtl: int,
    refreshTtl: int)

  /** What the token library guarantees: a token issued at `t0` carries the
      expiry `t0` plus its lifetime, and decodes to the subject and type it
      was issued with until that expiry has passed, and not at all after. */
  ghost predicate Sound(c: Crypto) {
    (forall id, t0, t :: c.decode(c.access(id, t0), t) ==
       if t <= t0 + c.accessTtl then Some(Claims(id, "access")) else None) &&
    (forall id, t0, t :: c.decode(c.refresh(id, t0), t) ==
       if t <= t0 + c.refreshTtl then Some(Claims(id, "refresh")) else None)
  }

  datatype TokenResponse = TokenResponse(accessToken: string, refreshToken: string)

  /** The pair of tokens issued to a user at time `now`. */
  function TokensFor(c: Crypto, userId: int, now: int): TokenResponse {
    TokenResponse(c.access(userId, now), c.refresh(userId, now))
  }

  const EmailTakenError := HttpError(400, "Email already registered")
  const BadCredentialsError := HttpError(401, "Incorrect email or password")
  const BadRefreshError := HttpError(401, "Invalid refresh token")
  const UnknownUserError := HttpError(401, "User not found")

  function WithEmail(email: string): User -> bool {
    (u: User) => u.email == email
  }

  /** No two users share an email address. */
  predicate EmailsUnique(users: seq<User>) {
    forall i, j :: 0 <= i < j < |users| ==> users[i].email != users[j].email
  }

  /** `register`: 400 when the email is taken, 400 with the library's text
      when hashing fails, otherwise one new user holding the hash and tokens
      for that user's id. A failure changes nothing, and a success keeps
      emails unique. */
  method Register(db: Db, data: UserCreate, c: Crypto, now: int) returns (r: Result<TokenResponse>)
    requires db.Valid()
    modifies db`users, db`nextId
    ensures db.Valid()
    ensures FirstIndex(old(db.users), WithEmail(data.email)).Some? ==>
      r == Err(EmailTakenError) && db.users == old(db.users) && db.nextId == old(db.nextId)
    ensures FirstIndex(old(db.users), WithEmail(data.email)).None? && c.hash(data.password).HashFailed? ==>
      r == Err(HttpError(400, c.hash(data.password).message)) &&
      db.users == old(db.users) && db.nextId == old(db.nextId)
    ensures FirstIndex(old(db.users), WithEmail(data.email)).None? && c.hash(data.password).Hashed? ==>
      r == Ok(TokensFor(c, old(db.nextId), now)) &&
      db.users == old(db.users) + [User(old(db.nextId), data.email, c.hash(data.password).hash, data.name,
                                        data.role, None, data.skills, data.bio)] &&
      db.nextId == old(db.nextId) + 1
    ensures EmailsUnique(old(db.users)) ==> EmailsUnique(db.users)
  {
    if FirstIndex(db.users, WithEmail(data.email)).Some? {
      return Err(EmailTakenError);
    }
    match c.hash(data.password)
    case HashFailed(message) =>
      return Err(HttpError(400, message));
    case Hashed(h) =>
      var user := db.AddUser(User(0, data.email, h, data.name, data.role, None, data.skills, data.bio));
      r := Ok(TokensFor(c, user.id, now));
  }

  /** `login`: tokens for the first user with that email when the password
      verifies against the stored hash; an unknown email and a wrong
      password give the same 401. */
  function Login(users: seq<User>, email: string, password: string, c: Crypto, now: int): (r: Result<TokenResponse>)
    ensures r.Err? ==> r.error == BadCredentialsError
    ensures r.Ok? <==> exists i :: FirstWithEmail(users, email, i) && c.verify(password, users[i].passwordHash)
    ensures r.Ok? ==> exists i :: FirstWithEmail(users, email, i) && r.value == TokensFor(c, users[i].id, now)
  {
    match FirstIndex(users, WithEmail(email))
    case None => Err(BadCredentialsError)
    case Some(i) =>
      FirstWithEmailUnique(users, email, i);
      if !c.verify(password, users[i].passwordHash) then Err(BadCredentialsError)
      else Ok(TokensFor(c, users[i].id, now))
  }

  /** `users[i]` is the first user with that email. */
  predicate FirstWithEmail(users: seq<User>, email: string, i: int) {
    0 <= i < |users| && users[i].email == email && forall j :: 0 <= j < i ==> users[j].email != email
  }

  lemma FirstWithEmailUnique(users: seq<User>, email: string, i: int)
    requires FirstWithEmail(users, email, i)
    ensures forall k :: FirstWithEmail(users, email, k) ==> k == i
  {
  }

  /** `refresh` at time `now`: a token that decodes at that time, has type
      "refresh" and names an existing user yields a new pair for that same
      user, issued at `now`. */
  function Refresh(users: seq<User>, token: string, c: Crypto, now: int): (r: Result<TokenResponse>)
    ensures c.decode(token, now).None? || c.decode(token, now).value.kind != "refresh" ==> r == Err(BadRefreshError)
    ensures r.Ok? ==> c.decode(token, now).Some? && c.decode(token, now).value.kind == "refresh" &&
                      r.value == TokensFor(c, c.decode(token, now).value.sub, now) &&
                      exists i :: 0 <= i < |users| && users[i].id == c.decode(token, now).value.sub
    ensures c.decode(token, now).Some? && c.decode(token, now).value.kind == "refresh" &&
            (forall i :: 0 <= i < |users| ==> users[i].id != c.decode(token, now).value.sub) ==>
            r == Err(UnknownUserError)
    ensures c.decode(token, now).Some? && c.decode(token, now).value.kind == "refresh" &&
            (exists i :: 0 <= i < |users| && users[i].id == c.decode(token, now).value.sub) ==>
            r == Ok(TokensFor(c, c.decode(token, now).value.sub, now))
  {
    match c.decode(token, now)
    case None => Err(BadRefreshError)
    case Some(claims) =>
      if claims.kind != "refresh" then Err(BadRefreshError)
      else match UserAt(users, claims.sub)
        case None => Err(UnknownUserError)
        case Some(i) => Ok(TokensFor(c, users[i].id, now))
  }

  /** With a sound token library, the refresh token from a login at `t0`,
      presented at `t1`, gives the same pair as logging in again at `t1` (new
      tokens for the same user) as long as its lifetime has not run out, and
      is refused once it has. */
  lemma LoginThenRefresh(users: seq<User>, email: string, password: string, c: Crypto, t0: int, t1: int)
    requires Sound(c)
    requires Login(users, email, password, c, t0).Ok?
    ensures t1 <= t0 + c.refreshTtl ==>
      Refresh(users, Login(users, email, password, c, t0).value.refreshToken, c, t1)
        == Login(users, email, password, c, t1)
    ensures t1 > t0 + c.refreshTtl ==>
      Refresh(users, Login(users, email, password, c, t0).value.refreshToken, c, t1) == Err(BadRefreshError)
  {
    var i := FirstIndex(users, WithEmail(email)).value;
    var id := users[i].id;
    assert c.decode(c.refresh(id, t0), t1) ==
      if t1 <= t0 + c.refreshTtl then Some(Claims(id, "refresh")) else None;
    var k := UserAt(users, id);
    assert k.Some?;
    assert users[k.value].id == id;
  }

  /** An access token is never accepted as a refresh token, before or after
      its expiry. */
  lemma AccessTokenDoesNotRefresh(users: seq<User>, c: Crypto, id: int, t0: int, t: int)
    requires Sound(c)
    ensures Refresh(users, c.access(id, t0), c, t) == Err(BadRefreshError)
  {
    assert c.decode(c.access(id, t0), t) ==
      if t <= t0 + c.accessTtl then Some(Claims(id, "access")) else None;
  }
}
