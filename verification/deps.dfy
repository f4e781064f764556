/** api/deps.py: the request dependencies that authenticate the caller and
    gate admin-only and creator-only routes. */
module Deps {
  import opened Common
  import opened Lists
  import opened Store
  import opened AuthService

  const InvalidCredentialsError := HttpError(401, "Invalid authentication credentials")
  const AdminRequiredError := HttpError(403, "Admin access required")
  const CreationDeniedError := HttpError(403,
    "You don't have permission to create projects. Only admins and mentors can create projects.")

  /** `get_current_user` at time `now`: the bearer token must decode at
      that time with type "access", and its subject must be an existing
      user. */
  function GetCurrentUser(users: seq<User>, token: string, c: Crypto, now: int): (r: Result<User>)
    ensures c.decode(token, now).None? || c.decode(token, now).value.kind != "access" ==>
      r == Err(InvalidCredentialsError)
    ensures r.Ok? ==> r.value in users && c.decode(token, now).Some? &&
                      c.decode(token, now).value == Claims(r.value.id, "access")
    ensures r.Err? ==> r.error.code == 401
    ensures c.decode(token, now).Some? && c.decode(token, now).value.kind == "access" ==>
      (r.Ok? <==> exists i :: 0 <= i < |users| && users[i].id == c.decode(token, now).value.sub)
  {
    match c.decode(token, now)
    case None => Err(InvalidCredentialsError)
    case Some(claims) =>
      if claims.kind != "access" then Err(InvalidCredentialsError)
      else match UserAt(users, claims.sub)
        case None => Err(UnknownUserError)
        case Some(i) => Ok(users[i])
  }

  /** `get_admin_user`: passes exactly the users whose role is "admin". */
  function GetAdminUser(user: User): (r: Result<User>)
    ensures r.Ok? <==> user.role == "admin"
    ensures r.Ok? ==> r.value == user
    ensures r.Err? ==> r.error == AdminRequiredError
  {
    if user.role != "admin" then Err(AdminRequiredError) else Ok(user)
  }

  /** `require_project_creation_permission`: passes exactly the roles
      "admin" and "mentor", compared as written (no case folding, no
      trimming). */
  function RequireProjectCreationPermission(user: User): (r: Result<User>)
    ensures r.Ok? <==> user.role == "admin" || user.role == "mentor"
    ensures r.Ok? ==> r.value == user
    ensures r.Err? ==> r.error == CreationDeniedError
  {
    if user.role !in ["admin", "mentor"] then Err(CreationDeniedError) else Ok(user)
  }

  /** Every admin may create projects. */
  lemma AdminMayCreate(user: User)
    requires GetAdminUser(user).Ok?
    ensures RequireProjectCreationPermission(user).Ok?
  {
  }

  /** With a sound token library, the access token from a login at `t0`
      authenticates that user at any `t1` within its lifetime and is refused
      after it; the refresh token never authenticates. */
  lemma {:induction false} LoginAuthenticates(users: seq<User>, email: string, password: string,
                                              c: Crypto, t0: int, t1: int)
    requires Sound(c) && Login(users, email, password, c, t0).Ok?
    requires forall a, b :: 0 <= a < b < |users| ==> users[a].id != users[b].id
    ensures t1 <= t0 + c.accessTtl ==>
      var r := GetCurrentUser(users, Login(users, email, password, c, t0).value.accessToken, c, t1);
      r.Ok? && r.value.email == email
    ensures t1 > t0 + c.accessTtl ==>
      GetCurrentUser(users, Login(users, email, password, c, t0).value.accessToken, c, t1) == Err(InvalidCredentialsError)
    ensures GetCurrentUser(users, Login(users, email, password, c, t0).value.refreshToken, c, t1)
         == Err(InvalidCredentialsError)
  {
    var i := FirstIndex(users, WithEmail(email)).value;
    var id := users[i].id;
    assert c.decode(c.access(id, t0), t1) ==
      if t1 <= t0 + c.accessTtl then Some(Claims(id, "access")) else None;
    assert c.decode(c.refresh(id, t0), t1) ==
      if t1 <= t0 + c.refreshTtl then Some(Claims(id, "refresh")) else None;
    var k := UserAt(users, id);
    assert k.Some?;
    assert users[k.value].id == id;
  }
}
