/** frontend src/api/axios.ts: the HTTP client of the web frontend. The
    browser's hostname and `localStorage` are modelled as values and a small
    object; the requests themselves are left to the backend model. */
module AxiosClient {
  import opened Common
  import opened Strings
  import ApplicationSchema

  const LocalBaseUrl := "http://localhost:8000/api/v1/"
  const ProductionBaseUrl := "https://teamup-u17c.onrender.com/api/v1/"

  /** `isLocal` in `getBaseURL`: localhost, 127.0.0.1, or an address that
      starts like a private network's. */
  predicate IsLocalHost(hostname: string) {
    hostname == "localhost" || hostname == "127.0.0.1" ||
    StartsWith(hostname, "192.168.") || StartsWith(hostname, "10.") || StartsWith(hostname, "172.")
  }

  /** `getBaseURL`: the local backend for local hosts, production otherwise. */
  function BaseUrl(hostname: string): (url: string)
    ensures url == LocalBaseUrl <==> IsLocalHost(hostname)
    ensures url == ProductionBaseUrl <==> !IsLocalHost(hostname)
  {
    if IsLocalHost(hostname) then LocalBaseUrl else ProductionBaseUrl
  }

  /** The "172." test is wider than the private block 172.16.0.0/12 of
      section 3 of RFC 1918: the public address 172.217.0.1 is also sent to
      the local backend. */
  lemma PublicAddressCountsAsLocal()
    ensures BaseUrl("172.217.0.1") == LocalBaseUrl
  {
    assert "172.217.0.1"[..4] == "172.";
  }

  /** Every host name other than "localhost" that does not start with a
      digit (every DNS name of a deployed site) goes to production. */
  lemma PublicHostGoesToProduction(hostname: string)
    requires hostname != "localhost"
    requires hostname == "" || !IsDecimalDigit(hostname[0])
    ensures BaseUrl(hostname) == ProductionBaseUrl
  {
    if hostname != "" {
      assert !StartsWith(hostname, "192.168.") && !StartsWith(hostname, "10.") && !StartsWith(hostname, "172.") by {
        assert hostname[0] != '1';
      }
    }
  }

  /** The token read from storage is used iff it is non-empty and not the
      text "null" (what storing a missing token leaves behind). */
  predicate UsableToken(token: Option<string>) {
    TruthyStr(token) && token.value != "null"
  }

  /** An outgoing request, as far as the interceptor touches it. */
  class RequestConfig {
    var headers: Option<map<string, string>>

    constructor (headers: Option<map<string, string>>)
      ensures this.headers == headers
    {
      this.headers := headers;
    }

    /** The request interceptor: with a usable token, a missing header map
        is created and `Authorization: Bearer <token>` is set; otherwise the
        configuration is left exactly as it was. */
    method Intercept(token: Option<string>)
      modifies this
      ensures UsableToken(token) ==>
        headers == Some(old(headers).GetOr(map[])["Authorization" := "Bearer " + token.value])
      ensures !UsableToken(token) ==> headers == old(headers)
    {
      if UsableToken(token) {
        var h := headers.GetOr(map[]);
        headers := Some(h["Authorization" := "Bearer " + token.value]);
      }
    }
  }

  /** The browser's `localStorage`. */
  class LocalStorage {
    var items: map<string, string>

    constructor ()
      ensures items == map[]
    {
      items := map[];
    }

    /** `loginUser` after a successful response: each of the access token,
        the refresh token and the role is stored only when the response
        carries a non-empty one. */
    method StoreLogin(accessToken: Option<string>, refreshToken: Option<string>, role: Option<string>)
      modifies this
      ensures items.Keys == old(items).Keys +
        (if TruthyStr(accessToken) then {"token"} else {}) +
        (if TruthyStr(refreshToken) then {"refreshToken"} else {}) +
        (if TruthyStr(role) then {"role"} else {})
      ensures forall k :: k in items ==>
        (items[k] ==
          if k == "token" && TruthyStr(accessToken) then accessToken.value
          else if k == "refreshToken" && TruthyStr(refreshToken) then refreshToken.value
          else if k == "role" && TruthyStr(role) then role.value
          else old(items)[k])
    {
      if TruthyStr(accessToken) {
        items := items["token" := accessToken.value];
      }
      if TruthyStr(refreshToken) {
        items := items["refreshToken" := refreshToken.value];
      }
      if TruthyStr(role) {
        items := items["role" := role.value];
      }
    }
  }

  /** `localStorage.getItem(key)`. */
  function GetItem(items: map<string, string>, key: string): (r: Option<string>)
    ensures r.Some? <==> key in items
    ensures r.Some? ==> r.value == items[key]
  {
    if key in items then Some(items[key]) else None
  }

  /** A login followed by a request: the interceptor reads the token the
      login stored. An access token that is non-empty and not "null" is
      then sent as the bearer token, whatever was stored before; the text
      "null" is stored but never sent. */
  method LoginThenRequest(storage: LocalStorage, config: RequestConfig,
                          accessToken: Option<string>, refreshToken: Option<string>, role: Option<string>)
    modifies storage, config
    ensures UsableToken(accessToken) ==>
      config.headers == Some(old(config.headers).GetOr(map[])["Authorization" := "Bearer " + accessToken.value])
    ensures accessToken == Some("null") ==>
      GetItem(storage.items, "token") == Some("null") && config.headers == old(config.headers)
  {
    storage.StoreLogin(accessToken, refreshToken, role);
    config.Intercept(GetItem(storage.items, "token"));
  }

  /** The form data handed to `registerUser`; absent fields are None. */
  datatype RegisterForm = RegisterForm(
    email: string, password: string, fullName: Option<string>, role: Option<string>,
    skills: Option<seq<string>>, bio: Option<string>)

  datatype RegisterPayload = RegisterPayload(
    email: string, password: string, name: string, role: Option<string>, skills: seq<string>, bio: string)

  const DefaultName := "Test User"
  const DefaultSkills := ["JavaScript"]
  const DefaultBio := "Hello, I am a participant."

  /** The body `registerUser` posts: an "admin" role is replaced by
      "student"; an empty name, skill list or bio gets a default. */
  function RegisterPayloadOf(form: RegisterForm): (p: RegisterPayload)
    ensures p.email == form.email && p.password == form.password
    ensures p.name == (if TruthyStr(form.fullName) then form.fullName.value else DefaultName)
    ensures p.role != Some("admin")
    ensures form.role != Some("admin") ==> p.role == form.role
    ensures form.role == Some("admin") ==> p.role == Some("student")
    ensures p.skills != []
    ensures form.skills.Some? && form.skills.value != [] ==> p.skills == form.skills.value
    ensures p.bio == (if TruthyStr(form.bio) then form.bio.value else DefaultBio)
  {
    RegisterPayload(
      form.email, form.password,
      if TruthyStr(form.fullName) then form.fullName.value else DefaultName,
      if form.role == Some("admin") then Some("student") else form.role,
      if form.skills.Some? && |form.skills.value| != 0 then form.skills.value else DefaultSkills,
      if TruthyStr(form.bio) then form.bio.value else DefaultBio)
  }

  /** Normalising twice changes nothing more. */
  lemma RegisterPayloadStable(form: RegisterForm)
    ensures var p := RegisterPayloadOf(form);
      RegisterPayloadOf(RegisterForm(p.email, p.password, Some(p.name), p.role, Some(p.skills), Some(p.bio))) == p
  {
  }

  /** `applyToProject`: the body is always an application of type
      "project" to the given id. */
  function ApplyToProjectBody(projectId: int): (b: ApplicationSchema.ApplicationCreate)
    ensures b.kind == "project" && b.targetId == projectId && b.message.None?
  {
    ApplicationSchema.ApplicationCreate("project", projectId, None)
  }

  /** The backend's schema accepts that body for every id. */
  lemma ApplyBodyAccepted(projectId: int)
    ensures ApplicationSchema.ValidateCreate("project", projectId, None) == Accepted(ApplyToProjectBody(projectId))
  {
  }
}
