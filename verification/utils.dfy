/** The server's shared helpers: the JSON response envelope, the input
    validators, the claims a token carries and the ordered checks performed
    before a token is signed. Signing and verification (HMAC-SHA256 JSON Web
    Tokens) and UUID parsing are supplied from outside as the functions of `Env`. */
module ServerUtils {
  import opened Base
  import opened Models

  // ---------------------------------------------------------------------------
  // Response envelope

  /** The `error` text of an envelope: either text the server writes itself, or
      the message of an error raised by a library (JSON decoder, token library,
      database driver) whose wording is not part of this model. */
  datatype Detail = Text(text: string) | External

  datatype CustomerView = CustomerView(id: Uuid, name: string)

  datatype SiteView = SiteView(id: Uuid, name: string, customerId: Uuid, customerName: string)

  datatype DeviceView = DeviceView(
    id: Uuid, customerId: Uuid, customerName: string, siteId: Uuid, siteName: string, spec: DeviceSpec)

  /** A saved session-token record together with its preloaded customer. */
  datatype TokenView = TokenView(customerId: Uuid, customerName: string, action: string, token: string)

  datatype Payload =
    | NoData
    | Note(text: string)
    | Token(token: string)
    | OneCustomer(customer: CustomerView)
    | Customers(customers: seq<CustomerView>)
    | OneSite(site: SiteView)
    | Sites(sites: seq<SiteView>)
    | OneDevice(device: DeviceView)
    | Devices(devices: seq<DeviceView>)
    | IssuedToken(record: TokenView)

  /** A response body: the uniform envelope, or the bare `{error, message}` map
      the admin-secret gate writes. */
  datatype Body =
    | Envelope(status: int, message: string, data: Payload, error: Detail)
    | Bare(bareError: string, message: string)

  datatype Cookie = Cookie(
    name: string, value: string, maxAge: int, path: string, domain: string,
    secure: bool, httpOnly: bool, sameSiteLax: bool)

  datatype Reply = Reply(code: int, body: Body, cookie: Option<Cookie>)

  /** The keys the JSON rendering of a body holds: `message`, `data` and `error`
      are `omitempty`, so they appear only when set. */
  function JsonKeys(b: Body): set<string>
  {
    match b
    case Envelope(_, message, data, error) =>
      {"status"}
      + (if message != "" then {"message"} else {})
      + (if data != NoData then {"data"} else {})
      + (if error != Text("") then {"error"} else {})
    case Bare(_, _) => {"error", "message"}
  }

  /** `WriteJSON`: a success envelope whose status field is the HTTP status. */
  function WriteJson(status: int, message: string, data: Payload): (r: Reply)
    ensures r.body.Envelope? && r.body.status == r.code == status
    ensures "error" !in JsonKeys(r.body)
    ensures "data" in JsonKeys(r.body) <==> data != NoData
    ensures r.body.message == message && r.body.data == data && r.cookie.None?
  {
    Reply(status, Envelope(status, message, data, Text("")), None)
  }

  /** `WriteError`: an error envelope whose status field is the HTTP status; it never carries data. */
  function WriteError(status: int, message: string, err: Detail): (r: Reply)
    ensures r.body.Envelope? && r.body.status == r.code == status
    ensures "data" !in JsonKeys(r.body)
    ensures "error" in JsonKeys(r.body) <==> err != Text("")
    ensures r.body.message == message && r.body.error == err && r.cookie.None?
  {
    Reply(status, Envelope(status, message, NoData, err), None)
  }

  /** What a handler leaves behind: the reply written and the database after the request. */
  datatype Outcome = Outcome(reply: Reply, db: Db)

  /** Text of the library error `gorm.ErrRecordNotFound`. */
  const RecordNotFound := "record not found"

  // ---------------------------------------------------------------------------
  // Request inputs

  /** A JSON request body: undecodable, or an object whose string members bind
      by name (a member that is absent binds as the empty string). */
  datatype Json = Malformed | Object(members: map<string, string>)

  function Member(j: Json, key: string): string
    requires j.Object?
  {
    if key in j.members then j.members[key] else ""
  }

  /** The per-request context the middleware binds values in. */
  type Ctx = map<string, string>

  /** `c.GetString`: the empty string for a key nothing has set. */
  function GetString(ctx: Ctx, key: string): string
  {
    if key in ctx then ctx[key] else ""
  }

  // ---------------------------------------------------------------------------
  // Validators

  /** The characters `[a-zA-Z0-9_ ]` admits. */
  predicate NameChar(c: char)
  {
    ('a' <= c <= 'z') || ('A' <= c <= 'Z') || ('0' <= c <= '9') || c == '_' || c == ' '
  }

  function AllNameChars(s: string): (ok: bool)
    ensures ok <==> forall i :: 0 <= i < |s| ==> NameChar(s[i])
    decreases |s|
  {
    if |s| == 0 then true else NameChar(s[0]) && AllNameChars(s[1..])
  }

  /** `IsValidString`: the whole string matches `^[a-zA-Z0-9_ ]{3,20}$`. */
  function IsValidString(s: string): (ok: bool)
    ensures ok <==> 3 <= |s| <= 20 && forall i :: 0 <= i < |s| ==> NameChar(s[i])
  {
    3 <= |s| && |s| <= 20 && AllNameChars(s)
  }

  /** The linear scan `IsValidRole` and `IsValidAction` perform over their list. */
  function Listed(list: seq<string>, x: string): (found: bool)
    ensures found <==> x in list
    decreases |list|
  {
    if |list| == 0 then false
    else if list[0] == x then true
    else Listed(list[1..], x)
  }

  // ---------------------------------------------------------------------------
  // Tokens

  /** The claims a token carries; `expiresAt` is None for a token that never expires. */
  datatype Claims = Claims(
    userId: string, username: string, role: string, action: string,
    issuer: string, issuedAt: int, expiresAt: Option<int>)

  /** Process-wide configuration and the services the code calls but this model
      does not define: `isValidUuid` is `uuid.Parse` succeeding, `sign` and
      `verify` are the token library's HMAC-SHA256 signing and checking (which
      includes the signing-method and expiry checks) under a given secret at a
      given time. `roles` and `actions` are the allow-lists the validators scan. */
  datatype Env = Env(
    jwtSecret: string,
    adminSecret: string,
    roles: seq<string>,
    actions: seq<string>,
    isValidUuid: string -> bool,
    sign: (Claims, string) -> string,
    verify: (string, string, int) -> Option<Claims>)

  function IsValidRole(env: Env, role: string): (ok: bool)
    ensures ok <==> role in env.roles
  {
    Listed(env.roles, role)
  }

  function IsValidAction(env: Env, action: string): (ok: bool)
    ensures ok <==> action in env.actions
  {
    Listed(env.actions, action)
  }

  const Issuer := "Rubicon BMS"

  /** Thirty days of 24 hours, in seconds. */
  const TokenLifetime := 30 * 24 * 60 * 60

  datatype JwtError = InvalidUserId | InvalidUsername | InvalidRole | InvalidAction | SecretNotSet

  function JwtErrorText(e: JwtError): string
  {
    match e
    case InvalidUserId => "invalid user ID"
    case InvalidUsername => "invalid username"
    case InvalidRole => "invalid role"
    case InvalidAction => "invalid action"
    case SecretNotSet => "DEVICES_SERVER_JWT_SECRET is not set"
  }

  /** All four identity checks pass. */
  predicate Issuable(env: Env, userId: string, username: string, role: string, action: string)
  {
    env.isValidUuid(userId) && IsValidString(username) && role in env.roles && action in env.actions
  }

  datatype Issued = Issued(token: string, claims: Claims)

  /** `GenerateJWT`: the user id, username, role and action checks run in that
      order, all before the signing secret is read; only then is the token signed. */
  function GenerateJwt(env: Env, userId: string, username: string, role: string, action: string,
                       expire: bool, now: int): (r: Result<Issued, JwtError>)
    ensures !env.isValidUuid(userId) ==> r == Err(InvalidUserId)
    ensures env.isValidUuid(userId) && !IsValidString(username) ==> r == Err(InvalidUsername)
    ensures env.isValidUuid(userId) && IsValidString(username) && role !in env.roles
            ==> r == Err(InvalidRole)
    ensures env.isValidUuid(userId) && IsValidString(username) && role in env.roles && action !in env.actions
            ==> r == Err(InvalidAction)
    ensures r == Err(SecretNotSet) <==> Issuable(env, userId, username, role, action) && env.jwtSecret == ""
    ensures r.Ok? <==> Issuable(env, userId, username, role, action) && env.jwtSecret != ""
    ensures r.Ok? ==> var c := r.value.claims;
                      && c.userId == userId && c.username == username && c.role == role && c.action == action
                      && c.issuer == Issuer && c.issuedAt == now
                      && (c.expiresAt.Some? <==> expire)
                      && (expire ==> c.expiresAt == Some(now + TokenLifetime))
                      && r.value.token == env.sign(c, env.jwtSecret)
  {
    if !env.isValidUuid(userId) then Err(InvalidUserId)
    else if !IsValidString(username) then Err(InvalidUsername)
    else if !IsValidRole(env, role) then Err(InvalidRole)
    else if !IsValidAction(env, action) then Err(InvalidAction)
    else
      var claims := Claims(userId, username, role, action, Issuer, now,
                           if expire then Some(now + 24 * 30 * 3600) else None);
      if env.jwtSecret == "" then Err(SecretNotSet)
      else Ok(Issued(env.sign(claims, env.jwtSecret), claims))
  }

  /** `ValidateJWT`: no secret means no token validates; otherwise the library decides. */
  function ValidateJwt(env: Env, token: string, now: int): (r: Option<Claims>)
    ensures env.jwtSecret == "" ==> r.None?
    ensures env.jwtSecret != "" ==> r == env.verify(token, env.jwtSecret, now)
  {
    if env.jwtSecret == "" then None else env.verify(token, env.jwtSecret, now)
  }

  /** What the token library promises: a token it signed under a non-empty
      secret, for claims that do not expire, verifies under that secret to
      those claims, and a signed token is never the empty string. */
  ghost predicate TokenLibraryLaws(env: Env)
  {
    forall c: Claims, k: string, now: int {:trigger env.verify(env.sign(c, k), k, now)} ::
      k != "" && c.expiresAt.None? ==> env.sign(c, k) != "" && env.verify(env.sign(c, k), k, now) == Some(c)
  }
}
