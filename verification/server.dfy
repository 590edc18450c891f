/** The router `setupRoutes` builds: the route table with the gates in front of
    each handler, path matching, and the envelopes written when no route
    matches. The whole server becomes one function from a request and the
    store to a reply and the store afterwards. */
module Server {
  import opened Base
  import opened Tables
  import opened Models
  import opened ServerUtils
  import opened Customers
  import opened Sites
  import opened Devices
  import opened Authenticate
  import opened Admin
  import opened Middleware

  /** The request methods the routes use; any other method is `OtherVerb`.
      An `OtherVerb` named "GET", "POST", "PUT" or "DELETE" stands for no
      request the router sees: those methods arrive as the four constructors. */
  datatype Verb = Get | Post | Put | Delete | OtherVerb(name: string)

  function VerbText(v: Verb): string
  {
    match v
    case Get => "GET"
    case Post => "POST"
    case Put => "PUT"
    case Delete => "DELETE"
    case OtherVerb(name) => name
  }

  /** The fixed path pieces the routes use. */
  datatype Word = HealthWord | AdminWord | MintWord | IssueWord | AuthenticateWord
                | CustomersWord | SitesWord | DevicesWord

  function WordText(w: Word): string
  {
    match w
    case HealthWord => "health"
    case AdminWord => "admin"
    case MintWord => "generate-admin-token"
    case IssueWord => "generate-token"
    case AuthenticateWord => "authenticate"
    case CustomersWord => "customers"
    case SitesWord => "sites"
    case DevicesWord => "devices"
  }

  /** One `/`-separated piece of a route pattern: a fixed word, or a `:name` parameter. */
  datatype Segment = Lit(word: Word) | Param(name: string)

  /** The gates in front of a handler: none, the admin secret, a session, or a
      session whose role is admin. */
  datatype Guard = Open | AdminSecret | Session | SessionAdmin

  datatype Endpoint =
    | HealthCheck | MintAdminToken | IssueToken | Login
    | CreateCustomer | ListCustomers | GetCustomer | UpdateCustomer | DeleteCustomer
    | CreateSite | ListCustomerSites | ListSites | GetSite | UpdateSite | DeleteSite
    | CreateDevice | ListDevices | ListCustomerDevices | ListSiteDevices | GetDevice | UpdateDevice | DeleteDevice

  /** Where a handler is registered: its method, its path pattern and the gates in front of it. */
  datatype Route = Route(verb: Verb, pattern: seq<Segment>, guard: Guard)

  /** The route table `setupRoutes` builds, by endpoint. */
  function RouteOf(e: Endpoint): Route
  {
    match e
    case HealthCheck => Route(Get, [Lit(HealthWord)], Open)
    case MintAdminToken => Route(Post, [Lit(AdminWord), Lit(MintWord)], AdminSecret)
    case IssueToken => Route(Post, [Lit(AdminWord), Lit(IssueWord)], AdminSecret)
    case Login => Route(Post, [Lit(AuthenticateWord)], Open)
    case CreateCustomer => Route(Post, [Lit(CustomersWord)], SessionAdmin)
    case ListCustomers => Route(Get, [Lit(CustomersWord)], SessionAdmin)
    case GetCustomer => Route(Get, [Lit(CustomersWord), Param("customer_id")], Session)
    case UpdateCustomer => Route(Put, [Lit(CustomersWord), Param("customer_id")], SessionAdmin)
    case DeleteCustomer => Route(Delete, [Lit(CustomersWord), Param("customer_id")], SessionAdmin)
    case CreateSite => Route(Post, [Lit(CustomersWord), Param("customer_id"), Lit(SitesWord)], SessionAdmin)
    case ListCustomerSites => Route(Get, [Lit(CustomersWord), Param("customer_id"), Lit(SitesWord)], Session)
    case ListSites => Route(Get, [Lit(SitesWord)], SessionAdmin)
    case GetSite => Route(Get, [Lit(SitesWord), Param("site_id")], Session)
    case UpdateSite => Route(Put, [Lit(SitesWord), Param("site_id")], SessionAdmin)
    case DeleteSite => Route(Delete, [Lit(SitesWord), Param("site_id")], SessionAdmin)
    case CreateDevice =>
      Route(Post, [Lit(CustomersWord), Param("customer_id"), Lit(SitesWord), Param("site_id"), Lit(DevicesWord)],
            SessionAdmin)
    case ListDevices => Route(Get, [Lit(DevicesWord)], Session)
    case ListCustomerDevices => Route(Get, [Lit(CustomersWord), Param("customer_id"), Lit(DevicesWord)], Session)
    case ListSiteDevices => Route(Get, [Lit(SitesWord), Param("site_id"), Lit(DevicesWord)], Session)
    case GetDevice => Route(Get, [Lit(DevicesWord), Param("device_serial_number")], Session)
    case UpdateDevice => Route(Put, [Lit(DevicesWord), Param("device_serial_number")], SessionAdmin)
    case DeleteDevice => Route(Delete, [Lit(DevicesWord), Param("device_serial_number")], SessionAdmin)
  }

  /** The endpoints in registration order. */
  const Registered: seq<Endpoint> := [
    HealthCheck, MintAdminToken, IssueToken, Login,
    CreateCustomer, ListCustomers, GetCustomer, UpdateCustomer, DeleteCustomer,
    CreateSite, ListCustomerSites, ListSites, GetSite, UpdateSite, DeleteSite,
    CreateDevice, ListDevices, ListCustomerDevices, ListSiteDevices, GetDevice, UpdateDevice, DeleteDevice
  ]

  /** A request of this method on this path reaches endpoint `e` if nothing registered before it does. */
  ghost predicate Reaches(e: Endpoint, verb: Verb, path: seq<string>)
  {
    RouteOf(e).verb == verb && Fits(RouteOf(e).pattern, path)
  }

  /** A request: method, the path split at `/` (without the leading empty piece),
      the raw request URI the not-found envelope quotes, headers, cookies and body. */
  datatype Request = Request(
    verb: Verb, path: seq<string>, uri: string, headers: Headers, cookies: Headers, body: Json)

  /** What the process is started with: the environment, the application name
      the health check reports, and whether the router answers 405 for a known
      path under another method (`gin.New()` leaves this off). */
  datatype Setup = Setup(env: Env, appName: string, handleMethodNotAllowed: bool)

  // ---------------------------------------------------------------------------
  // Path matching

  /** The path fits the pattern: same length, fixed pieces equal, parameters non-empty. */
  ghost predicate Fits(pattern: seq<Segment>, path: seq<string>)
  {
    && |pattern| == |path|
    && forall i :: 0 <= i < |pattern| ==>
         if pattern[i].Lit? then path[i] == WordText(pattern[i].word) else path[i] != ""
  }

  predicate ParamsDistinct(pattern: seq<Segment>)
  {
    forall i, j :: 0 <= i < j < |pattern| && pattern[i].Param? && pattern[j].Param? ==> pattern[i].name != pattern[j].name
  }

  /** Matching a path against a pattern, binding each parameter to its piece. */
  function Match(pattern: seq<Segment>, path: seq<string>): (r: Option<map<string, string>>)
    ensures r.Some? <==> Fits(pattern, path)
    ensures r.Some? && ParamsDistinct(pattern) ==>
              forall i :: 0 <= i < |pattern| && pattern[i].Param? ==>
                pattern[i].name in r.value && r.value[pattern[i].name] == path[i]
    decreases |pattern|
  {
    if |pattern| == 0 then
      if |path| == 0 then Some(map[]) else None
    else if |path| == 0 then None
    else
      FitsSplit(pattern, path);
      match Match(pattern[1..], path[1..])
      case None => None
      case Some(params) =>
        match pattern[0]
        case Lit(w) => if path[0] == WordText(w) then Some(params) else None
        case Param(name) => if path[0] != "" then Some(params[name := path[0]]) else None
  }

  /** A path fits a pattern exactly when its first piece fits the first segment and the rest fits the rest. */
  lemma FitsSplit(pattern: seq<Segment>, path: seq<string>)
    requires |pattern| > 0 && |path| > 0
    ensures Fits(pattern, path) <==>
              && (if pattern[0].Lit? then path[0] == WordText(pattern[0].word) else path[0] != "")
              && Fits(pattern[1..], path[1..])
    ensures ParamsDistinct(pattern) ==> ParamsDistinct(pattern[1..])
  {
    assert forall i :: 0 <= i < |pattern| - 1 ==> pattern[1..][i] == pattern[i + 1];
    assert forall i :: 0 <= i < |path| - 1 ==> path[1..][i] == path[i + 1];
  }

  predicate Fitting(pattern: seq<Segment>, path: seq<string>)
    ensures Fitting(pattern, path) <==> Fits(pattern, path)
  {
    Match(pattern, path).Some?
  }

  function Arg(params: map<string, string>, name: string): string
  {
    if name in params then params[name] else ""
  }

  /** The route a request reaches: the first registered endpoint whose method and pattern fit it. */
  function FindRoute(es: seq<Endpoint>, verb: Verb, path: seq<string>): (r: Option<nat>)
    ensures r.Some? ==> r.value < |es| && Reaches(es[r.value], verb, path)
    ensures r.Some? ==> forall j :: 0 <= j < r.value ==> !Reaches(es[j], verb, path)
    ensures r.None? <==> forall j :: 0 <= j < |es| ==> !Reaches(es[j], verb, path)
    decreases |es|
  {
    if |es| == 0 then None
    else if Takes(es[0], verb, path) then Some(0)
    else
      assert forall j :: 1 <= j < |es| ==> es[1..][j - 1] == es[j];
      match FindRoute(es[1..], verb, path)
      case None => None
      case Some(i) => Some(i + 1)
  }

  /** The router's test of one endpoint. */
  predicate Takes(e: Endpoint, verb: Verb, path: seq<string>)
    ensures Takes(e, verb, path) <==> Reaches(e, verb, path)
  {
    var route := RouteOf(e);
    route.verb == verb && Match(route.pattern, path).Some?
  }

  // ---------------------------------------------------------------------------
  // Dispatch

  /** The gates of a route, run in order; a route's handler sees only what they
      bind. An open route and the admin-secret routes bind nothing; a session
      route binds the token's claims and needs the cookie; the admin-only routes
      pass only an admin session. */
  function Gates(env: Env, guard: Guard, req: Request, db: Db, now: int): (s: Step)
    ensures guard == Open ==> s.Next?
    ensures s.Next? && guard in {Open, AdminSecret} ==> s.ctx == map[]
    ensures guard == AdminSecret ==> (s.Next? <==> Header(req.headers, "Admin-Secret") == env.adminSecret)
    ensures s.Next? && guard in {Session, SessionAdmin} ==>
              && "Authorization" in req.cookies && ValidateJwt(env, req.cookies["Authorization"], now).Some?
              && s.ctx == Bind(map[], ValidateJwt(env, req.cookies["Authorization"], now).value)
    ensures guard in {Session, SessionAdmin} && "Authorization" !in req.cookies ==>
              s == Abort(WriteError(401, "Unauthorized", Text("Please authenticate first")))
    ensures s.Next? && guard == SessionAdmin ==> GetString(s.ctx, "role") == "admin"
    ensures s.Next? ==> "user_id" !in s.ctx
  {
    match guard
    case Open => Next(map[])
    case AdminSecret => AdminGate(env, req.headers, map[])
    case Session => SessionGate(env, req.cookies, map[], db, now)
    case SessionAdmin =>
      match SessionGate(env, req.cookies, map[], db, now)
      case Abort(reply) => Abort(reply)
      case Next(ctx) => AdminOnly(ctx)
  }

  /** The endpoints whose handlers write to the store. */
  predicate Writes(e: Endpoint)
  {
    e in {IssueToken, CreateCustomer, UpdateCustomer, DeleteCustomer, CreateSite, UpdateSite, DeleteSite,
          CreateDevice, UpdateDevice, DeleteDevice}
  }

  function Read(reply: Reply, db: Db): Outcome
  {
    Outcome(reply, db)
  }

  /** What a handler is given: the process setup, the path parameters, the
      context the gates bound, the body, the store, the clock and a fresh id. */
  datatype Call = Call(setup: Setup, params: map<string, string>, ctx: Ctx, body: Json,
                       db: Db, now: int, newId: Uuid)

  /** The handler registered for each endpoint. */
  function HandlerOf(e: Endpoint): (h: Call -> Outcome)
    ensures forall c :: !Writes(e) ==> h(c).db == c.db
  {
    match e
    case HealthCheck => (c: Call) => Read(WriteJson(200, "OK", Note("Service is running: " + c.setup.appName)), c.db)
    case MintAdminToken => (c: Call) => Read(GenerateAdminToken(c.setup.env, c.newId, c.now), c.db)
    case IssueToken => (c: Call) => GenerateToken(c.setup.env, c.body, c.db, c.now, c.newId)
    case Login => (c: Call) => Read(AuthenticateHandler(c.setup.env, c.body, c.db, c.now), c.db)
    case CreateCustomer => (c: Call) => CustomerCreate(c.body, c.db, c.now, c.newId)
    case ListCustomers => (c: Call) => Read(CustomerFetchAll(c.db), c.db)
    case GetCustomer => (c: Call) => Read(CustomerFetchById(c.setup.env, c.ctx, Arg(c.params, "customer_id"), c.db), c.db)
    case UpdateCustomer => (c: Call) => CustomerUpdate(c.setup.env, c.ctx, Arg(c.params, "customer_id"), c.body, c.db, c.now)
    case DeleteCustomer => (c: Call) => CustomerDelete(c.setup.env, c.ctx, Arg(c.params, "customer_id"), c.db, c.now)
    case CreateSite => (c: Call) => SiteCreate(c.setup.env, Arg(c.params, "customer_id"), c.body, c.db, c.now, c.newId)
    case ListCustomerSites =>
      (c: Call) => Read(SiteFetchByCustomerId(c.setup.env, c.ctx, Arg(c.params, "customer_id"), c.db), c.db)
    case ListSites => (c: Call) => Read(SiteFetchAll(c.db), c.db)
    case GetSite => (c: Call) => Read(SiteFetchById(c.setup.env, c.ctx, Arg(c.params, "site_id"), c.db), c.db)
    case UpdateSite => (c: Call) => SiteUpdate(c.setup.env, Arg(c.params, "site_id"), c.body, c.db, c.now)
    case DeleteSite => (c: Call) => SiteDelete(c.setup.env, Arg(c.params, "site_id"), c.db, c.now)
    case CreateDevice =>
      (c: Call) => DeviceCreate(c.setup.env, Arg(c.params, "customer_id"), Arg(c.params, "site_id"), c.body, c.db, c.now, c.newId)
    case ListDevices => (c: Call) => Read(DeviceFetchAll(c.db), c.db)
    case ListCustomerDevices =>
      (c: Call) => Read(DeviceFetchByCustomerId(c.setup.env, c.ctx, Arg(c.params, "customer_id"), c.db), c.db)
    case ListSiteDevices => (c: Call) => Read(DeviceFetchBySiteId(c.setup.env, Arg(c.params, "site_id"), c.db), c.db)
    case GetDevice =>
      (c: Call) => Read(DeviceFetchBySerialNumber(c.ctx, Arg(c.params, "device_serial_number"), c.db), c.db)
    case UpdateDevice => (c: Call) => DeviceUpdate(c.body, Arg(c.params, "device_serial_number"), c.db, c.now)
    case DeleteDevice => (c: Call) => DeviceDelete(Arg(c.params, "device_serial_number"), c.db, c.now)
  }

  /** The handler of an endpoint, given the path parameters, the bound context and the body. */
  function Run(setup: Setup, e: Endpoint, params: map<string, string>, ctx: Ctx, body: Json,
               db: Db, now: int, newId: Uuid): (o: Outcome)
    ensures !Writes(e) ==> o.db == db
  {
    HandlerOf(e)(Call(setup, params, ctx, body, db, now, newId))
  }

  /** `notFoundHandler` and `methodNotAllowedHandler`: the envelopes for a path
      no route fits, and for a path some route fits under another method. */
  function NoRoute(setup: Setup, req: Request): (r: Reply)
    ensures r.code == 405 <==>
              setup.handleMethodNotAllowed
              && exists e :: e in Registered && RouteOf(e).verb != req.verb && Fits(RouteOf(e).pattern, req.path)
    ensures r.code != 405 ==>
              r == WriteError(404, "Route Not Found: (" + VerbText(req.verb) + ") - '" + req.uri + "'",
                              Text("(404) Route not found"))
    ensures r.code == 405 ==>
              r == WriteError(405, "Method Not Allowed: (" + VerbText(req.verb) + ") - '" + req.uri + "'",
                              Text("(405) Method not allowed"))
  {
    if setup.handleMethodNotAllowed && OtherMethodFits(Registered, req.verb, req.path) then
      WriteError(405, "Method Not Allowed: (" + VerbText(req.verb) + ") - '" + req.uri + "'", Text("(405) Method not allowed"))
    else
      WriteError(404, "Route Not Found: (" + VerbText(req.verb) + ") - '" + req.uri + "'", Text("(404) Route not found"))
  }

  function OtherMethodFits(es: seq<Endpoint>, verb: Verb, path: seq<string>): (b: bool)
    ensures b <==> exists e :: e in es && RouteOf(e).verb != verb && Fits(RouteOf(e).pattern, path)
    decreases |es|
  {
    if |es| == 0 then false
    else
      (RouteOf(es[0]).verb != verb && Fitting(RouteOf(es[0]).pattern, path))
      || (assert forall e :: e in es[1..] ==> e in es;
          assert forall e :: e in es && e != es[0] ==> e in es[1..];
          OtherMethodFits(es[1..], verb, path))
  }

  /** The server: route, run the route's gates, then its handler. A request that
      a gate stops leaves the store as it was. */
  function Serve(setup: Setup, req: Request, db: Db, now: int, newId: Uuid): (o: Outcome)
    ensures FindRoute(Registered, req.verb, req.path).None? ==>
              o.db == db && (o.reply.code == 404 || (setup.handleMethodNotAllowed && o.reply.code == 405))
    ensures o.db != db ==>
              && FindRoute(Registered, req.verb, req.path).Some?
              && var e := Registered[FindRoute(Registered, req.verb, req.path).value];
              && Writes(e) && Gates(setup.env, RouteOf(e).guard, req, db, now).Next?
  {
    match FindRoute(Registered, req.verb, req.path)
    case None => Outcome(NoRoute(setup, req), db)
    case Some(i) =>
      var e := Registered[i];
      match Gates(setup.env, RouteOf(e).guard, req, db, now)
      case Abort(reply) => Outcome(reply, db)
      case Next(ctx) => Run(setup, e, Match(RouteOf(e).pattern, req.path).value, ctx, req.body, db, now, newId)
  }

  // ---------------------------------------------------------------------------
  // The route table

  /** Two patterns no path fits both: different lengths, or different fixed
      texts at the first or at the last position. */
  predicate Apart(p: seq<Segment>, q: seq<Segment>)
  {
    || |p| != |q|
    || (|p| > 0 && p[0].Lit? && q[0].Lit? && p[0].word != q[0].word)
    || (|p| > 0 && p[|p| - 1].Lit? && q[|p| - 1].Lit? && p[|p| - 1].word != q[|p| - 1].word)
  }

  lemma WordTextInjective(v: Word, w: Word)
    requires v != w
    ensures WordText(v) != WordText(w)
  {
  }

  lemma ApartNoCommonPath(p: seq<Segment>, q: seq<Segment>, path: seq<string>)
    requires Apart(p, q)
    ensures !(Fits(p, path) && Fits(q, path))
  {
    if |p| == |q| && |p| > 0 {
      if p[0].Lit? && q[0].Lit? && p[0].word != q[0].word {
        WordTextInjective(p[0].word, q[0].word);
      } else {
        WordTextInjective(p[|p| - 1].word, q[|p| - 1].word);
      }
    }
  }

  /** No two endpoints of one method share a path. */
  lemma RoutesApart(e: Endpoint, f: Endpoint)
    requires e != f && RouteOf(e).verb == RouteOf(f).verb
    ensures Apart(RouteOf(e).pattern, RouteOf(f).pattern)
  {
  }

  lemma WritesNeedAdmin(e: Endpoint)
    ensures Writes(e) ==> RouteOf(e).guard in {AdminSecret, SessionAdmin}
  {
  }

  lemma AllRegistered(e: Endpoint)
    ensures e in Registered
  {
  }

  /** Every pattern starts with a fixed word; the admin words start exactly the
      admin-secret routes, and the customer, site and device words start
      exactly the routes behind a session. */
  lemma RoutePrefixes(e: Endpoint)
    ensures |RouteOf(e).pattern| > 0 && RouteOf(e).pattern[0].Lit?
    ensures RouteOf(e).guard == AdminSecret <==> RouteOf(e).pattern[0] == Lit(AdminWord)
    ensures RouteOf(e).guard in {Session, SessionAdmin} <==>
              RouteOf(e).pattern[0] in {Lit(CustomersWord), Lit(SitesWord), Lit(DevicesWord)}
  {
  }

  /** The route a request reaches is the one endpoint whose method and pattern fit it. */
  lemma RouteUnique(e: Endpoint, verb: Verb, path: seq<string>)
    requires Reaches(e, verb, path)
    ensures FindRoute(Registered, verb, path).Some? && Registered[FindRoute(Registered, verb, path).value] == e
  {
    AllRegistered(e);
    var k :| 0 <= k < |Registered| && Registered[k] == e;
    var i := FindRoute(Registered, verb, path).value;
    var f := Registered[i];
    if f != e {
      RoutesApart(f, e);
      ApartNoCommonPath(RouteOf(f).pattern, RouteOf(e).pattern, path);
    }
  }

  /** The role of the session the request's cookie carries, "" when there is none. */
  function SessionRole(env: Env, req: Request, now: int): string
  {
    if "Authorization" !in req.cookies then ""
    else match ValidateJwt(env, req.cookies["Authorization"], now)
      case None => ""
      case Some(claims) => claims.role
  }

  /** Only an admin changes the store: through an admin-secret route with the
      right secret, or through a session whose token carries the admin role. */
  lemma OnlyAdminsWrite(setup: Setup, req: Request, db: Db, now: int, newId: Uuid)
    ensures Serve(setup, req, db, now, newId).db != db ==>
              || (|req.path| > 0 && req.path[0] == "admin" && Header(req.headers, "Admin-Secret") == setup.env.adminSecret)
              || SessionRole(setup.env, req, now) == "admin"
  {
    var o := Serve(setup, req, db, now, newId);
    if o.db != db {
      var e := Registered[FindRoute(Registered, req.verb, req.path).value];
      WritesNeedAdmin(e);
      RoutePrefixes(e);
      var g := Gates(setup.env, RouteOf(e).guard, req, db, now);
      assert g.Next? && Writes(e);
      if RouteOf(e).guard == AdminSecret {
        assert req.path[0] == WordText(AdminWord);
      } else {
        var ctx := SessionGate(setup.env, req.cookies, map[], db, now).ctx;
        assert GetString(ctx, "role") == "admin";
      }
    }
  }

  /** A request no route takes gets the not-found envelope and changes nothing;
      only a router built with method-not-allowed handling on answers 405. */
  lemma Unrouted(setup: Setup, req: Request, db: Db, now: int, newId: Uuid)
    requires FindRoute(Registered, req.verb, req.path).None?
    ensures Serve(setup, req, db, now, newId) == Outcome(NoRoute(setup, req), db)
    ensures NoRoute(setup, req).code == 404 || (setup.handleMethodNotAllowed && NoRoute(setup, req).code == 405)
  {
  }

  /** A request its route's gates turn away gets the gate's reply and changes nothing. */
  lemma Refused(setup: Setup, req: Request, db: Db, now: int, newId: Uuid, reply: Reply)
    requires FindRoute(Registered, req.verb, req.path).Some?
    requires Gates(setup.env, RouteOf(Registered[FindRoute(Registered, req.verb, req.path).value]).guard,
                   req, db, now) == Abort(reply)
    ensures Serve(setup, req, db, now, newId) == Outcome(reply, db)
  {
  }

  /** The first piece of a path decides the gates of any route that takes it. */
  lemma GuardOfPath(e: Endpoint, verb: Verb, path: seq<string>)
    requires Reaches(e, verb, path)
    ensures |path| > 0
    ensures path[0] in {"customers", "sites", "devices"} ==> RouteOf(e).guard in {Session, SessionAdmin}
    ensures path[0] == "admin" ==> RouteOf(e).guard == AdminSecret
  {
    RoutePrefixes(e);
    var w := RouteOf(e).pattern[0].word;
    assert path[0] == WordText(w);
    if path[0] in {"customers", "sites", "devices"} && w !in {CustomersWord, SitesWord, DevicesWord} {
      WordTextInjective(w, CustomersWord);
      WordTextInjective(w, SitesWord);
      WordTextInjective(w, DevicesWord);
      assert false;
    }
    if path[0] == "admin" && w != AdminWord {
      WordTextInjective(w, AdminWord);
      assert false;
    }
  }

  /** Without the session cookie, no customer, site or device path gets past the
      session gate: the reply is the 401 asking to authenticate, or the
      not-found envelope when no route fits (405 only with method-not-allowed
      handling on), and the store is unchanged. A routed request always gets the 401. */
  lemma SessionRequired(setup: Setup, req: Request, db: Db, now: int, newId: Uuid)
    requires |req.path| > 0 && req.path[0] in {"customers", "sites", "devices"}
    requires "Authorization" !in req.cookies
    ensures var o := Serve(setup, req, db, now, newId);
            && o.db == db
            && (o.reply == WriteError(401, "Unauthorized", Text("Please authenticate first"))
                || o.reply.code == 404 || (setup.handleMethodNotAllowed && o.reply.code == 405))
            && (FindRoute(Registered, req.verb, req.path).Some? ==>
                  o.reply == WriteError(401, "Unauthorized", Text("Please authenticate first")))
  {
    match FindRoute(Registered, req.verb, req.path)
    case None =>
      Unrouted(setup, req, db, now, newId);
    case Some(i) =>
      var e := Registered[i];
      GuardOfPath(e, req.verb, req.path);
      var reply := WriteError(401, "Unauthorized", Text("Please authenticate first"));
      assert SessionGate(setup.env, req.cookies, map[], db, now) == Abort(reply);
      assert Gates(setup.env, RouteOf(e).guard, req, db, now) == Abort(reply);
      Refused(setup, req, db, now, newId, reply);
  }

  /** Without the admin secret, the admin routes answer the bare 401 and store
      nothing; a path no route takes gets the not-found envelope instead. */
  lemma AdminSecretRequired(setup: Setup, req: Request, db: Db, now: int, newId: Uuid)
    requires |req.path| > 0 && req.path[0] == "admin"
    requires Header(req.headers, "Admin-Secret") != setup.env.adminSecret
    ensures var o := Serve(setup, req, db, now, newId);
            && o.db == db
            && (o.reply == Reply(401, Bare("Unauthorized", "Invalid admin secret"), None)
                || o.reply.code == 404 || (setup.handleMethodNotAllowed && o.reply.code == 405))
            && (FindRoute(Registered, req.verb, req.path).Some? ==>
                  o.reply == Reply(401, Bare("Unauthorized", "Invalid admin secret"), None))
  {
    match FindRoute(Registered, req.verb, req.path)
    case None =>
      Unrouted(setup, req, db, now, newId);
    case Some(i) =>
      var e := Registered[i];
      GuardOfPath(e, req.verb, req.path);
      var reply := Reply(401, Bare("Unauthorized", "Invalid admin secret"), None);
      assert Gates(setup.env, RouteOf(e).guard, req, db, now) == Abort(reply);
      Refused(setup, req, db, now, newId, reply);
  }

  /** A request that reaches endpoint `e` and passes its gates is answered by `e`'s handler. */
  lemma ServedBy(setup: Setup, e: Endpoint, req: Request, db: Db, now: int, newId: Uuid, ctx: Ctx)
    requires Reaches(e, req.verb, req.path)
    requires Gates(setup.env, RouteOf(e).guard, req, db, now) == Next(ctx)
    ensures Serve(setup, req, db, now, newId)
            == Run(setup, e, Match(RouteOf(e).pattern, req.path).value, ctx, req.body, db, now, newId)
  {
    RouteUnique(e, req.verb, req.path);
  }

  /** The device listings with neither an admin gate nor an ownership check:
      any caller past the session gate gets the same reply an admin gets. */
  lemma ListingsOpenToAnySession(setup: Setup, req: Request, db: Db, now: int, newId: Uuid, siteId: string)
    requires SessionGate(setup.env, req.cookies, map[], db, now).Next?
    requires siteId != ""
    ensures req.verb == Get && req.path == ["devices"] ==>
              Serve(setup, req, db, now, newId).reply == DeviceFetchAll(db)
    ensures req.verb == Get && req.path == ["sites", siteId, "devices"] ==>
              Serve(setup, req, db, now, newId).reply == DeviceFetchBySiteId(setup.env, siteId, db)
  {
    if req.verb == Get && req.path == ["devices"] {
      AllDevicesServed(setup, req, db, now, newId);
    }
    if req.verb == Get && req.path == ["sites", siteId, "devices"] {
      SiteDevicesServed(setup, req, db, now, newId, siteId);
    }
  }

  lemma AllDevicesServed(setup: Setup, req: Request, db: Db, now: int, newId: Uuid)
    requires SessionGate(setup.env, req.cookies, map[], db, now).Next?
    requires req.verb == Get && req.path == ["devices"]
    ensures Serve(setup, req, db, now, newId).reply == DeviceFetchAll(db)
  {
    var ctx := SessionGate(setup.env, req.cookies, map[], db, now).ctx;
    ServedBy(setup, ListDevices, req, db, now, newId, ctx);
  }

  lemma SiteDevicesServed(setup: Setup, req: Request, db: Db, now: int, newId: Uuid, siteId: string)
    requires SessionGate(setup.env, req.cookies, map[], db, now).Next?
    requires siteId != "" && req.verb == Get && req.path == ["sites", siteId, "devices"]
    ensures Serve(setup, req, db, now, newId).reply == DeviceFetchBySiteId(setup.env, siteId, db)
  {
    var ctx := SessionGate(setup.env, req.cookies, map[], db, now).ctx;
    SiteDevicesPath(siteId);
    ServedBy(setup, ListSiteDevices, req, db, now, newId, ctx);
  }

  lemma SiteDevicesPath(id: string)
    requires id != ""
    ensures Reaches(ListSiteDevices, Get, ["sites", id, "devices"])
    ensures Arg(Match(RouteOf(ListSiteDevices).pattern, ["sites", id, "devices"]).value, "site_id") == id
  {
    assert ParamsDistinct(RouteOf(ListSiteDevices).pattern);
  }

  // ---------------------------------------------------------------------------
  // A customer's session, from issuance to use

  /** What a successful issuance establishes: the customer it was issued for,
      a non-empty token the library verifies back to that customer's claims at
      any time, and a stored live record of it. */
  lemma IssuanceFacts(env: Env, body: Json, db: Db, now: int, newId: Uuid) returns (c: Customer, token: string)
    requires Valid(db) && TokenLibraryLaws(env)
    requires GenerateToken(env, body, db, now, newId).reply.code == 200
    ensures RequestAccepted(env, body) && c in db.customers && c.Live() && c.id == Member(body, "customer_id")
    ensures token != ""
    ensures GenerateToken(env, body, db, now, newId).reply.body.Envelope?
    ensures GenerateToken(env, body, db, now, newId).reply.body.data
            == IssuedToken(TokenView(c.id, c.fields.name, Member(body, "action"), token))
    ensures forall later :: ValidateJwt(env, token, later) == Some(UserClaims(c, Member(body, "action"), now))
    ensures NewRow(newId, now, TokenCols(c.id, Member(body, "action"), token))
            in GenerateToken(env, body, db, now, newId).db.tokens
    ensures forall x :: x in GenerateToken(env, body, db, now, newId).db.tokens ==>
              x in db.tokens || x == NewRow(newId, now, TokenCols(c.id, Member(body, "action"), token))
    ensures GenerateToken(env, body, db, now, newId).db.customers == db.customers
  {
    var o := GenerateToken(env, body, db, now, newId);
    c := FetchCustomerById(db, Member(body, "customer_id")).value;
    var claims := UserClaims(c, Member(body, "action"), now);
    token := env.sign(claims, env.jwtSecret);
    var record := NewRow(newId, now, TokenCols(c.id, Member(body, "action"), token));
    assert env.verify(env.sign(claims, env.jwtSecret), env.jwtSecret, now) == Some(claims);
    forall x
      ensures x in o.db.tokens <==> x in db.tokens || x == record
    {
      InsertMember(db.tokens, record, x);
    }
    forall later
      ensures ValidateJwt(env, token, later) == Some(claims)
    {
      assert env.verify(env.sign(claims, env.jwtSecret), env.jwtSecret, later) == Some(claims);
    }
  }

  /** An issued customer token authenticates: the handler sets it as the session cookie. */
  lemma IssuedTokenAuthenticates(env: Env, body: Json, db: Db, now: int, newId: Uuid, later: int)
    requires Valid(db) && TokenLibraryLaws(env)
    requires GenerateToken(env, body, db, now, newId).reply.code == 200
    ensures var o := GenerateToken(env, body, db, now, newId);
            var token := o.reply.body.data.record.token;
            var r := AuthenticateHandler(env, Object(map["token" := token]), o.db, later);
            r.code == 200 && r.cookie == Some(SessionCookie(token))
  {
    var o := GenerateToken(env, body, db, now, newId);
    var c, token := IssuanceFacts(env, body, db, now, newId);
    var record := NewRow(newId, now, TokenCols(c.id, Member(body, "action"), token));
    var i :| 0 <= i < |o.db.tokens| && o.db.tokens[i] == record;
    assert HasStoredToken(o.db, token);
    assert Member(Object(map["token" := token]), "token") == token;
  }

  /** With that cookie the session gate lets the customer in, binding its id as
      `customer_id` and the role "user", and never binding `user_id`. This needs
      the records already stored for the same customer and action to hold
      tokens, as every record issuance stores does. */
  lemma IssuedTokenOpensSession(env: Env, body: Json, db: Db, now: int, newId: Uuid, later: int)
    requires Valid(db) && TokenLibraryLaws(env)
    requires GenerateToken(env, body, db, now, newId).reply.code == 200
    requires ScopeTokensSet(db, Member(body, "customer_id"), Member(body, "action"))
    ensures var o := GenerateToken(env, body, db, now, newId);
            var s := SessionGate(env, map["Authorization" := o.reply.body.data.record.token], map[], o.db, later);
            && s.Next?
            && GetString(s.ctx, "customer_id") == Member(body, "customer_id")
            && GetString(s.ctx, "role") == "user"
            && "user_id" !in s.ctx
  {
    var o := GenerateToken(env, body, db, now, newId);
    var c, token := IssuanceFacts(env, body, db, now, newId);
    var action := Member(body, "action");
    var record := NewRow(newId, now, TokenCols(c.id, action, token));
    AddedRecordKeepsScopeSet(db, o.db, record);
    var claims := UserClaims(c, action, now);
    assert ValidateJwt(env, token, later) == Some(claims);
    var s := SessionGate(env, map["Authorization" := token], map[], o.db, later);
    assert s.Next? && s.ctx == Bind(map[], claims);
  }

  /** A minted admin token works wherever the admin role is asked for, whatever
      the store holds: it validates at any later time to the admin claims, logs
      in, and passes the session gate with role "admin", so the admin-only gate
      lets it through as well. */
  lemma MintedAdminTokenAdmits(env: Env, newId: Uuid, now: int, db: Db, later: int)
    requires TokenLibraryLaws(env)
    requires GenerateAdminToken(env, newId, now).code == 200
    ensures var token := GenerateAdminToken(env, newId, now).body.data.token;
            var s := SessionGate(env, map["Authorization" := token], map[], db, later);
            && ValidateJwt(env, token, later) == Some(AdminClaims(newId, now))
            && AuthenticateHandler(env, Object(map["token" := token]), db, later).code == 200
            && s.Next? && GetString(s.ctx, "role") == "admin" && GetString(s.ctx, "customer_id") == newId
            && AdminOnly(s.ctx).Next?
  {
    var claims := AdminClaims(newId, now);
    var token := env.sign(claims, env.jwtSecret);
    assert env.verify(env.sign(claims, env.jwtSecret), env.jwtSecret, later) == Some(claims);
    assert Member(Object(map["token" := token]), "token") == token;
  }

  /** A non-admin session bound to a customer reads that customer's record. */
  lemma SessionReadsOwnCustomer(setup: Setup, req: Request, db: Db, now: int, newId: Uuid, id: string)
    requires req.verb == Get && req.path == ["customers", id]
    requires setup.env.isValidUuid(id) && LiveId(db.customers, id)
    requires var s := SessionGate(setup.env, req.cookies, map[], db, now);
             s.Next? && GetString(s.ctx, "customer_id") == id
    ensures Serve(setup, req, db, now, newId).reply.code == 200
  {
    var ctx := SessionGate(setup.env, req.cookies, map[], db, now).ctx;
    assert id != "" by {
      var k :| 0 <= k < |db.customers| && db.customers[k].id == id && db.customers[k].Live();
    }
    assert ParamsDistinct(RouteOf(GetCustomer).pattern);
    assert Arg(Match(RouteOf(GetCustomer).pattern, req.path).value, "customer_id") == id;
    ServedBy(setup, GetCustomer, req, db, now, newId, ctx);
    assert Serve(setup, req, db, now, newId).reply == CustomerFetchById(setup.env, ctx, id, db);
  }

  lemma SitesPath(id: string)
    requires id != ""
    ensures Reaches(ListCustomerSites, Get, ["customers", id, "sites"])
    ensures Arg(Match(RouteOf(ListCustomerSites).pattern, ["customers", id, "sites"]).value, "customer_id") == id
  {
    assert ParamsDistinct(RouteOf(ListCustomerSites).pattern);
  }

  /** A request for a customer's site list that passes the session gate is answered by the site-list handler. */
  lemma SitesServed(setup: Setup, req: Request, db: Db, now: int, newId: Uuid, id: string, ctx: Ctx)
    requires req.verb == Get && req.path == ["customers", id, "sites"] && id != ""
    requires Gates(setup.env, RouteOf(ListCustomerSites).guard, req, db, now) == Next(ctx)
    ensures Serve(setup, req, db, now, newId).reply == SiteFetchByCustomerId(setup.env, ctx, id, db)
  {
    SitesPath(id);
    var params := Match(RouteOf(ListCustomerSites).pattern, req.path).value;
    ServedBy(setup, ListCustomerSites, req, db, now, newId, ctx);
    RunsSiteListing(setup, params, ctx, req.body, db, now, newId);
  }

  lemma RunsSiteListing(setup: Setup, params: map<string, string>, ctx: Ctx, body: Json, db: Db, now: int, newId: Uuid)
    ensures Run(setup, ListCustomerSites, params, ctx, body, db, now, newId).reply
            == SiteFetchByCustomerId(setup.env, ctx, Arg(params, "customer_id"), db)
  {
    var c := Call(setup, params, ctx, body, db, now, newId);
    assert HandlerOf(ListCustomerSites)(c) == Read(SiteFetchByCustomerId(setup.env, ctx, Arg(params, "customer_id"), db), db);
  }

  /** A non-admin session is refused the site list of a live customer, its own included. */
  lemma SessionRefusedOwnSites(setup: Setup, req: Request, db: Db, now: int, newId: Uuid, id: string)
    requires req.verb == Get && req.path == ["customers", id, "sites"]
    requires setup.env.isValidUuid(id) && LiveId(db.customers, id)
    requires var s := SessionGate(setup.env, req.cookies, map[], db, now);
             s.Next? && GetString(s.ctx, "role") != "admin"
    ensures Serve(setup, req, db, now, newId).reply.code == 403
  {
    var ctx := SessionGate(setup.env, req.cookies, map[], db, now).ctx;
    GatesNeverBindUserId(setup.env, req.headers, req.cookies, map[], db, now);
    assert id != "" by {
      var k :| 0 <= k < |db.customers| && db.customers[k].id == id && db.customers[k].Live();
    }
    assert Gates(setup.env, RouteOf(ListCustomerSites).guard, req, db, now) == Next(ctx);
    SitesServed(setup, req, db, now, newId, id, ctx);
    OnlyAdminListsCustomerSites(setup.env, ctx, id, db);
  }

  /** The session a customer's token opens reads the customer's own record, yet
      is refused the customer's own site list: that handler checks `user_id`,
      which no gate binds. */
  lemma CustomerSessionReach(setup: Setup, body: Json, db: Db, now: int, newId: Uuid, later: int, newId': Uuid,
                             uri: string, headers: Headers)
    requires Valid(db) && TokenLibraryLaws(setup.env)
    requires GenerateToken(setup.env, body, db, now, newId).reply.code == 200
    requires ScopeTokensSet(db, Member(body, "customer_id"), Member(body, "action"))
    ensures var o := GenerateToken(setup.env, body, db, now, newId);
            var cookies := map["Authorization" := o.reply.body.data.record.token];
            var id := Member(body, "customer_id");
            && Serve(setup, Request(Get, ["customers", id], uri, headers, cookies, Malformed), o.db, later, newId')
                 .reply.code == 200
            && Serve(setup, Request(Get, ["customers", id, "sites"], uri, headers, cookies, Malformed), o.db, later, newId')
                 .reply.code == 403
  {
    var env := setup.env;
    var o := GenerateToken(env, body, db, now, newId);
    var c, token := IssuanceFacts(env, body, db, now, newId);
    IssuedTokenOpensSession(env, body, db, now, newId, later);
    var cookies := map["Authorization" := token];
    var id := Member(body, "customer_id");
    assert LiveId(o.db.customers, id) by {
      var k :| 0 <= k < |db.customers| && db.customers[k] == c;
    }
    SessionReadsOwnCustomer(setup, Request(Get, ["customers", id], uri, headers, cookies, Malformed), o.db, later, newId', id);
    SessionRefusedOwnSites(setup, Request(Get, ["customers", id, "sites"], uri, headers, cookies, Malformed), o.db, later, newId', id);
  }
}
