# devices-api-server: a Dafny model of the HTTP core

devices-api-server is a small HTTPS service over a PostgreSQL store. It keeps
three tables that form a hierarchy: customers own sites, and sites hold
devices. A fourth table holds issued session tokens. Over these tables the
server offers:

- create, list, fetch, update and soft-delete handlers for each entity;
- two admin endpoints, guarded by a shared secret, that mint JWTs;
- a login endpoint that turns a JWT into a session cookie;
- a router that puts gates in front of each handler: the admin-secret check,
  the session check and the admin-only check.

This project models that core as pure Dafny functions. The state is one
`Db` value with four tables. Each handler is a function from its inputs to
an `Outcome`, which pairs the reply (status, JSON envelope, optional cookie)
with the store afterwards. The router, `Server.Serve`, is one function from
a request and the store to an `Outcome`. Dafny proves the contracts and
lemmas stated about these functions.

Files, one module each:

- `base.dfy`: `Option`, `Result`, the UUID text type, and the id order the
  tables keep.
- `tables.dfy`: a table is a sequence of rows in primary-key order.
  - Each row has a soft-delete marker.
  - The operations are the ORM's `First`, `Find`, `Create`, `Save` and
    updates, under `Scoped` (live rows only) or `Unscoped` (all rows).
- `models.dfy`: the four tables, the row-level writes (create, restore,
  save, soft delete) and the query predicates the handlers use.
- `utils.dfy`: the response envelope, the validators, JWT issue and
  validation.
  - Signing and verification are opaque functions of an `Env` value.
  - The ghost `TokenLibraryLaws` states that what is signed with the
    secret verifies back to the same claims.
- `customers.dfy`, `sites.dfy`, `devices.dfy`: the entity handlers.
- `authenticate.dfy`, `admin.dfy`: login, and token minting and issuance.
- `middleware.dfy`: the three gates.
- `server.dfy`: the route table, path matching, dispatch, and the 404/405
  envelopes.

Things the model makes explicit:

- **Nothing binds `user_id`.** The session gate binds `customer_id`, `role`
  and `action` (`internal/server/middleware.go:108-111`). The site and device
  handlers check ownership against `user_id`
  (`internal/server/handlers/sites.go:126`, `:174`,
  `internal/server/handlers/devices.go:224`, `:346`). A missing context key
  reads as the empty string, so every non-admin caller gets 403 from those
  handlers, including for the caller's own records. The model keeps this
  behaviour as written:
  - `Sites.OnlyAdminFetchesSite`, `Sites.OnlyAdminListsCustomerSites` and
    `Devices.OnlyAdminSeesDevices` state it per handler.
  - `Server.CustomerSessionReach` traces it end to end. A customer's issued
    token reads the customer's own record, yet is refused the customer's
    own site list.
- **Soft deletes.** Every delete only sets `deleted_at`. Lookups by name and
  by serial number are unscoped, so they still find deleted rows:
  - a create with a deleted row's name restores that row;
  - a deleted device can still be fetched, updated and deleted again.
- **Wrong method gives 404, not 405.** The code registers a
  method-not-allowed handler (`r.NoMethod(methodNotAllowedHandler())`, under
  the comment "Handle 405 (Method Not Allowed)",
  `internal/server/server.go:62-63`; the handler is at `:141-147`). But
  `gin.New()` (`:53`) leaves the router's `HandleMethodNotAllowed` false, so
  that handler never runs: a known path under another method falls through
  to the not-found handler and gets 404. The model follows the code:
  - `Setup.handleMethodNotAllowed` is the router's flag, and the server as
    built has it off;
  - `Server.NoRoute` gives 405 only when the flag is on;
  - every lemma about unrouted requests concludes 404 whenever the flag is off.

## Model

| member | source | states |
|---|---|---|
| ServerUtils.WriteJson | internal/server/utils/utils.go:18-24 | the success envelope: its `status` equals the HTTP code; it has no `error` key, and has a `data` key exactly when the payload is non-empty (`omitempty`) |
| ServerUtils.WriteError | internal/server/utils/utils.go:48-61 | the error envelope: status equals the code; it has no `data` key, and has an `error` key exactly when the error text is non-empty |
| ServerUtils.IsValidString | internal/server/utils/utils.go:158-162 | a name is valid exactly when it has 3 to 20 characters, each a letter, digit, underscore or space |
| ServerUtils.IsValidRole | internal/server/utils/utils.go:164-172 | a role is valid exactly when it is in the configured role list |
| ServerUtils.IsValidAction | internal/server/utils/utils.go:174-182 | an action is valid exactly when it is in the configured action list |
| ServerUtils.GenerateJwt | internal/server/utils/utils.go:68-111 | the checks run in source order (user id, username, role, action, secret), each with its own error. It issues exactly when all pass and the secret is set. Issued claims carry the inputs, issuer "Rubicon BMS" and the issue time; an expiring token gets an expiry 30 days after issue; the token is the claims signed with the secret |
| ServerUtils.ValidateJwt | internal/server/utils/utils.go:113-137 | with no secret configured, every token is refused; otherwise the token library's verdict under the secret is returned |
| Customers.FetchCustomerById | internal/server/handlers/customers.go:200-208 | the scoped lookup finds a record exactly when a live customer with that id exists, and then returns that live row |
| Customers.FetchCustomerByName | internal/server/handlers/customers.go:210-217 | the unscoped lookup finds nothing exactly when no row, deleted or not, has the name; otherwise it returns the first such row in key order |
| Customers.CustomerCreate | internal/server/handlers/customers.go:26-71 | an unnamed or malformed body is 400 with the store unchanged; codes are 200/201/400/500; only customers change; key order is kept |
| Customers.CreateInserts | internal/server/handlers/customers.go:45-54 | with no row of that name, 201 "Customer created": exactly one row is added, and it is afterwards the only row with the name |
| Customers.CreateRestores | internal/server/handlers/customers.go:56-67 | when the first row with the name is soft-deleted, 200 "Customer restored": that row gets its marker cleared and both timestamps reset, and it keeps its id |
| Customers.CreateRejectsLive | internal/server/handlers/customers.go:69-70 | when the first row with the name is live, 400 "Customer already exists" and nothing changes |
| Customers.CreateKeepsNamesUnique | internal/server/handlers/customers.go:39-70 | create never produces two rows, live or deleted, with one name |
| Customers.CreateTwiceRejected | internal/server/handlers/customers.go:26-71 | after a successful create, repeating the same request is rejected with 400 and changes nothing |
| Customers.CustomerFetchAll | internal/server/handlers/customers.go:74-92 | 200 with exactly the views of the live customers: every listed view comes from a live row, and every live row is listed |
| Customers.CustomerFetchById | internal/server/handlers/customers.go:95-125 | 400 for a bad UUID; 403 when a non-admin's bound `customer_id` differs from the path id; otherwise 200 exactly when the customer is live (else 404), and a 200 carries exactly that live customer's view |
| Customers.CustomerUpdate | internal/server/handlers/customers.go:128-167 | 403 for a non-admin; 400 for a bad id or body; 200 exactly when the customer is live (else 404); on 200 exactly the live row with that id is renamed and every other row stays as it was |
| Customers.CustomerDelete | internal/server/handlers/customers.go:170-195 | 403 for a non-admin; 400 for a bad id; otherwise 200 whether or not the customer exists, with exactly the live row of that id soft-deleted |
| Customers.DeleteHidesCustomer | internal/server/handlers/customers.go:170-195 | after an admin delete, no live customer has the id |
| Customers.DeletedCustomerNotFound | internal/server/handlers/customers.go:95-125 | fetching a customer an admin has just deleted gives 404 to anyone allowed to ask |
| Customers.DeleteThenCreateRestoresIdentity | internal/server/handlers/customers.go:26-71 | create, then delete, then create again with the same name restores the original id rather than minting a new one |
| Sites.FetchSiteById | internal/server/handlers/sites.go:294-302 | finds a site exactly when a live site with that id exists |
| Sites.FetchSiteByName | internal/server/handlers/sites.go:304-311 | the unscoped lookup by name gives the first row with the name, deleted or not |
| Sites.PreloadedOwner | internal/server/handlers/sites.go:296 | the preloaded customer is the live owner when there is one; otherwise it is the zero record (nil id, empty name) |
| Sites.SiteCreate | internal/server/handlers/sites.go:28-92 | 400 for a bad customer id or body; 404 for a missing customer; a 200 names the path's customer; only sites change; key order is kept |
| Sites.SiteCreateInserts | internal/server/handlers/sites.go:60-74 | with a live customer and no row of that name, 200 "Site created" with the new id, the name and the customer's id and name; exactly one row, owned by that customer, is added, and it is afterwards the only row with the name |
| Sites.SiteCreateRejectsLive | internal/server/handlers/sites.go:60-91 | when the first row with the name is live, 400 "Site already exists" and nothing changes |
| Sites.RestoreKeepsOwner | internal/server/handlers/sites.go:77-88 | restoring a deleted site through another customer's path reports the path's customer, but the stored owner is unchanged |
| Sites.SiteFetchAll | internal/server/handlers/sites.go:96-120 | 500 "Failed to fetch customer" exactly when some live site's owner is not live; otherwise 200 with one view per live site, each carrying its owner's name |
| Sites.ListingSound | internal/server/handlers/sites.go:96-120 | every listed view is a live site with its live owner's name |
| Sites.ListingComplete | internal/server/handlers/sites.go:96-120 | every live site is listed |
| Sites.ListingFailsOnOrphan | internal/server/handlers/sites.go:108-117 | the listing fails exactly when some live site has no live owner |
| Sites.SiteFetchById | internal/server/handlers/sites.go:124-168 | 400 for a bad id; 404 "Site not found" for a missing site; 403 only for a non-admin; a 200 carries a live site with a live owner, and only for an admin or the owner's `user_id` |
| Sites.AdminFetchesSite | internal/server/handlers/sites.go:141-167 | for a live site whose owner is not live, 404 "Customer not found"; with a live owner, an admin gets 200 with the site's id, name, owner id and owner name |
| Sites.OnlyAdminFetchesSite | internal/server/handlers/sites.go:124-168 | with no `user_id` bound, a non-admin never gets 200, and gets 403 for a live site with a live owner |
| Sites.SiteFetchByCustomerId | internal/server/handlers/sites.go:172-218 | 400 for a bad id; 404 for a missing customer; 403 only for a non-admin; for a valid id, an admin gets 200 exactly when the customer is live; a 200 lists the customer's live sites, and only for an admin or a caller whose `user_id` is that customer |
| Sites.AdminListsCustomerSites | internal/server/handlers/sites.go:189-217 | an admin asking for a live customer's sites gets 200 with exactly that customer's site list |
| Sites.OwnedViewsSound | internal/server/handlers/sites.go:205-217 | every view in a customer's site list is a live site of that customer |
| Sites.OwnedViewsComplete | internal/server/handlers/sites.go:205-217 | every live site of the customer is in the list |
| Sites.OnlyAdminListsCustomerSites | internal/server/handlers/sites.go:172-218 | with no `user_id` bound, a non-admin gets 403 for any live customer and never gets 200 |
| Sites.SiteUpdate | internal/server/handlers/sites.go:222-257 | 200 exactly when the site is live (else 404, or 400 for a bad id or body); on 200 only that row is renamed |
| Sites.SiteDelete | internal/server/handlers/sites.go:261-289 | 200 exactly when the site is live (else 404, or 400 for a bad id); on 200 only that row is soft-deleted |
| Sites.DeletedSiteGone | internal/server/handlers/sites.go:222-289 | after a delete the site is not live, and deleting or renaming it again gives 404 |
| Devices.FetchDeviceBySerial | internal/server/handlers/devices.go:477-484 | the unscoped lookup finds the first row with the serial, deleted or not, and finds nothing exactly when no row has it |
| Devices.Preload | internal/server/handlers/devices.go:187 | the preloaded site and customer are the visible rows the ids name; a missing one is the zero record |
| Devices.DeviceCreate | internal/server/handlers/devices.go:45-176 | the checks run in order: 400 body, 400 customer id, 400 site id, 404 customer, 404 site. A 403 means the live site belongs to another customer. A 200 requires a live customer and a live site it owns, and reports the body's serial. Only devices change |
| Devices.PlaceDevice | internal/server/handlers/devices.go:100-175 | 400 exactly when the first row with the serial is live; a 200 reports the given customer, site and serial |
| Devices.PlaceDeviceInserts | internal/server/handlers/devices.go:100-139 | with no row of that serial, 200 "Device created" with the view of the new row; exactly one row, at the given site with the body's columns, is added, and it is afterwards the only row with the serial |
| Devices.DeviceCreateInserts | internal/server/handlers/devices.go:45-139 | with a live customer, a live site it owns and a new serial, 200 "Device created" with the new id, the body's columns, the customer and the site; exactly that row is added |
| Devices.DeviceCreateRefusesForeignSite | internal/server/handlers/devices.go:95-98 | a live site owned by another customer gives 403 and nothing changes |
| Devices.RestoreKeepsSite | internal/server/handlers/devices.go:142-172 | restoring a deleted device clears its marker. It keeps its stored site and columns, although the reply names the requested site |
| Devices.DeviceFetchAll | internal/server/handlers/devices.go:180-218 | 500 exactly when some live device's site has no live owner; otherwise 200 listing every live device, each with its site and owner |
| Devices.FullListingFails | internal/server/handlers/devices.go:192-198 | the full listing fails exactly when some live device has no live customer behind its site |
| Devices.SiteDeleteBreaksDeviceListing | internal/server/handlers/sites.go:261-289 | deleting a site that still holds a live device makes the full device listing fail with 500 |
| Devices.DeviceFetchByCustomerId | internal/server/handlers/devices.go:222-277 | 400 for a bad id; 404 for a missing customer; 403 only for a non-admin; for a valid id, an admin gets 200 exactly when the customer is live; a 200 lists every live device on any of the customer's sites, deleted sites included, and only for an admin or the customer's `user_id` |
| Devices.CustomerListingKeepsOrphans | internal/server/handlers/devices.go:251-274 | a live device on a deleted site of the customer is still listed, with a nil site id |
| Devices.DeviceFetchBySiteId | internal/server/handlers/devices.go:281-340 | 200 exactly when the site is live (else 404, or 400 for a bad id); it lists every live device at that site |
| Devices.DeviceFetchBySerialNumber | internal/server/handlers/devices.go:344-388 | 404 exactly when no row, deleted or not, has the serial; an admin gets 200 exactly when some row has it; a 200 is the first such row's view, given only to an admin or the owner's `user_id` |
| Devices.OnlyAdminSeesDevices | internal/server/handlers/devices.go:222-388 | with no `user_id` bound, a non-admin never gets 200 from the fetch by serial or the customer's device list |
| Devices.DeviceUpdate | internal/server/handlers/devices.go:392-445 | 400 for a malformed body; 404 exactly when no row has the serial; on 200 the first such row is overwritten with the body's columns, whatever its delete marker |
| Devices.UpdateThenFetch | internal/server/handlers/devices.go:392-445 | after an update, fetching by the new serial returns the same device with the body's columns |
| Devices.DeviceDelete | internal/server/handlers/devices.go:449-472 | 404 exactly when no row has the serial; on 200 the found row is soft-deleted by id |
| Devices.DeletedDeviceStillFetched | internal/server/handlers/devices.go:449-484 | a fetch by serial after a delete gives the same reply as before it |
| Devices.DeleteIdempotent | internal/server/handlers/devices.go:449-472 | a second delete of the same serial gives the same code and leaves the store as the first left it |
| Authenticate.SessionCookie | internal/server/handlers/authenticate.go:56-57 | the cookie is "Authorization", holds the token, lives 86400 seconds, has path "/", and is HTTP-only and SameSite=Lax but not secure |
| Authenticate.StoredTokenFound | internal/server/handlers/authenticate.go:46-52 | for a non-empty token, the lookup's loaded text is non-empty exactly when a live stored record has that token |
| Authenticate.AuthenticateHandler | internal/server/handlers/authenticate.go:14-60 | 400 for a malformed body or an empty token; 401 "Invalid token" for a token that fails validation; 200 "Token validated" with the session cookie exactly when the token is an admin's or is stored; otherwise 401 "Token not found". No cookie is set on failure |
| Authenticate.RevokedTokenRefused | internal/server/handlers/authenticate.go:44-53 | a non-admin token with no stored record is refused with 401 |
| Admin.GenerateAdminToken | internal/server/handlers/admin.go:14-26 | 200 exactly when the new id is a UUID, "admin" is a role, "ADMIN" is an action and the secret is set; the token signs admin claims without expiry; the missing-secret 500 names the variable |
| Admin.GenerateToken | internal/server/handlers/admin.go:28-109 | the 400s in source order; 404 for a missing customer; 500 when the customer's name, the "user" role or the secret blocks issuance, or the record cannot be saved. On 200 the signed user claims are returned and exactly that record is inserted. Nothing else changes |
| Admin.InvalidNameNeverIssued | internal/server/handlers/admin.go:81-86 | a customer whose name fails the name check never gets a token, and the store is unchanged |
| Middleware.AdminGate | internal/server/middleware.go:40-59 | passes exactly when the `Admin-Secret` header equals the configured secret; otherwise the bare 401 "Invalid admin secret" |
| Middleware.AdminOnly | internal/server/middleware.go:61-69 | passes exactly when the bound role is "admin"; otherwise 403 "Only admins can perform this action" |
| Middleware.Bind | internal/server/middleware.go:108-111 | binds exactly `customer_id` (from the claims' user id), `role` and `action`, keeping every other key |
| Middleware.SessionGate | internal/server/middleware.go:71-112 | 401 with no cookie, then 401 for an invalid token. An admin always passes. A non-admin passes only with a stored token for its customer and action, else 401 "Token not found". On passing, the claims are bound |
| Middleware.ScopeLookup | internal/server/middleware.go:97-105 | the lookup's loaded token text is non-empty only when a live record for that customer and action exists; with stored tokens non-empty, also the reverse |
| Middleware.AddedRecordKeepsScopeSet | internal/server/handlers/admin.go:87-98 | storing one more live record with non-empty token text gives its customer and action a scope, and keeps every record of that scope holding a token |
| Middleware.GatesNeverBindUserId | internal/server/middleware.go:40-112 | no gate adds `user_id` to the context |
| Server.Match | internal/server/server.go:117-136 | a path matches a pattern exactly when it fits piece by piece; each parameter is bound to its piece |
| Server.FindRoute | internal/server/server.go:99-136 | the route found is the first registered endpoint of that method whose pattern fits, and none is found exactly when nothing fits |
| Server.RoutesApart | internal/server/server.go:99-136 | no two endpoints of one method can fit the same path |
| Server.RouteUnique | internal/server/server.go:99-136 | a request that fits an endpoint's method and pattern is routed to exactly that endpoint |
| Server.RoutePrefixes | internal/server/server.go:99-136 | the admin-secret gate guards exactly the `/admin` paths, and the session gate exactly the `/customers`, `/sites` and `/devices` paths |
| Server.WritesNeedAdmin | internal/server/server.go:104-136 | every endpoint that writes the store sits behind the admin secret or the admin-only gate |
| Server.Gates | internal/server/server.go:101-136 | an open route always passes and binds nothing; an admin-secret route passes exactly when the header equals the secret, and binds nothing; a session route needs the cookie (else 401 "Please authenticate first") and binds exactly the validated token's claims; an admin-only route passes only with role "admin"; no gate binds `user_id` |
| Server.HandlerOf | internal/server/server.go:99-136 | the handler registered for each endpoint; the handler of an endpoint that only reads never changes the store |
| Server.Run | internal/server/server.go:99-136 | each endpoint dispatches to its handler with its path parameters; endpoints that only read leave the store unchanged |
| Server.NoRoute | internal/server/server.go:140-157 | 405 "Method Not Allowed: (M) - 'uri'" exactly when the router's method-not-allowed flag is set and another method's route fits; otherwise 404 "Route Not Found: (M) - 'uri'" |
| Server.Serve | internal/server/server.go:53-66 | an unrouted request changes nothing and gets 404 (405 only with method-not-allowed handling on); a request that changes the store was routed to a writing endpoint and passed its gates |
| Server.OnlyAdminsWrite | internal/server/server.go:101-136 | a request that changes the store carries the admin secret on an `/admin` path, or an admin session |
| Server.GuardOfPath | internal/server/server.go:101-136 | a route taking a `/customers`, `/sites` or `/devices` path is behind the session gate, and one taking an `/admin` path is behind the admin secret |
| Server.SessionRequired | internal/server/server.go:111-136 | with no session cookie, any `/customers`, `/sites` or `/devices` request gets 401 "Please authenticate first" whenever a route takes it, and otherwise 404 (405 only with method-not-allowed handling on); the store is unchanged |
| Server.AdminSecretRequired | internal/server/server.go:101-106 | without the admin secret, any `/admin` request gets the bare 401 whenever a route takes it, and otherwise 404 (405 only with method-not-allowed handling on); the store is unchanged |
| Server.ListingsOpenToAnySession | internal/server/server.go:131-133 | any session, admin or not, gets the full device list and any site's device list |
| Server.MintedAdminTokenAdmits | internal/server/handlers/admin.go:15-26 | a freshly minted admin token validates to the admin claims at any later time, logs in with 200, and passes the session and admin-only gates binding role "admin" and the new id |
| Server.IssuanceFacts | internal/server/handlers/admin.go:28-109 | a 200 issuance returns a non-empty token that validates to the customer's user claims at any later time, and stores exactly one new record |
| Server.IssuedTokenAuthenticates | internal/server/handlers/authenticate.go:14-60 | a token just issued for a customer logs in: 200 with that token as the session cookie |
| Server.IssuedTokenOpensSession | internal/server/middleware.go:71-112 | the issued token passes the session gate, binding the customer's id as `customer_id` and the role "user", and never `user_id` |
| Server.SessionReadsOwnCustomer | internal/server/handlers/customers.go:95-125 | a non-admin session bound to a live customer reads that customer's record |
| Server.SessionRefusedOwnSites | internal/server/handlers/sites.go:172-218 | a non-admin session is refused (403) the site list of any live customer, its own included |
| Server.CustomerSessionReach | internal/server/server.go:117-123 | end to end: a customer's issued token reads the customer's own record (200), but is refused the customer's own site list (403) |

## Left out

- Cryptography: HMAC signing and verification are the opaque `sign`/`verify` functions of `Env`. The laws assumed of them are the ghost `TokenLibraryLaws`. Beyond those laws, no signature property is modelled.
- UUID parsing: `isValidUuid` is a parameter. Stored ids are 36-character texts, and path ids are compared as strings; the database's UUID casting is not modelled.
- Fresh ids (`uuid.New`, database defaults), the clock and the environment variables are parameters: `newId`, `now`, `Env`, `Setup`.
- The health handler (`internal/server/handlers/public.go:12-16`) reads the application name from configuration; here it is `Setup.appName`.
- The issued-token reply is the stored record with its preloaded customer. The model's `TokenView` keeps the customer id, customer name, action and token, and drops the record's own id and timestamps.
- The generic 500 branches for "database error", a failing query, or a failing write other than a key clash are left out. They depend on the database's runtime failures, which the model does not have. A key clash on create is modelled.
- Panics are left out: nil dereferences, and failed type assertions on claims. Recovery middleware would turn them into 500s.
- Logging and `loggingMiddleware` are left out, as are TLS setup, certificate checks and process lifecycle (`Start`). None of them affects a reply.
- Router details beyond the table are left out: trailing-slash redirects, percent-decoding, case-insensitive header names. A header is looked up by its exact name.
- The DeviceStatus table is left out: no modelled handler reads or writes it.
- The "Failed to fetch token details" branch of the token issuer is left out. Once the create succeeds, the preload it guards always finds the record.
- ORM behaviour is assumed, not derived:
  - a named-column update also refreshes `updated_at`;
  - a delete writes the marker only on live rows;
  - `Save` on an unscoped-fetched row overwrites every column;
  - preloads under `Unscoped()` are unscoped;
  - the device list's customer sub-select ignores soft deletes.
- Middleware.SessionGate: it proves that a non-admin with a stored token passes only when `ScopeTokensSet` holds, i.e. every record stored for that customer and action has non-empty token text. The source's lookup reads the first such record's text, and issuance always stores a non-empty token, so this holds for any store the server builds.
- Server.NoRoute: a 405 needs the router's method-not-allowed flag. With the flag off, as `gin.New()` leaves it, a known path under another method gets 404. The method-not-allowed handler registered at `internal/server/server.go:62-63` therefore never runs.
- JSON field names: `Member` binds a body field by its exact key. Go's `encoding/json` also matches a key case-insensitively when no exact match exists (`internal/server/handlers/customers.go:29`, `sites.go:39`, `devices.go:48`, `admin.go:35`, `authenticate.go:19`). A body such as `{"NAME": "x"}` therefore names a customer in the server but reads as unnamed here.
- Authenticate.SessionCookie: the router's `SetCookie` escapes the value with `url.QueryEscape`; that is not modelled, as it leaves the characters of a JWT unchanged.
