/** The three gates a request can pass before its handler runs, as decision
    functions: each either lets the request through with a (possibly extended)
    context or aborts it with the reply it writes. */
module Middleware {
  import opened Base
  import opened Tables
  import opened Models
  import opened ServerUtils

  datatype Step = Next(ctx: Ctx) | Abort(reply: Reply)

  /** Request headers, and request cookies, by name; a missing header reads as "". */
  type Headers = map<string, string>

  function Header(h: Headers, name: string): string
  {
    if name in h then h[name] else ""
  }

  /** `AdminMiddleware`: the `Admin-Secret` header must equal the configured
      secret exactly; otherwise a bare 401 body is written. */
  function AdminGate(env: Env, headers: Headers, ctx: Ctx): (s: Step)
    ensures s.Next? <==> Header(headers, "Admin-Secret") == env.adminSecret
    ensures s.Next? ==> s.ctx == ctx
    ensures s.Abort? ==> s.reply == Reply(401, Bare("Unauthorized", "Invalid admin secret"), None)
  {
    var secret := Header(headers, "Admin-Secret");
    if secret != env.adminSecret then Abort(Reply(401, Bare("Unauthorized", "Invalid admin secret"), None))
    else Next(ctx)
  }

  /** `AdminOnlyMiddleware`: only a context whose bound role is "admin" passes. */
  function AdminOnly(ctx: Ctx): (s: Step)
    ensures s.Next? <==> GetString(ctx, "role") == "admin"
    ensures s.Next? ==> s.ctx == ctx
    ensures s.Abort? ==> s.reply == WriteError(403, "Unauthorized", Text("Only admins can perform this action"))
  {
    if GetString(ctx, "role") != "admin" then
      Abort(WriteError(403, "Unauthorized", Text("Only admins can perform this action")))
    else Next(ctx)
  }

  /** The context after a session is accepted: `customer_id` from the token's
      subject, then `role` and `action`; nothing else is bound. */
  function Bind(ctx: Ctx, claims: Claims): (r: Ctx)
    ensures r.Keys == ctx.Keys + {"customer_id", "role", "action"}
    ensures GetString(r, "customer_id") == claims.userId
    ensures GetString(r, "role") == claims.role && GetString(r, "action") == claims.action
    ensures forall k :: k in ctx && k !in {"customer_id", "role", "action"} ==> r[k] == ctx[k]
  {
    ctx["customer_id" := claims.userId]["role" := claims.role]["action" := claims.action]
  }

  /** Some live stored record was issued for this customer and action. */
  ghost predicate HasScope(db: Db, customerId: string, action: string)
  {
    exists i :: 0 <= i < |db.tokens| && db.tokens[i].Live()
                && db.tokens[i].fields.customerId == customerId && db.tokens[i].fields.action == action
  }

  /** Every live stored record of this customer and action holds a non-empty token. */
  ghost predicate ScopeTokensSet(db: Db, customerId: string, action: string)
  {
    forall i :: 0 <= i < |db.tokens| && db.tokens[i].Live()
                && db.tokens[i].fields.customerId == customerId && db.tokens[i].fields.action == action
                ==> db.tokens[i].fields.token != ""
  }

  /** `AuthMiddleware`: a missing `Authorization` cookie and a token that does not
      validate are both 401; a non-admin token is then cross-checked against the
      store by (customer, action), not by its text: the first live record of
      that scope must hold a non-empty token. Admin tokens skip the store. */
  function SessionGate(env: Env, cookies: Headers, ctx: Ctx, db: Db, now: int): (s: Step)
    ensures "Authorization" !in cookies ==>
              s == Abort(WriteError(401, "Unauthorized", Text("Please authenticate first")))
    ensures "Authorization" in cookies && ValidateJwt(env, cookies["Authorization"], now).None? ==>
              s == Abort(WriteError(401, "Unauthorized", Text("Invalid token")))
    ensures s.Next? ==>
              && "Authorization" in cookies && ValidateJwt(env, cookies["Authorization"], now).Some?
              && var claims := ValidateJwt(env, cookies["Authorization"], now).value;
              && s.ctx == Bind(ctx, claims)
              && (claims.role == "admin" || HasScope(db, claims.userId, claims.action))
    ensures "Authorization" in cookies && ValidateJwt(env, cookies["Authorization"], now).Some? ==>
              var claims := ValidateJwt(env, cookies["Authorization"], now).value;
              && (claims.role == "admin" ==> s.Next?)
              && (claims.role != "admin" && !HasScope(db, claims.userId, claims.action) ==>
                    s == Abort(WriteError(401, "Unauthorized", Text("Token not found"))))
              && (HasScope(db, claims.userId, claims.action) && ScopeTokensSet(db, claims.userId, claims.action) ==>
                    s.Next?)
  {
    if "Authorization" !in cookies then
      Abort(WriteError(401, "Unauthorized", Text("Please authenticate first")))
    else
      match ValidateJwt(env, cookies["Authorization"], now)
      case None => Abort(WriteError(401, "Unauthorized", Text("Invalid token")))
      case Some(claims) =>
        ScopeLookup(db, claims.userId, claims.action);
        if claims.role != "admin"
           && FirstTokenText(db.tokens, TokenScope(claims.userId, claims.action)) == "" then
          Abort(WriteError(401, "Unauthorized", Text("Token not found")))
        else
          Next(Bind(ctx, claims))
  }

  /** The scope lookup yields a token only when a live record of the scope
      exists, and always yields one when every such record holds a token. */
  lemma ScopeLookup(db: Db, customerId: string, action: string)
    ensures FirstTokenText(db.tokens, TokenScope(customerId, action)) != "" ==> HasScope(db, customerId, action)
    ensures HasScope(db, customerId, action) && ScopeTokensSet(db, customerId, action) ==>
              FirstTokenText(db.tokens, TokenScope(customerId, action)) != ""
  {
    var t := db.tokens;
    var p := TokenScope(customerId, action);
    if FirstTokenText(t, p) != "" {
      var k := FirstIndex(t, Scoped, p).value;
      assert Hit(t[k], Scoped, p);
    }
    if HasScope(db, customerId, action) && ScopeTokensSet(db, customerId, action) {
      var i :| 0 <= i < |t| && t[i].Live() && t[i].fields.customerId == customerId && t[i].fields.action == action;
      assert Hit(t[i], Scoped, p);
      var k := FirstIndex(t, Scoped, p).value;
      assert Hit(t[k], Scoped, p);
    }
  }

  /** Storing one more live record that holds a token: its scope then has a
      record, and every live record of that scope still holds a token. */
  lemma AddedRecordKeepsScopeSet(db: Db, db': Db, record: AuthToken)
    requires record in db'.tokens && record.Live() && record.fields.token != ""
    requires forall x :: x in db'.tokens ==> x in db.tokens || x == record
    requires ScopeTokensSet(db, record.fields.customerId, record.fields.action)
    ensures HasScope(db', record.fields.customerId, record.fields.action)
    ensures ScopeTokensSet(db', record.fields.customerId, record.fields.action)
  {
    var t := db'.tokens;
    var customerId, action := record.fields.customerId, record.fields.action;
    var i :| 0 <= i < |t| && t[i] == record;
    forall j | 0 <= j < |t| && t[j].Live() && t[j].fields.customerId == customerId && t[j].fields.action == action
      ensures t[j].fields.token != ""
    {
      if t[j] != record {
        assert t[j] in db.tokens;
        var k :| 0 <= k < |db.tokens| && db.tokens[k] == t[j];
      }
    }
  }

  /** No gate binds `user_id`: a context that lacks it before the gates lacks it after. */
  lemma GatesNeverBindUserId(env: Env, headers: Headers, cookies: Headers, ctx: Ctx, db: Db, now: int)
    requires "user_id" !in ctx
    ensures AdminGate(env, headers, ctx).Next? ==> "user_id" !in AdminGate(env, headers, ctx).ctx
    ensures AdminOnly(ctx).Next? ==> "user_id" !in AdminOnly(ctx).ctx
    ensures SessionGate(env, cookies, ctx, db, now).Next? ==> "user_id" !in SessionGate(env, cookies, ctx, db, now).ctx
  {
  }
}
