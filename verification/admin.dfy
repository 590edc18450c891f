/** The admin-secret routes: minting an admin token, and issuing a customer's
    session token together with the stored record that later admits it. */
module Admin {
  import opened Base
  import opened Tables
  import opened Models
  import opened ServerUtils
  import opened Customers

  /** The claims of an admin token: a fresh subject, the fixed username "Admin",
      role "admin", action "ADMIN", no expiry. */
  function AdminClaims(userId: string, now: int): Claims
  {
    Claims(userId, "Admin", "admin", "ADMIN", Issuer, now, None)
  }

  /** `GenerateAdminTokenHandler`: 500 with the generator's reason when issuance
      fails, otherwise 200 carrying the signed admin token. Nothing is stored. */
  function GenerateAdminToken(env: Env, newId: Uuid, now: int): (r: Reply)
    ensures r.code in {200, 500}
    ensures r.code == 200 <==>
              env.isValidUuid(newId) && "admin" in env.roles && "ADMIN" in env.actions && env.jwtSecret != ""
    ensures r.code == 200 ==>
              && r.body.Envelope? && r.body.message == "Token generated successfully"
              && r.body.data == Token(env.sign(AdminClaims(newId, now), env.jwtSecret))
    ensures r.code == 500 ==>
              && r.body.Envelope? && r.body.message == "Failed to generate token" && r.body.data == NoData
              && (env.jwtSecret == "" && env.isValidUuid(newId) && "admin" in env.roles && "ADMIN" in env.actions
                  ==> r.body.error == Text("DEVICES_SERVER_JWT_SECRET is not set"))
  {
    assert IsValidString("Admin") by {
      assert forall i :: 0 <= i < |"Admin"| ==> NameChar("Admin"[i]);
    }
    match GenerateJwt(env, newId, "Admin", "admin", "ADMIN", false, now)
    case Err(e) => WriteError(500, "Failed to generate token", Text(JwtErrorText(e)))
    case Ok(issued) => WriteJson(200, "Token generated successfully", Token(issued.token))
  }

  /** The claims of a customer session token: the customer's id and name, role
      "user", the requested action, no expiry. */
  function UserClaims(c: Customer, action: string, now: int): Claims
  {
    Claims(c.id, c.fields.name, "user", action, Issuer, now, None)
  }

  /** Everything the request itself must get right before the store is read. */
  predicate RequestAccepted(env: Env, body: Json)
  {
    && body.Object?
    && Member(body, "customer_id") != "" && env.isValidUuid(Member(body, "customer_id"))
    && Member(body, "action") != "" && Member(body, "action") in env.actions
  }

  /** `GenerateTokenHandler`: the body checks in order (customer id present, a
      UUID, action present, allowed), then the scoped customer lookup (404),
      then issuance (500 on failure) and the insertion of the session record
      (500 on a key clash). A record is stored only when every step succeeds. */
  function GenerateToken(env: Env, body: Json, db: Db, now: int, newId: Uuid): (o: Outcome)
    ensures o.reply.code in {200, 400, 404, 500}
    ensures o.reply.code != 200 ==> o.db == db
    ensures o.db.customers == db.customers && o.db.sites == db.sites && o.db.devices == db.devices
    ensures Valid(db) ==> Valid(o.db)
    ensures body.Malformed? ==> o.reply == WriteError(400, "Invalid request body", External)
    ensures body.Object? && Member(body, "customer_id") == "" ==>
              o.reply == WriteError(400, "Invalid request body", Text("Customer ID field is required"))
    ensures body.Object? && Member(body, "customer_id") != "" && !env.isValidUuid(Member(body, "customer_id")) ==>
              o.reply == WriteError(400, "Invalid request body", Text("Invalid Customer ID"))
    ensures body.Object? && Member(body, "customer_id") != "" && env.isValidUuid(Member(body, "customer_id"))
            && Member(body, "action") == "" ==>
              o.reply == WriteError(400, "Invalid request body", Text("Action field is required"))
    ensures body.Object? && Member(body, "customer_id") != "" && env.isValidUuid(Member(body, "customer_id"))
            && Member(body, "action") != "" && Member(body, "action") !in env.actions ==>
              o.reply == WriteError(400, "Invalid request body", Text("Action not allowed"))
    ensures RequestAccepted(env, body) && !LiveId(db.customers, Member(body, "customer_id")) ==>
              o.reply == WriteError(404, "Customer not found", Text("Customer does not exist"))
    ensures RequestAccepted(env, body) && LiveId(db.customers, Member(body, "customer_id")) ==>
              var c := FetchCustomerById(db, Member(body, "customer_id")).value;
              var action := Member(body, "action");
              if !IsValidString(c.fields.name) || "user" !in env.roles || env.jwtSecret == "" then
                o.reply.code == 500 && o.reply.body.message == "Failed to generate token"
              else if HasId(db.tokens, newId) then
                o.reply == WriteError(500, "Failed to save token", External)
              else
                var token := env.sign(UserClaims(c, action, now), env.jwtSecret);
                && o.reply.code == 200 && o.reply.body.Envelope?
                && o.reply.body.message == "Token generated successfully"
                && o.reply.body.data == IssuedToken(TokenView(c.id, c.fields.name, action, token))
                && o.db.tokens == Insert(db.tokens, NewRow(newId, now, TokenCols(c.id, action, token)))
  {
    if body.Malformed? then Outcome(WriteError(400, "Invalid request body", External), db)
    else
      var customerId := Member(body, "customer_id");
      var action := Member(body, "action");
      if customerId == "" then
        Outcome(WriteError(400, "Invalid request body", Text("Customer ID field is required")), db)
      else if !env.isValidUuid(customerId) then
        Outcome(WriteError(400, "Invalid request body", Text("Invalid Customer ID")), db)
      else if action == "" then
        Outcome(WriteError(400, "Invalid request body", Text("Action field is required")), db)
      else if !IsValidAction(env, action) then
        Outcome(WriteError(400, "Invalid request body", Text("Action not allowed")), db)
      else
        match FetchCustomerById(db, customerId)
        case None => Outcome(WriteError(404, "Customer not found", Text("Customer does not exist")), db)
        case Some(c) =>
          match GenerateJwt(env, customerId, c.fields.name, "user", action, false, now)
          case Err(e) => Outcome(WriteError(500, "Failed to generate token", Text(JwtErrorText(e))), db)
          case Ok(issued) =>
            var row := NewRow(newId, now, TokenCols(c.id, action, issued.token));
            match CreateRow(db.tokens, row)
            case None => Outcome(WriteError(500, "Failed to save token", External), db)
            case Some(tokens) =>
              Outcome(WriteJson(200, "Token generated successfully",
                                IssuedToken(TokenView(c.id, c.fields.name, action, issued.token))),
                      db.(tokens := tokens))
  }

  /** A customer whose stored name fails the username pattern can never be
      issued a session token, and the refusal stores nothing. */
  lemma InvalidNameNeverIssued(env: Env, body: Json, db: Db, now: int, newId: Uuid)
    requires RequestAccepted(env, body)
    requires exists i :: 0 <= i < |db.customers| && db.customers[i].id == Member(body, "customer_id")
                         && db.customers[i].Live() && !IsValidString(db.customers[i].fields.name)
    requires Valid(db)
    ensures GenerateToken(env, body, db, now, newId).reply.code == 500
    ensures GenerateToken(env, body, db, now, newId).db == db
  {
    var i :| 0 <= i < |db.customers| && db.customers[i].id == Member(body, "customer_id")
             && db.customers[i].Live() && !IsValidString(db.customers[i].fields.name);
    var c := FetchCustomerById(db, Member(body, "customer_id")).value;
    var k :| 0 <= k < |db.customers| && db.customers[k] == c;
    if k != i {
      OrderedIdsDistinct(db.customers, k, i);
    }
  }
}
