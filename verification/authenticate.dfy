/** `AuthenticateHandler`: exchanging a token for the session cookie. */
module Authenticate {
  import opened Base
  import opened Tables
  import opened Models
  import opened ServerUtils

  /** The `Authorization` cookie as sent: the token itself, for one day, HttpOnly
      and SameSite=Lax, without the Secure flag or a domain. The handler passes an
      empty path, which the router's `SetCookie` sends as "/". */
  function SessionCookie(token: string): (c: Cookie)
    ensures c.name == "Authorization" && c.value == token && c.maxAge == 86400
    ensures c.httpOnly && c.sameSiteLax && !c.secure && c.path == "/" && c.domain == ""
  {
    Cookie("Authorization", token, 3600 * 24, CookiePath(""), "", false, true, true)
  }

  /** The path `SetCookie` sends: "/" in place of an empty one. */
  function CookiePath(path: string): string
  {
    if path == "" then "/" else path
  }

  /** Some live stored session record carries exactly this token text. */
  ghost predicate HasStoredToken(db: Db, token: string)
  {
    exists i :: 0 <= i < |db.tokens| && db.tokens[i].Live() && db.tokens[i].fields.token == token
  }

  /** The store lookup by token text finds a record exactly when a live one carries the (non-empty) text. */
  lemma StoredTokenFound(db: Db, token: string)
    requires token != ""
    ensures FirstTokenText(db.tokens, TokenText(token)) != "" <==> HasStoredToken(db, token)
  {
    var t := db.tokens;
    if FirstTokenText(t, TokenText(token)) != "" {
      var k := FirstIndex(t, Scoped, TokenText(token)).value;
      assert t[k].Live() && t[k].fields.token == token;
    }
    if HasStoredToken(db, token) {
      var i :| 0 <= i < |t| && t[i].Live() && t[i].fields.token == token;
      assert Hit(t[i], Scoped, TokenText(token));
      var k := FirstIndex(t, Scoped, TokenText(token)).value;
      assert FirstTokenText(t, TokenText(token)) == t[k].fields.token;
    }
  }

  /** `AuthenticateHandler`: malformed body 400, empty token 400, a token that
      does not validate 401, a non-admin token with no live stored record 401;
      otherwise the session cookie is set and 200 returned. The store is only read. */
  function AuthenticateHandler(env: Env, body: Json, db: Db, now: int): (r: Reply)
    ensures r.code in {200, 400, 401}
    ensures body.Malformed? ==> r == WriteError(400, "Invalid request body", External)
    ensures body.Object? && Member(body, "token") == "" ==>
              r == WriteError(400, "Invalid request body", Text("Token field is required"))
    ensures body.Object? && Member(body, "token") != "" && ValidateJwt(env, Member(body, "token"), now).None? ==>
              r == WriteError(401, "Invalid token", External)
    ensures body.Object? && Member(body, "token") != "" && ValidateJwt(env, Member(body, "token"), now).Some? ==>
              var claims := ValidateJwt(env, Member(body, "token"), now).value;
              if claims.role == "admin" || HasStoredToken(db, Member(body, "token")) then
                && r.code == 200 && r.body.Envelope? && r.body.message == "Token validated" && r.body.data == NoData
                && r.cookie == Some(SessionCookie(Member(body, "token")))
              else
                r == WriteError(401, "Invalid token", Text("Token not found"))
    ensures r.code != 200 ==> r.cookie.None?
  {
    if body.Malformed? then WriteError(400, "Invalid request body", External)
    else
      var token := Member(body, "token");
      if token == "" then WriteError(400, "Invalid request body", Text("Token field is required"))
      else
        match ValidateJwt(env, token, now)
        case None => WriteError(401, "Invalid token", External)
        case Some(claims) =>
          StoredTokenFound(db, token);
          if claims.role != "admin" && FirstTokenText(db.tokens, TokenText(token)) == "" then
            WriteError(401, "Invalid token", Text("Token not found"))
          else
            var ok := WriteJson(200, "Token validated", NoData);
            ok.(cookie := Some(SessionCookie(token)))
  }

  /** Authentication only reads the store: revoking (soft-deleting) every record
      of a non-admin token makes it fail, whatever the token library says. */
  lemma RevokedTokenRefused(env: Env, token: string, db: Db, now: int)
    requires token != "" && !HasStoredToken(db, token)
    requires ValidateJwt(env, token, now).Some? ==> ValidateJwt(env, token, now).value.role != "admin"
    ensures AuthenticateHandler(env, Object(map["token" := token]), db, now).code == 401
  {
    assert Member(Object(map["token" := token]), "token") == token;
  }
}
