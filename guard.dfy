/** The access guard of src/middleware/auth.js: bearer-token extraction, the `auth`
    middleware (verify the credential and attach its payload to the request) and the
    `adminAuth` role gate. Credential verification is a function parameter. */
module Guard {
  import opened Common
  import opened JsString
  import opened Users

  const BearerPrefix: string := "Bearer "
  const NoTokenMessage: string := "Acesso negado, token não enviado"
  const InvalidTokenMessage: string := "Token inválido"
  const AdminOnlyMessage: string := "Acesso restrito a administradores"
  const InternalMessage: string := "Erro interno"

  /** `req.header('Authorization')?.replace('Bearer ', '')`. */
  function BearerToken(header: Option<string>): (t: Option<string>)
    ensures t.Some? <==> header.Some?
  {
    if header.Some? then Some(ReplaceFirst(header.value, BearerPrefix, "")) else None
  }

  /** A header `Bearer <t>` yields `t`. */
  lemma BearerTokenOfBearerHeader(t: string)
    ensures BearerToken(Some(BearerPrefix + t)) == Some(t)
  {
    ReplaceFirstPrefix(BearerPrefix, t, "");
    assert "" + t == t;
  }

  /** A header without "Bearer " anywhere is taken whole as the token. */
  lemma BearerTokenOfBareHeader(h: string)
    requires !Occurs(h, BearerPrefix)
    ensures BearerToken(Some(h)) == Some(h)
  {
    ReplaceFirstAbsent(h, BearerPrefix, "");
  }

  /** The first "Bearer " is removed wherever it stands, not only at the start:
      "xBearer abc" yields "xabc". */
  lemma BearerTokenNotAnchored()
    ensures BearerToken(Some("xBearer abc")) == Some("xabc")
  {
    var s := "xBearer abc";
    assert s == "x" + BearerPrefix + "abc";
    assert s[0..|BearerPrefix|][0] == 'x' != BearerPrefix[0];
    assert !OccursAt(s, BearerPrefix, 0);
    ReplaceFirstSplit("x", BearerPrefix, "abc", "");
    assert "x" + "" + "abc" == "xabc";
  }

  /** What `auth` does with the request. */
  datatype AuthOutcome = Next(user: Claims) | Reject(failure: Failure)

  /** `auth`: no token or an empty one answers 401 'token não enviado'; a credential
      `verify` rejects answers 401 'Token inválido'; otherwise `req.user` is the
      decoded payload and the request continues. */
  function Auth(header: Option<string>, verify: Token -> Option<Claims>): (r: AuthOutcome)
    ensures r.Reject? ==> r.failure.status == 401
    ensures r.Next? <==> Present(BearerToken(header)) && verify(BearerToken(header).value).Some?
    ensures r.Next? ==> r.user == verify(BearerToken(header).value).value
    ensures !Present(BearerToken(header)) ==> r == Reject(Failure(401, NoTokenMessage))
    ensures Present(BearerToken(header)) && verify(BearerToken(header).value).None? ==>
      r == Reject(Failure(401, InvalidTokenMessage))
  {
    var token := BearerToken(header);
    if !Present(token) then Reject(Failure(Unauthorized, NoTokenMessage))
    else
      match verify(token.value)
      case None => Reject(Failure(Unauthorized, InvalidTokenMessage))
      case Some(decoded) => Next(decoded)
  }

  /** A missing header, and a header that is exactly "Bearer ", carry no token. */
  lemma AuthWithoutToken(verify: Token -> Option<Claims>)
    ensures Auth(None, verify) == Reject(Failure(401, NoTokenMessage))
    ensures Auth(Some(BearerPrefix), verify) == Reject(Failure(401, NoTokenMessage))
  {
    BearerTokenOfBearerHeader("");
    assert BearerPrefix + "" == BearerPrefix;
  }

  /** A credential that verifies, sent as `Bearer <token>`, passes with its payload. */
  lemma AuthAcceptsVerifiedBearer(token: Token, claims: Claims, verify: Token -> Option<Claims>)
    requires token != "" && verify(token) == Some(claims)
    ensures Auth(Some(BearerPrefix + token), verify) == Next(claims)
  {
    BearerTokenOfBearerHeader(token);
  }

  /** A credential that does not verify is refused with 'Token inválido'. */
  lemma AuthRejectsUnverified(token: Token, verify: Token -> Option<Claims>)
    requires token != "" && verify(token).None?
    ensures Auth(Some(BearerPrefix + token), verify) == Reject(Failure(401, InvalidTokenMessage))
  {
    BearerTokenOfBearerHeader(token);
  }

  /** `adminAuth`: `User.findById(req.user.id)`. A failed lookup, a payload without
      `id` or an id with no user (reading `role` of null throws) answer 500; a role
      other than 'admin' answers 403; an admin continues. */
  function AdminAuth(user: Claims, users: map<Id, User>, lookupFails: bool): (r: Outcome)
    ensures r == Pass <==>
      !lookupFails && "id" in user && user["id"] in users && users[user["id"]].role == AdminRole
    ensures r == Fail(Failure(403, AdminOnlyMessage)) <==>
      !lookupFails && "id" in user && user["id"] in users && users[user["id"]].role != AdminRole
    ensures r == Fail(Failure(500, InternalMessage)) <==>
      lookupFails || "id" !in user || user["id"] !in users
  {
    if lookupFails || "id" !in user || user["id"] !in users then Fail(Failure(InternalError, InternalMessage))
    else if users[user["id"]].role != AdminRole then Fail(Failure(Forbidden, AdminOnlyMessage))
    else Pass
  }
}
