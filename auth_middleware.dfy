/** backend/middleware/auth.js: the `auth` middleware that turns an `Authorization` header into the
    request's user, and the three role gates that follow it. Verifying a JSON Web Token is a
    library call, so it is a parameter: a function from the token text to what `jwt.verify`
    answers. */
module AuthMiddleware {
  import opened Wrappers
  import opened JsText
  import opened Models

  /** What `jwt.verify` does with a token: decodes it to a user id, or throws a
      `JsonWebTokenError` (bad signature, malformed), a `TokenExpiredError`, or any other error. */
  datatype Verdict = Decoded(userId: Id) | Malformed | Expired | OtherError

  const BearerPrefix := "Bearer "

  const TokenRequired := "Acceso denegado. Token requerido."
  const TokenInvalid := "Token inválido."
  const TokenExpired := "Token expirado."
  const AuthError := "Error de autenticación."

  /** The token: the header with its first "Bearer " removed; an absent header, or one that becomes
      empty, is no token. */
  function ExtractToken(header: Option<string>): (t: Option<string>)
    ensures header.None? ==> t.None?
    ensures t.Some? ==> t.value != []
  {
    match header
    case None => None
    case Some(h) =>
      var s := ReplaceFirst(h, BearerPrefix, "");
      if s == [] then None else Some(s)
  }

  /** The usual header, "Bearer " and a token, gives the token back; a bare "Bearer " is no token. */
  lemma ExtractBearer(t: string)
    ensures ExtractToken(Some(BearerPrefix + t)) == if t == [] then None else Some(t)
  {
    assert StartsWith(BearerPrefix + t, BearerPrefix);
    assert (BearerPrefix + t)[|BearerPrefix|..] == t;
    assert ReplaceFirst(BearerPrefix + t, BearerPrefix, "") == "" + t == t;
  }

  /** A header without "Bearer " in it is taken as the token itself; one with it somewhere inside has
      only that first occurrence cut out. */
  lemma ExtractTokenCases(h: string, i: nat)
    ensures !Includes(h, BearerPrefix) ==> ExtractToken(Some(h)) == if h == [] then None else Some(h)
    ensures OccursAt(h, BearerPrefix, i) && (forall j :: 0 <= j < i ==> !OccursAt(h, BearerPrefix, j)) ==>
      var cut := h[..i] + h[i + |BearerPrefix|..];
      ExtractToken(Some(h)) == if cut == [] then None else Some(cut)
  {
    if !Includes(h, BearerPrefix) {
      ReplaceFirstAbsent(h, BearerPrefix, "");
    }
    if OccursAt(h, BearerPrefix, i) && (forall j :: 0 <= j < i ==> !OccursAt(h, BearerPrefix, j)) {
      ReplaceFirstAt(h, BearerPrefix, "", i);
      assert h[..i] + "" + h[i + |BearerPrefix|..] == h[..i] + h[i + |BearerPrefix|..];
    }
  }

  /** `auth`: the id of the user the request acts as, or the failure it answers with. */
  function Authenticate(header: Option<string>, verify: string -> Verdict, users: map<Id, User>): (r: Result<Id>)
    ensures r.Ok? <==>
      ExtractToken(header).Some? && verify(ExtractToken(header).value).Decoded?
      && verify(ExtractToken(header).value).userId in users
    ensures r.Ok? ==> r.value in users && verify(ExtractToken(header).value) == Decoded(r.value)
    ensures r.Err? ==> r.failure.status == 401 || r.failure == Failure(500, AuthError)
  {
    match ExtractToken(header)
    case None => Fail(401, TokenRequired)
    case Some(t) =>
      match verify(t)
      case Decoded(id) => if id in users then Ok(id) else Fail(401, TokenInvalid)
      case Malformed => Fail(401, TokenInvalid)
      case Expired => Fail(401, TokenExpired)
      case OtherError => Fail(500, AuthError)
  }

  /** The failure taxonomy: a missing token, a malformed token, a token of a deleted user and an
      expired token are 401 with their own messages; only an unexpected error is 500. */
  lemma AuthenticateFailures(header: Option<string>, verify: string -> Verdict, users: map<Id, User>)
    ensures ExtractToken(header).None? ==> Authenticate(header, verify, users) == Fail(401, TokenRequired)
    ensures ExtractToken(header).Some? ==>
      var v := verify(ExtractToken(header).value);
      && (v.Malformed? || (v.Decoded? && v.userId !in users) ==> Authenticate(header, verify, users) == Fail(401, TokenInvalid))
      && (v.Expired? ==> Authenticate(header, verify, users) == Fail(401, TokenExpired))
      && (v.OtherError? ==> Authenticate(header, verify, users) == Fail(500, AuthError))
  {
  }

  /** `requireAdmin`. */
  function RequireAdmin(u: User): (g: Gate)
    ensures g.Pass? <==> IsAdmin(u)
    ensures g.Deny? ==> g.failure.status == 403
  {
    if u.rol != RoleAdmin then Deny(Failure(403, "Acceso denegado. Se requieren privilegios de administrador."))
    else Pass
  }

  /** `requireOferente`: providers and administrators pass. */
  function RequireOferente(u: User): (g: Gate)
    ensures g.Pass? <==> IsOferente(u) || IsAdmin(u)
    ensures g.Deny? ==> g.failure.status == 403
  {
    if u.rol != RoleProvider && u.rol != RoleAdmin
    then Deny(Failure(403, "Acceso denegado. Se requieren privilegios de oferente."))
    else Pass
  }

  /** `requireOferenteOrAdmin`: the same test as `requireOferente`, with its own message. */
  function RequireOferenteOrAdmin(u: User): (g: Gate)
    ensures g.Pass? <==> IsOferente(u) || IsAdmin(u)
    ensures g.Deny? ==> g.failure.status == 403
  {
    if u.rol != RoleProvider && u.rol != RoleAdmin
    then Deny(Failure(403, "Acceso denegado. Se requieren privilegios de oferente o administrador."))
    else Pass
  }

  /** The two provider gates let the same users through, every gate an administrator meets passes,
      and an administrator is never also a provider. */
  lemma GatesAgree(u: User)
    ensures RequireOferente(u).Pass? == RequireOferenteOrAdmin(u).Pass?
    ensures RequireAdmin(u).Pass? ==> RequireOferente(u).Pass? && RequireOferenteOrAdmin(u).Pass?
    ensures RequireOferente(u).Deny? ==> RequireOferente(u).failure != RequireOferenteOrAdmin(u).failure
    ensures !(IsAdmin(u) && IsOferente(u))
  {
  }

  /** `auth` followed by a gate: the chain every protected route starts with. */
  function Guard(header: Option<string>, verify: string -> Verdict, users: map<Id, User>,
                 gate: User -> Gate): (r: Result<Id>)
    ensures r.Ok? <==> Authenticate(header, verify, users).Ok? && gate(users[Authenticate(header, verify, users).value]).Pass?
    ensures r.Ok? ==> r == Authenticate(header, verify, users)
    ensures Authenticate(header, verify, users).Err? ==> r == Authenticate(header, verify, users)
  {
    var id :- Authenticate(header, verify, users);
    match gate(users[id])
    case Pass => Ok(id)
    case Deny(f) => Err(f)
  }
}
