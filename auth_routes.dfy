/** backend/routes/auth.js: registration, login and token verification. Signing a token is a
    library call; a session records the user id the token is signed for. A body field that is
    absent, or falsy in JavaScript, is the empty string. */
module AuthRoutes {
  import opened Wrappers
  import opened JsText
  import opened Models
  import opened AuthMiddleware
  import opened Store
  import Query

  const MissingFields := "Nombre, email y password son requeridos"
  const ShortPassword := "La contraseña debe tener al menos 6 caracteres"
  const UserExists := "El usuario ya existe"
  const ProviderFields := "Los campos teléfono, empresa y dirección son requeridos para oferentes"
  const ValidationFailed := "Error de validación"
  const LoginFields := "Email y password son requeridos"
  const BadCredentials := "Credenciales inválidas"
  const VerifyMissing := "Token requerido"
  const VerifyInvalid := "Token inválido"

  const MinPasswordLength := 6

  datatype RegisterBody = RegisterBody(
    nombre: string, email: string, password: string, rol: string,
    telefono: string, empresa: string, direccion: string)

  /** The user as the auth responses show it: never the password. */
  datatype Profile = Profile(id: Id, nombre: string, email: string, rol: string, empresa: string, verificada: bool)

  /** A login or registration response: a token signed for `userId`, and the profile. */
  datatype Session = Session(userId: Id, user: Profile)

  function ProfileOf(id: Id, u: User): (p: Profile)
    ensures p.id == id && p.nombre == u.nombre && p.email == u.email && p.rol == u.rol
    ensures p.empresa == u.empresa && p.verificada == u.verificada
  {
    Profile(id, u.nombre, u.email, u.rol, u.empresa, u.verificada)
  }

  /** Some user already has this (normalised) email. */
  predicate EmailTaken(users: map<Id, User>, e: string) {
    exists k :: k in users && users[k].email == e
  }

  /** `User.findOne({ email })`: the first user in natural order whose email matches; the query value
      goes through the schema's lower-case and trim setters. */
  function FindByEmail(users: map<Id, User>, n: nat, email: string): (r: Option<Id>)
    requires Query.IdsBelow(users, n)
    ensures r.Some? ==> r.value in users && users[r.value].email == NormalizeEmail(email)
    ensures r.None? <==> !EmailTaken(users, NormalizeEmail(email))
  {
    var e := NormalizeEmail(email);
    var hits := Query.Scan(users, (u: User) => u.email == e, n);
    if hits == [] then
      assert forall k :: k in users && users[k].email == e ==> (k, users[k]) in hits;
      None
    else
      assert hits[0] in hits;
      Some(hits[0].0)
  }

  /** With unique emails the lookup finds the one user that has the address. */
  lemma FindByEmailUnique(users: map<Id, User>, n: nat, email: string, k: Id)
    requires Query.IdsBelow(users, n) && UniqueEmails(users)
    requires k in users && users[k].email == NormalizeEmail(email)
    ensures FindByEmail(users, n, email) == Some(k)
  {
  }

  /** The document register saves, or the failure it answers with before saving: the checks run in
      the handler's order, then the schema validates what was built. */
  function RegistrationDocument(users: map<Id, User>, b: RegisterBody, now: int): Result<User> {
    if b.nombre == [] || b.email == [] || b.password == [] then Fail(400, MissingFields)
    else if |b.password| < MinPasswordLength then Fail(400, ShortPassword)
    else if EmailTaken(users, NormalizeEmail(b.email)) then Fail(400, UserExists)
    else if b.rol == RoleProvider && (b.telefono == [] || b.empresa == [] || b.direccion == []) then
      Fail(400, ProviderFields)
    else
      var provider := b.rol == RoleProvider;
      var doc := NewUser(b.nombre, b.email, b.password, if b.rol == [] then RoleUser else b.rol,
                         if provider then b.telefono else "",
                         if provider then b.empresa else "",
                         if provider then b.direccion else "", now);
      if !UserSchemaValid(doc) then Fail(400, ValidationFailed) else Ok(doc)
  }

  /** The order of the checks: missing fields are reported before anything is looked up, a short
      password next, a taken email before the provider fields, and every refusal is a 400. */
  lemma RegistrationOrder(users: map<Id, User>, b: RegisterBody, now: int)
    ensures b.nombre == [] || b.email == [] || b.password == [] ==>
      RegistrationDocument(users, b, now) == Fail(400, MissingFields)
    ensures b.nombre != [] && b.email != [] && b.password != [] && |b.password| < MinPasswordLength ==>
      RegistrationDocument(users, b, now) == Fail(400, ShortPassword)
    ensures b.nombre != [] && b.email != [] && |b.password| >= MinPasswordLength && EmailTaken(users, NormalizeEmail(b.email)) ==>
      RegistrationDocument(users, b, now) == Fail(400, UserExists)
    ensures RegistrationDocument(users, b, now).Err? ==> RegistrationDocument(users, b, now).failure.status == 400
  {
  }

  /** What a successful registration builds: the normalised email is free, the role defaults to
      "usuario" and is one of the schema's roles (an administrator may register as such), the phone,
      company and address are kept only for providers and are empty otherwise, and the password is
      still the plain text the pre-save hook will hash. */
  lemma RegistrationContents(users: map<Id, User>, b: RegisterBody, now: int)
    requires RegistrationDocument(users, b, now).Ok?
    ensures var u := RegistrationDocument(users, b, now).value;
      && u.email == NormalizeEmail(b.email) && !EmailTaken(users, u.email)
      && u.rol == (if b.rol == [] then RoleUser else b.rol) && u.rol in SchemaRoles
      && u.password == Plain(b.password) && |b.password| >= MinPasswordLength
      && b.nombre != [] && b.email != []
      && (u.rol == RoleProvider ==> u.telefono == b.telefono != [] && u.empresa == b.empresa != [] && u.direccion == b.direccion != [])
      && (u.rol != RoleProvider ==> u.telefono == u.empresa == u.direccion == "")
  {
  }

  /** POST /login. */
  function Login(users: map<Id, User>, n: nat, email: string, password: string): Result<Session>
    requires Query.IdsBelow(users, n)
  {
    if email == [] || password == [] then Fail(400, LoginFields)
    else
      match FindByEmail(users, n, email)
      case None => Fail(400, BadCredentials)
      case Some(id) =>
        if !ComparePassword(password, users[id].password) then Fail(400, BadCredentials)
        else Ok(Session(id, ProfileOf(id, users[id])))
  }

  /** An unknown email and a wrong password are indistinguishable: once both fields are given, every
      refusal is the same 400. Login succeeds exactly for the user holding the address whose stored
      hash matches. */
  lemma LoginOutcomes(users: map<Id, User>, n: nat, email: string, password: string)
    requires Query.IdsBelow(users, n) && UniqueEmails(users)
    ensures email == [] || password == [] ==> Login(users, n, email, password) == Fail(400, LoginFields)
    ensures email != [] && password != [] && Login(users, n, email, password).Err? ==>
      Login(users, n, email, password) == Fail(400, BadCredentials)
    ensures Login(users, n, email, password).Ok? <==>
      email != [] && password != [] &&
      exists k :: k in users && users[k].email == NormalizeEmail(email) && ComparePassword(password, users[k].password)
    ensures Login(users, n, email, password).Ok? ==>
      var s := Login(users, n, email, password).value;
      s.userId in users && s.user == ProfileOf(s.userId, users[s.userId])
  {
    if email != [] && password != [] {
      if k :| k in users && users[k].email == NormalizeEmail(email) && ComparePassword(password, users[k].password) {
        FindByEmailUnique(users, n, email, k);
      }
    }
  }

  /** Logging in with the credentials a user was just stored with, under an address no one else has,
      gives that user's session. */
  lemma {:induction false} LoginAfterInsert(users: map<Id, User>, n: nat, u: User, email: string, password: string)
    requires Query.IdsBelow(users, n) && UniqueEmails(users)
    requires u.email == NormalizeEmail(email) && !EmailTaken(users, u.email)
    requires email != [] && password != [] && u.password == Hashed(Plain(password))
    ensures Query.IdsBelow(users[n := u], n + 1) && UniqueEmails(users[n := u])
    ensures Login(users[n := u], n + 1, email, password) == Ok(Session(n, ProfileOf(n, u)))
  {
    var users' := users[n := u];
    FindByEmailUnique(users', n + 1, email, n);
  }

  /** Registration followed by login: whoever registers can log in straight away with the same
      email and password, and gets the session registration answered with. */
  lemma RegisterThenLogin(users: map<Id, User>, n: nat, b: RegisterBody, now: int)
    requires Query.IdsBelow(users, n) && UniqueEmails(users)
    requires RegistrationDocument(users, b, now).Ok?
    ensures var saved := PreSaveUser(RegistrationDocument(users, b, now).value, true);
      Login(users[n := saved], n + 1, b.email, b.password) == Ok(Session(n, ProfileOf(n, saved)))
  {
    RegistrationContents(users, b, now);
    var saved := PreSaveUser(RegistrationDocument(users, b, now).value, true);
    LoginAfterInsert(users, n, saved, b.email, b.password);
  }

  /** POST /register: the checks, each returning early; then `userData` with the role defaulted, to
      which a provider's phone, company and address are added one by one; then the save (which
      hashes the password) and the session. */
  method Register(db: Database, b: RegisterBody, now: int) returns (r: Result<Session>)
    requires db.Valid()
    modifies db
    ensures db.Valid()
    ensures db.listings == old(db.listings) && db.orders == old(db.orders)
    ensures RegistrationDocument(old(db.users), b, now).Err? ==>
      r == Err(RegistrationDocument(old(db.users), b, now).failure)
      && db.users == old(db.users) && db.nextId == old(db.nextId)
    ensures RegistrationDocument(old(db.users), b, now).Ok? ==>
      && r.Ok? && r.value.userId == old(db.nextId) && db.nextId == old(db.nextId) + 1
      && db.users == old(db.users)[r.value.userId := PreSaveUser(RegistrationDocument(old(db.users), b, now).value, true)]
  {
    if b.nombre == [] || b.email == [] || b.password == [] {
      return Fail(400, MissingFields);
    }
    if |b.password| < MinPasswordLength {
      return Fail(400, ShortPassword);
    }
    var existing := FindByEmail(db.users, db.nextId, b.email);
    if existing.Some? {
      return Fail(400, UserExists);
    }
    if b.rol == RoleProvider && (b.telefono == [] || b.empresa == [] || b.direccion == []) {
      return Fail(400, ProviderFields);
    }
    var userData := NewUser(b.nombre, b.email, b.password, if b.rol == [] then RoleUser else b.rol, "", "", "", now);
    if b.rol == RoleProvider {
      userData := userData.(telefono := b.telefono);
      userData := userData.(empresa := b.empresa);
      userData := userData.(direccion := b.direccion);
    }
    if !UserSchemaValid(userData) {
      return Fail(400, ValidationFailed);
    }
    assert userData == RegistrationDocument(db.users, b, now).value;
    RegistrationContents(db.users, b, now);
    var saved := PreSaveUser(userData, true);
    assert saved.email == userData.email && saved.password == Hashed(Plain(b.password));
    assert forall k :: k in db.users ==> db.users[k].email != saved.email;
    var id := db.InsertUser(saved);
    r := Ok(Session(id, ProfileOf(id, saved)));
  }

  /** GET /verify: every failure is a 401, and it accepts exactly the tokens the `auth` middleware
      accepts with the same verifier. */
  function VerifyRoute(header: Option<string>, verify: string -> Verdict, users: map<Id, User>): (r: Result<Profile>)
    ensures r.Err? ==> r.failure.status == 401
    ensures r.Ok? <==> Authenticate(header, verify, users).Ok?
    ensures r.Ok? ==> r.value == ProfileOf(Authenticate(header, verify, users).value, users[Authenticate(header, verify, users).value])
    ensures ExtractToken(header).None? ==> r == Fail(401, VerifyMissing)
  {
    match ExtractToken(header)
    case None => Fail(401, VerifyMissing)
    case Some(t) =>
      match verify(t)
      case Decoded(id) => if id in users then Ok(ProfileOf(id, users[id])) else Fail(401, VerifyInvalid)
      case _ => Fail(401, VerifyInvalid)
  }
}
