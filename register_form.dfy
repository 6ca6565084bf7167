// The registration form of the frontend: the checks its submit handler runs before calling the
// registration service, the payload it builds, and where it navigates afterwards.

module RegisterForm {
  import opened Wrappers
  import opened Models
  import opened AuthRoutes

  const PasswordsDiffer := "Las contraseñas no coinciden"
  const PasswordTooShort := "La contraseña debe tener al menos 6 caracteres"
  const ProviderFieldsRequired := "Los campos teléfono, empresa y dirección son requeridos para oferentes"

  datatype RegisterFormData = RegisterFormData(
    nombre: string, email: string, password: string, confirmPassword: string,
    rol: string, telefono: string, empresa: string, direccion: string)

  /** The object handed to the registration service: the phone, company and address are present
      only for providers. */
  datatype RegisterPayload = RegisterPayload(
    nombre: string, email: string, password: string, rol: string,
    telefono: Option<string>, empresa: Option<string>, direccion: Option<string>)

  /** The form's initial state: every field empty and the role "usuario". */
  function InitialForm(): (f: RegisterFormData)
    ensures f.rol == RoleUser && f.password == f.confirmPassword == []
  {
    RegisterFormData("", "", "", "", RoleUser, "", "", "")
  }

  /** The submit handler: the first failing check's message, in its order (matching passwords,
      then length, then the provider fields), or the payload it sends. */
  function Submit(f: RegisterFormData): (r: Result<RegisterPayload>)
    ensures r.Ok? <==>
      && f.password == f.confirmPassword && |f.password| >= MinPasswordLength
      && (f.rol == RoleProvider ==> f.telefono != [] && f.empresa != [] && f.direccion != [])
    ensures f.password != f.confirmPassword ==> r == Fail(400, PasswordsDiffer)
    ensures f.password == f.confirmPassword && |f.password| < MinPasswordLength ==> r == Fail(400, PasswordTooShort)
    ensures r.Ok? ==>
      && r.value.nombre == f.nombre && r.value.email == f.email
      && r.value.password == f.password && r.value.rol == f.rol
      && (f.rol == RoleProvider ==> r.value.telefono == Some(f.telefono) && r.value.empresa == Some(f.empresa)
                                    && r.value.direccion == Some(f.direccion))
      && (f.rol != RoleProvider ==> r.value.telefono.None? && r.value.empresa.None? && r.value.direccion.None?)
  {
    if f.password != f.confirmPassword then Fail(400, PasswordsDiffer)
    else if |f.password| < MinPasswordLength then Fail(400, PasswordTooShort)
    else if f.rol == RoleProvider && (f.telefono == [] || f.empresa == [] || f.direccion == []) then
      Fail(400, ProviderFieldsRequired)
    else
      var provider := f.rol == RoleProvider;
      Ok(RegisterPayload(f.nombre, f.email, f.password, f.rol,
                         if provider then Some(f.telefono) else None,
                         if provider then Some(f.empresa) else None,
                         if provider then Some(f.direccion) else None))
  }

  /** The payload as the handler builds it: the four common fields first, then, for a provider,
      the phone, company and address one by one. It is the payload `Submit` sends whenever the
      checks pass. */
  method BuildUserData(f: RegisterFormData) returns (userData: RegisterPayload)
    ensures userData.nombre == f.nombre && userData.email == f.email
    ensures userData.password == f.password && userData.rol == f.rol
    ensures userData.telefono.Some? <==> f.rol == RoleProvider
    ensures userData.empresa.Some? <==> f.rol == RoleProvider
    ensures userData.direccion.Some? <==> f.rol == RoleProvider
    ensures Submit(f).Ok? ==> userData == Submit(f).value
  {
    userData := RegisterPayload(f.nombre, f.email, f.password, f.rol, None, None, None);
    if f.rol == RoleProvider {
      userData := userData.(telefono := Some(f.telefono));
      userData := userData.(empresa := Some(f.empresa));
      userData := userData.(direccion := Some(f.direccion));
    }
  }

  /** What the browser lets through to the handler: the four text fields are `required`, the role
      comes from a select offering "usuario" and "oferente", and the provider fields are `required`
      while they are shown. */
  predicate BrowserAllows(f: RegisterFormData) {
    && f.nombre != [] && f.email != [] && f.password != [] && f.confirmPassword != []
    && f.rol in {RoleUser, RoleProvider}
    && (f.rol == RoleProvider ==> f.telefono != [] && f.empresa != [] && f.direccion != [])
  }

  /** The payload as the register route reads it: an absent field is empty. */
  function BackendBody(p: RegisterPayload): (b: RegisterBody)
    ensures b.nombre == p.nombre && b.email == p.email && b.password == p.password && b.rol == p.rol
    ensures p.telefono.None? ==> b.telefono == []
  {
    RegisterBody(p.nombre, p.email, p.password, p.rol,
                 if p.telefono.Some? then p.telefono.value else "",
                 if p.empresa.Some? then p.empresa.value else "",
                 if p.direccion.Some? then p.direccion.value else "")
  }

  /** The form and the register route check the same things: a submission the browser and the
      handler let through is refused by the route only because the email is taken or the schema
      refuses the address; otherwise it stores a non-administrator with the form's role. */
  lemma FormAgreesWithRoute(users: map<Id, User>, f: RegisterFormData, now: int)
    requires BrowserAllows(f) && Submit(f).Ok?
    ensures var r := RegistrationDocument(users, BackendBody(Submit(f).value), now);
      && (r.Err? ==> r.failure.message in {UserExists, ValidationFailed})
      && (r.Ok? ==> r.value.rol == f.rol && r.value.rol != RoleAdmin)
  {
    var b := BackendBody(Submit(f).value);
    RegistrationOrder(users, b, now);
    if RegistrationDocument(users, b, now).Ok? {
      RegistrationContents(users, b, now);
    }
  }

  /** Where the form goes after a successful registration: the administration panel for an
      administrator, the dashboard for everyone else. */
  function Destination(rol: string): (path: string)
    ensures path in {"/admin", "/dashboard"}
    ensures path == "/admin" <==> rol == RoleAdmin
  {
    if rol == RoleAdmin then "/admin" else "/dashboard"
  }

  /** A registration made through the form always lands on the dashboard. */
  lemma FormNeverReachesAdmin(users: map<Id, User>, f: RegisterFormData, now: int)
    requires BrowserAllows(f) && Submit(f).Ok?
    requires RegistrationDocument(users, BackendBody(Submit(f).value), now).Ok?
    ensures Destination(RegistrationDocument(users, BackendBody(Submit(f).value), now).value.rol) == "/dashboard"
  {
    FormAgreesWithRoute(users, f, now);
  }
}
