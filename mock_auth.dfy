/** src/services/auth.js: the browser-side account service, which keeps a list of accounts and the
    current session in local storage. Each JSON entry is a field of `MockAuth`; an absent entry is
    the empty list or no session. The simulated network delay is not modelled. */
module MockAuth {
  import opened Wrappers

  datatype Account = Account(nombre: string, email: string, password: string)

  /** What `ofertasApp_user` holds. */
  datatype SessionUser = SessionUser(email: string, nombre: string)

  /** How the service's promises settle. */
  datatype Settled<T> = Resolved(value: T) | Rejected(error: string)

  const BadCredentials := "Credenciales incorrectas"
  const EmailTaken := "Este email ya está registrado"

  /** The first account with exactly this email and password. */
  function FindAccount(users: seq<Account>, email: string, password: string): (r: Option<nat>)
    ensures r.Some? ==> r.value < |users| && users[r.value].email == email && users[r.value].password == password
    ensures r.Some? ==> forall j :: 0 <= j < r.value ==> !(users[j].email == email && users[j].password == password)
    ensures r.None? <==> forall j :: 0 <= j < |users| ==> !(users[j].email == email && users[j].password == password)
  {
    if users == [] then None
    else if users[0].email == email && users[0].password == password then Some(0)
    else match FindAccount(users[1..], email, password)
      case None => None
      case Some(i) => Some(i + 1)
  }

  predicate EmailRegistered(users: seq<Account>, email: string) {
    exists j :: 0 <= j < |users| && users[j].email == email
  }

  /** No two accounts share an email. */
  predicate UniqueEmails(users: seq<Account>) {
    forall i, j :: 0 <= i < j < |users| ==> users[i].email != users[j].email
  }

  class Storage {
    var users: seq<Account>
    var session: Option<SessionUser>

    constructor ()
      ensures users == [] && session == None
    {
      users, session := [], None;
    }

    /** `getCurrentUser`. */
    function CurrentUser(): Option<SessionUser>
      reads this
    {
      session
    }

    /** `login`: succeeds exactly when some account has this email and password, and then the
        session is the first such account's; a failure leaves the session as it was. */
    method Login(email: string, password: string) returns (r: Settled<SessionUser>)
      modifies this
      ensures users == old(users)
      ensures r.Resolved? <==> exists j :: 0 <= j < |users| && users[j].email == email && users[j].password == password
      ensures r.Resolved? ==> r.value.email == email && session == Some(r.value)
      ensures r.Resolved? ==> FindAccount(users, email, password).Some? && r.value.nombre == users[FindAccount(users, email, password).value].nombre
      ensures r.Rejected? ==> r == Rejected(BadCredentials) && session == old(session)
    {
      match FindAccount(users, email, password)
      case None =>
        r := Rejected(BadCredentials);
      case Some(i) =>
        var u := SessionUser(users[i].email, users[i].nombre);
        session := Some(u);
        r := Resolved(u);
    }

    /** `register`: a taken email is refused and nothing changes; otherwise the account is
        appended and its owner is signed in. */
    method Register(nombre: string, email: string, password: string) returns (r: Settled<SessionUser>)
      modifies this
      ensures EmailRegistered(old(users), email) ==> r == Rejected(EmailTaken) && users == old(users) && session == old(session)
      ensures !EmailRegistered(old(users), email) ==>
        && users == old(users) + [Account(nombre, email, password)]
        && r == Resolved(SessionUser(email, nombre)) && session == Some(SessionUser(email, nombre))
      ensures UniqueEmails(old(users)) ==> UniqueEmails(users)
    {
      if EmailRegistered(users, email) {
        return Rejected(EmailTaken);
      }
      users := users + [Account(nombre, email, password)];
      session := Some(SessionUser(email, nombre));
      r := Resolved(SessionUser(email, nombre));
    }

    /** `logout`. */
    method Logout()
      modifies this
      ensures users == old(users) && CurrentUser().None?
    {
      session := None;
    }
  }

  /** Whoever registers can then log in with the same email and password, and gets the same
      session back. */
  lemma RegisterThenLogin(users: seq<Account>, nombre: string, email: string, password: string)
    requires UniqueEmails(users) && !EmailRegistered(users, email)
    ensures var after := users + [Account(nombre, email, password)];
      FindAccount(after, email, password) == Some(|users|)
  {
    var after := users + [Account(nombre, email, password)];
    assert after[|users|].email == email;
    assert forall j :: 0 <= j < |users| ==> after[j] == users[j];
  }
}
