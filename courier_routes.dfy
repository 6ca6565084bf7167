/** backend/routes/mandaditos.js: the courier ("mandadito") registry. Every handler runs after the
    `auth` middleware, so `me` is the authenticated caller's id. Couriers are users whose `rol` is
    "mandadito"; their availability, position and vehicle are fields of the user record. */
module CourierRoutes {
  import opened Wrappers
  import opened Models
  import opened Store
  import Query

  const UserNotFound := "Usuario no encontrado"
  const NotACourier := "El usuario no es un mandadito"

  /** The `user` part of a successful GET /validate/:userId. */
  datatype CourierIdentity = CourierIdentity(id: Id, nombre: string, rol: string)

  /** One entry of GET /disponibles: the selected fields and the id. */
  datatype CourierCard = CourierCard(
    id: Id, nombre: string, ubicacion: Option<Location>, vehiculo: string,
    calificacion: Option<int>, telefono: string, totalServicios: int)

  /** The `user` of GET /perfil: the selected fields and the id, never the password. */
  datatype CourierProfile = CourierProfile(
    id: Id, nombre: string, email: string, rol: string, vehiculo: string, telefono: string,
    calificacion: Option<int>, totalServicios: int, disponible: Option<bool>, ubicacion: Option<Location>)

  predicate IsCourier(u: User) { u.rol == RoleCourier }

  /** The filter `{ rol: 'mandadito', disponible: true }`. */
  predicate IsAvailableCourier(u: User) { IsCourier(u) && u.disponible == Some(true) }

  function CardOf(id: Id, u: User): CourierCard {
    CourierCard(id, u.nombre, u.ubicacion, u.vehiculo, u.calificacion, u.telefono, u.totalServicios)
  }

  function ProfileOf(id: Id, u: User): CourierProfile {
    CourierProfile(id, u.nombre, u.email, u.rol, u.vehiculo, u.telefono, u.calificacion,
                   u.totalServicios, u.disponible, u.ubicacion)
  }

  /** GET /validate/:userId: 404 for an unknown user, 403 for one who is not a courier, else the
      id, name and role only. */
  function Validate(users: map<Id, User>, userId: Id): (r: Result<CourierIdentity>)
    ensures userId !in users ==> r == Fail(404, UserNotFound)
    ensures userId in users && !IsCourier(users[userId]) ==> r == Fail(403, NotACourier)
    ensures r.Ok? <==> userId in users && IsCourier(users[userId])
    ensures r.Ok? ==> r.value.id == userId && r.value.nombre == users[userId].nombre && r.value.rol == RoleCourier
  {
    if userId !in users then Fail(404, UserNotFound)
    else if users[userId].rol != RoleCourier then Fail(403, NotACourier)
    else Ok(CourierIdentity(userId, users[userId].nombre, users[userId].rol))
  }

  /** Courier `k` appears in the list `res`. */
  predicate Listed(res: seq<CourierCard>, k: Id) {
    exists i :: 0 <= i < |res| && res[i].id == k
  }

  /** GET /disponibles, always answered with 200: exactly the available couriers in natural order,
      or the empty list when the query `failed`. */
  function Disponibles(users: map<Id, User>, n: nat, failed: bool): (res: seq<CourierCard>)
    requires Query.IdsBelow(users, n)
    ensures failed ==> res == []
    ensures !failed ==> forall k :: Listed(res, k) <==> k in users && IsAvailableCourier(users[k])
    ensures forall i :: 0 <= i < |res| ==> res[i].id in users && res[i] == CardOf(res[i].id, users[res[i].id])
    ensures forall i, j :: 0 <= i < j < |res| ==> res[i].id < res[j].id
  {
    if failed then []
    else
      var hits := Query.Scan(users, IsAvailableCourier, n);
      var res := seq(|hits|, i requires 0 <= i < |hits| => CardOf(hits[i].0, hits[i].1));
      assert forall i :: 0 <= i < |hits| ==> hits[i] in hits;
      forall k | k in users && IsAvailableCourier(users[k]) ensures Listed(res, k) {
        assert (k, users[k]) in hits;
        var i :| 0 <= i < |hits| && hits[i] == (k, users[k]);
        assert res[i].id == k;
      }
      res
  }

  /** The users map after PUT /ubicacion by `me`. */
  function WithLocation(users: map<Id, User>, me: Id, loc: Location): (after: map<Id, User>)
    requires me in users
    ensures after.Keys == users.Keys && after[me].ubicacion == Some(loc)
  {
    users[me := users[me].(ubicacion := Some(loc))]
  }

  /** The users map after PUT /estado by `me`. */
  function WithAvailability(users: map<Id, User>, me: Id, disponible: bool, now: int): (after: map<Id, User>)
    requires me in users
    ensures after.Keys == users.Keys && after[me].disponible == Some(disponible)
  {
    users[me := users[me].(disponible := Some(disponible), ultimaActualizacion := Some(now))]
  }

  /** Moving does not change who is available: the same couriers are listed, and only the mover's
      card shows the new position. */
  lemma LocationKeepsAvailability(users: map<Id, User>, n: nat, me: Id, loc: Location, k: Id)
    requires Query.IdsBelow(users, n) && me in users
    ensures Query.IdsBelow(WithLocation(users, me, loc), n)
    ensures Listed(Disponibles(WithLocation(users, me, loc), n, false), k) == Listed(Disponibles(users, n, false), k)
    ensures forall c :: c in Disponibles(WithLocation(users, me, loc), n, false) && c.id != me ==>
      c in Disponibles(users, n, false)
  {
    var before := Disponibles(users, n, false);
    var after := Disponibles(WithLocation(users, me, loc), n, false);
    forall c | c in after && c.id != me ensures c in before {
      assert Listed(after, c.id);
      var j :| 0 <= j < |before| && before[j].id == c.id;
    }
  }

  /** Going on or off duty changes the listing for the caller alone: a courier who sets
      `disponible` to true is listed, one who sets it to false is not, and every other user is
      listed exactly as before. */
  lemma AvailabilityToggles(users: map<Id, User>, n: nat, me: Id, disponible: bool, now: int, k: Id)
    requires Query.IdsBelow(users, n) && me in users
    ensures Query.IdsBelow(WithAvailability(users, me, disponible, now), n)
    ensures Listed(Disponibles(WithAvailability(users, me, disponible, now), n, false), me) <==> disponible && IsCourier(users[me])
    ensures k != me ==>
      (Listed(Disponibles(WithAvailability(users, me, disponible, now), n, false), k) <==> Listed(Disponibles(users, n, false), k))
  {
  }

  /** GET /perfil: 404 for a caller whose record is gone, else the fixed projection. */
  function Perfil(users: map<Id, User>, me: Id): (r: Result<CourierProfile>)
    ensures r.Ok? <==> me in users
    ensures r.Err? ==> r == Fail(404, UserNotFound)
    ensures r.Ok? ==> var u := users[me];
      && r.value.id == me && r.value.nombre == u.nombre && r.value.email == u.email && r.value.rol == u.rol
      && r.value.disponible == u.disponible && r.value.ubicacion == u.ubicacion
      && r.value.calificacion == u.calificacion && r.value.totalServicios == u.totalServicios
  {
    if me !in users then Fail(404, UserNotFound) else Ok(ProfileOf(me, users[me]))
  }

  /** PUT /ubicacion: the caller's own position, stamped with `now`; `lat` and `lng` are what
      `parseFloat` made of the body. Nothing but the caller's `ubicacion` changes. */
  method UpdateLocation(db: Database, me: Id, lat: Option<real>, lng: Option<real>, now: int)
    returns (r: Result<Location>)
    requires db.Valid()
    modifies db
    ensures db.Valid()
    ensures db.listings == old(db.listings) && db.orders == old(db.orders) && db.nextId == old(db.nextId)
    ensures me !in old(db.users) ==> r == Fail(404, UserNotFound) && db.users == old(db.users)
    ensures me in old(db.users) ==>
      && r == Ok(Location(lat, lng, now))
      && db.users == WithLocation(old(db.users), me, Location(lat, lng, now))
  {
    if me !in db.users {
      return Fail(404, UserNotFound);
    }
    var loc := Location(lat, lng, now);
    db.users := WithLocation(db.users, me, loc);
    r := Ok(loc);
  }

  /** PUT /estado: the caller's own availability, stamped with `now`; the answer is the stored
      value. Nothing but those two fields of the caller changes. */
  method UpdateAvailability(db: Database, me: Id, disponible: bool, now: int) returns (r: Result<Option<bool>>)
    requires db.Valid()
    modifies db
    ensures db.Valid()
    ensures db.listings == old(db.listings) && db.orders == old(db.orders) && db.nextId == old(db.nextId)
    ensures me !in old(db.users) ==> r == Fail(404, UserNotFound) && db.users == old(db.users)
    ensures me in old(db.users) ==>
      && r == Ok(Some(disponible))
      && db.users == WithAvailability(old(db.users), me, disponible, now)
  {
    if me !in db.users {
      return Fail(404, UserNotFound);
    }
    db.users := WithAvailability(db.users, me, disponible, now);
    r := Ok(db.users[me].disponible);
  }
}
