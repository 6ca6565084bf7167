/** backend/routes/admin.js: the administrator's router. `auth` and `requireAdmin` run before every
    handler; the handlers count, list, moderate, delete and edit documents directly. Offers and
    activities are the one listing collection, so the offer and activity handlers see the same
    documents. */
module AdminRoutes {
  import opened Wrappers
  import opened Models
  import opened AuthMiddleware
  import opened Store
  import ListingRoutes
  import Query

  const OfferNotFound := "Oferta no encontrada"
  const ActivityNotFound := "Actividad no encontrada"
  const UserNotFound := "Usuario no encontrado"
  const OwnAccount := "No puedes eliminar tu propia cuenta"
  const AdminOnly := "Se requieren privilegios de administrador"
  const ActionApprove := "approve"
  const ActionReject := "reject"

  /** The router-level chain: a valid token of an existing administrator. */
  function AdminGate(header: Option<string>, verify: string -> Verdict, users: map<Id, User>): (r: Result<Id>)
    ensures r.Ok? <==> Authenticate(header, verify, users).Ok? && IsAdmin(users[Authenticate(header, verify, users).value])
    ensures r.Ok? ==> r.value in users && IsAdmin(users[r.value])
    ensures r.Err? ==> r.failure.status in {401, 403, 500}
    ensures Authenticate(header, verify, users).Ok? && r.Err? ==> r.failure.status == 403
  {
    Guard(header, verify, users, RequireAdmin)
  }

  /** The dashboard figures. */
  datatype Stats = Stats(
    totalUsers: nat, newUsers: nat, totalOffers: nat, pendingOffers: nat,
    totalActivities: nat, pendingActivities: nat, totalRevenue: int)

  /** `Math.round`: the nearest integer, halves rounded up. */
  function JsRound(x: real): (r: int)
    ensures x - 0.5 < r as real <= x + 0.5
  {
    (x + 0.5).Floor
  }

  /** What an approved listing brings in: its discounted price times its participants. */
  function Income(l: Listing): real {
    l.precioDescuento * l.participantes as real
  }

  function ApprovedListings(listings: map<Id, Listing>, n: nat): (res: seq<(Id, Listing)>)
    ensures forall x :: x in res <==> x.0 < n && x.0 in listings && listings[x.0] == x.1 && x.1.estado == StateApproved
  {
    Query.Scan(listings, (l: Listing) => l.estado == StateApproved, n)
  }

  /** Ids of the users created at `since` or later. */
  function RecentUsers(users: map<Id, User>, since: int): (r: set<Id>)
    ensures forall k :: k in r <==> k in users && users[k].createdAt >= since
  {
    set k | k in users && users[k].createdAt >= since
  }

  /** Ids of the listings still waiting for an administrator. */
  function PendingIds(listings: map<Id, Listing>): (r: set<Id>)
    ensures forall k :: k in r <==> k in listings && listings[k].estado == StatePending
  {
    set k | k in listings && listings[k].estado == StatePending
  }

  /** GET /stats. `since` is thirty days before the request; a user counts as new when created
      then or later. */
  function DashboardStats(users: map<Id, User>, listings: map<Id, Listing>, n: nat, since: int): (s: Stats)
    ensures s.totalUsers == |users| && s.newUsers <= s.totalUsers
    ensures s.newUsers == |RecentUsers(users, since)|
    ensures s.totalOffers == s.totalActivities == |listings|
    ensures s.pendingOffers == s.pendingActivities <= |listings|
    ensures s.pendingOffers == |PendingIds(listings)|
    ensures var sum := Query.SumOf(ApprovedListings(listings, n), Income);
      sum - 0.5 < s.totalRevenue as real <= sum + 0.5
  {
    var recent := RecentUsers(users, since);
    var pending := PendingIds(listings);
    SubsetSize(recent, users.Keys);
    SubsetSize(pending, listings.Keys);
    Stats(|users|, |recent|, |listings|, |pending|, |listings|, |pending|,
          JsRound(Query.SumOf(ApprovedListings(listings, n), Income)))
  }

  lemma {:induction false} SubsetSize<T>(a: set<T>, b: set<T>)
    requires a <= b
    ensures |a| <= |b|
  {
    if a != {} {
      var x :| x in a;
      SubsetSize(a - {x}, b - {x});
    }
  }

  /** A sum of incomes that are none of them negative is not negative. */
  lemma {:induction false} SumOfIncomeNonNegative(s: seq<(Id, Listing)>)
    requires forall i :: 0 <= i < |s| ==> Income(s[i].1) >= 0.0
    ensures Query.SumOf(s, Income) >= 0.0
  {
    if s != [] {
      SumOfIncomeNonNegative(s[..|s| - 1]);
    }
  }

  /** Revenue is never negative while approved listings have non-negative discounted prices (their
      participant counts are never negative), and it is zero when nothing is approved. */
  lemma RevenueNonNegative(users: map<Id, User>, listings: map<Id, Listing>, n: nat, since: int)
    requires forall k :: k in listings ==> WithinCapacity(listings[k])
    requires forall k :: k in listings && listings[k].estado == StateApproved ==> listings[k].precioDescuento >= 0.0
    ensures DashboardStats(users, listings, n, since).totalRevenue >= 0
    ensures (forall k :: k in listings ==> listings[k].estado != StateApproved) ==>
      DashboardStats(users, listings, n, since).totalRevenue == 0
  {
    var s := ApprovedListings(listings, n);
    forall i | 0 <= i < |s| ensures Income(s[i].1) >= 0.0 {
      assert s[i] in s;
      assert s[i].1.participantes >= 0;
    }
    SumOfIncomeNonNegative(s);
    assert forall i :: 0 <= i < |s| ==> s[i] in s;
  }

  /** A user as the admin lists show it: every field but the password. */
  datatype UserView = UserView(
    id: Id, nombre: string, email: string, rol: string, telefono: string, empresa: string,
    direccion: string, verificada: bool, ofertasParticipadas: set<Id>,
    actividadesParticipadas: set<Id>, ofertasCreadas: set<Id>, actividadesCreadas: set<Id>,
    createdAt: int, disponible: Option<bool>, ubicacion: Option<Location>, vehiculo: string,
    calificacion: Option<int>, totalServicios: int, ultimaActualizacion: Option<int>,
    favoritos: seq<FavoriteRef>, updatedAt: int)

  function ViewOf(id: Id, u: User): (v: UserView)
    ensures v.id == id && v.email == u.email && v.rol == u.rol && v.createdAt == u.createdAt
    ensures v.favoritos == u.favoritos && v.updatedAt == u.updatedAt
  {
    UserView(id, u.nombre, u.email, u.rol, u.telefono, u.empresa, u.direccion, u.verificada,
             u.ofertasParticipadas, u.actividadesParticipadas, u.ofertasCreadas,
             u.actividadesCreadas, u.createdAt, u.disponible, u.ubicacion, u.vehiculo,
             u.calificacion, u.totalServicios, u.ultimaActualizacion, u.favoritos, u.updatedAt)
  }

  /** The view hides the password and nothing else: two users look the same exactly when they
      differ at most in their passwords. */
  lemma ViewHidesOnlyPassword(id: Id, u: User, w: User)
    ensures ViewOf(id, u) == ViewOf(id, w) <==> u.(password := w.password) == w
  {
  }

  function UserNewestFirst(u: User): int { -u.createdAt }

  /** GET /users: every user, newest first, without passwords. */
  function UsersList(users: map<Id, User>, n: nat): (res: seq<UserView>)
    requires Query.IdsBelow(users, n)
    ensures |res| == |users|
    ensures forall k :: k in users ==> ViewOf(k, users[k]) in res
    ensures forall i :: 0 <= i < |res| ==> res[i].id in users && res[i] == ViewOf(res[i].id, users[res[i].id])
    ensures forall i, j :: 0 <= i < j < |res| ==> res[i].createdAt >= res[j].createdAt && res[i].id != res[j].id
  {
    var all := (u: User) => true;
    Query.FindSorted(users, all, n, UserNewestFirst);
    var sorted := Query.SortOn(Query.Scan(users, all, n), UserNewestFirst);
    DistinctCoversKeys(users, sorted);
    ViewsOfUsers(users, sorted);
    ViewsOfOrder(sorted);
    ViewsOf(sorted)
  }

  /** The views of a list of users, in the same order. */
  function ViewsOf(sorted: seq<(Id, User)>): (res: seq<UserView>)
    ensures |res| == |sorted|
    ensures forall i :: 0 <= i < |res| ==> res[i] == ViewOf(sorted[i].0, sorted[i].1)
  {
    seq(|sorted|, i requires 0 <= i < |sorted| => ViewOf(sorted[i].0, sorted[i].1))
  }

  /** For a list holding exactly the users of the map, the views are exactly the users' views. */
  lemma ViewsOfUsers(users: map<Id, User>, sorted: seq<(Id, User)>)
    requires forall x :: x in sorted <==> x.0 in users && users[x.0] == x.1
    ensures var res := ViewsOf(sorted);
      && (forall k :: k in users ==> ViewOf(k, users[k]) in res)
      && (forall i :: 0 <= i < |res| ==> res[i].id in users && res[i] == ViewOf(res[i].id, users[res[i].id]))
  {
    var res := ViewsOf(sorted);
    forall i | 0 <= i < |res| ensures res[i].id in users && res[i] == ViewOf(res[i].id, users[res[i].id]) {
      assert sorted[i] in sorted;
    }
    forall k | k in users ensures ViewOf(k, users[k]) in res {
      var i :| 0 <= i < |sorted| && sorted[i] == (k, users[k]);
      assert res[i] == ViewOf(k, users[k]);
    }
  }

  /** Views of a list sorted newest first, without repeated ids, are newest first and distinct. */
  lemma ViewsOfOrder(sorted: seq<(Id, User)>)
    requires Query.SortedOn(sorted, UserNewestFirst) && Query.DistinctIds(sorted)
    ensures var res := ViewsOf(sorted);
      forall i, j :: 0 <= i < j < |res| ==> res[i].createdAt >= res[j].createdAt && res[i].id != res[j].id
  {
    var res := ViewsOf(sorted);
    forall i, j | 0 <= i < j < |res| ensures res[i].createdAt >= res[j].createdAt && res[i].id != res[j].id {
      assert UserNewestFirst(sorted[i].1) <= UserNewestFirst(sorted[j].1);
    }
  }

  /** A list holding every document of `m` once, and nothing else, is as long as `m` is large. */
  lemma {:induction false} DistinctCoversKeys<T>(m: map<Id, T>, s: seq<(Id, T)>)
    requires forall x :: x in s <==> x.0 in m && m[x.0] == x.1
    requires Query.DistinctIds(s)
    ensures |s| == |m|
  {
    if s == [] {
      assert forall k :: k in m ==> (k, m[k]) in s;
      assert m.Keys == {};
    } else {
      var last := s[|s| - 1];
      var rest := s[..|s| - 1];
      var m' := map k | k in m && k != last.0 :: m[k];
      forall x ensures x in rest <==> x.0 in m' && m'[x.0] == x.1 {
        if x in rest {
          var i :| 0 <= i < |rest| && rest[i] == x;
          assert s[i] == x;
        }
        if x.0 in m' && m'[x.0] == x.1 {
          assert x in s;
          var i :| 0 <= i < |s| && s[i] == x;
          assert i != |s| - 1;
          assert rest[i] == x;
        }
      }
      DistinctCoversKeys(m', rest);
      assert last in s;
      assert m.Keys == m'.Keys + {last.0};
    }
  }

  /** GET /offers and GET /activities: every listing, newest first. The activities handler checks
      the role a second time; after the router's gate that check never refuses. */
  function AllListings(caller: User, listings: map<Id, Listing>, n: nat): (res: Result<seq<(Id, Listing)>>)
    requires Query.IdsBelow(listings, n)
    ensures res.Ok? <==> IsAdmin(caller)
    ensures res.Ok? ==>
      && (forall x :: x in res.value <==> x.0 in listings && listings[x.0] == x.1)
      && Query.SortedOn(res.value, ListingRoutes.NewestFirst) && Query.DistinctIds(res.value)
  {
    if caller.rol != RoleAdmin then Fail(403, AdminOnly)
    else
      var all := (l: Listing) => true;
      Query.FindSorted(listings, all, n, ListingRoutes.NewestFirst);
      Ok(Query.SortOn(Query.Scan(listings, all, n), ListingRoutes.NewestFirst))
  }

  /** GET /offers/pending and GET /activities/pending: the pending listings, newest first; the same
      documents the providers' routers show an administrator. */
  function PendingListings(listings: map<Id, Listing>, n: nat): (res: seq<(Id, Listing)>)
    requires Query.IdsBelow(listings, n)
    ensures forall x :: x in res <==> x.0 in listings && listings[x.0] == x.1 && ListingRoutes.IsPending(x.1)
    ensures Query.SortedOn(res, ListingRoutes.NewestFirst) && Query.DistinctIds(res)
  {
    Query.FindSorted(listings, ListingRoutes.IsPending, n, ListingRoutes.NewestFirst);
    Query.SortOn(Query.Scan(listings, ListingRoutes.IsPending, n), ListingRoutes.NewestFirst)
  }

  /** The administrator's pending list and the one the listing routers give an administrator
      hold the same documents. */
  lemma PendingListsAgree(r: ListingRoutes.Router, admin: User, listings: map<Id, Listing>, n: nat)
    requires Query.IdsBelow(listings, n) && IsAdmin(admin)
    ensures ListingRoutes.Pending(r, admin, listings, n).Ok?
    ensures forall x :: x in PendingListings(listings, n) <==> x in ListingRoutes.Pending(r, admin, listings, n).value
  {
  }

  /** The moderation step of PUT /offers/:id/approve and /activities/:id/approve: "approve"
      approves, "reject" rejects with the given reason, any other action changes nothing; `activa`
      is never touched. */
  function Moderated(l: Listing, action: string, motivo: Option<string>): (m: Listing)
    ensures m.activa == l.activa && m.precioDescuento == l.precioDescuento && m.participantes == l.participantes
    ensures action == ActionApprove ==> m == l.(estado := StateApproved)
    ensures action == ActionReject ==> m == l.(estado := StateRejected, motivoRechazo := motivo)
    ensures action != ActionApprove && action != ActionReject ==> m == l
  {
    if action == ActionApprove then l.(estado := StateApproved)
    else if action == ActionReject then l.(estado := StateRejected, motivoRechazo := motivo)
    else l
  }

  /** PUT /offers/:id/approve (`forOffers`) or /activities/:id/approve: 404 for an unknown id,
      else the moderated listing is saved; the save's hook leaves the price alone because neither
      price path changed. */
  method Approve(db: Database, forOffers: bool, id: Id, action: string, motivo: Option<string>)
    returns (r: Result<Listing>)
    requires db.Valid()
    modifies db
    ensures db.Valid()
    ensures db.users == old(db.users) && db.orders == old(db.orders) && db.nextId == old(db.nextId)
    ensures id !in old(db.listings) ==>
      r == Fail(404, if forOffers then OfferNotFound else ActivityNotFound) && db.listings == old(db.listings)
    ensures id in old(db.listings) ==>
      && r == Ok(Moderated(old(db.listings)[id], action, motivo))
      && db.listings == old(db.listings)[id := r.value]
  {
    if id !in db.listings {
      return Fail(404, if forOffers then OfferNotFound else ActivityNotFound);
    }
    var l := db.listings[id];
    l := Moderated(l, action, motivo);
    l := PreSaveListing(l, false, false);
    db.listings := db.listings[id := l];
    r := Ok(l);
  }

  /** DELETE /users/:id: an administrator cannot delete their own account; an unknown id is a 404;
      otherwise the user is removed and nothing else is touched (their listings and orders stay). */
  method DeleteUser(db: Database, me: Id, id: Id) returns (r: Result<()>)
    requires db.Valid()
    modifies db
    ensures db.Valid()
    ensures db.listings == old(db.listings) && db.orders == old(db.orders) && db.nextId == old(db.nextId)
    ensures id == me ==> r == Fail(400, OwnAccount) && db.users == old(db.users)
    ensures id != me && id !in old(db.users) ==> r == Fail(404, UserNotFound) && db.users == old(db.users)
    ensures r.Ok? <==> id != me && id in old(db.users)
    ensures r.Ok? ==> db.users == old(db.users) - {id}
  {
    if id == me {
      return Fail(400, OwnAccount);
    }
    if id !in db.users {
      return Fail(404, UserNotFound);
    }
    db.users := db.users - {id};
    r := Ok(());
  }

  /** DELETE /offers/:id and DELETE /activities/:id: 404 for an unknown id, else the listing is
      removed. Either route deletes any listing. */
  method DeleteListing(db: Database, forOffers: bool, id: Id) returns (r: Result<()>)
    requires db.Valid()
    modifies db
    ensures db.Valid()
    ensures db.users == old(db.users) && db.orders == old(db.orders) && db.nextId == old(db.nextId)
    ensures id !in old(db.listings) ==>
      r == Fail(404, if forOffers then OfferNotFound else ActivityNotFound) && db.listings == old(db.listings)
    ensures r.Ok? <==> id in old(db.listings)
    ensures r.Ok? ==> db.listings == old(db.listings) - {id}
  {
    if id !in db.listings {
      return Fail(404, if forOffers then OfferNotFound else ActivityNotFound);
    }
    db.listings := db.listings - {id};
    r := Ok(());
  }

  /** The body of PUT /users/:id: any field of the user may be sent. `password` and `email` are
      accepted and then deleted; the two stamps belong to the timestamps option. */
  datatype UserPatch = UserPatch(
    nombre: Option<string>, email: Option<string>, password: Option<string>, rol: Option<string>,
    telefono: Option<string>, empresa: Option<string>, direccion: Option<string>,
    verificada: Option<bool>, ofertasParticipadas: Option<set<Id>>,
    actividadesParticipadas: Option<set<Id>>, ofertasCreadas: Option<set<Id>>,
    actividadesCreadas: Option<set<Id>>, disponible: Option<bool>, ubicacion: Option<Location>,
    vehiculo: Option<string>, calificacion: Option<int>, totalServicios: Option<int>,
    ultimaActualizacion: Option<int>, favoritos: Option<seq<FavoriteRef>>)

  /** The update applied without validators: every other field sent is written (the name through
      the trim setter), any role and any list of favourites included; the email, the password
      and the creation time never change, and the update time becomes `now`. */
  function Patched(u: User, p: UserPatch, now: int): (v: User)
    ensures v.email == u.email && v.password == u.password && v.createdAt == u.createdAt
    ensures v.rol == (if p.rol.Some? then p.rol.value else u.rol)
    ensures v.favoritos == (if p.favoritos.Some? then p.favoritos.value else u.favoritos)
    ensures v.updatedAt == now
  {
    PatchedCourier(PatchedLists(PatchedProfile(u, p), p), p).(updatedAt := now)
  }

  function PatchedProfile(u: User, p: UserPatch): User {
    u.(nombre := if p.nombre.Some? then JsText.Trim(p.nombre.value) else u.nombre,
       rol := if p.rol.Some? then p.rol.value else u.rol,
       telefono := if p.telefono.Some? then p.telefono.value else u.telefono,
       empresa := if p.empresa.Some? then p.empresa.value else u.empresa,
       direccion := if p.direccion.Some? then p.direccion.value else u.direccion,
       verificada := if p.verificada.Some? then p.verificada.value else u.verificada)
  }

  function PatchedLists(u: User, p: UserPatch): User {
    u.(ofertasParticipadas := if p.ofertasParticipadas.Some? then p.ofertasParticipadas.value else u.ofertasParticipadas,
       actividadesParticipadas := if p.actividadesParticipadas.Some? then p.actividadesParticipadas.value else u.actividadesParticipadas,
       ofertasCreadas := if p.ofertasCreadas.Some? then p.ofertasCreadas.value else u.ofertasCreadas,
       actividadesCreadas := if p.actividadesCreadas.Some? then p.actividadesCreadas.value else u.actividadesCreadas,
       favoritos := if p.favoritos.Some? then p.favoritos.value else u.favoritos)
  }

  function PatchedCourier(u: User, p: UserPatch): User {
    u.(disponible := if p.disponible.Some? then p.disponible else u.disponible,
       ubicacion := if p.ubicacion.Some? then p.ubicacion else u.ubicacion,
       vehiculo := if p.vehiculo.Some? then p.vehiculo.value else u.vehiculo,
       calificacion := if p.calificacion.Some? then p.calificacion else u.calificacion,
       totalServicios := if p.totalServicios.Some? then p.totalServicios.value else u.totalServicios,
       ultimaActualizacion := if p.ultimaActualizacion.Some? then p.ultimaActualizacion else u.ultimaActualizacion)
  }

  /** Applying the same patch twice, at the same time, stores what applying it once does. */
  lemma PatchIdempotent(u: User, p: UserPatch, now: int)
    ensures Patched(Patched(u, p, now), p, now) == Patched(u, p, now)
  {
    if p.nombre.Some? {
      JsText.TrimIdempotent(p.nombre.value);
    }
  }

  /** A patch that sends no field but the email or the password leaves the user as it was, but
      for the update time. */
  lemma EmptyPatchKeepsUser(u: User, email: Option<string>, password: Option<string>, now: int)
    ensures Patched(u, UserPatch(None, email, password, None, None, None, None, None, None, None, None,
                                 None, None, None, None, None, None, None, None), now) == u.(updatedAt := now)
  {
  }

  /** Sending an email or a password makes no difference to what is stored. */
  lemma PatchIgnoresCredentials(u: User, p: UserPatch, email: Option<string>, password: Option<string>, now: int)
    ensures Patched(u, p.(email := email, password := password), now) == Patched(u, p, now)
  {
  }

  /** PUT /users/:id at time `now`: 404 for an unknown id, else the patched user, shown without
      the password. */
  method UpdateUser(db: Database, id: Id, p: UserPatch, now: int) returns (r: Result<UserView>)
    requires db.Valid()
    modifies db
    ensures db.Valid()
    ensures db.listings == old(db.listings) && db.orders == old(db.orders) && db.nextId == old(db.nextId)
    ensures id !in old(db.users) ==> r == Fail(404, UserNotFound) && db.users == old(db.users)
    ensures id in old(db.users) ==>
      && db.users == old(db.users)[id := Patched(old(db.users)[id], p, now)]
      && r == Ok(ViewOf(id, db.users[id]))
  {
    if id !in db.users {
      return Fail(404, UserNotFound);
    }
    var u := Patched(db.users[id], p, now);
    db.users := db.users[id := u];
    r := Ok(ViewOf(id, u));
  }
}
