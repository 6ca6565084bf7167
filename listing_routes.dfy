/** backend/routes/offers.js and backend/routes/activities.js: the same six handlers, run by two
    routers over the one listing collection. They differ only in messages, in the sort key of
    the public and own lists, and in which of the user's sets records a participation or a
    creation. */
module ListingRoutes {
  import opened Wrappers
  import opened Models
  import opened AuthMiddleware
  import opened Store
  import Query

  datatype Router = OffersRouter | ActivitiesRouter

  function Unavailable(r: Router): string {
    if r.OffersRouter? then "Oferta no disponible" else "Actividad no disponible"
  }
  function Full(r: Router): string {
    if r.OffersRouter? then "Oferta llena" else "Actividad llena"
  }
  function AlreadyJoined(r: Router): string {
    if r.OffersRouter? then "Ya estás participando en esta oferta" else "Ya estás registrado en esta actividad"
  }
  function JoinError(r: Router): string {
    if r.OffersRouter? then "Error al participar en la oferta" else "Error al registrar en la actividad"
  }
  function CreateError(r: Router): string {
    if r.OffersRouter? then "Error al crear oferta" else "Error al crear actividad"
  }
  function NotFound(r: Router): string {
    if r.OffersRouter? then "Oferta no encontrada" else "Actividad no encontrada"
  }
  const AdminOnly := "Se requieren privilegios de administrador"
  const BadState := "Estado no válido"

  /** `participaciones.ofertas` or `participaciones.actividades`. */
  function Joined(u: User, r: Router): set<Id> {
    if r.OffersRouter? then u.ofertasParticipadas else u.actividadesParticipadas
  }

  /** `$addToSet` on the router's participation set. */
  function AddJoined(u: User, r: Router, id: Id): (v: User)
    ensures Joined(v, r) == Joined(u, r) + {id}
    ensures Joined(v, OtherRouter(r)) == Joined(u, OtherRouter(r))
    ensures v.ofertasCreadas == u.ofertasCreadas && v.actividadesCreadas == u.actividadesCreadas
    ensures v.email == u.email
  {
    if r.OffersRouter? then u.(ofertasParticipadas := u.ofertasParticipadas + {id})
    else u.(actividadesParticipadas := u.actividadesParticipadas + {id})
  }

  /** `$addToSet` on `ofertasCreadas` or `actividadesCreadas`. */
  function AddCreated(u: User, r: Router, id: Id): (v: User)
    ensures (if r.OffersRouter? then v.ofertasCreadas else v.actividadesCreadas)
         == (if r.OffersRouter? then u.ofertasCreadas else u.actividadesCreadas) + {id}
    ensures (if r.OffersRouter? then v.actividadesCreadas else v.ofertasCreadas)
         == (if r.OffersRouter? then u.actividadesCreadas else u.ofertasCreadas)
    ensures v.email == u.email && Joined(v, OffersRouter) == Joined(u, OffersRouter)
    ensures Joined(v, ActivitiesRouter) == Joined(u, ActivitiesRouter)
  {
    if r.OffersRouter? then u.(ofertasCreadas := u.ofertasCreadas + {id})
    else u.(actividadesCreadas := u.actividadesCreadas + {id})
  }

  function OtherRouter(r: Router): Router {
    if r.OffersRouter? then ActivitiesRouter else OffersRouter
  }

  /** The sort of the public list and of the caller's own list: offers newest first, activities by
      date, earliest first. */
  function ListKey(r: Router): Listing -> int {
    if r.OffersRouter? then (l: Listing) => -l.createdAt else (l: Listing) => l.fecha
  }

  function NewestFirst(l: Listing): int { -l.createdAt }

  predicate IsPublic(l: Listing) { l.estado == StateApproved && l.activa }

  /** GET /: exactly the approved, active listings, each once, in the router's order. */
  function PublicList(r: Router, listings: map<Id, Listing>, n: nat): (res: seq<(Id, Listing)>)
    requires Query.IdsBelow(listings, n)
    ensures forall x :: x in res <==> x.0 in listings && listings[x.0] == x.1 && IsPublic(x.1)
    ensures Query.SortedOn(res, ListKey(r)) && Query.DistinctIds(res)
  {
    Query.FindSorted(listings, IsPublic, n, ListKey(r));
    Query.SortOn(Query.Scan(listings, IsPublic, n), ListKey(r))
  }

  /** Both routers list the same documents; only the order differs. */
  lemma PublicListsAgree(listings: map<Id, Listing>, n: nat)
    requires Query.IdsBelow(listings, n)
    ensures forall x :: x in PublicList(OffersRouter, listings, n) <==> x in PublicList(ActivitiesRouter, listings, n)
    ensures |PublicList(OffersRouter, listings, n)| == |PublicList(ActivitiesRouter, listings, n)|
  {
    var s := Query.Scan(listings, IsPublic, n);
    assert multiset(PublicList(OffersRouter, listings, n)) == multiset(s) == multiset(PublicList(ActivitiesRouter, listings, n));
  }

  predicate IsPending(l: Listing) { l.estado == StatePending }

  /** GET /pending: the provider gate, then an administrator check, so a provider passes the gate
      and is still refused; an administrator gets exactly the pending listings, newest first. */
  function Pending(r: Router, caller: User, listings: map<Id, Listing>, n: nat): (res: Result<seq<(Id, Listing)>>)
    requires Query.IdsBelow(listings, n)
    ensures res.Ok? <==> IsAdmin(caller)
    ensures res.Err? ==> res.failure.status == 403
    ensures IsOferente(caller) ==> res == Fail(403, AdminOnly)
    ensures res.Ok? ==>
      && (forall x :: x in res.value <==> x.0 in listings && listings[x.0] == x.1 && IsPending(x.1))
      && Query.SortedOn(res.value, NewestFirst) && Query.DistinctIds(res.value)
  {
    match RequireOferenteOrAdmin(caller)
    case Deny(f) => Err(f)
    case Pass =>
      if !IsAdmin(caller) then Fail(403, AdminOnly)
      else
        Query.FindSorted(listings, IsPending, n, NewestFirst);
        Ok(Query.SortOn(Query.Scan(listings, IsPending, n), NewestFirst))
  }

  /** GET /my-offers and /my-activities: providers and administrators get exactly the listings
      they created, in the router's order. */
  function Mine(r: Router, me: Id, caller: User, listings: map<Id, Listing>, n: nat): (res: Result<seq<(Id, Listing)>>)
    requires Query.IdsBelow(listings, n)
    ensures res.Ok? <==> IsOferente(caller) || IsAdmin(caller)
    ensures res.Err? ==> res.failure.status == 403
    ensures res.Ok? ==>
      && (forall x :: x in res.value <==> x.0 in listings && listings[x.0] == x.1 && x.1.creador == me)
      && Query.SortedOn(res.value, ListKey(r)) && Query.DistinctIds(res.value)
  {
    match RequireOferenteOrAdmin(caller)
    case Deny(f) => Err(f)
    case Pass =>
      var mine := (l: Listing) => l.creador == me;
      Query.FindSorted(listings, mine, n, ListKey(r));
      Ok(Query.SortOn(Query.Scan(listings, mine, n), ListKey(r)))
  }

  /** A create request body. The last five fields may be sent but are overridden by the handler. */
  datatype ListingBody = ListingBody(
    titulo: string, descripcion: string, descuento: string, categoria: string,
    maxParticipantes: Option<int>, precioOriginal: Option<real>, precioDescuento: Option<real>,
    fecha: Option<int>, hora: string, duracion: string, ubicacion: string,
    motivoRechazo: Option<string>,
    estado: Option<string>, activa: Option<bool>, participantes: Option<int>,
    creador: Option<Id>, empresa: Option<string>)

  /** The document POST / saves: the body spread, then the handler's overrides, then the schema's
      validation and the pre-save price hook (every path of a new document counts as modified). */
  function ListingDocument(r: Router, body: ListingBody, me: Id, caller: User, now: int): (res: Result<Listing>)
    ensures res.Err? ==> res == Fail(400, CreateError(r))
    ensures res.Ok? ==>
      var l := res.value;
      && l.estado == StatePending && l.activa && l.participantes == 0 && l.creador == me
      && l.empresa == (if caller.empresa != [] then caller.empresa else caller.nombre)
      && l.precioDescuento == DiscountedPrice(l.precioOriginal, l.descuento)
      && ListingSchemaValid(l) && WithinCapacity(l) && l.createdAt == now
  {
    if body.maxParticipantes.None? || body.precioOriginal.None? || body.precioDescuento.None? || body.fecha.None? then
      Fail(400, CreateError(r))
    else
      var l := Listing(body.titulo, body.descripcion, body.descuento, body.categoria,
                       0, body.maxParticipantes.value, body.precioOriginal.value, body.precioDescuento.value,
                       body.fecha.value, body.hora, body.duracion, body.ubicacion,
                       true, me, if caller.empresa != [] then caller.empresa else caller.nombre,
                       StatePending, body.motivoRechazo, now);
      if !ListingSchemaValid(l) then Fail(400, CreateError(r))
      else Ok(PreSaveListing(l, true, true))
  }

  /** Whatever the body says about state, activity, count, creator or company has no effect. */
  lemma CreateOverridesBody(r: Router, body: ListingBody, me: Id, caller: User, now: int,
                            estado: Option<string>, activa: Option<bool>, participantes: Option<int>,
                            creador: Option<Id>, empresa: Option<string>)
    ensures ListingDocument(r, body, me, caller, now)
         == ListingDocument(r, body.(estado := estado, activa := activa, participantes := participantes,
                                     creador := creador, empresa := empresa), me, caller, now)
  {
  }

  /** POST /: the provider gate, then the save, then the new id joins the creator's created set. */
  method Create(r: Router, db: Database, me: Id, caller: User, body: ListingBody, now: int)
    returns (res: Result<(Id, Listing)>)
    requires db.Valid()
    modifies db
    ensures db.Valid()
    ensures db.orders == old(db.orders)
    ensures RequireOferenteOrAdmin(caller).Deny? ==>
      res == Err(RequireOferenteOrAdmin(caller).failure) && unchanged(db)
    ensures RequireOferenteOrAdmin(caller).Pass? && ListingDocument(r, body, me, caller, now).Err? ==>
      res == Fail(400, CreateError(r)) && unchanged(db)
    ensures RequireOferenteOrAdmin(caller).Pass? && ListingDocument(r, body, me, caller, now).Ok? ==>
      && res == Ok((old(db.nextId), ListingDocument(r, body, me, caller, now).value))
      && db.nextId == old(db.nextId) + 1
      && db.listings == old(db.listings)[res.value.0 := res.value.1]
      && db.users == (if me in old(db.users) then old(db.users)[me := AddCreated(old(db.users)[me], r, res.value.0)]
                      else old(db.users))
  {
    if RequireOferenteOrAdmin(caller).Deny? {
      return Err(RequireOferenteOrAdmin(caller).failure);
    }
    var doc := ListingDocument(r, body, me, caller, now);
    if doc.Err? {
      return Fail(400, CreateError(r));
    }
    var id := db.FreshId();
    db.listings := db.listings[id := doc.value];
    if me in db.users {
      db.users := db.users[me := AddCreated(db.users[me], r, id)];
    }
    res := Ok((id, doc.value));
  }

  /** PATCH /:id/approve: administrators only, the new state must be approved or rejected, and the
      current state is not looked at. */
  method Approve(r: Router, db: Database, caller: User, id: Id, estado: string, motivoRechazo: Option<string>)
    returns (res: Result<Listing>)
    requires db.Valid()
    modifies db
    ensures db.Valid()
    ensures db.users == old(db.users) && db.orders == old(db.orders) && db.nextId == old(db.nextId)
    ensures !IsAdmin(caller) ==> res == Fail(403, AdminOnly) && unchanged(db)
    ensures IsAdmin(caller) && estado != StateApproved && estado != StateRejected ==>
      res == Fail(400, BadState) && unchanged(db)
    ensures IsAdmin(caller) && (estado == StateApproved || estado == StateRejected) && id !in old(db.listings) ==>
      res == Fail(404, NotFound(r)) && unchanged(db)
    ensures res.Ok? <==> IsAdmin(caller) && (estado == StateApproved || estado == StateRejected) && id in old(db.listings)
    ensures res.Ok? ==>
      && IsAdmin(caller) && id in old(db.listings)
      && res.value == old(db.listings)[id].(estado := estado,
           motivoRechazo := if estado == StateRejected then motivoRechazo else None,
           activa := estado == StateApproved || old(db.listings)[id].activa)
      && db.listings == old(db.listings)[id := res.value]
  {
    if !IsAdmin(caller) {
      return Fail(403, AdminOnly);
    }
    if estado != StateApproved && estado != StateRejected {
      return Fail(400, BadState);
    }
    if id !in db.listings {
      return Fail(404, NotFound(r));
    }
    var l := db.listings[id];
    l := l.(estado := estado, motivoRechazo := if estado == StateRejected then motivoRechazo else None);
    if estado == StateApproved {
      l := l.(activa := true);
    }
    db.listings := db.listings[id := l];
    res := Ok(l);
  }

  /** The first guard of POST /:id/participate that refuses, in the handler's order. */
  function JoinRefusal(r: Router, listings: map<Id, Listing>, users: map<Id, User>, me: Id, id: Id): Option<Failure> {
    if id !in listings || listings[id].estado != StateApproved || !listings[id].activa then Some(Failure(400, Unavailable(r)))
    else if listings[id].participantes >= listings[id].maxParticipantes then Some(Failure(400, Full(r)))
    else if me !in users then Some(Failure(400, JoinError(r)))
    else if id in Joined(users[me], r) then Some(Failure(400, AlreadyJoined(r)))
    else None
  }

  /** A join goes through exactly when the listing is public, has room, and the user exists and has
      not joined it through this router; every refusal is a 400. */
  lemma JoinRefusalIff(r: Router, listings: map<Id, Listing>, users: map<Id, User>, me: Id, id: Id)
    ensures JoinRefusal(r, listings, users, me, id).None? <==>
      && id in listings && IsPublic(listings[id])
      && listings[id].participantes < listings[id].maxParticipantes
      && me in users && id !in Joined(users[me], r)
    ensures JoinRefusal(r, listings, users, me, id).Some? ==> JoinRefusal(r, listings, users, me, id).value.status == 400
  {
  }

  /** One more participant keeps a listing within capacity when there was room. */
  lemma {:induction false} JoinKeepsCapacity(l: Listing)
    requires WithinCapacity(l) && l.participantes < l.maxParticipantes
    ensures WithinCapacity(l.(participantes := l.participantes + 1))
    ensures l.(participantes := l.participantes + 1).participantes <= l.maxParticipantes
  {
  }

  /** POST /:id/participate: on success the count rises by exactly one and the id joins the caller's
      set for this router; a refusal changes nothing. */
  method Participate(r: Router, db: Database, me: Id, id: Id) returns (res: Result<Listing>)
    requires db.Valid()
    modifies db
    ensures db.Valid()
    ensures db.orders == old(db.orders) && db.nextId == old(db.nextId)
    ensures JoinRefusal(r, old(db.listings), old(db.users), me, id).Some? ==>
      res == Err(JoinRefusal(r, old(db.listings), old(db.users), me, id).value) && unchanged(db)
    ensures JoinRefusal(r, old(db.listings), old(db.users), me, id).None? ==>
      && id in old(db.listings) && me in old(db.users)
      && res == Ok(old(db.listings)[id].(participantes := old(db.listings)[id].participantes + 1))
      && db.listings == old(db.listings)[id := res.value]
      && db.users == old(db.users)[me := AddJoined(old(db.users)[me], r, id)]
  {
    var refusal := JoinRefusal(r, db.listings, db.users, me, id);
    if refusal.Some? {
      return Err(refusal.value);
    }
    JoinRefusalIff(r, db.listings, db.users, me, id);
    var l := db.listings[id];
    JoinKeepsCapacity(l);
    l := l.(participantes := l.participantes + 1);
    db.listings := db.listings[id := PreSaveListing(l, false, false)];
    db.users := db.users[me := AddJoined(db.users[me], r, id)];
    res := Ok(l);
  }

  /** Because both routers work on one collection and keep separate participation sets, a user can
      join the same listing once through each router, and it counts twice. */
  method JoinThroughBothRouters(db: Database, me: Id, id: Id) returns (first: Result<Listing>, second: Result<Listing>)
    requires db.Valid()
    requires me in db.users && id in db.listings && IsPublic(db.listings[id])
    requires db.listings[id].participantes + 2 <= db.listings[id].maxParticipantes
    requires id !in Joined(db.users[me], OffersRouter) && id !in Joined(db.users[me], ActivitiesRouter)
    modifies db
    ensures db.Valid()
    ensures first.Ok? && second.Ok?
    ensures id in db.listings && me in db.users
    ensures db.listings[id].participantes == old(db.listings[id].participantes) + 2
    ensures id in db.users[me].ofertasParticipadas && id in db.users[me].actividadesParticipadas
  {
    JoinRefusalIff(OffersRouter, db.listings, db.users, me, id);
    first := Participate(OffersRouter, db, me, id);
    JoinRefusalIff(ActivitiesRouter, db.listings, db.users, me, id);
    second := Participate(ActivitiesRouter, db, me, id);
  }
}
