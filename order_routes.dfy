/** backend/routes/orders.js: delivery orders ("mandados"). A requester creates one, a courier
    ("mandadito") claims it, the requester or the courier moves it between states, and the
    requester rates it once it is completed, which recomputes the courier's average. Every handler
    answers an unexpected error with 500. Ratings are integer tenths of a point. */
module OrderRoutes {
  import opened Wrappers
  import opened JsText
  import opened Models
  import opened Store
  import Query

  const UserNotFound := "Usuario no encontrado"
  const OrderNotFound := "Mandado no encontrado"
  const CouriersOnly := "Solo los mandaditos pueden aceptar mandados"
  const NoLongerAvailable := "Este mandado ya no está disponible"
  const NotYours := "No tienes permisos para modificar este mandado"
  const RequesterOnly := "Solo el solicitante puede calificar"
  const CompletedOnly := "Solo se pueden calificar mandados completados"
  const NoPhone := "No registrado"
  const PriceRequired := "El precio ofertado es requerido"
  /** What `user.rol` on a missing user throws. */
  const NullUser := "Cannot read properties of null (reading 'rol')"
  /** What saving an average of `NaN` would throw if the user schema declared `calificacion`, as
      this route intends; under the schema as written the update is stripped instead. */
  const NotANumber := "Cast to Number failed for value \"NaN\" (type number) at path \"calificacion\""
  const PublicLimit := 50

  /** A value sent for one of the nested location paths: the form sends a text, another client
      may send the object itself. */
  datatype PlaceValue = PlaceText(text: string) | PlaceObject(place: Place)

  /** A create request body. The handler overrides `usuario`, `nombreUsuario`, `telefono` and
      `estado`; the others are spread into the order as sent. */
  datatype OrderBody = OrderBody(
    descripcion: string, precioOfertado: Option<int>, categoria: Option<string>,
    mandadito: Option<Id>, calificacion: Option<int>, comentario: Option<string>,
    usuario: Option<Id>, nombreUsuario: Option<string>, telefono: Option<string>, estado: Option<string>,
    notasAdicionales: Option<string>, ubicacionRecogida: Option<PlaceValue>,
    ubicacionEntrega: Option<PlaceValue>, fechaLimite: Option<string>)

  /** What the document constructor makes of a value sent for a nested location path: an object
      sets the path; a text, empty or not, is not an object and is skipped, since the schema is
      strict, so the path stays unset. */
  function PlaceOf(v: Option<PlaceValue>): (r: Option<Place>)
    ensures r.Some? <==> v.Some? && v.value.PlaceObject?
    ensures r.Some? ==> r.value == v.value.place
  {
    match v
    case Some(PlaceObject(place)) => Some(place)
    case _ => None
  }

  /** The order POST / builds for the requester `me`, after the constructor's casts, the schema's
      trim setter and its defaults. An empty date text is cast to no date. */
  function OrderDocument(body: OrderBody, me: Id, requester: User, now: int): (r: Result<Order>)
    ensures r.Ok? ==>
      && r.value.usuario == me && r.value.estado == OrderPending
      && r.value.nombreUsuario == requester.nombre
      && r.value.telefono == (if requester.telefono != [] then requester.telefono else NoPhone)
      && r.value.descripcion == Trim(body.descripcion)
      && r.value.notasAdicionales == body.notasAdicionales
      && r.value.fechaLimite == (if body.fechaLimite == Some("") then None else body.fechaLimite)
      && r.value.ubicacionRecogida == PlaceOf(body.ubicacionRecogida)
      && r.value.ubicacionEntrega == PlaceOf(body.ubicacionEntrega)
      && OrderSchemaValid(r.value)
    ensures r.Err? ==> r.failure.status == 500
  {
    if body.precioOfertado.None? then Fail(500, PriceRequired)
    else
      var o := Order(me, requester.nombre, if requester.telefono != [] then requester.telefono else NoPhone,
                     Trim(body.descripcion), body.precioOfertado.value, OrderPending, body.mandadito,
                     if body.categoria.Some? then body.categoria.value else DefaultOrderCategory,
                     body.calificacion, body.comentario, now,
                     PlaceOf(body.ubicacionRecogida), PlaceOf(body.ubicacionEntrega),
                     if body.fechaLimite == Some("") then None else body.fechaLimite,
                     body.notasAdicionales);
      match ValidateOrder(o)
      case Some(m) => Fail(500, m)
      case None => Ok(o)
  }

  /** A location sent as text makes no difference to the order built: it is the same as sending
      no location at all. */
  lemma TextLocationIgnored(body: OrderBody, me: Id, requester: User, now: int, pickup: string, dropoff: string)
    ensures OrderDocument(body.(ubicacionRecogida := Some(PlaceText(pickup)), ubicacionEntrega := Some(PlaceText(dropoff))), me, requester, now)
         == OrderDocument(body.(ubicacionRecogida := None, ubicacionEntrega := None), me, requester, now)
  {
    var b1 := body.(ubicacionRecogida := Some(PlaceText(pickup)), ubicacionEntrega := Some(PlaceText(dropoff)));
    var b2 := body.(ubicacionRecogida := None, ubicacionEntrega := None);
    assert PlaceOf(b1.ubicacionRecogida) == PlaceOf(b2.ubicacionRecogida) == None;
    assert PlaceOf(b1.ubicacionEntrega) == PlaceOf(b2.ubicacionEntrega) == None;
    assert b1.descripcion == b2.descripcion && b1.precioOfertado == b2.precioOfertado;
    assert b1.categoria == b2.categoria && b1.mandadito == b2.mandadito;
    assert b1.calificacion == b2.calificacion && b1.comentario == b2.comentario;
    assert b1.fechaLimite == b2.fechaLimite && b1.notasAdicionales == b2.notasAdicionales;
  }

  /** The body cannot choose the requester, the name, the phone or the state. */
  lemma CreateOverridesBody(body: OrderBody, me: Id, requester: User, now: int,
                            usuario: Option<Id>, nombreUsuario: Option<string>, telefono: Option<string>, estado: Option<string>)
    ensures OrderDocument(body, me, requester, now)
         == OrderDocument(body.(usuario := usuario, nombreUsuario := nombreUsuario, telefono := telefono, estado := estado), me, requester, now)
  {
    var b2 := body.(usuario := usuario, nombreUsuario := nombreUsuario, telefono := telefono, estado := estado);
    assert b2.descripcion == body.descripcion && b2.precioOfertado == body.precioOfertado;
    assert b2.categoria == body.categoria && b2.mandadito == body.mandadito;
    assert b2.calificacion == body.calificacion && b2.comentario == body.comentario;
    assert b2.ubicacionRecogida == body.ubicacionRecogida && b2.ubicacionEntrega == body.ubicacionEntrega;
    assert b2.fechaLimite == body.fechaLimite && b2.notasAdicionales == body.notasAdicionales;
  }

  /** The body can, however, name a courier and a rating, which the spread keeps: an order can be
      created already assigned and rated while still pending. */
  lemma CreateKeepsSpreadCourier(body: OrderBody, me: Id, requester: User, now: int)
    requires OrderDocument(body, me, requester, now).Ok?
    ensures OrderDocument(body, me, requester, now).value.mandadito == body.mandadito
    ensures OrderDocument(body, me, requester, now).value.calificacion == body.calificacion
  {
  }

  /** A description the trim setter shortens to 500 characters or fewer is accepted, whatever white
      space surrounds it; one that is blank is refused. */
  lemma CreateDescriptionRule(body: OrderBody, me: Id, requester: User, now: int)
    requires body.precioOfertado.Some?
    ensures IsBlank(body.descripcion) ==> OrderDocument(body, me, requester, now).Err?
    ensures |Trim(body.descripcion)| > MaxDescription ==> OrderDocument(body, me, requester, now).Err?
    ensures body.precioOfertado.value < MinOfferedPrice ==> OrderDocument(body, me, requester, now).Err?
  {
    BlankIffTrimmedEmpty(body.descripcion);
  }

  /** POST /: 404 when the caller's record is gone, 500 when the schema refuses the order, else the
      order is stored under a fresh id. */
  method Create(db: Database, me: Id, body: OrderBody, now: int) returns (r: Result<(Id, Order)>)
    requires db.Valid()
    modifies db
    ensures db.Valid()
    ensures db.users == old(db.users) && db.listings == old(db.listings)
    ensures me !in old(db.users) ==> r == Fail(404, UserNotFound) && unchanged(db)
    ensures me in old(db.users) && OrderDocument(body, me, old(db.users)[me], now).Err? ==>
      r == Err(OrderDocument(body, me, old(db.users)[me], now).failure) && unchanged(db)
    ensures me in old(db.users) && OrderDocument(body, me, old(db.users)[me], now).Ok? ==>
      && r == Ok((old(db.nextId), OrderDocument(body, me, old(db.users)[me], now).value))
      && db.orders == old(db.orders)[old(db.nextId) := r.value.1] && db.nextId == old(db.nextId) + 1
  {
    if me !in db.users {
      return Fail(404, UserNotFound);
    }
    var doc := OrderDocument(body, me, db.users[me], now);
    if doc.Err? {
      return Err(doc.failure);
    }
    var id := db.FreshId();
    db.orders := db.orders[id := doc.value];
    r := Ok((id, doc.value));
  }

  function NewestFirst(o: Order): int { -o.createdAt }

  predicate IsOpen(o: Order) { o.estado == OrderPending }

  /** GET /public: pending orders, newest first, at most 50. */
  function PublicOrders(orders: map<Id, Order>, n: nat): (res: seq<(Id, Order)>)
    requires Query.IdsBelow(orders, n)
    ensures |res| <= PublicLimit
    ensures forall x :: x in res ==> x.0 in orders && orders[x.0] == x.1 && IsOpen(x.1)
    ensures Query.SortedOn(res, NewestFirst) && Query.DistinctIds(res)
    ensures |res| < PublicLimit ==> forall k :: k in orders && IsOpen(orders[k]) ==> (k, orders[k]) in res
    ensures forall k, i :: k in orders && IsOpen(orders[k]) && (k, orders[k]) !in res && 0 <= i < |res| ==>
      orders[k].createdAt <= res[i].1.createdAt
  {
    Query.FindSorted(orders, IsOpen, n, NewestFirst);
    var all := Query.SortOn(Query.Scan(orders, IsOpen, n), NewestFirst);
    Query.TakeSorted(all, PublicLimit, NewestFirst);
    Query.Take(all, PublicLimit)
  }

  /** GET /my-orders: exactly the caller's orders, newest first. */
  function MyOrders(orders: map<Id, Order>, n: nat, me: Id): (res: seq<(Id, Order)>)
    requires Query.IdsBelow(orders, n)
    ensures forall x :: x in res <==> x.0 in orders && orders[x.0] == x.1 && x.1.usuario == me
    ensures Query.SortedOn(res, NewestFirst) && Query.DistinctIds(res)
  {
    var mine := (o: Order) => o.usuario == me;
    Query.FindSorted(orders, mine, n, NewestFirst);
    Query.SortOn(Query.Scan(orders, mine, n), NewestFirst)
  }

  /** GET /my-deliveries: exactly the orders assigned to the caller, newest first. */
  function MyDeliveries(orders: map<Id, Order>, n: nat, me: Id): (res: seq<(Id, Order)>)
    requires Query.IdsBelow(orders, n)
    ensures forall x :: x in res <==> x.0 in orders && orders[x.0] == x.1 && x.1.mandadito == Some(me)
    ensures Query.SortedOn(res, NewestFirst) && Query.DistinctIds(res)
  {
    var toMe := (o: Order) => o.mandadito == Some(me);
    Query.FindSorted(orders, toMe, n, NewestFirst);
    Query.SortOn(Query.Scan(orders, toMe, n), NewestFirst)
  }

  /** PUT /:id/accept: first come, first served. Only a courier may claim, and only a pending order;
      the claim assigns the order to the caller. */
  method Accept(db: Database, me: Id, id: Id) returns (r: Result<Order>)
    requires db.Valid()
    modifies db
    ensures db.Valid()
    ensures db.users == old(db.users) && db.listings == old(db.listings) && db.nextId == old(db.nextId)
    ensures me !in old(db.users) ==> r == Fail(500, NullUser) && unchanged(db)
    ensures me in old(db.users) && old(db.users)[me].rol != RoleCourier ==> r == Fail(403, CouriersOnly) && unchanged(db)
    ensures me in old(db.users) && old(db.users)[me].rol == RoleCourier && id !in old(db.orders) ==>
      r == Fail(404, OrderNotFound) && unchanged(db)
    ensures me in old(db.users) && old(db.users)[me].rol == RoleCourier && id in old(db.orders) && old(db.orders)[id].estado != OrderPending ==>
      r == Fail(400, NoLongerAvailable) && unchanged(db)
    ensures r.Ok? <==> me in old(db.users) && old(db.users)[me].rol == RoleCourier && id in old(db.orders) && IsOpen(old(db.orders)[id])
    ensures r.Ok? ==>
      && r.value == old(db.orders)[id].(estado := OrderAssigned, mandadito := Some(me))
      && db.orders == old(db.orders)[id := r.value]
  {
    if me !in db.users {
      return Fail(500, NullUser);
    }
    if db.users[me].rol != RoleCourier {
      return Fail(403, CouriersOnly);
    }
    if id !in db.orders {
      return Fail(404, OrderNotFound);
    }
    var o := db.orders[id];
    if o.estado != OrderPending {
      return Fail(400, NoLongerAvailable);
    }
    o := o.(estado := OrderAssigned, mandadito := Some(me));
    db.orders := db.orders[id := o];
    r := Ok(o);
  }

  /** Once a courier has claimed an order, a second claim by anyone is refused and changes nothing. */
  method AcceptTwice(db: Database, first: Id, second: Id, id: Id) returns (r1: Result<Order>, r2: Result<Order>)
    requires db.Valid()
    requires first in db.users && db.users[first].rol == RoleCourier
    requires second in db.users && db.users[second].rol == RoleCourier
    requires id in db.orders && IsOpen(db.orders[id])
    modifies db
    ensures r1.Ok? && r2 == Fail(400, NoLongerAvailable)
    ensures id in db.orders && db.orders[id].mandadito == Some(first)
  {
    r1 := Accept(db, first, id);
    r2 := Accept(db, second, id);
  }

  /** The state an order reads back with after `order.estado = estado` and a save: a body without
      `estado` unsets the path, which the enum validator lets through and the default then fills
      with the pending state. */
  function StatusWritten(estado: Option<string>): (e: string)
    ensures estado.None? ==> e == OrderPending
    ensures estado.Some? ==> e == estado.value
  {
    if estado.Some? then estado.value else OrderPending
  }

  /** PUT /:id/status: the requester or the assigned courier may write any state the schema allows;
      the current state is not consulted. */
  method UpdateStatus(db: Database, me: Id, id: Id, estado: Option<string>) returns (r: Result<Order>)
    requires db.Valid()
    modifies db
    ensures db.Valid()
    ensures db.users == old(db.users) && db.listings == old(db.listings) && db.nextId == old(db.nextId)
    ensures id !in old(db.orders) ==> r == Fail(404, OrderNotFound) && unchanged(db)
    ensures id in old(db.orders) && old(db.orders)[id].usuario != me && old(db.orders)[id].mandadito != Some(me) ==>
      r == Fail(403, NotYours) && unchanged(db)
    ensures r.Ok? <==>
      id in old(db.orders) && (old(db.orders)[id].usuario == me || old(db.orders)[id].mandadito == Some(me))
      && (estado.None? || estado.value in OrderStates)
    ensures r.Err? ==> unchanged(db)
    ensures r.Ok? ==>
      r.value == old(db.orders)[id].(estado := StatusWritten(estado)) && db.orders == old(db.orders)[id := r.value]
  {
    if id !in db.orders {
      return Fail(404, OrderNotFound);
    }
    var o := db.orders[id];
    if o.usuario != me && o.mandadito != Some(me) {
      return Fail(403, NotYours);
    }
    o := o.(estado := StatusWritten(estado));
    match ValidateOrder(o)
    case Some(m) =>
      return Fail(500, m);
    case None =>
      db.orders := db.orders[id := o];
      r := Ok(o);
  }

  /** Σ of the ratings of `s`, in tenths. */
  function SumRatings(s: seq<(Id, Order)>): int {
    if s == [] then 0
    else SumRatings(s[..|s| - 1]) + (if s[|s| - 1].1.calificacion.Some? then s[|s| - 1].1.calificacion.value else 0)
  }

  predicate RatedBy(c: Id, o: Order) { o.mandadito == Some(c) && o.calificacion.Some? }

  /** `Order.find({ mandadito: c, calificacion: { $exists: true } })`. */
  function CourierRatings(orders: map<Id, Order>, n: nat, c: Id): (res: seq<(Id, Order)>)
    ensures forall x :: x in res <==> x.0 < n && x.0 in orders && orders[x.0] == x.1 && RatedBy(c, x.1)
  {
    Query.Scan(orders, (o: Order) => RatedBy(c, o), n)
  }

  /** `Math.round(S / k)` for `k > 0`: the integer nearest to the mean, halves rounded up. With the
      ratings in tenths this is `Math.round(promedio * 10)` of the handler. */
  function RoundedMean(sum: int, k: nat): (m: int)
    requires k > 0
    ensures 2 * k * m - k <= 2 * sum < 2 * k * m + k
  {
    (2 * sum + k) / (2 * k)
  }

  /** The rounded mean of ratings that all lie between the schema's bounds lies between them too,
      and the mean of one rating is that rating. */
  lemma RoundedMeanBounds(sum: int, k: nat)
    requires k > 0 && MinRating * k <= sum <= MaxRating * k
    ensures MinRating <= RoundedMean(sum, k) <= MaxRating
    ensures k == 1 ==> RoundedMean(sum, k) == sum
  {
    var m := RoundedMean(sum, k);
    assert k * (2 * m + 1) > k * (2 * MinRating - 1) by {
      assert 2 * k * m + k == k * (2 * m + 1);
    }
    CancelPositive(k, 2 * m + 1, 2 * MinRating - 1);
    assert k * (2 * m - 1) <= k * (2 * MaxRating) by {
      assert 2 * k * m - k == k * (2 * m - 1);
    }
    CancelPositive(k, 2 * MaxRating + 1, 2 * m - 1);
  }

  /** Multiplying by a positive number keeps a strict order, in both directions. */
  lemma CancelPositive(k: int, a: int, b: int)
    requires k > 0 && k * a > k * b
    ensures a > b
  {
  }

  /** The ratings of stored orders lie between the bounds, so their sum lies between the count times
      each bound. */
  lemma {:induction false} SumRatingsBounds(s: seq<(Id, Order)>)
    requires forall i :: 0 <= i < |s| ==> s[i].1.calificacion.Some? && OrderSchemaValid(s[i].1)
    ensures MinRating * |s| <= SumRatings(s) <= MaxRating * |s|
  {
    if s != [] {
      SumRatingsBounds(s[..|s| - 1]);
    }
  }

  /** The courier's new average: `None` when none of the courier's orders has a rating, the case in
      which the handler computes `0 / 0`. */
  function CourierAverage(orders: map<Id, Order>, n: nat, c: Id): (avg: Option<int>)
    requires forall k :: k in orders ==> OrderSchemaValid(orders[k])
    ensures avg.None? <==> CourierRatings(orders, n, c) == []
    ensures avg.Some? ==> MinRating <= avg.value <= MaxRating
  {
    var rated := CourierRatings(orders, n, c);
    if rated == [] then None
    else
      assert forall i :: 0 <= i < |rated| ==> rated[i] in rated;
      SumRatingsBounds(rated);
      RoundedMeanBounds(SumRatings(rated), |rated|);
      Some(RoundedMean(SumRatings(rated), |rated|))
  }

  /** The refusals of PUT /:id/rate, before anything is saved. */
  function RateRefusal(orders: map<Id, Order>, me: Id, id: Id): Option<Failure> {
    if id !in orders then Some(Failure(404, OrderNotFound))
    else if orders[id].usuario != me then Some(Failure(403, RequesterOnly))
    else if orders[id].estado != OrderCompleted then Some(Failure(400, CompletedOnly))
    else None
  }

  /** PUT /:id/rate: the requester rates a completed order; the order is saved first, then the
      courier's average is recomputed over all of the courier's rated orders, this one included. */
  method Rate(db: Database, me: Id, id: Id, calificacion: Option<int>, comentario: Option<string>)
    returns (r: Result<Order>)
    requires db.Valid()
    modifies db
    ensures db.Valid()
    ensures db.listings == old(db.listings) && db.nextId == old(db.nextId)
    ensures RateRefusal(old(db.orders), me, id).Some? ==> r == Err(RateRefusal(old(db.orders), me, id).value) && unchanged(db)
    ensures RateRefusal(old(db.orders), me, id).None? ==>
      var o := old(db.orders)[id].(calificacion := calificacion, comentario := comentario);
      && (!OrderSchemaValid(o) ==> r.Err? && r.failure.status == 500 && unchanged(db))
      && (OrderSchemaValid(o) ==> db.orders == old(db.orders)[id := o])
      && (OrderSchemaValid(o) && o.mandadito.None? ==> r == Ok(o) && db.users == old(db.users))
      && (OrderSchemaValid(o) && o.mandadito.Some? ==>
            var c := o.mandadito.value;
            match CourierAverage(db.orders, db.nextId, c)
            case None => r == Fail(500, NotANumber) && db.users == old(db.users)
            case Some(avg) =>
              && r == Ok(o)
              && db.users == (if c in old(db.users) then old(db.users)[c := old(db.users)[c].(calificacion := Some(avg))] else old(db.users)))
    ensures calificacion.Some? && r.Ok? && db.orders[id].mandadito.Some? ==>
      var c := db.orders[id].mandadito.value;
      (id, db.orders[id]) in CourierRatings(db.orders, db.nextId, c)
      && CourierAverage(db.orders, db.nextId, c).Some?
  {
    var refusal := RateRefusal(db.orders, me, id);
    if refusal.Some? {
      return Err(refusal.value);
    }
    var o := db.orders[id];
    o := o.(calificacion := calificacion, comentario := comentario);
    match ValidateOrder(o)
    case Some(m) =>
      return Fail(500, m);
    case None =>
    db.orders := db.orders[id := o];
    if o.mandadito.Some? {
      var avg := StoreCourierAverage(db, o.mandadito.value);
      if avg.None? {
        return Fail(500, NotANumber);
      }
    }
    r := Ok(o);
  }

  /** The end of PUT /:id/rate, once the order is saved: the courier's average over the saved
      orders is written on the courier's record, when there is a rating to average and the courier
      exists; nothing else changes. */
  method StoreCourierAverage(db: Database, c: Id) returns (avg: Option<int>)
    requires db.Valid()
    modifies db
    ensures db.Valid()
    ensures avg == CourierAverage(db.orders, db.nextId, c)
    ensures db.orders == old(db.orders) && db.listings == old(db.listings) && db.nextId == old(db.nextId)
    ensures avg.None? || c !in old(db.users) ==> db.users == old(db.users)
    ensures avg.Some? && c in old(db.users) ==>
      db.users == old(db.users)[c := old(db.users)[c].(calificacion := Some(avg.value))]
  {
    avg := CourierAverage(db.orders, db.nextId, c);
    if avg.Some? && c in db.users {
      db.users := db.users[c := db.users[c].(calificacion := Some(avg.value))];
    }
  }
}
