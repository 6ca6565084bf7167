/** The documents of the backend: users (backend/models/User.js), listings (backend/models/Offer.js,
    registered under the model name 'Activity', which backend/models/Activity.js then reuses, so
    offers and activities are one collection with one schema) and delivery orders
    (backend/models/Order.js). Each schema's constraints are a predicate; its save hooks are functions. */
module Models {
  import opened Wrappers
  import opened JsText
  import Query

  type Id = Query.Id

  // ------------------------------------------------------------------ users

  const RoleUser := "usuario"
  const RoleProvider := "oferente"
  const RoleAdmin := "administrador"
  /** Required by the order and courier routes, but absent from the schema's role enum. */
  const RoleCourier := "mandadito"

  /** The role enum of the user schema; the role itself is kept as an open string. */
  const SchemaRoles: set<string> := {RoleUser, RoleProvider, RoleAdmin}

  /** A stored password. bcrypt is opaque: `Hashed(c)` is the hash of `c`, and hashing is never
      undone. */
  datatype Credential = Plain(text: string) | Hashed(of: Credential)

  /** `bcrypt.compare(candidate, stored)`. */
  predicate ComparePassword(candidate: string, stored: Credential) {
    stored == Hashed(Plain(candidate))
  }

  /** A courier's last reported position. A coordinate is `None` when `parseFloat` gave `NaN`. */
  datatype Location = Location(lat: Option<real>, lng: Option<real>, ultimaActualizacion: int)

  /** An entry of a user's `favoritos`: the item's id, its type ("Offer" or "Activity") and when
      it was added. */
  datatype FavoriteRef = FavoriteRef(itemId: Id, itemType: string, fecha: int)

  /** A user document. `calificacion` is a courier's average rating in tenths of a point;
      `createdAt` and `updatedAt` are the stamps of the schema's timestamps option. */
  datatype User = User(
    nombre: string,
    email: string,
    password: Credential,
    rol: string,
    telefono: string,
    empresa: string,
    direccion: string,
    verificada: bool,
    ofertasParticipadas: set<Id>,
    actividadesParticipadas: set<Id>,
    ofertasCreadas: set<Id>,
    actividadesCreadas: set<Id>,
    createdAt: int,
    disponible: Option<bool>,
    ubicacion: Option<Location>,
    vehiculo: string,
    calificacion: Option<int>,
    totalServicios: int,
    ultimaActualizacion: Option<int>,
    favoritos: seq<FavoriteRef>,
    updatedAt: int)

  /** `user.isAdmin()`. */
  predicate IsAdmin(u: User) { u.rol == RoleAdmin }

  /** `user.isOferente()`. */
  predicate IsOferente(u: User) { u.rol == RoleProvider }

  /** `email` is stored lower-cased and trimmed, and queries on it are normalised the same way. */
  function NormalizeEmail(e: string): string {
    Trim(ToLower(e))
  }

  /** A new user document: the schema defaults for every field the caller does not give. */
  function NewUser(nombre: string, email: string, password: string, rol: string,
                   telefono: string, empresa: string, direccion: string, now: int): (u: User)
    ensures u.password == Plain(password) && !u.verificada
    ensures u.ofertasParticipadas == u.actividadesParticipadas == u.ofertasCreadas == u.actividadesCreadas == {}
    ensures u.favoritos == [] && u.createdAt == u.updatedAt == now
  {
    User(Trim(nombre), NormalizeEmail(email), Plain(password), rol, telefono, empresa, direccion,
         false, {}, {}, {}, {}, now, None, None, "", None, 0, None, [], now)
  }

  /** The user schema's validators, checked when a new user is saved. */
  predicate UserSchemaValid(u: User) {
    && u.nombre != []
    && u.email != []
    && u.password.Plain? && |u.password.text| >= 6
    && u.rol in SchemaRoles
  }

  /** The pre-save hook: the password is hashed only when it was modified. */
  function PreSaveUser(u: User, passwordModified: bool): User {
    if passwordModified then u.(password := Hashed(u.password)) else u
  }

  /** A password set in plain text and saved compares equal afterwards; a later save that does not
      touch the password keeps it comparing equal; hashing it a second time would lock the user out,
      which is what the hook's guard prevents. */
  lemma {:induction false} PasswordRoundTrip(u: User, p: string)
    requires u.password == Plain(p)
    ensures ComparePassword(p, PreSaveUser(u, true).password)
    ensures ComparePassword(p, PreSaveUser(PreSaveUser(u, true), false).password)
    ensures !ComparePassword(p, PreSaveUser(PreSaveUser(u, true), true).password)
  {
    var h := PreSaveUser(u, true).password;
    assert h == Hashed(Plain(p));
    assert PreSaveUser(PreSaveUser(u, true), true).password == Hashed(h);
    assert Hashed(h) != h;
  }

  // --------------------------------------------------------------- listings

  const StatePending := "pendiente"
  const StateApproved := "aprobada"
  const StateRejected := "rechazada"
  const StateCompleted := "completada"
  const ListingStates: set<string> := {StatePending, StateApproved, StateRejected, StateCompleted}
  const ListingCategories: set<string> := {"taller", "tour", "clase", "evento", "conferencia"}

  /** A listing document (offer or activity). Prices are exact reals; dates are timestamps. */
  datatype Listing = Listing(
    titulo: string,
    descripcion: string,
    descuento: string,
    categoria: string,
    participantes: int,
    maxParticipantes: int,
    precioOriginal: real,
    precioDescuento: real,
    fecha: int,
    hora: string,
    duracion: string,
    ubicacion: string,
    activa: bool,
    creador: Id,
    empresa: string,
    estado: string,
    motivoRechazo: Option<string>,
    createdAt: int)

  /** The listing schema's validators: the required strings are non-empty and the enums hold. */
  predicate ListingSchemaValid(l: Listing) {
    && l.titulo != [] && l.descripcion != [] && l.descuento != []
    && l.categoria in ListingCategories
    && l.hora != [] && l.duracion != [] && l.ubicacion != [] && l.empresa != []
    && l.estado in ListingStates
  }

  /** A price with a percentage taken off. */
  function ScaledPrice(p: real, d: int): real {
    ScaledBy(p, d as real)
  }

  /** A price with a (possibly fractional) percentage taken off. */
  function ScaledBy(p: real, d: real): real {
    p * (1.0 - d / 100.0)
  }

  /** The price the pre-save hook derives: `precioOriginal * (1 - (parseInt(descuento) || 0) / 100)`. */
  function DiscountedPrice(precioOriginal: real, descuento: string): real {
    ScaledPrice(precioOriginal, ParseIntOrZero(descuento))
  }

  /** The pre-save hook: `precioDescuento` is recomputed when the discount or the original price
      was modified, and left as it is otherwise. */
  function PreSaveListing(l: Listing, descuentoModified: bool, precioModified: bool): (r: Listing)
    ensures r == l.(precioDescuento := r.precioDescuento)
    ensures !descuentoModified && !precioModified ==> r.precioDescuento == l.precioDescuento
    ensures descuentoModified || precioModified ==>
      r.precioDescuento == DiscountedPrice(l.precioOriginal, l.descuento)
  {
    if descuentoModified || precioModified
    then l.(precioDescuento := DiscountedPrice(l.precioOriginal, l.descuento))
    else l
  }

  /** A discount that parses into [0, 100] on a non-negative price gives a price between 0 and the
      original; a discount that does not parse leaves the price as it was. */
  lemma DiscountedPriceBounds(p: real, descuento: string)
    requires p >= 0.0
    ensures 0 <= ParseIntOrZero(descuento) <= 100 ==> 0.0 <= DiscountedPrice(p, descuento) <= p
    ensures ParseInt(descuento).None? ==> DiscountedPrice(p, descuento) == p
  {
    var d := ParseIntOrZero(descuento);
    if 0 <= d <= 100 {
      ScaledPriceBounds(p, d);
    }
  }

  lemma ScaledPriceBounds(p: real, d: int)
    requires p >= 0.0 && 0 <= d <= 100
    ensures 0.0 <= ScaledPrice(p, d) <= p
  {
    var f := 1.0 - (d as real) / 100.0;
    assert 0.0 <= f <= 1.0;
    assert p * f <= p * 1.0;
  }

  /** A stored discount text such as "25%" gives the price the percentage says. */
  lemma DiscountedPriceOfPercent(p: real, d: nat)
    ensures DiscountedPrice(p, NatText(d) + "%") == p * (1.0 - (d as real) / 100.0)
  {
    ParseIntNatText(d, "%");
    assert ParseIntOrZero(NatText(d) + "%") == d;
  }

  /** The invariant participation keeps: the count is never negative and never passes the
      capacity, except that a listing created with a capacity below zero still starts at 0. */
  predicate WithinCapacity(l: Listing) {
    0 <= l.participantes && (l.participantes <= l.maxParticipantes || l.participantes == 0)
  }

  // ----------------------------------------------------------------- orders

  const OrderPending := "pendiente"
  const OrderAssigned := "asignado"
  const OrderInProgress := "en_proceso"
  const OrderCompleted := "completado"
  const OrderCancelled := "cancelado"
  const OrderStates: set<string> := {OrderPending, OrderAssigned, OrderInProgress, OrderCompleted, OrderCancelled}
  const OrderCategories: set<string> := {"comida", "mercado", "farmacia", "paqueteria", "documentos", "otros"}
  const DefaultOrderCategory := "otros"
  const MaxDescription := 500
  const MinOfferedPrice := 1000
  /** The rating bounds 1..5, in tenths of a point. */
  const MinRating := 10
  const MaxRating := 50

  /** The nested object of `ubicacionRecogida` and `ubicacionEntrega`. */
  datatype Place = Place(direccion: Option<string>, lat: Option<real>, lng: Option<real>)

  /** A delivery order. `calificacion` is in tenths of a point; `fechaLimite` is the date text
      as the browser's date-time input writes it. */
  datatype Order = Order(
    usuario: Id,
    nombreUsuario: string,
    telefono: string,
    descripcion: string,
    precioOfertado: int,
    estado: string,
    mandadito: Option<Id>,
    categoria: string,
    calificacion: Option<int>,
    comentario: Option<string>,
    createdAt: int,
    ubicacionRecogida: Option<Place>,
    ubicacionEntrega: Option<Place>,
    fechaLimite: Option<string>,
    notasAdicionales: Option<string>)

  /** The order schema's validators (`descripcion` has already been trimmed by its setter). */
  predicate OrderSchemaValid(o: Order) {
    && o.nombreUsuario != [] && o.telefono != []
    && o.descripcion != [] && |o.descripcion| <= MaxDescription
    && o.precioOfertado >= MinOfferedPrice
    && o.estado in OrderStates
    && o.categoria in OrderCategories
    && (o.calificacion.Some? ==> MinRating <= o.calificacion.value <= MaxRating)
  }

  /** Validation of the order schema, reporting the first broken constraint in schema order: the
      schema's own message where it gives one, the name of the path otherwise. */
  function ValidateOrder(o: Order): (r: Option<string>)
    ensures r.None? <==> OrderSchemaValid(o)
  {
    if o.nombreUsuario == [] then Some("nombreUsuario")
    else if o.telefono == [] then Some("telefono")
    else if o.descripcion == [] then Some("La descripción del mandado es requerida")
    else if |o.descripcion| > MaxDescription then Some("La descripción no puede exceder 500 caracteres")
    else if o.precioOfertado < MinOfferedPrice then Some("El precio mínimo es $1.000")
    else if o.estado !in OrderStates then Some("estado")
    else if o.categoria !in OrderCategories then Some("categoria")
    else if o.calificacion.Some? && !(MinRating <= o.calificacion.value <= MaxRating) then Some("calificacion")
    else None
  }
}
