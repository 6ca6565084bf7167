// The activity-creation form of the frontend: `validateForm`, the activity it submits, and the
// local-storage fallback used when the API refuses it.

module CreateActivityForm {
  import opened Wrappers
  import opened JsText
  import opened FormFields
  import Models
  import MockAuth
  import ListingRoutes

  const TitleRequired := "El título es requerido"
  const DescriptionRequired := "La descripción es requerida"
  const CategoryRequired := "La categoría es requerida"
  const PriceRequired := "Precio válido requerido"
  const DiscountRange := "Descuento debe ser entre 0-100%"
  const CapacityRequired := "Número de participantes válido requerido"
  const DateRequired := "La fecha es requerida"
  const PlaceRequired := "La ubicación es requerida"

  /** The categories the form's select offers. */
  const FormCategories: set<string> := {"taller", "tour", "clase", "evento", "conferencia", "workshop"}

  /** The form's inputs. `hora`, `duracion`, `requisitos` and `imagen` are not validated. */
  datatype ActivityForm = ActivityForm(
    titulo: string, descripcion: string, categoria: string,
    precioOriginal: NumField, descuento: NumField, maxParticipantes: NumField,
    fecha: DateField, hora: string, duracion: string, ubicacion: string,
    requisitos: string, imagen: string)

  /** The keys of the error dictionary: the names of the validated fields. */
  datatype Field = Titulo | Descripcion | Categoria | PrecioOriginal | Descuento | MaxParticipantes
                 | Fecha | Ubicacion

  /** The check `validateForm` runs on each field. */
  predicate Broken(f: ActivityForm, k: Field) {
    match k
    case Titulo => IsBlank(f.titulo)
    case Descripcion => IsBlank(f.descripcion)
    case Categoria => f.categoria == []
    case PrecioOriginal => PriceInvalid(f.precioOriginal)
    case Descuento => DiscountInvalid(f.descuento)
    case MaxParticipantes => CapacityInvalid(f.maxParticipantes)
    case Fecha => f.fecha.None?
    case Ubicacion => IsBlank(f.ubicacion)
  }

  function Message(k: Field): string {
    match k
    case Titulo => TitleRequired
    case Descripcion => DescriptionRequired
    case Categoria => CategoryRequired
    case PrecioOriginal => PriceRequired
    case Descuento => DiscountRange
    case MaxParticipantes => CapacityRequired
    case Fecha => DateRequired
    case Ubicacion => PlaceRequired
  }

  /** Every check of `validateForm` passes. */
  predicate ActivityFormValid(f: ActivityForm) {
    && !IsBlank(f.titulo) && !IsBlank(f.descripcion) && f.categoria != []
    && !PriceInvalid(f.precioOriginal) && !DiscountInvalid(f.descuento) && !CapacityInvalid(f.maxParticipantes)
    && f.fecha.Some? && !IsBlank(f.ubicacion)
  }

  /** The dictionary after the check of `k`. */
  function Checked(f: ActivityForm, errors: map<Field, string>, k: Field): map<Field, string> {
    if Broken(f, k) then errors[k := Message(k)] else errors
  }

  /** The dictionary `validateForm` builds, check by check. */
  function Errors(f: ActivityForm): map<Field, string> {
    var e1 := Checked(f, map[], Titulo);
    var e2 := Checked(f, e1, Descripcion);
    var e3 := Checked(f, e2, Categoria);
    var e4 := Checked(f, e3, PrecioOriginal);
    var e5 := Checked(f, e4, Descuento);
    var e6 := Checked(f, e5, MaxParticipantes);
    var e7 := Checked(f, e6, Fecha);
    Checked(f, e7, Ubicacion)
  }

  /** The dictionary holds exactly the broken fields, each with its message, so it is empty
      exactly when the form is valid. */
  lemma ErrorsMeaning(f: ActivityForm)
    ensures forall k :: k in Errors(f) <==> Broken(f, k)
    ensures forall k :: k in Errors(f) ==> Errors(f)[k] == Message(k)
    ensures Errors(f) == map[] <==> ActivityFormValid(f)
  {
    var e := Errors(f);
    forall k ensures (k in e <==> Broken(f, k)) && (k in e ==> e[k] == Message(k)) {
      match k
      case Titulo => case Descripcion => case Categoria => case PrecioOriginal =>
      case Descuento => case MaxParticipantes => case Fecha => case Ubicacion =>
    }
    if ActivityFormValid(f) {
      forall k ensures k !in e {
        match k
        case Titulo => case Descripcion => case Categoria => case PrecioOriginal =>
        case Descuento => case MaxParticipantes => case Fecha => case Ubicacion =>
      }
      assert e.Keys == {};
    }
  }

  /** One check of `validateForm`: the field's message is recorded when its check fails. */
  method Check(f: ActivityForm, errors: map<Field, string>, k: Field) returns (e: map<Field, string>)
    ensures e == Checked(f, errors, k)
  {
    e := errors;
    if Broken(f, k) {
      e := e[k := Message(k)];
    }
  }

  /** `validateForm`: the error dictionary gains one entry per broken field, in the handler's
      order; the form is valid exactly when the dictionary stays empty. */
  method ValidateForm(f: ActivityForm) returns (errors: map<Field, string>, valid: bool)
    ensures errors == Errors(f)
    ensures valid <==> errors == map[]
    ensures valid <==> ActivityFormValid(f)
  {
    errors := map[];
    errors := Check(f, errors, Titulo);
    errors := Check(f, errors, Descripcion);
    errors := Check(f, errors, Categoria);
    errors := Check(f, errors, PrecioOriginal);
    errors := Check(f, errors, Descuento);
    errors := Check(f, errors, MaxParticipantes);
    errors := Check(f, errors, Fecha);
    errors := Check(f, errors, Ubicacion);
    valid := errors == map[];
    ErrorsMeaning(f);
  }

  /** The submitted activity: the form's fields, the price it computes, the session's name as the
      company and its email as the creator, pending, empty and active. */
  datatype ActivityData = ActivityData(
    form: ActivityForm, precioDescuento: real, empresa: string, creador: string,
    estado: string, participantes: int, isActive: bool, createdAt: string)

  function ActivityDataFor(f: ActivityForm, user: MockAuth.SessionUser, createdAt: string): (d: ActivityData)
    ensures d.form == f && d.estado == Models.StatePending && d.participantes == 0 && d.isActive
    ensures d.creador == user.email && d.empresa == user.nombre
    ensures d.precioDescuento == DiscountedPrice(f.precioOriginal, f.descuento)
    ensures ActivityFormValid(f) ==> 0.0 <= d.precioDescuento <= f.precioOriginal.v
  {
    var price := DiscountedPrice(f.precioOriginal, f.descuento);
    assert ActivityFormValid(f) ==> 0.0 <= price <= f.precioOriginal.v by {
      if ActivityFormValid(f) {
        DiscountedPriceBounds(f.precioOriginal, f.descuento);
      }
    }
    ActivityData(f, price, user.nombre, user.email, Models.StatePending, 0, true, createdAt)
  }

  datatype Outcome = FixErrors(errors: map<Field, string>) | LoginRequired | Created(data: ActivityData, path: string)

  /** `handleSubmit`. `apiAccepted` says whether the server answered with success; otherwise the
      activity goes to the local-storage list. */
  method HandleSubmit(f: ActivityForm, user: Option<MockAuth.SessionUser>, apiAccepted: bool,
                      store: LocalList<ActivityData>, now: nat, createdAt: string) returns (r: Outcome)
    modifies store
    ensures !ActivityFormValid(f) ==> r == FixErrors(Errors(f)) && r.errors != map[] && unchanged(store)
    ensures ActivityFormValid(f) && user.None? ==> r == LoginRequired && unchanged(store)
    ensures ActivityFormValid(f) && user.Some? ==> r == Created(ActivityDataFor(f, user.value, createdAt), "/activities")
    ensures ActivityFormValid(f) && user.Some? && apiAccepted ==> unchanged(store)
    ensures ActivityFormValid(f) && user.Some? && !apiAccepted ==>
      store.items == old(store.items) + [Saved(ActivityDataFor(f, user.value, createdAt), NatText(now), now)]
  {
    var errors, valid := ValidateForm(f);
    if !valid {
      return FixErrors(errors);
    }
    if user.None? {
      return LoginRequired;
    }
    var data := ActivityDataFor(f, user.value, createdAt);
    if !apiAccepted {
      var _ := store.Append(data, now);
    }
    r := Created(data, "/activities");
  }

  /** The activity as the create route reads its JSON body: the number inputs travel as their
      texts, which Mongoose casts back to numbers (the listing model keeps whole capacities). */
  function BodyOf(d: ActivityData): (b: ListingRoutes.ListingBody)
    ensures b.fecha == d.form.fecha && b.descuento == TextOf(d.form.descuento)
    ensures b.precioDescuento == Some(d.precioDescuento)
  {
    var f := d.form;
    ListingRoutes.ListingBody(
      f.titulo, f.descripcion, TextOf(f.descuento), f.categoria,
      if f.maxParticipantes.Num? then Some(Truncate(f.maxParticipantes.v)) else None,
      if f.precioOriginal.Num? then Some(f.precioOriginal.v) else None,
      Some(d.precioDescuento), f.fecha, f.hora, f.duracion, f.ubicacion, None,
      Some(d.estado), Some(d.isActive), Some(d.participantes), None, Some(d.empresa))
  }

  /** The activity form and the create route agree on a valid form whose category the schema
      knows, whose hour and duration are filled, and whose discount and capacity are whole: the
      route stores it, and the price it stores is the one the form computed. */
  lemma ApiAcceptsActivity(f: ActivityForm, user: MockAuth.SessionUser, createdAt: string, d: nat, m: nat,
                           me: Models.Id, caller: Models.User, now: int)
    requires ActivityFormValid(f)
    requires f.categoria in Models.ListingCategories && f.hora != [] && f.duracion != []
    requires f.descuento == Num(NatText(d), d as real) && f.maxParticipantes == Num(NatText(m), m as real)
    requires caller.empresa != [] || caller.nombre != []
    ensures var data := ActivityDataFor(f, user, createdAt);
      var res := ListingRoutes.ListingDocument(ListingRoutes.ActivitiesRouter, BodyOf(data), me, caller, now);
      res.Ok? && res.value.precioDescuento == data.precioDescuento
  {
    var data := ActivityDataFor(f, user, createdAt);
    var b := BodyOf(data);
    assert f.titulo != [] && f.descripcion != [] && f.ubicacion != [];
    assert b.descuento == NatText(d);
    assert b.maxParticipantes == Some(m);
    AgreesWithStoredPrice(f.precioOriginal, f.descuento, d);
  }

  /** "workshop", offered by the form, is not a category of the listing schema: such an activity
      is always refused by the API and kept only in local storage. */
  lemma ApiRefusesWorkshop(f: ActivityForm, user: MockAuth.SessionUser, createdAt: string,
                           me: Models.Id, caller: Models.User, now: int)
    requires f.categoria == "workshop"
    ensures ListingRoutes.ListingDocument(ListingRoutes.ActivitiesRouter, BodyOf(ActivityDataFor(f, user, createdAt)), me, caller, now).Err?
  {
    assert "workshop" !in Models.ListingCategories;
  }
}
