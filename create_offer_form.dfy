// The offer-creation form of the frontend: `validateForm`, which records one message per broken
// field, the offer it submits, and the local-storage fallback used when the API refuses it.

module CreateOfferForm {
  import opened Wrappers
  import opened JsText
  import opened FormFields
  import Models
  import MockAuth
  import ListingRoutes

  const TitleRequired := "El título es requerido"
  const DescriptionRequired := "La descripción es requerida"
  const CategoryRequired := "La categoría es requerida"
  const PriceRequired := "Precio válido requerido"
  const DiscountRange := "Descuento debe ser entre 0-100%"
  const CapacityRequired := "Número de participantes válido requerido"
  const StartRequired := "La fecha de inicio es requerida"
  const EndRequired := "La fecha de fin es requerida"
  const EndAfterStart := "La fecha de fin debe ser posterior a la fecha de inicio"

  /** The categories the form's select offers. */
  const FormCategories: set<string> := {"temporada", "nocturna", "fin-de-semana", "flash", "exclusiva", "early-bird"}

  datatype OfferForm = OfferForm(
    titulo: string, descripcion: string, categoria: string,
    precioOriginal: NumField, descuento: NumField, maxParticipantes: NumField,
    fechaInicio: DateField, fechaFin: DateField,
    condiciones: string, imagen: string, tipoOferta: string)

  /** The keys of the error dictionary: the form's field names. */
  datatype Field = Titulo | Descripcion | Categoria | PrecioOriginal | Descuento | MaxParticipantes
                 | FechaInicio | FechaFin

  /** The check `validateForm` runs on each field. */
  predicate Broken(f: OfferForm, k: Field) {
    match k
    case Titulo => IsBlank(f.titulo)
    case Descripcion => IsBlank(f.descripcion)
    case Categoria => f.categoria == []
    case PrecioOriginal => PriceInvalid(f.precioOriginal)
    case Descuento => DiscountInvalid(f.descuento)
    case MaxParticipantes => CapacityInvalid(f.maxParticipantes)
    case FechaInicio => f.fechaInicio.None?
    case FechaFin => f.fechaFin.None? || EndsTooSoon(f.fechaInicio, f.fechaFin)
  }

  /** The message recorded for a broken field; the end date has two, depending on whether it is
      missing or too early. */
  function Message(f: OfferForm, k: Field): string {
    match k
    case Titulo => TitleRequired
    case Descripcion => DescriptionRequired
    case Categoria => CategoryRequired
    case PrecioOriginal => PriceRequired
    case Descuento => DiscountRange
    case MaxParticipantes => CapacityRequired
    case FechaInicio => StartRequired
    case FechaFin => if f.fechaFin.None? then EndRequired else EndAfterStart
  }

  /** Every check of `validateForm` passes. */
  predicate OfferFormValid(f: OfferForm) {
    && !IsBlank(f.titulo) && !IsBlank(f.descripcion) && f.categoria != []
    && !PriceInvalid(f.precioOriginal) && !DiscountInvalid(f.descuento) && !CapacityInvalid(f.maxParticipantes)
    && f.fechaInicio.Some? && f.fechaFin.Some? && !EndsTooSoon(f.fechaInicio, f.fechaFin)
  }

  /** The dictionary after the check of `k`. */
  function Checked(f: OfferForm, errors: map<Field, string>, k: Field): map<Field, string> {
    if Broken(f, k) then errors[k := Message(f, k)] else errors
  }

  /** The dictionary `validateForm` builds, check by check. */
  function Errors(f: OfferForm): map<Field, string> {
    var e1 := Checked(f, map[], Titulo);
    var e2 := Checked(f, e1, Descripcion);
    var e3 := Checked(f, e2, Categoria);
    var e4 := Checked(f, e3, PrecioOriginal);
    var e5 := Checked(f, e4, Descuento);
    var e6 := Checked(f, e5, MaxParticipantes);
    var e7 := Checked(f, e6, FechaInicio);
    Checked(f, e7, FechaFin)
  }

  /** The dictionary holds exactly the broken fields, each with its message, so it is empty
      exactly when the form is valid. */
  lemma ErrorsMeaning(f: OfferForm)
    ensures forall k :: k in Errors(f) <==> Broken(f, k)
    ensures forall k :: k in Errors(f) ==> Errors(f)[k] == Message(f, k)
    ensures Errors(f) == map[] <==> OfferFormValid(f)
  {
    var e := Errors(f);
    forall k ensures (k in e <==> Broken(f, k)) && (k in e ==> e[k] == Message(f, k)) {
      match k
      case Titulo => case Descripcion => case Categoria => case PrecioOriginal =>
      case Descuento => case MaxParticipantes => case FechaInicio => case FechaFin =>
    }
    if OfferFormValid(f) {
      forall k ensures k !in e {
        match k
        case Titulo => case Descripcion => case Categoria => case PrecioOriginal =>
        case Descuento => case MaxParticipantes => case FechaInicio => case FechaFin =>
      }
      assert e.Keys == {};
    }
  }

  /** One check of `validateForm`: the field's message is recorded when its check fails. */
  method Check(f: OfferForm, errors: map<Field, string>, k: Field) returns (e: map<Field, string>)
    ensures e == Checked(f, errors, k)
  {
    e := errors;
    if Broken(f, k) {
      e := e[k := Message(f, k)];
    }
  }

  /** `validateForm`: the error dictionary gains one entry per broken field, in the handler's
      order, the date-order message replacing the end-date one; the form is valid exactly when
      the dictionary stays empty. */
  method ValidateForm(f: OfferForm) returns (errors: map<Field, string>, valid: bool)
    ensures errors == Errors(f)
    ensures valid <==> errors == map[]
    ensures valid <==> OfferFormValid(f)
  {
    errors := map[];
    errors := Check(f, errors, Titulo);
    errors := Check(f, errors, Descripcion);
    errors := Check(f, errors, Categoria);
    errors := Check(f, errors, PrecioOriginal);
    errors := Check(f, errors, Descuento);
    errors := Check(f, errors, MaxParticipantes);
    errors := Check(f, errors, FechaInicio);
    ghost var before := errors;
    if f.fechaFin.None? { errors := errors[FechaFin := EndRequired]; }
    if EndsTooSoon(f.fechaInicio, f.fechaFin) { errors := errors[FechaFin := EndAfterStart]; }
    assert errors == Checked(f, before, FechaFin);
    valid := errors == map[];
    ErrorsMeaning(f);
  }

  /** What validity asks of each input: the title and description must not be blank, the
      category must be chosen, the price present and not negative, the discount present and
      within 0..100, the capacity present and at least 1, both dates present and the end after
      the start. */
  lemma ValidIff(f: OfferForm)
    ensures OfferFormValid(f) <==>
      && !IsBlank(f.titulo) && !IsBlank(f.descripcion) && f.categoria != []
      && f.precioOriginal.Num? && f.precioOriginal.v >= 0.0
      && f.descuento.Num? && 0.0 <= f.descuento.v <= 100.0
      && f.maxParticipantes.Num? && f.maxParticipantes.v >= 1.0
      && f.fechaInicio.Some? && f.fechaFin.Some? && f.fechaInicio.value < f.fechaFin.value
  {
    FieldChecks(f.precioOriginal);
    FieldChecks(f.descuento);
    FieldChecks(f.maxParticipantes);
  }

  /** The submitted offer: the form's fields, the price it computes, the session's name as the
      company (the session holds no company) and its email as the creator, pending, empty and
      active. */
  datatype OfferData = OfferData(
    form: OfferForm, precioDescuento: real, empresa: string, creador: string,
    estado: string, participantes: int, isActive: bool, createdAt: string)

  function OfferDataFor(f: OfferForm, user: MockAuth.SessionUser, createdAt: string): (d: OfferData)
    ensures d.form == f && d.estado == Models.StatePending && d.participantes == 0 && d.isActive
    ensures d.creador == user.email && d.empresa == user.nombre
    ensures d.precioDescuento == DiscountedPrice(f.precioOriginal, f.descuento)
    ensures OfferFormValid(f) ==> 0.0 <= d.precioDescuento <= f.precioOriginal.v
  {
    var price := DiscountedPrice(f.precioOriginal, f.descuento);
    assert OfferFormValid(f) ==> 0.0 <= price <= f.precioOriginal.v by {
      if OfferFormValid(f) {
        DiscountedPriceBounds(f.precioOriginal, f.descuento);
      }
    }
    OfferData(f, price, user.nombre, user.email, Models.StatePending, 0, true, createdAt)
  }

  /** How `handleSubmit` ends: with the errors shown, with a redirect to the login page, or with
      the offer stored and a redirect to the offer list. */
  datatype Outcome = FixErrors(errors: map<Field, string>) | LoginRequired | Created(data: OfferData, path: string)

  /** `handleSubmit`. The API call is a parameter: `apiAccepted` says whether the server answered
      with success; otherwise the offer goes to the local-storage list. */
  method HandleSubmit(f: OfferForm, user: Option<MockAuth.SessionUser>, apiAccepted: bool,
                      store: LocalList<OfferData>, now: nat, createdAt: string) returns (r: Outcome)
    modifies store
    ensures !OfferFormValid(f) ==> r == FixErrors(Errors(f)) && r.errors != map[] && unchanged(store)
    ensures OfferFormValid(f) && user.None? ==> r == LoginRequired && unchanged(store)
    ensures OfferFormValid(f) && user.Some? ==> r == Created(OfferDataFor(f, user.value, createdAt), "/offers")
    ensures OfferFormValid(f) && user.Some? && apiAccepted ==> unchanged(store)
    ensures OfferFormValid(f) && user.Some? && !apiAccepted ==>
      store.items == old(store.items) + [Saved(OfferDataFor(f, user.value, createdAt), NatText(now), now)]
  {
    var errors, valid := ValidateForm(f);
    if !valid {
      return FixErrors(errors);
    }
    if user.None? {
      return LoginRequired;
    }
    var data := OfferDataFor(f, user.value, createdAt);
    if !apiAccepted {
      var _ := store.Append(data, now);
    }
    r := Created(data, "/offers");
  }

  /** The offer as the create route reads its JSON body: the number inputs travel as their texts
      (Mongoose casts the price and the capacity back to numbers), and the form has no `fecha`,
      `hora`, `duracion` or `ubicacion` field. */
  function BodyOf(d: OfferData): (b: ListingRoutes.ListingBody)
    ensures b.fecha.None? && b.hora == [] && b.ubicacion == []
    ensures b.titulo == d.form.titulo && b.categoria == d.form.categoria
  {
    var f := d.form;
    ListingRoutes.ListingBody(
      f.titulo, f.descripcion, TextOf(f.descuento), f.categoria,
      if f.maxParticipantes.Num? then Some(Truncate(f.maxParticipantes.v)) else None,
      if f.precioOriginal.Num? then Some(f.precioOriginal.v) else None,
      Some(d.precioDescuento), None, "", "", "", None,
      Some(d.estado), Some(d.isActive), Some(d.participantes), None, Some(d.empresa))
  }

  /** The offer form and the listing schema do not fit together: the schema requires a date, an
      hour, a duration and a place the form never sends. Every offer the form submits is refused
      by the API, so the form always ends in the local-storage fallback. */
  lemma ApiRefusesEveryOffer(f: OfferForm, user: MockAuth.SessionUser, createdAt: string,
                             me: Models.Id, caller: Models.User, now: int)
    ensures ListingRoutes.ListingDocument(ListingRoutes.OffersRouter, BodyOf(OfferDataFor(f, user, createdAt)), me, caller, now).Err?
  {
    var b := BodyOf(OfferDataFor(f, user, createdAt));
    assert b.fecha.None?;
  }
}
