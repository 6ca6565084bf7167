/** src/components/CreateOrderForm.js: the form a requester fills to ask for a delivery. Its
    submit handler runs three guard checks and then posts the form, with the stored user's phone
    and the price read as an integer. The signed-in user is what local storage holds under
    `user`. */
module CreateOrderForm {
  import opened Wrappers
  import opened JsText
  import opened FormFields
  import Models
  import OrderRoutes

  const LoginRequired := "Debes iniciar sesión para crear un mandado"
  const DescriptionRequired := "La descripción del mandado es requerida"
  const MinimumPrice := "El precio ofertado debe ser mínimo $1.000"

  datatype OrderForm = OrderForm(
    descripcion: string, precioOfertado: NumField, categoria: string,
    notasAdicionales: string, ubicacionRecogida: string, ubicacionEntrega: string, fechaLimite: string)

  /** The part of the stored user the form reads. */
  datatype StoredUser = StoredUser(telefono: Option<string>)

  /** The body posted: the form spread, then the stored user's phone (absent when the user has
      none) and the price as `parseInt` reads it. */
  datatype OrderPayload = OrderPayload(form: OrderForm, telefono: Option<string>, precioOfertado: int)

  datatype Submission = Refused(message: string) | Send(payload: OrderPayload)

  /** The form's initial state: every field empty and the category "otros". */
  function InitialForm(): (f: OrderForm)
    ensures f.categoria == Models.DefaultOrderCategory && f.precioOfertado.Blank? && IsBlank(f.descripcion)
  {
    OrderForm("", Blank, "otros", "", "", "", "")
  }

  /** `handleSubmit`'s guards, in order: a signed-in user, a description that is not blank, and
      a price of at least 1000; then the payload. */
  function Submit(f: OrderForm, user: Option<StoredUser>): (r: Submission)
    ensures r.Send? <==>
      user.Some? && !IsBlank(f.descripcion) && f.precioOfertado.Num? && f.precioOfertado.v >= Models.MinOfferedPrice as real
    ensures user.None? ==> r == Refused(LoginRequired)
    ensures user.Some? && IsBlank(f.descripcion) ==> r == Refused(DescriptionRequired)
    ensures user.Some? && !IsBlank(f.descripcion) && !r.Send? ==> r == Refused(MinimumPrice)
    ensures r.Send? ==>
      && r.payload.form == f && r.payload.telefono == user.value.telefono
      && r.payload.precioOfertado >= Models.MinOfferedPrice
      && r.payload.precioOfertado as real <= f.precioOfertado.v < r.payload.precioOfertado as real + 1.0
  {
    if user.None? then Refused(LoginRequired)
    else if IsBlank(f.descripcion) then Refused(DescriptionRequired)
    else if Missing(f.precioOfertado) || Below(f.precioOfertado, Models.MinOfferedPrice as real) then Refused(MinimumPrice)
    else Send(OrderPayload(f, user.value.telefono, Truncate(f.precioOfertado.v)))
  }

  /** What the browser lets through: the description box holds at most 500 characters and the
      category comes from a select whose options are the schema's categories. */
  predicate BrowserAllows(f: OrderForm) {
    |f.descripcion| <= Models.MaxDescription && f.categoria in Models.OrderCategories
  }

  /** The payload as the create route reads its JSON body: every form field, the two locations
      as the texts typed, the price as read and the stored phone. */
  function BodyOf(p: OrderPayload): (b: OrderRoutes.OrderBody)
    ensures b.descripcion == p.form.descripcion && b.precioOfertado == Some(p.precioOfertado)
    ensures b.categoria == Some(p.form.categoria) && b.telefono == p.telefono
    ensures b.notasAdicionales == Some(p.form.notasAdicionales) && b.fechaLimite == Some(p.form.fechaLimite)
    ensures b.ubicacionRecogida == Some(OrderRoutes.PlaceText(p.form.ubicacionRecogida))
    ensures b.ubicacionEntrega == Some(OrderRoutes.PlaceText(p.form.ubicacionEntrega))
    ensures b.mandadito.None? && b.calificacion.None? && b.comentario.None?
  {
    OrderRoutes.OrderBody(p.form.descripcion, Some(p.precioOfertado), Some(p.form.categoria),
                          None, None, None, None, None, p.telefono, None,
                          Some(p.form.notasAdicionales), Some(OrderRoutes.PlaceText(p.form.ubicacionRecogida)),
                          Some(OrderRoutes.PlaceText(p.form.ubicacionEntrega)), Some(p.form.fechaLimite))
  }

  /** The form's guards and the order schema agree: an order the form sends is stored by the
      create route for any requester with a name, with the description trimmed, the price the form
      read, the requester's own phone (the one sent is ignored), the notes and the date as typed,
      and the pending state. The two location boxes are sent as texts, which the schema's nested
      location objects do not take, so the stored order has no locations. */
  lemma ApiAcceptsOrder(f: OrderForm, user: Option<StoredUser>, me: Models.Id, requester: Models.User, now: int)
    requires BrowserAllows(f) && Submit(f, user).Send?
    requires requester.nombre != []
    ensures var p := Submit(f, user).payload;
      var res := OrderRoutes.OrderDocument(BodyOf(p), me, requester, now);
      && res.Ok?
      && res.value.descripcion == Trim(f.descripcion)
      && res.value.precioOfertado == p.precioOfertado
      && res.value.categoria == f.categoria
      && res.value.estado == Models.OrderPending
      && res.value.ubicacionRecogida.None? && res.value.ubicacionEntrega.None?
      && res.value.notasAdicionales == Some(f.notasAdicionales)
      && res.value.fechaLimite == (if f.fechaLimite == [] then None else Some(f.fechaLimite))
  {
    var p := Submit(f, user).payload;
    var b := BodyOf(p);
    BlankIffTrimmedEmpty(f.descripcion);
    TrimSlice(f.descripcion);
    var o := Models.Order(me, requester.nombre, if requester.telefono != [] then requester.telefono else OrderRoutes.NoPhone,
                          Trim(f.descripcion), p.precioOfertado, Models.OrderPending, None, f.categoria, None, None, now,
                          None, None, if f.fechaLimite == [] then None else Some(f.fechaLimite),
                          Some(f.notasAdicionales));
    assert Models.OrderSchemaValid(o);
    assert OrderRoutes.OrderDocument(b, me, requester, now) == Ok(o);
  }
}
