// What the frontend's creation forms read from their number and date inputs, and the price they
// derive from them.
//
// A number input's value is either the empty text or the text of a valid number, kept together
// with the number it denotes. JavaScript compares such a text with a number through
// `Number(text)` and reads it with `parseFloat`/`parseInt`; for the decimal texts modelled here
// the three agree with the denoted value (`parseInt` truncates it). A date input's value is the
// empty text or a day, modelled as the day's number.

module FormFields {
  import opened Wrappers
  import opened JsText
  import Models

  datatype NumField = Blank | Num(text: string, v: real)

  /** The text the input holds, which a payload spread from the form carries. */
  function TextOf(f: NumField): string {
    if f.Num? then f.text else ""
  }

  /** `!field` in JavaScript: only the empty text is falsy ("0" is not). */
  predicate Missing(f: NumField) { f.Blank? }

  /** `field < x` for a filled field. */
  predicate Below(f: NumField, x: real) { f.Num? && f.v < x }

  /** `field > x` for a filled field. */
  predicate Above(f: NumField, x: real) { f.Num? && f.v > x }

  /** `parseFloat(field) || 0`: the empty text reads as NaN, and NaN as 0. */
  function FloatOrZero(f: NumField): (r: real)
    ensures f.Num? ==> r == f.v
    ensures f.Blank? ==> r == 0.0
  {
    if f.Num? then f.v else 0.0
  }

  /** Truncation toward zero, the way `parseInt` reads a decimal text. */
  function Truncate(v: real): (r: int)
    ensures v >= 0.0 ==> r as real <= v < r as real + 1.0
    ensures v < 0.0 ==> r as real - 1.0 < v <= r as real
  {
    if v >= 0.0 then v.Floor else -((-v).Floor)
  }

  /** The checks both listing forms run on their price, discount and capacity inputs. */
  predicate PriceInvalid(f: NumField) { Missing(f) || Below(f, 0.0) }
  predicate DiscountInvalid(f: NumField) { Missing(f) || Below(f, 0.0) || Above(f, 100.0) }
  predicate CapacityInvalid(f: NumField) { Missing(f) || Below(f, 1.0) }

  lemma FieldChecks(f: NumField)
    ensures !PriceInvalid(f) <==> f.Num? && f.v >= 0.0
    ensures !DiscountInvalid(f) <==> f.Num? && 0.0 <= f.v <= 100.0
    ensures !CapacityInvalid(f) <==> f.Num? && f.v >= 1.0
  {
  }

  /** `calculateDiscountedPrice`: the original price less the discount percentage, an empty
      input counting as 0. */
  function DiscountedPrice(precioOriginal: NumField, descuento: NumField): (r: real)
    ensures precioOriginal.Blank? ==> r == 0.0
    ensures descuento.Blank? ==> r == FloatOrZero(precioOriginal)
  {
    Models.ScaledBy(FloatOrZero(precioOriginal), FloatOrZero(descuento))
  }

  /** A price and a discount the forms accept give a price between zero and the original. */
  lemma DiscountedPriceBounds(precioOriginal: NumField, descuento: NumField)
    requires !PriceInvalid(precioOriginal) && !DiscountInvalid(descuento)
    ensures 0.0 <= DiscountedPrice(precioOriginal, descuento) <= precioOriginal.v
  {
    var p, d := precioOriginal.v, descuento.v;
    assert 0.0 <= 1.0 - d / 100.0 <= 1.0;
    assert p * (1.0 - d / 100.0) <= p * 1.0;
  }

  /** The pre-save hook reads a whole-number discount's decimal text back exactly. */
  lemma StoredPriceOfWhole(p: real, d: nat)
    ensures Models.DiscountedPrice(p, NatText(d)) == Models.ScaledBy(p, d as real)
  {
    var t := NatText(d);
    ParseIntNatText(d, "");
    assert t + "" == t;
    assert ParseIntOrZero(t) == d;
  }

  /** For a whole-number discount the price the form shows is the price the listing schema's
      pre-save hook stores for the discount's decimal text. */
  lemma {:induction false} AgreesWithStoredPrice(precioOriginal: NumField, descuento: NumField, d: nat)
    requires precioOriginal.Num? && descuento.Num? && descuento.v == d as real
    ensures DiscountedPrice(precioOriginal, descuento) == Models.DiscountedPrice(precioOriginal.v, NatText(d))
  {
    StoredPriceOfWhole(precioOriginal.v, d);
  }

  /** `parseInt` reads the text "12.5" as 12. */
  lemma ParseTwelveAndAHalf()
    ensures ParseIntOrZero("12.5") == 12
  {
    var s := "12.5";
    assert s[0] == '1' && s[1] == '2' && s[2] == '.';
    assert TrimStart(s) == s;
    DigitRunOf(s, 2, 10);
    var ds := s[..2];
    assert ds[..1] == "1" && ds[1] == '2';
    assert DigitsValue("1", 10) == 1;
    assert DigitsValue(ds, 10) == 12;
  }

  /** For a fractional discount they differ: the hook reads the text with `parseInt`, so 12.5 %
      off 100 is shown as 87.5 and stored as 88. */
  lemma FractionalDiscountDiffers()
    ensures DiscountedPrice(Num("100", 100.0), Num("12.5", 12.5)) == 87.5
    ensures Models.DiscountedPrice(100.0, TextOf(Num("12.5", 12.5))) == 88.0
  {
    assert TextOf(Num("12.5", 12.5)) == "12.5";
    ParseTwelveAndAHalf();
    assert Models.ScaledBy(100.0, 12.0) == 88.0;
    assert Models.ScaledBy(100.0, 12.5) == 87.5;
  }

  /** A date input: the empty text, or a day. */
  type DateField = Option<int>

  /** `new Date(end) <= new Date(start)` for two filled inputs. */
  predicate EndsTooSoon(start: DateField, end: DateField) {
    start.Some? && end.Some? && end.value <= start.value
  }

  // ----------------------------------------------------------------- local-storage fallback

  /** A record the creation forms keep in local storage when the API refuses them: the payload
      with the current time as `_id` (its decimal text) and as `id`. */
  datatype Saved<T> = Saved(data: T, textId: string, id: nat)

  /** A list kept in local storage under one key. */
  class LocalList<T> {
    var items: seq<Saved<T>>

    constructor ()
      ensures items == []
    {
      items := [];
    }

    /** The fallback writer: the stored list gains exactly the new record, at its end, and the
        write reports success. */
    method Append(data: T, now: nat) returns (ok: bool)
      modifies this
      ensures items == old(items) + [Saved(data, NatText(now), now)]
      ensures ok
    {
      items := items + [Saved(data, NatText(now), now)];
      ok := true;
    }
  }
}
