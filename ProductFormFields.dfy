/** What the back office's create and edit forms share: the form data, the change
    handler's field update and the submit validation. */
module ProductFormFields {
  import opened Wrappers
  import opened Text

  /** `CreateProductData`: the fields both forms edit. */
  datatype FormData = FormData(name: string, description: string, price: real, stock: real, image: string)

  /** The `name` attribute of the input that changed. */
  datatype Field = NameField | DescriptionField | PriceField | StockField | ImageField

  const EmptyForm := FormData("", "", 0.0, 0.0, "")

  const Required := "El nombre y la descripción son obligatorios"
  const PriceNotPositive := "El precio debe ser mayor a 0"
  const NegativeStock := "El stock no puede ser negativo"

  /** `handleInputChange`: `{ ...prev, [name]: value }`, where price and stock take
      `parseFloat(value) || 0` (`parsed` is None when `parseFloat` gives NaN). Only the
      named field changes. */
  function SetField(form: FormData, field: Field, value: string, parsed: Option<real>): (r: FormData)
    ensures field == NameField ==> r == form.(name := value)
    ensures field == DescriptionField ==> r == form.(description := value)
    ensures field == ImageField ==> r == form.(image := value)
    ensures field == PriceField ==> r == form.(price := parsed.GetOr(0.0))
    ensures field == StockField ==> r == form.(stock := parsed.GetOr(0.0))
  {
    match field
    case NameField => form.(name := value)
    case DescriptionField => form.(description := value)
    case ImageField => form.(image := value)
    case PriceField => form.(price := if parsed.Some? then parsed.value else 0.0)
    case StockField => form.(stock := if parsed.Some? then parsed.value else 0.0)
  }

  /** An unparsable number leaves 0 in the field, never NaN. */
  lemma UnparsableNumberIsZero(form: FormData, value: string)
    ensures SetField(form, PriceField, value, None).price == 0.0
    ensures SetField(form, StockField, value, None).stock == 0.0
  {
  }

  /** The checks of `handleSubmit`, in order: a signed-in user (`noUser` is each form's
      own message), a name and a description that are not blank after `trim`, a positive
      price, a non-negative stock. The first failing check gives the message. */
  function Validate(signedIn: bool, form: FormData, noUser: string): (r: Option<string>)
    requires noUser != Required && noUser != PriceNotPositive && noUser != NegativeStock
    ensures r == Some(noUser) <==> !signedIn
    ensures r == Some(Required) <==> signedIn && (IsBlank(form.name) || IsBlank(form.description))
    ensures r == Some(PriceNotPositive) <==>
      signedIn && !IsBlank(form.name) && !IsBlank(form.description) && form.price <= 0.0
    ensures r == Some(NegativeStock) <==>
      signedIn && !IsBlank(form.name) && !IsBlank(form.description) && form.price > 0.0 && form.stock < 0.0
    ensures r.None? <==>
      signedIn && !IsBlank(form.name) && !IsBlank(form.description) && form.price > 0.0 && form.stock >= 0.0
  {
    if !signedIn then Some(noUser)
    else if IsBlank(form.name) || IsBlank(form.description) then Some(Required)
    else if form.price <= 0.0 then Some(PriceNotPositive)
    else if form.stock < 0.0 then Some(NegativeStock)
    else None
  }

  /** Stock is read with `parseFloat`, so a fractional stock passes validation. */
  lemma FractionalStockAccepted(form: FormData, noUser: string)
    requires noUser != Required && noUser != PriceNotPositive && noUser != NegativeStock
    requires !IsBlank(form.name) && !IsBlank(form.description) && form.price > 0.0 && form.stock == 2.5
    ensures Validate(true, form, noUser).None?
  {
  }
}
