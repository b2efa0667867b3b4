/** `backoffice/src/components/products/EditProductForm.tsx`: loading a product into the
    edit form and saving it back. The GET and PUT outcomes are parameters. */
module EditProductForm {
  import opened Wrappers
  import opened ProductFormFields

  const NoUser := "Debes iniciar sesión para editar productos"
  const NoToken := "No hay token de autenticación"
  const SessionExpired := "Sesión expirada. Por favor, inicia sesión nuevamente."
  const NotFound := "Producto no encontrado."

  /** The product as the GET returns it; `image` may be null. */
  datatype ProductData = ProductData(name: string, description: string, price: real, stock: real, image: Option<string>)

  /** What a request came back with: its data, 401, 404, or another failure with its
      message. */
  datatype Reply<T> = Ok(data: T) | Unauthorized | Missing | Failed(message: string)

  /** The error message a failed reply turns into. */
  function ReplyError<T>(r: Reply<T>): (m: string)
    requires !r.Ok?
    ensures r == Unauthorized ==> m == SessionExpired
    ensures r == Missing ==> m == NotFound
    ensures r.Failed? ==> m == r.message
  {
    match r
    case Unauthorized => SessionExpired
    case Missing => NotFound
    case Failed(message) => message
  }

  /** The form filled from a fetched product: `image || ''`. */
  function FromProduct(p: ProductData): (f: FormData)
    ensures f.name == p.name && f.description == p.description && f.price == p.price && f.stock == p.stock
    ensures f.image == if p.image.Some? then p.image.value else ""
  {
    FormData(p.name, p.description, p.price, p.stock, p.image.GetOr(""))
  }

  class Form {
    const productId: int
    var product: Option<ProductData>
    var formData: FormData
    /** `formData.id` */
    var formId: int
    var loading: bool
    var saving: bool
    var error: Option<string>
    var success: bool
    /** The bodies PUT so far. */
    var sent: seq<FormData>

    constructor (productId: int)
      ensures this.productId == productId && formId == productId && formData == EmptyForm
      ensures product.None? && loading && !saving && error.None? && !success && sent == []
    {
      this.productId := productId;
      product := None;
      formData := EmptyForm;
      formId := productId;
      loading := true;
      saving := false;
      error := None;
      success := false;
      sent := [];
    }

    /** `fetchProduct`: without a token or on a failed GET only the error is set; on
        success the product is kept and the form is filled from it. `loading` ends false
        in every case. */
    method FetchProduct(token: Option<string>, reply: Reply<ProductData>)
      modifies this
      ensures !loading && saving == old(saving) && success == old(success) && sent == old(sent)
      ensures token.None? ==>
        error == Some(NoToken) && formData == old(formData) && product == old(product) && formId == old(formId)
      ensures token.Some? && !reply.Ok? ==>
        error == Some(ReplyError(reply)) && formData == old(formData) && product == old(product) && formId == old(formId)
      ensures token.Some? && reply.Ok? ==>
        product == Some(reply.data) && formData == FromProduct(reply.data) && formId == productId
        && error == old(error)
    {
      loading := true;
      if token.None? {
        error := Some(NoToken);
        loading := false;
        return;
      }
      if !reply.Ok? {
        error := Some(ReplyError(reply));
        loading := false;
        return;
      }
      product := Some(reply.data);
      formData := FromProduct(reply.data);
      formId := productId;
      loading := false;
    }

    method HandleInputChange(field: Field, value: string, parsed: Option<real>)
      modifies this
      ensures formData == SetField(old(formData), field, value, parsed)
      ensures formId == old(formId) && product == old(product) && loading == old(loading)
      ensures saving == old(saving) && error == old(error) && success == old(success) && sent == old(sent)
    {
      formData := SetField(formData, field, value, parsed);
    }

    /** The PUT to `/admin/products/{productId}`, only ever sent while saving with the
        error cleared. */
    method Put()
      requires saving && error.None?
      modifies this
      ensures sent == old(sent) + [formData]
      ensures formData == old(formData) && saving && error.None? && success == old(success)
      ensures loading == old(loading) && product == old(product) && formId == old(formId)
    {
      sent := sent + [formData];
    }

    /** `handleSubmit`: the same checks as the create form; a failure sends no PUT and
        leaves `saving` untouched. Otherwise `saving` is set and the error cleared before
        the PUT, and `saving` ends false. */
    method HandleSubmit(signedIn: bool, token: Option<string>, reply: Reply<()>)
      modifies this
      ensures formData == old(formData) && formId == old(formId) && product == old(product) && loading == old(loading)
      ensures var v := Validate(signedIn, old(formData), NoUser);
        && (v.Some? ==> error == v && sent == old(sent) && saving == old(saving) && success == old(success))
        && (v.None? && token.None? ==> error == Some(NoToken) && sent == old(sent) && !saving && success == old(success))
        && (v.None? && token.Some? ==>
              && sent == old(sent) + [old(formData)] && !saving
              && (reply.Ok? ==> success && error.None?)
              && (!reply.Ok? ==> error == Some(ReplyError(reply)) && success == old(success)))
    {
      var invalid := Validate(signedIn, formData, NoUser);
      if invalid.Some? {
        error := invalid;
        return;
      }
      saving := true;
      error := None;
      if token.None? {
        error := Some(NoToken);
        saving := false;
        return;
      }
      Put();
      if reply.Ok? {
        success := true;
      } else {
        error := Some(ReplyError(reply));
      }
      saving := false;
    }
  }
}
