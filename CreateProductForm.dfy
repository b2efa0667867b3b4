/** `backoffice/src/components/products/CreateProductForm.tsx`: the create form's state
    and its submit sequence. The POST's outcome is a parameter; navigation after success
    is left to the router. */
module CreateProductForm {
  import opened Wrappers
  import opened ProductFormFields

  const NoUser := "Debes iniciar sesión para crear productos"
  const NoToken := "No hay token de autenticación"
  const SessionExpired := "Sesión expirada. Por favor, inicia sesión nuevamente."

  /** What the POST came back with: accepted, 401, or another failure whose message is
      the server's `message` or the status line. */
  datatype PostResult = Created | Unauthorized | Refused(message: string)

  class Form {
    var formData: FormData
    var loading: bool
    var error: Option<string>
    var success: bool
    /** The bodies POSTed so far. */
    var sent: seq<FormData>

    constructor ()
      ensures formData == EmptyForm && !loading && error.None? && !success && sent == []
    {
      formData := EmptyForm;
      loading := false;
      error := None;
      success := false;
      sent := [];
    }

    method HandleInputChange(field: Field, value: string, parsed: Option<real>)
      modifies this
      ensures formData == SetField(old(formData), field, value, parsed)
      ensures loading == old(loading) && error == old(error) && success == old(success) && sent == old(sent)
    {
      formData := SetField(formData, field, value, parsed);
    }

    /** `fetch(..., { method: 'POST', body: JSON.stringify(formData) })`, only ever sent
        while loading with the error cleared. */
    method Post()
      requires loading && error.None?
      modifies this
      ensures sent == old(sent) + [formData]
      ensures formData == old(formData) && loading && error.None? && success == old(success)
    {
      sent := sent + [formData];
    }

    /** `handleSubmit`. A failed check sets its message and sends nothing, with `loading`
        untouched. Otherwise `loading` is set and the error cleared before the POST (no
        POST without a token), success or the failure message is recorded, and `loading`
        ends false. */
    method HandleSubmit(signedIn: bool, token: Option<string>, result: PostResult)
      modifies this
      ensures formData == old(formData)
      ensures var v := Validate(signedIn, old(formData), NoUser);
        && (v.Some? ==> error == v && sent == old(sent) && loading == old(loading) && success == old(success))
        && (v.None? && token.None? ==> error == Some(NoToken) && sent == old(sent) && !loading && success == old(success))
        && (v.None? && token.Some? ==>
              && sent == old(sent) + [old(formData)] && !loading
              && (result == Created ==> success && error.None?)
              && (result == Unauthorized ==> error == Some(SessionExpired) && success == old(success))
              && (result.Refused? ==> error == Some(result.message) && success == old(success)))
    {
      var invalid := Validate(signedIn, formData, NoUser);
      if invalid.Some? {
        error := invalid;
        return;
      }
      loading := true;
      error := None;
      if token.None? {
        error := Some(NoToken);
        loading := false;
        return;
      }
      Post();
      match result {
        case Created => success := true;
        case Unauthorized => error := Some(SessionExpired);
        case Refused(message) => error := Some(message);
      }
      loading := false;
    }
  }
}
