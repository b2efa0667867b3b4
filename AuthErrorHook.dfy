/** `backoffice/src/hooks/useAuthError.ts`: the error and submitting flags the login and
    registration forms share. */
module AuthErrorHook {
  import opened Wrappers

  /** `{ message, field? }`; the hook itself never sets `field`. */
  datatype AuthError = AuthError(message: string, field: Option<string>)

  /** What a form hands to `handleError`: an `Error` instance, a string, or any other
      thrown value. */
  datatype Thrown = ErrorObject(message: string) | Text(text: string) | Other

  const Unexpected := "Ha ocurrido un error inesperado"

  /** The message `handleError` shows for a thrown value. */
  function MessageOf(e: Thrown): (m: string)
    ensures e.ErrorObject? ==> m == e.message
    ensures e.Text? ==> m == e.text
    ensures e.Other? ==> m == Unexpected
  {
    match e
    case ErrorObject(message) => message
    case Text(text) => text
    case Other => Unexpected
  }

  class AuthErrorState {
    var error: Option<AuthError>
    var isSubmitting: bool

    constructor ()
      ensures error.None? && !isSubmitting
    {
      error := None;
      isSubmitting := false;
    }

    /** `handleError`: records the thrown value's message and leaves submitting alone. */
    method HandleError(e: Thrown)
      modifies this
      ensures error == Some(AuthError(MessageOf(e), None))
      ensures isSubmitting == old(isSubmitting)
    {
      error := Some(AuthError(MessageOf(e), None));
    }

    /** `clearError` */
    method ClearError()
      modifies this
      ensures error.None? && isSubmitting == old(isSubmitting)
    {
      error := None;
    }

    /** `startSubmitting`: submitting, with any earlier error cleared. */
    method StartSubmitting()
      modifies this
      ensures isSubmitting && error.None?
    {
      isSubmitting := true;
      ClearError();
    }

    /** `stopSubmitting`: the error shown stays. */
    method StopSubmitting()
      modifies this
      ensures !isSubmitting && error == old(error)
    {
      isSubmitting := false;
    }
  }
}
