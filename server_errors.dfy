/** The back end's error hierarchy and the `handle_errors` decorator
    (backend/app/utils/error_handling.py). A view either returns a value or
    raises; the decorator turns an `AppError` (or a subclass) into a JSON error
    reply with the error's own status, and any other exception into a generic
    500 reply. Logging is not modelled. */
module ServerErrors {
  import opened Base

  const INTERNAL_ERROR := "INTERNAL_ERROR"
  const GENERIC_MESSAGE := "An unexpected error occurred"

  /** The class of an `AppError` instance. */
  datatype ErrorClass = AppErrorClass | ValidationErrorClass | NotFoundErrorClass | AuthenticationErrorClass

  /** An instance of `AppError` or one of its subclasses. */
  datatype AppError = AppError(cls: ErrorClass, message: string, code: string, status: int)

  /** A raised exception: an `AppError`, or any other exception with its text. */
  datatype Exception = App(error: AppError) | Unexpected(text: string)

  /** What a wrapped view function did. */
  datatype Completion<+R> = Returned(value: R) | Raised(exception: Exception)

  /** A JSON error body `{'error': …, 'code': …}`, with the `'filename'` key
      that the upload validator adds to some of its bodies. */
  datatype ErrorBody = ErrorBody(error: string, code: string, filename: Option<string>)

  /** A view's reply: the wrapped view's own value, or `jsonify(body), status`. */
  datatype Reply<+R> = Passed(value: R) | JsonError(body: ErrorBody, status: int)

  /** `AppError(message, code='INTERNAL_ERROR', status=500)`; `None` leaves an
      argument out so that its default applies. */
  function NewAppError(message: string, code: Option<string>, status: Option<int>): (e: AppError)
    ensures e.cls == AppErrorClass && e.message == message
    ensures code.Some? ==> e.code == code.value
    ensures code.None? ==> e.code == INTERNAL_ERROR
    ensures status.Some? ==> e.status == status.value
    ensures status.None? ==> e.status == 500
  {
    AppError(AppErrorClass, message,
             if code.Some? then code.value else INTERNAL_ERROR,
             if status.Some? then status.value else 500)
  }

  /** `ValidationError(message)` */
  function ValidationError(message: string): (e: AppError)
    // the base class's constructor with a fixed code and status
    ensures e.cls == ValidationErrorClass && e.(cls := AppErrorClass) == NewAppError(message, Some("VALIDATION_ERROR"), Some(400))
  {
    AppError(ValidationErrorClass, message, "VALIDATION_ERROR", 400)
  }

  /** `NotFoundError(message)` */
  function NotFoundError(message: string): (e: AppError)
    // the base class's constructor with a fixed code and status
    ensures e.cls == NotFoundErrorClass && e.(cls := AppErrorClass) == NewAppError(message, Some("NOT_FOUND"), Some(404))
  {
    AppError(NotFoundErrorClass, message, "NOT_FOUND", 404)
  }

  /** `AuthenticationError(message)` */
  function AuthenticationError(message: string): (e: AppError)
    // the base class's constructor with a fixed code and status
    ensures e.cls == AuthenticationErrorClass && e.(cls := AppErrorClass) == NewAppError(message, Some("AUTHENTICATION_ERROR"), Some(401))
  {
    AppError(AuthenticationErrorClass, message, "AUTHENTICATION_ERROR", 401)
  }

  /** The reply `handle_errors` gives for a view's completion. */
  function HandleErrors<R>(c: Completion<R>): (r: Reply<R>)
    ensures c.Returned? <==> r.Passed?
    ensures c.Returned? ==> r.value == c.value
    ensures c.Raised? ==> r.body.filename.None?
    ensures c.Raised? && c.exception.App? ==>
              r.body.error == c.exception.error.message && r.body.code == c.exception.error.code
              && r.status == c.exception.error.status
    ensures c.Raised? && c.exception.Unexpected? ==>
              r.body == ErrorBody(GENERIC_MESSAGE, INTERNAL_ERROR, None) && r.status == 500
  {
    match c
    case Returned(v) => Passed(v)
    case Raised(App(e)) => JsonError(ErrorBody(e.message, e.code, None), e.status)
    case Raised(Unexpected(_)) => JsonError(ErrorBody(GENERIC_MESSAGE, INTERNAL_ERROR, None), 500)
  }

  /** Each subclass reaches the client with its fixed code and status, and a
      bare `AppError` with the defaults. */
  lemma SubclassReplies<R>(message: string)
    ensures HandleErrors<R>(Raised(App(ValidationError(message))))
              == JsonError(ErrorBody(message, "VALIDATION_ERROR", None), 400)
    ensures HandleErrors<R>(Raised(App(NotFoundError(message))))
              == JsonError(ErrorBody(message, "NOT_FOUND", None), 404)
    ensures HandleErrors<R>(Raised(App(AuthenticationError(message))))
              == JsonError(ErrorBody(message, "AUTHENTICATION_ERROR", None), 401)
    ensures HandleErrors<R>(Raised(App(NewAppError(message, None, None))))
              == JsonError(ErrorBody(message, INTERNAL_ERROR, None), 500)
  {
  }

  /** The text of an unexpected exception never reaches the reply. */
  lemma UnexpectedTextHidden<R>(text1: string, text2: string)
    ensures HandleErrors<R>(Raised(Unexpected(text1))) == HandleErrors<R>(Raised(Unexpected(text2)))
  {
  }
}
