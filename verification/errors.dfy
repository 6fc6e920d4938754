/**
 * The exceptions that travel through the system: the tools' structured
 * `ToolExecutionError` and every other Python exception, known by its
 * class name and its `str(e)` text.
 */
module Errors {
  import opened Wrappers
  import opened Values

  datatype Exception =
    | ToolExecutionError(message: string, errorType: string, details: Data, recoverable: bool)
    | Raised(typeName: string, message: string)
  {
    /** `str(e)` */
    function Text(): string {
      message
    }

    /** `type(e).__name__` */
    function TypeName(): string {
      match this
      case ToolExecutionError(_, _, _, _) => "ToolExecutionError"
      case Raised(t, _) => t
    }
  }

  /**
   * `ToolExecutionError(message, error_type="execution_error", details=None,
   * recoverable=True)`; missing details become the empty dictionary.
   */
  function NewToolExecutionError(
    message: string,
    errorType: string := "execution_error",
    details: Option<Data> := None,
    recoverable: bool := true
  ): (e: Exception)
    ensures e.ToolExecutionError? && e.Text() == message
    ensures e.errorType == errorType && e.recoverable == recoverable
    ensures details.None? ==> e.details == map[]
    ensures details.Some? ==> e.details == details.value
  {
    ToolExecutionError(message, errorType, details.GetOr(map[]), recoverable)
  }

  /** A tool's rejection of its arguments (`error_type="invalid_input"`). */
  function InvalidInput(message: string, details: Data): (e: Exception)
    ensures e.ToolExecutionError? && e.errorType == "invalid_input" && e.recoverable
  {
    NewToolExecutionError(message, "invalid_input", Some(details))
  }

  /** A tool's wrapping of an unexpected failure (`error_type="service_error"`). */
  function ServiceError(message: string, details: Data): (e: Exception)
    ensures e.ToolExecutionError? && e.errorType == "service_error" && e.recoverable
  {
    NewToolExecutionError(message, "service_error", Some(details), true)
  }

  /** The exception pydantic raises when a model's field constraints fail. */
  function ValidationError(model: string): (e: Exception)
    ensures e.Raised? && e.TypeName() == "ValidationError"
  {
    Raised("ValidationError", "validation error for " + model)
  }

  /** `None[...]`: subscripting a missing string. */
  function NoneSubscript(): (e: Exception)
    ensures e.Raised? && e.TypeName() == "TypeError"
  {
    Raised("TypeError", "'NoneType' object is not subscriptable")
  }

  /** `None.attr`: calling a method on a missing value. */
  function NoneAttribute(attr: string): (e: Exception)
    ensures e.Raised? && e.TypeName() == "AttributeError"
  {
    Raised("AttributeError", "'NoneType' object has no attribute '" + attr + "'")
  }

  /** `obj.attr` for an attribute the object's class does not define. */
  function NoAttribute(owner: string, attr: string): (e: Exception)
    ensures e.Raised? && e.TypeName() == "AttributeError"
  {
    Raised("AttributeError", "'" + owner + "' object has no attribute '" + attr + "'")
  }

  /** `d[key]` for a key that is not there. */
  function MissingKey(key: string): (e: Exception)
    ensures e.Raised? && e.TypeName() == "KeyError"
  {
    Raised("KeyError", "'" + key + "'")
  }
}
