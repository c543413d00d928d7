/**
  Python exceptions as the backend reports them: the class name and the first line of
  `traceback.format_exception_only`, packed into the `{error, detail}` body both
  `backend/app.py` and `backend/pre_chat.py` return.
 */
module PyErrors {
  import opened Json

  /** An exception instance: the module that defines its class, the class name, and `str(e)`. */
  datatype PyError = PyError(owner: string, name: string, message: string)

  /** A value, or the exception raised while computing it. */
  datatype Result<+T> = Ok(value: T) | Raise(error: PyError)

  /** `Exception(message)`, the only class `pre_chat.py` raises itself. */
  function Exception(message: string): PyError {
    PyError("builtins", "Exception", message)
  }

  /** `d[key]` on a dict without `key` raises `KeyError`, whose `str` is the key's repr. */
  function KeyError(key: string): PyError
    requires '\'' !in key
  {
    PyError("builtins", "KeyError", "'" + key + "'")
  }

  /** The class name as `format_exception_only` prints it: qualified unless built in or from `__main__`. */
  function QualifiedName(e: PyError): string {
    if e.owner == "builtins" || e.owner == "__main__" then e.name else e.owner + "." + e.name
  }

  /** The first line of `traceback.format_exception_only(type(e), e)`. */
  function FormatExceptionOnly(e: PyError): (line: string)
    ensures |line| > 0 && line[|line| - 1] == '\n'
    ensures |line| > |QualifiedName(e)| && line[..|QualifiedName(e)|] == QualifiedName(e)
  {
    if e.message == "" then QualifiedName(e) + "\n"
    else QualifiedName(e) + ": " + e.message + "\n"
  }

  /** `ResponseErrorData(error, detail)` */
  datatype ErrorData = ErrorData(error: string, detail: string)

  /** `ResponseErrorData(error=e.__class__.__name__, detail=t[0])` */
  function ErrorDataOf(e: PyError): (d: ErrorData)
    ensures d.error == e.name
    ensures e.owner == "builtins" && e.message != "" ==> d.detail == e.name + ": " + e.message + "\n"
  {
    ErrorData(e.name, FormatExceptionOnly(e))
  }

  /** The JSON object `jsonify` makes of an `ErrorData`. */
  function ErrorJson(d: ErrorData): (v: Json)
    ensures v.Obj? && v.fields.Keys == {"error", "detail"}
  {
    Obj(map["error" := Str(d.error), "detail" := Str(d.detail)])
  }
}
