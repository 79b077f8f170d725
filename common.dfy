/**
 * Values shared by every part of the model: an Option type, the abstract
 * identity of a middleware handler, and the JavaScript values that a
 * handler can pass to its continuation as an error.
 */
module Common {

  datatype Option<+T> = None | Some(value: T)

  /** A middleware function, known only by its identity. */
  type HandlerId = nat

  /**
   * What a handler may hand to `next(err)` as an error: an error object
   * (`statusCode` and `code` are 0 when absent, JavaScript's falsy value
   * for them) or a bare string.
   */
  datatype ErrValue =
    | ErrObj(statusCode: int, code: int, message: string, stack: string)
    | ErrText(text: string)

  /** JavaScript truthiness of an error value: only the empty string is falsy. */
  predicate Truthy(e: ErrValue)
  {
    e.ErrObj? || e.text != ""
  }

  /**
   * The reason phrase Node's status table gives for the codes the core
   * raises (the standard phrases of section 6.1 of RFC 7231).
   */
  function StatusText(code: int): string
  {
    if code == 400 then "Bad Request"
    else if code == 405 then "Method Not Allowed"
    else if code == 406 then "Not Acceptable"
    else if code == 500 then "Internal Server Error"
    else "Unknown"
  }

  /**
   * `new errors.ErrorXxx(detail)`: the minted classes keep the status code
   * and the table's reason phrase; the constructor ignores its argument,
   * so `detail` never reaches the error.
   */
  function MintError(code: int, detail: string): (e: ErrValue)
    ensures e.ErrObj? && e.code == code && e.statusCode == 0
    ensures e.message == StatusText(code)
  {
    ErrObj(0, code, StatusText(code), "")
  }
}
