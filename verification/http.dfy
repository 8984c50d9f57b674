/**
 * The outcomes an ASP.NET Core controller action can produce, as values. Each
 * constructor stands for one of the `ControllerBase` helpers the controllers call
 * (`Ok`, `CreatedAtAction`, `NoContent`, `BadRequest`, `Unauthorized`, `NotFound`),
 * plus `Fault` for an exception that escapes the action and is turned into a 500
 * response by the host or by an exception filter.
 */
module Http {
  import opened Text

  datatype ActionResult<T> =
    | Ok(body: T)                            // Ok(value)
    | OkEmpty                                // Ok() with no body
    | Created(id: int, body: T)              // CreatedAtAction(..., new { id }, value)
    | NoContent                              // NoContent()
    | BadRequest(message: Option<string>)    // BadRequest() / BadRequest(message)
    | Unauthorized(reason: string)           // Unauthorized(new { Message })
    | NotFound(message: Option<string>)      // NotFound() / NotFound(message)
    | Fault(exception: string)               // an exception of this type escapes the action

  /** The HTTP status code each outcome is sent with. */
  function StatusCode<T>(r: ActionResult<T>): (code: int)
    ensures r.Ok? || r.OkEmpty? <==> code == 200
    ensures 200 <= code < 300 <==> r.Ok? || r.OkEmpty? || r.Created? || r.NoContent?
    ensures r.Fault? <==> code == 500
  {
    match r
    case Ok(_) => 200
    case OkEmpty => 200
    case Created(_, _) => 201
    case NoContent => 204
    case BadRequest(_) => 400
    case Unauthorized(_) => 401
    case NotFound(_) => 404
    case Fault(_) => 500
  }

  /** Exception type names the modelled actions can raise. */
  const InvalidOperation := "InvalidOperationException"   // Enumerable.Max over an empty list
  const NullReference := "NullReferenceException"         // member access on a null body
}
