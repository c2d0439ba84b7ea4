/** What a data-API action answers, as the HTTP status it is sent with. */
module Responses {

  datatype Response<T> =
    | Ok(body: T)        // 200, with a body; a bare `Ok()` of the controllers is `Ok(())`
    | Created(body: T)   // 201 from CreatedAtRoute, with the stored record as body
    | NoContent          // 204
    | BadRequest         // 400: invalid model state or a path id that differs from the body's id
    | NotFound           // 404
    | ServerError        // 500: an exception left the action uncaught
}
