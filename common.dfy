/** Types shared by every controller: identifiers, the caller's identity and the
    action results a handler can return. */
module Common {

  datatype Option<+T> = None | Some(value: T)

  /** A System.Guid. Handlers only compare identifiers for equality, so the
      128 bits are kept as an unbounded natural number. */
  type Guid = nat

  /** The identity string of an authenticated account. */
  type UserId = string

  /** The route values a CreatedAtRoute result carries: one id, or the
      (trajectId, careMomentId) pair of a TrajectCareMoment. */
  datatype RouteKey = ById(id: Guid) | ByPair(trajectId: Guid, careMomentId: Guid)

  /** The ASP.NET action results the controllers return. `Ok` carries a body,
      `OkEmpty` is `Ok()` without one; `Created` is CreatedAtRoute with the
      route name, the route values and the created entity. */
  datatype ActionResult<+T> =
    | Unauthorized
    | NotFound(message: string)
    | BadRequest(message: string)
    | Ok(value: T)
    | OkEmpty
    | Created(routeName: string, key: RouteKey, value: T)
    | NoContent
}
