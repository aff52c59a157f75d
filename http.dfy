/** What a handler answers and what it asks of the store. */
module Http {
  import opened Wrappers

  /** The HTTP statuses the handlers send */
  datatype Status =
    | OK             // 200
    | Created        // 201
    | NoContent      // 204
    | BadRequest     // 400
    | Forbidden      // 403
    | NotFound       // 404
    | Conflict       // 409
    | InternalError  // 500

  /** The error codes of a failed store write that the handlers tell apart:
      unique constraint (P2002), foreign key (P2003), required relation
      (P2014), record to update or delete not found (P2025), anything else. */
  datatype StoreError = P2002 | P2003 | P2014 | P2025 | OtherStoreError

  /** A handler's answer: the status sent and the request it issued to the
      store (a write, or the record it returned), `None` when it answered
      before reaching the store. */
  datatype Response<+A> = Response(status: Status, effect: Option<A>)

  /** An answer sent by a guard, before anything is read back or written */
  function Reject<A>(s: Status): Response<A> {
    Response(s, None)
  }
}
