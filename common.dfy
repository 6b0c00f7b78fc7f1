/** Vocabulary shared by every endpoint: optional values, the error kinds the
    views answer with, and the result of an endpoint call. */
module Common {

  datatype Option<T> = None | Some(value: T)

  /** Failure kinds. Each comment gives the HTTP status the view responds with. */
  datatype Error =
    | NotFound           // 404: the entity or the requester's profile is absent, or the entity is outside the requester's queryset
    | Forbidden          // 403: a role or ownership guard failed
    | InvalidTransition  // 400: the order's status does not allow the operation
    | InvalidQuantity    // 400: the requested quantity is not positive
    | OutOfStock         // 400: the requested quantity exceeds the listing's stock
    | AlreadyApproved    // 400: the invoice is already approved
    | OrderNotApproved   // 400: the invoice's order is not APPROVED
    | AlreadyPaid        // 400: the invoice is already paid
    | AlreadyRated       // 400: the order already has a rating
    | InvalidInput       // 400: serializer field validation failed
    | ServerError        // 500: an exception escaped the view

  /** What an endpoint returns: the entity it produced, or an error and no change. */
  datatype Result<T> = Ok(value: T) | Err(error: Error)
}
