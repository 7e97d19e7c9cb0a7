/** The error replies of the cart and order handlers. */
module Responses {

  datatype Error =
    | NotFound                                  // get_object_or_404 found no row
    | EmptyCart                                 // "Cart is empty"
    | InvalidCurrentStatus                      // the order's status has no successor
    | InvalidStatusUpdate(allowedNext: string)  // the request named another status than the successor
    | IntegrityError                            // the database refused a negative quantity

  /** The HTTP status code each error is answered with. */
  function HttpStatus(e: Error): (code: nat)
    ensures e == NotFound <==> code == 404
    ensures e == IntegrityError <==> code == 500
    ensures code == 400 <==> e.EmptyCart? || e.InvalidCurrentStatus? || e.InvalidStatusUpdate?
  {
    match e
    case NotFound => 404
    case IntegrityError => 500
    case _ => 400
  }
}
