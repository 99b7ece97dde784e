/**
 * The boundary between the client models and their collaborators: the
 * outcome of a call into code outside the model, the calls the clients make
 * on the stock and order services, and what a client operation ends with.
 */
module Middle {
  import opened Catalogue

  /**
   * The outcome of a call into a collaborator the model does not contain
   * (the stock service, the remote order service, an RMI lookup): either a
   * returned value or an exception carrying its message.
   */
  datatype Reply<+T> = Returned(value: T) | Raised(message: string)

  /** Calls on the stock service (StockReader / StockReadWriter). */
  datatype StockCall =
    | Exists(code: string)
    | GetDetails(code: string)
    | GetImage(code: string)
    | BuyStock(code: string, amount: int)

  /** Calls on the order service that the cashier makes, with what was passed. */
  datatype OrderCall =
    | UniqueNumber
    | NewOrder(bought: Basket, lines: seq<Product>)

  /** An exception the client code does not catch. */
  datatype Uncaught =
    | NullPointerException
    | NumberFormatException(input: string)

  /**
   * How a client operation ends: observers are notified with an action
   * message, or an exception escapes and nobody is notified.
   */
  datatype Event = Notify(action: string) | Escaped(exception: Uncaught)

  /** A product picture, known to the model only by identity. */
  datatype Image = Image(id: nat)
}
