/** The REST backend as the front-end sees it: the records it returns and
    the outcome of one call. The backend itself is not modelled; every call
    is replaced by the outcome it produced, supplied by the caller. */
module Backend {
  import opened Basics

  /** What one HTTP call came back with. `fetch` reports a non-2xx status as
      NotFound / OtherStatus; axios throws for any non-2xx status, so the
      pages that use axios treat everything but Ok alike. */
  datatype Response<+T> = Ok(body: T) | NotFound | OtherStatus(status: int) | Thrown

  /** The user profile served by `/get-user-by-uid` and `/create-user`,
      restricted to the fields the pages read. An absent `isBuyer` reads
      as false. */
  datatype UserRecord = UserRecord(
    uid: Option<string>,
    email: string,
    authMethod: string,
    isBuyer: bool,
    creditsRemaining: Option<int>)

  /** The `card` object of a buyer record. */
  datatype CardInfo = CardInfo(brand: string, lastFour: string, expirationYear: int, expirationMonth: int)

  /** The buyer record served by `/transactions/get-buyer` and returned
      (as `buyer`) by `/transactions/create-buyer`. */
  datatype BuyerRecord = BuyerRecord(paymentMethodEmbedUrl: Option<string>, card: Option<CardInfo>)
}
