/** What a route answers: a status, a JSON body and what it does to the session cookies. */
module Http {
  import opened Records

  const CustomerCookie := "customerToken"
  const EmployeeCookie := "employeeToken"

  const HttpOk := 200
  const HttpCreated := 201
  const HttpBadRequest := 400
  const HttpServerError := 500

  datatype CookieAction =
    | NoCookie
    | SetCookie(name: string, value: string, maxAgeMs: nat)
    | ClearCookie(name: string)

  datatype Body =
    | Message(message: string)
    | TokenGranted(token: string, message: string)
    | CustomerLoggedIn(token: string, customer: CustomerJson, message: string)
    | PaymentCreated(message: string, payment: Payment)
    | PaymentList(payments: seq<Payment>)
    | PendingList(entries: seq<PendingEntry>)
    | SubmitCount(message: string, count: nat)

  datatype Response = Response(status: nat, body: Body, cookie: CookieAction)

  /** An answer with a message and no cookie change. */
  function Error(status: nat, message: string): Response {
    Response(status, Message(message), NoCookie)
  }
}
