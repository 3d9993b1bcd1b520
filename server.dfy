/** The API's route handlers over the stores they read and write. A `Bank` holds the customer,
    employee and payment stores, the set of tokens the server's secret has signed, and the next
    free record id. Each route is a method: its inputs are the request's session credentials and
    body, the clock (milliseconds), and, where the handler touches the database, whether the
    database answers (`storeUp`; every store failure ends in the handler's catch block). */
module Server {
  import opened Base
  import opened Text
  import opened Validation
  import opened Passwords
  import opened Tokens
  import opened Gate
  import opened Records
  import opened Http
  import opened Queries
  import opened Batch

  const RegistrationSuccessful := "Registration successful"
  const UserAlreadyExists := "User already exists with these details"
  const ServerErrorMessage := "Server error"
  const InvalidCredentials := "Invalid credentials"
  const LoginSuccessful := "Login successful"
  const NoTokenProvided := "No token provided"
  const InvalidOrExpiredToken := "Invalid or expired token"
  const TokenRefreshed := "Token refreshed successfully"
  const LoggedOut := "Logged out successfully"
  const PaymentProcessed := "Payment successfully processed via SWIFT!"
  const PaymentServerError := "Server error while processing payment"
  const FetchPaymentsFailed := "Failed to fetch your payments"
  const FetchTransactionsFailed := "Failed to fetch transactions"
  const InvalidRequest := "Invalid request"
  const SubmittedToSwift := "Verified transactions submitted to SWIFT successfully"
  const SubmitFailed := "Failed to submit transactions"

  /** Body of `POST /employees/login`, which no validator checks. A password that is absent or not
      text is `None`: the hash comparison throws on it. */
  datatype EmployeeLoginBody = EmployeeLoginBody(username: string, password: Option<string>)

  /** The `transactions` field of `POST /employees/submit-swift`: absent (or falsy), present but
      not an array, or an array whose entries are ids; an entry that does not cast to an ObjectId
      is `None`. */
  datatype TransactionsField = Missing | NotAnArray | Listed(entries: seq<Option<Id>>)

  /** The ids an array of entries names. */
  function ListedIds(entries: seq<Option<Id>>): set<Id> {
    set e | e in entries && e.Some? :: e.value
  }

  lemma ListedIdsStep(entries: seq<Option<Id>>, i: nat)
    requires i < |entries| && entries[i].Some?
    ensures ListedIds(entries[..i + 1]) == ListedIds(entries[..i]) + {entries[i].value}
  {
    assert entries[..i + 1] == entries[..i] + [entries[i]];
  }

  /** The registration duplicate query `{ $or: [{ idNumber }, { accountNumber }] }`. */
  predicate SharesKey(c: Customer, idNumber: string, accountNumber: string) {
    c.idNumber == idNumber || c.accountNumber == accountNumber
  }

  /** The login query `{ fullName, accountNumber }`; the schema's `trim` setter applies to the
      name in the filter as it did when the record was saved. */
  predicate IsLoginOf(c: Customer, body: LoginBody) {
    c.fullName == Trim(body.fullName) && c.accountNumber == body.accountNumber
  }

  /** The duplicate check is what keeps both keys unique: a customer that shares neither key with
      any stored one can be added under a fresh id. */
  lemma AdmittedCustomerKeepsKeysUnique(customers: map<Id, Customer>, c: Customer)
    requires UniqueKeys(customers) && c.id !in customers
    requires forall k :: k in customers ==> !SharesKey(customers[k], c.idNumber, c.accountNumber)
    ensures UniqueKeys(customers[c.id := c])
  {
  }

  /** With unique account numbers, a login names at most one stored customer. */
  lemma LoginNamesAtMostOne(customers: map<Id, Customer>, body: LoginBody)
    requires UniqueKeys(customers)
    ensures forall a, b :: (a in customers && b in customers
                            && IsLoginOf(customers[a], body) && IsLoginOf(customers[b], body)) ==> a == b
  {
  }

  function OwnedBy(owner: Id): Payment -> bool {
    (p: Payment) => p.customerId == owner
  }

  function IsPending(): Payment -> bool {
    (p: Payment) => p.status == StatusPending
  }

  /** The cookie that carries a freshly issued session token for one hour. */
  function SessionCookie(name: string, t: Token): CookieAction {
    SetCookie(name, Encode(t), CookieMaxAgeMs)
  }

  /** The record `POST /make-payment` saves: owned by the caller, provider and status set
      explicitly to the schema's defaults, whatever else the body holds. */
  function RequestedPayment(owner: Id, body: PaymentBody, id: Id, nowMs: nat): (p: Payment)
    requires PositiveAmount(body.amount)
    ensures p.id == id && p.customerId == owner && p.amount == body.amount.number.value && p.amount > 0.0
    ensures p.currency == body.currency && p.payeeAccount == body.payeeAccount && p.swiftCode == body.swiftCode
    ensures p.provider == ProviderSwift && p.status == StatusPending
    ensures p.createdAt == nowMs && p.updatedAt == nowMs
  {
    NewPayment(PaymentDraft(owner, body.amount.number.value, body.currency, Some(ProviderSwift),
                            body.payeeAccount, body.swiftCode, Some(StatusPending)), id, nowMs)
  }

  class Bank {
    var customers: map<Id, Customer>
    var employees: map<Id, Employee>
    var payments: map<Id, Payment>
    /** Every token the server's secret has signed; there is no revocation. */
    var signed: set<Token>
    /** Ids below this have been handed out. */
    var nextId: Id

    ghost predicate Valid()
      reads this
    {
      && (forall k :: k in customers ==> k < nextId && customers[k].id == k)
      && (forall k :: k in employees ==> k < nextId && employees[k].id == k)
      && (forall k :: k in payments ==> k < nextId && payments[k].id == k)
      && UniqueKeys(customers)
    }

    /** A fresh deployment: no customers or payments yet, and the staff accounts provisioned
        outside the API. */
    constructor (staff: map<Id, Employee>, firstId: Id)
      requires forall k :: k in staff ==> k < firstId && staff[k].id == k
      ensures Valid()
      ensures customers == map[] && payments == map[] && employees == staff
      ensures signed == {} && nextId == firstId
    {
      customers := map[];
      employees := staff;
      payments := map[];
      signed := {};
      nextId := firstId;
    }

    /** `POST /auth/register`: validate; refuse a duplicate id number or account number; store the
        customer with the trimmed name and the hashed password; issue a customer session. */
    method Register(body: RegisterBody, salt: nat, nowMs: nat, storeUp: bool) returns (res: Response)
      requires Valid()
      modifies this`customers, this`nextId, this`signed
      ensures Valid()
      ensures ValidateRegister(body).Reject? ==> res == Error(HttpBadRequest, ValidateRegister(body).message)
      ensures ValidateRegister(body).Pass? && !storeUp ==> res == Error(HttpServerError, ServerErrorMessage)
      ensures ValidateRegister(body).Pass? && storeUp
              && (exists k :: k in old(customers) && SharesKey(old(customers)[k], body.idNumber, body.accountNumber))
              ==> res == Error(HttpBadRequest, UserAlreadyExists)
      ensures ValidateRegister(body).Pass? && storeUp
              && (forall k :: k in old(customers) ==> !SharesKey(old(customers)[k], body.idNumber, body.accountNumber))
              && Trim(body.fullName) == ""
              ==> res == Error(HttpServerError, ServerErrorMessage)
      ensures res.status == HttpCreated <==>
                ValidateRegister(body).Pass? && storeUp && Trim(body.fullName) != ""
                && (forall k :: k in old(customers) ==> !SharesKey(old(customers)[k], body.idNumber, body.accountNumber))
      ensures res.status != HttpCreated ==>
                customers == old(customers) && nextId == old(nextId) && signed == old(signed)
      ensures res.status == HttpCreated ==>
                var id := old(nextId);
                var t := Issue(id, nowMs);
                && id !in old(customers) && nextId == id + 1
                && customers == old(customers)[id := Customer(id, Trim(body.fullName), body.idNumber,
                                                              body.accountNumber, Some(Hash(body.password, salt)),
                                                              nowMs, nowMs)]
                && signed == old(signed) + {t}
                && res == Response(HttpCreated, TokenGranted(Encode(t), RegistrationSuccessful),
                                   SessionCookie(CustomerCookie, t))
    {
      var verdict := ValidateRegister(body);
      if verdict.Reject? {
        return Error(HttpBadRequest, verdict.message);
      }
      if !storeUp {
        return Error(HttpServerError, ServerErrorMessage);
      }
      var existing := FindOne(customers, (c: Customer) => SharesKey(c, body.idNumber, body.accountNumber));
      if existing.Some? {
        return Error(HttpBadRequest, UserAlreadyExists);
      }
      var name := Trim(body.fullName);
      if name == "" {
        // the schema trims before its `required` check, so saving fails
        return Error(HttpServerError, ServerErrorMessage);
      }
      var id := SaveCustomer(name, body.idNumber, body.accountNumber, Hash(body.password, salt), nowMs);
      var t := Issue(id, nowMs);
      signed := signed + {t};
      res := Response(HttpCreated, TokenGranted(Encode(t), RegistrationSuccessful), SessionCookie(CustomerCookie, t));
    }

    /** `new Customer({...}).save()` once the duplicate check has passed: the next id, both
        timestamps set to now. */
    method SaveCustomer(fullName: string, idNumber: string, accountNumber: string, password: PasswordHash, nowMs: nat)
      returns (id: Id)
      requires Valid()
      requires forall k :: k in customers ==> !SharesKey(customers[k], idNumber, accountNumber)
      modifies this`customers, this`nextId
      ensures Valid()
      ensures id == old(nextId) && id !in old(customers) && nextId == id + 1
      ensures customers == old(customers)[id := Customer(id, fullName, idNumber, accountNumber, Some(password), nowMs, nowMs)]
    {
      id := nextId;
      var c := Customer(id, fullName, idNumber, accountNumber, Some(password), nowMs, nowMs);
      AdmittedCustomerKeepsKeysUnique(customers, c);
      nextId := nextId + 1;
      customers := customers[id := c];
    }

    /** `POST /auth/login`: validate; look the customer up by name and account number; compare the
        password with the stored hash; issue a customer session and return the customer without
        the password. An unknown customer and a wrong password get the same answer. */
    method Login(body: LoginBody, nowMs: nat, storeUp: bool) returns (res: Response)
      requires Valid()
      modifies this`signed
      ensures ValidateLogin(body).Reject? ==> res == Error(HttpBadRequest, ValidateLogin(body).message)
      ensures ValidateLogin(body).Pass? && !storeUp ==> res == Error(HttpServerError, ServerErrorMessage)
      ensures ValidateLogin(body).Pass? && storeUp && (forall k :: k in customers ==> !IsLoginOf(customers[k], body))
              ==> res == Error(HttpBadRequest, InvalidCredentials)
      ensures ValidateLogin(body).Pass? && storeUp ==>
                forall k :: k in customers && IsLoginOf(customers[k], body) ==>
                  && (customers[k].password.None? ==> res == Error(HttpServerError, ServerErrorMessage))
                  && (customers[k].password.Some? && !Matches(body.password, customers[k].password.value)
                      ==> res == Error(HttpBadRequest, InvalidCredentials))
                  && (customers[k].password.Some? && Matches(body.password, customers[k].password.value)
                      ==> && signed == old(signed) + {Issue(k, nowMs)}
                          && res == Response(HttpOk, CustomerLoggedIn(Encode(Issue(k, nowMs)), ToJson(customers[k]), LoginSuccessful),
                                             SessionCookie(CustomerCookie, Issue(k, nowMs))))
      ensures res.status != HttpOk ==> signed == old(signed)
    {
      var verdict := ValidateLogin(body);
      if verdict.Reject? {
        return Error(HttpBadRequest, verdict.message);
      }
      if !storeUp {
        return Error(HttpServerError, ServerErrorMessage);
      }
      var found := FindOne(customers, (c: Customer) => IsLoginOf(c, body));
      if found.None? {
        return Error(HttpBadRequest, InvalidCredentials);
      }
      LoginNamesAtMostOne(customers, body);
      assert !(forall k :: k in customers ==> !IsLoginOf(customers[k], body));
      res := CheckPassword(found.value, body, nowMs);
    }

    /** The second half of the login: compare the password with the one customer found, and on a
        match issue a customer session. bcrypt refuses to compare against a missing hash. */
    method CheckPassword(k: Id, body: LoginBody, nowMs: nat) returns (res: Response)
      requires k in customers
      modifies this`signed
      ensures customers[k].password.None? ==> res == Error(HttpServerError, ServerErrorMessage)
      ensures customers[k].password.Some? && !Matches(body.password, customers[k].password.value)
              ==> res == Error(HttpBadRequest, InvalidCredentials)
      ensures customers[k].password.Some? && Matches(body.password, customers[k].password.value)
              ==> && signed == old(signed) + {Issue(k, nowMs)}
                  && res == Response(HttpOk, CustomerLoggedIn(Encode(Issue(k, nowMs)), ToJson(customers[k]), LoginSuccessful),
                                     SessionCookie(CustomerCookie, Issue(k, nowMs)))
      ensures res.status != HttpOk ==> signed == old(signed)
    {
      var customer := customers[k];
      if customer.password.None? {
        return Error(HttpServerError, ServerErrorMessage);
      }
      if !Matches(body.password, customer.password.value) {
        return Error(HttpBadRequest, InvalidCredentials);
      }
      var t := Issue(k, nowMs);
      signed := signed + {t};
      res := Response(HttpOk, CustomerLoggedIn(Encode(t), ToJson(customer), LoginSuccessful), SessionCookie(CustomerCookie, t));
    }

    /** `POST /auth/refresh`: verify the presented token and issue a new one for the same subject,
        always as the customer cookie. */
    method Refresh(cred: Credentials, nowMs: nat) returns (res: Response)
      modifies this`signed
      ensures RefreshToken(cred) == "" ==> res == Error(Unauthorized, NoTokenProvided) && signed == old(signed)
      ensures RefreshToken(cred) != "" && Verify(old(signed), RefreshToken(cred), nowMs).Err? ==>
                res == Error(Unauthorized, InvalidOrExpiredToken) && signed == old(signed)
      ensures RefreshToken(cred) != "" && Verify(old(signed), RefreshToken(cred), nowMs).Ok? ==>
                var t := Issue(Verify(old(signed), RefreshToken(cred), nowMs).value, nowMs);
                && signed == old(signed) + {t}
                && res == Response(HttpOk, TokenGranted(Encode(t), TokenRefreshed), SessionCookie(CustomerCookie, t))
    {
      var token := RefreshToken(cred);
      if token == "" {
        return Error(Unauthorized, NoTokenProvided);
      }
      match Verify(signed, token, nowMs)
      case Err(_) =>
        res := Error(Unauthorized, InvalidOrExpiredToken);
      case Ok(subject) =>
        var t := Issue(subject, nowMs);
        signed := signed + {t};
        res := Response(HttpOk, TokenGranted(Encode(t), TokenRefreshed), SessionCookie(CustomerCookie, t));
    }

    /** `POST /auth/logout`: clear the customer cookie. Nothing on the server changes, so a copy of
        the token kept elsewhere stays valid until it expires. */
    method Logout() returns (res: Response)
      ensures res == Response(HttpOk, Message(LoggedOut), ClearCookie(CustomerCookie))
    {
      res := Response(HttpOk, Message(LoggedOut), ClearCookie(CustomerCookie));
    }

    /** `POST /employees/login`: look the employee up by username, compare the password, issue an
        employee session. */
    method EmployeeLogin(body: EmployeeLoginBody, nowMs: nat, storeUp: bool) returns (res: Response)
      modifies this`signed
      ensures !storeUp ==> res == Error(HttpServerError, ServerErrorMessage)
      ensures storeUp && (forall k :: k in employees ==> employees[k].username != body.username)
              ==> res == Error(HttpBadRequest, InvalidCredentials)
      ensures storeUp && body.password.None? && (exists k :: k in employees && employees[k].username == body.username)
              ==> res == Error(HttpServerError, ServerErrorMessage)
      ensures storeUp && body.password.Some?
              && (forall k :: (k in employees && employees[k].username == body.username)
                               ==> !Matches(body.password.value, employees[k].password))
              ==> res == Error(HttpBadRequest, InvalidCredentials)
      ensures storeUp && body.password.Some? && (exists k :: k in employees && employees[k].username == body.username)
              && (forall k :: (k in employees && employees[k].username == body.username)
                               ==> Matches(body.password.value, employees[k].password))
              ==> res.status == HttpOk
      ensures res.status != HttpOk ==> signed == old(signed)
      ensures res.status == HttpOk ==>
                exists k :: k in employees && employees[k].username == body.username
                  && body.password.Some? && Matches(body.password.value, employees[k].password)
                  && signed == old(signed) + {Issue(k, nowMs)}
                  && res == Response(HttpOk, TokenGranted(Encode(Issue(k, nowMs)), LoginSuccessful),
                                     SessionCookie(EmployeeCookie, Issue(k, nowMs)))
    {
      if !storeUp {
        return Error(HttpServerError, ServerErrorMessage);
      }
      var found := FindOne(employees, (e: Employee) => e.username == body.username);
      if found.None? {
        return Error(HttpBadRequest, InvalidCredentials);
      }
      assert found.value in employees && employees[found.value].username == body.username;
      if body.password.None? {
        // the comparison rejects a missing password
        return Error(HttpServerError, ServerErrorMessage);
      }
      if !Matches(body.password.value, employees[found.value].password) {
        return Error(HttpBadRequest, InvalidCredentials);
      }
      assert !(forall k :: (k in employees && employees[k].username == body.username)
                             ==> !Matches(body.password.value, employees[k].password));
      var t := Issue(found.value, nowMs);
      signed := signed + {t};
      res := Response(HttpOk, TokenGranted(Encode(t), LoginSuccessful), SessionCookie(EmployeeCookie, t));
      assert !(forall k :: k in employees ==> employees[k].username != body.username);
    }

    /** `POST /employees/logout`: clear the employee cookie. */
    method EmployeeLogout() returns (res: Response)
      ensures res == Response(HttpOk, Message(LoggedOut), ClearCookie(EmployeeCookie))
    {
      res := Response(HttpOk, Message(LoggedOut), ClearCookie(EmployeeCookie));
    }

    /** `POST /payments/make-payment` (`protect`, then `validatePayment`): store a pending SWIFT
        payment owned by the authenticated subject. */
    method MakePayment(cred: Credentials, body: PaymentBody, nowMs: nat, storeUp: bool) returns (res: Response)
      requires Valid()
      modifies this`payments, this`nextId
      ensures Valid()
      ensures Protect(cred, signed, nowMs).Deny? ==>
                res == Error(Protect(cred, signed, nowMs).status, Protect(cred, signed, nowMs).message)
      ensures Protect(cred, signed, nowMs).Admit? && ValidatePayment(body).Reject? ==>
                res == Error(HttpBadRequest, ValidatePayment(body).message)
      ensures Protect(cred, signed, nowMs).Admit? && ValidatePayment(body).Pass? && !storeUp ==>
                res == Error(HttpServerError, PaymentServerError)
      ensures res.status == HttpCreated <==>
                Protect(cred, signed, nowMs).Admit? && ValidatePayment(body).Pass? && storeUp
      ensures res.status != HttpCreated ==> payments == old(payments) && nextId == old(nextId)
      ensures res.status == HttpCreated ==>
                var id := old(nextId);
                var p := RequestedPayment(Protect(cred, signed, nowMs).user, body, id, nowMs);
                && id !in old(payments) && nextId == id + 1
                && payments == old(payments)[id := p]
                && res == Response(HttpCreated, PaymentCreated(PaymentProcessed, p), NoCookie)
    {
      var gate := Protect(cred, signed, nowMs);
      if gate.Deny? {
        return Error(gate.status, gate.message);
      }
      var verdict := ValidatePayment(body);
      if verdict.Reject? {
        return Error(HttpBadRequest, verdict.message);
      }
      if !storeUp {
        return Error(HttpServerError, PaymentServerError);
      }
      var p := SavePayment(gate.user, body, nowMs);
      res := Response(HttpCreated, PaymentCreated(PaymentProcessed, p), NoCookie);
    }

    /** `new Payment({...}).save()` for a validated request: the next id, the caller as owner. */
    method SavePayment(owner: Id, body: PaymentBody, nowMs: nat) returns (p: Payment)
      requires Valid() && PositiveAmount(body.amount)
      modifies this`payments, this`nextId
      ensures Valid()
      ensures old(nextId) !in old(payments) && nextId == old(nextId) + 1
      ensures p == RequestedPayment(owner, body, old(nextId), nowMs)
      ensures payments == old(payments)[old(nextId) := p]
    {
      var id := nextId;
      nextId := nextId + 1;
      p := RequestedPayment(owner, body, id, nowMs);
      payments := payments[id := p];
    }

    /** `GET /payments/customer-payments`: the caller's payments, newest first. */
    method CustomerPayments(cred: Credentials, nowMs: nat, storeUp: bool) returns (res: Response)
      requires Valid()
      ensures Protect(cred, signed, nowMs).Deny? ==>
                res == Error(Protect(cred, signed, nowMs).status, Protect(cred, signed, nowMs).message)
      ensures Protect(cred, signed, nowMs).Admit? && !storeUp ==> res == Error(HttpServerError, FetchPaymentsFailed)
      ensures Protect(cred, signed, nowMs).Admit? && storeUp ==>
                var user := Protect(cred, signed, nowMs).user;
                && res.status == HttpOk && res.body.PaymentList? && res.cookie == NoCookie
                && NewestFirst(res.body.payments)
                && (forall p :: p in res.body.payments ==>
                      p.id in payments && payments[p.id] == p && p.customerId == user)
                && (forall k :: k in payments && payments[k].customerId == user ==> payments[k] in res.body.payments)
                && |res.body.payments| == |Matching(payments, OwnedBy(user))|
    {
      var gate := Protect(cred, signed, nowMs);
      if gate.Deny? {
        return Error(gate.status, gate.message);
      }
      if !storeUp {
        return Error(HttpServerError, FetchPaymentsFailed);
      }
      var found := Find(payments, OwnedBy(gate.user));
      var sorted := SortNewestFirst(found);
      assert forall p :: p in sorted <==> p in found by {
        forall p ensures p in sorted <==> p in found {
          assert p in sorted <==> p in multiset(sorted);
          assert p in found <==> p in multiset(found);
        }
      }
      assert |sorted| == |multiset(sorted)| == |multiset(found)| == |found|;
      res := Response(HttpOk, PaymentList(sorted), NoCookie);
    }

    /** `GET /employees/transactions`: every pending payment, with its owner's name and id number. */
    method Transactions(cred: Credentials, nowMs: nat, storeUp: bool) returns (res: Response)
      requires Valid()
      ensures Protect(cred, signed, nowMs).Deny? ==>
                res == Error(Protect(cred, signed, nowMs).status, Protect(cred, signed, nowMs).message)
      ensures Protect(cred, signed, nowMs).Admit? && !storeUp ==> res == Error(HttpServerError, FetchTransactionsFailed)
      ensures Protect(cred, signed, nowMs).Admit? && storeUp ==>
                && res.status == HttpOk && res.body.PendingList? && res.cookie == NoCookie
                && (forall e :: e in res.body.entries ==>
                      && e.payment.id in payments && payments[e.payment.id] == e.payment
                      && e.payment.status == StatusPending
                      && e.owner == OwnerOf(customers, e.payment.customerId))
                && (forall k :: k in payments && payments[k].status == StatusPending ==>
                      PendingEntry(payments[k], OwnerOf(customers, payments[k].customerId)) in res.body.entries)
                && |res.body.entries| == |Matching(payments, IsPending())|
    {
      var gate := Protect(cred, signed, nowMs);
      if gate.Deny? {
        return Error(gate.status, gate.message);
      }
      if !storeUp {
        return Error(HttpServerError, FetchTransactionsFailed);
      }
      var found := Find(payments, IsPending());
      PopulateFound(payments, customers, IsPending(), found);
      res := Response(HttpOk, PendingList(JoinOwners(found, customers)), NoCookie);
    }

    /** `POST /employees/submit-swift`: mark every listed stored payment "Submitted" and report how
        many stored payments changed. */
    method SubmitSwift(cred: Credentials, field: TransactionsField, nowMs: nat, storeUp: bool) returns (res: Response)
      requires Valid()
      modifies this`payments
      ensures Valid()
      ensures Protect(cred, signed, nowMs).Deny? ==>
                res == Error(Protect(cred, signed, nowMs).status, Protect(cred, signed, nowMs).message)
      ensures Protect(cred, signed, nowMs).Admit? && !field.Listed? ==> res == Error(HttpBadRequest, InvalidRequest)
      ensures Protect(cred, signed, nowMs).Admit? && field.Listed? && (!storeUp || None in field.entries) ==>
                res == Error(HttpServerError, SubmitFailed)
      ensures res.status != HttpOk ==> payments == old(payments)
      ensures res.status == HttpOk <==>
                Protect(cred, signed, nowMs).Admit? && field.Listed? && storeUp && None !in field.entries
      ensures res.status == HttpOk ==>
                && payments == ApplySubmit(old(payments), ListedIds(field.entries), nowMs)
                && res == Response(HttpOk, SubmitCount(SubmittedToSwift,
                                                       |Modified(old(payments), ListedIds(field.entries), nowMs)|), NoCookie)
    {
      var gate := Protect(cred, signed, nowMs);
      if gate.Deny? {
        return Error(gate.status, gate.message);
      }
      if !field.Listed? {
        return Error(HttpBadRequest, InvalidRequest);
      }
      var entries := field.entries;
      if !storeUp || None in entries {
        return Error(HttpServerError, SubmitFailed);
      }
      var count := SubmitListed(entries, nowMs);
      res := Response(HttpOk, SubmitCount(SubmittedToSwift, count), NoCookie);
    }

    /** The `updateMany` call itself, one listed entry at a time: returns `modifiedCount`. */
    method SubmitListed(entries: seq<Option<Id>>, nowMs: nat) returns (count: nat)
      requires Valid() && None !in entries
      modifies this`payments
      ensures Valid()
      ensures payments == ApplySubmit(old(payments), ListedIds(entries), nowMs)
      ensures count == |Modified(old(payments), ListedIds(entries), nowMs)|
    {
      count := 0;
      var i := 0;
      ghost var seen: set<Id> := {};
      while i < |entries|
        invariant 0 <= i <= |entries|
        invariant seen == ListedIds(entries[..i])
        invariant Progress(old(payments), seen, payments, count, nowMs)
      {
        var id := entries[i].value;
        ListedIdsStep(entries, i);
        ProgressStep(old(payments), seen, payments, count, id, nowMs);
        if id in payments {
          if Changes(payments[id], nowMs) {
            count := count + 1;
          }
          payments := payments[id := SubmitOne(payments[id], nowMs)];
        }
        seen := seen + {id};
        i := i + 1;
      }
      assert entries[..i] == entries;
    }
  }
}
