/** Steps of the usual walk through the API, each a client of the route handlers' contracts
    only: a customer registers and logs in with the same details, pays, a clerk logs in, sees the
    payment pending and submits it; afterwards nothing is left pending and the owner still sees the
    payment in their own list. */
module Scenario {
  import opened Base
  import opened Text
  import opened Validation
  import opened Passwords
  import opened Tokens
  import opened Gate
  import opened Records
  import opened Http
  import opened Batch
  import opened Server

  function LoginFor(r: RegisterBody): LoginBody {
    LoginBody(r.fullName, r.accountNumber, r.password)
  }

  method RegisterCustomer(bank: Bank, r: RegisterBody, salt: nat, nowMs: nat) returns (id: Id)
    requires bank.Valid() && bank.customers == map[]
    requires ValidateRegister(r) == Pass && Trim(r.fullName) != ""
    modifies bank`customers, bank`nextId, bank`signed
    ensures bank.Valid() && id == old(bank.nextId) && bank.nextId == id + 1
    ensures bank.customers == map[id := Customer(id, Trim(r.fullName), r.idNumber, r.accountNumber,
                                                Some(Hash(r.password, salt)), nowMs, nowMs)]
  {
    id := bank.nextId;
    var res := bank.Register(r, salt, nowMs, true);
    assert res.status == HttpCreated;
  }

  method CustomerLogsIn(bank: Bank, id: Id, r: RegisterBody, salt: nat, nowMs: nat) returns (session: Token)
    requires bank.Valid() && ValidateLogin(LoginFor(r)) == Pass
    requires bank.customers == map[id := Customer(id, Trim(r.fullName), r.idNumber, r.accountNumber,
                                                 Some(Hash(r.password, salt)), nowMs, nowMs)]
    modifies bank`signed
    ensures session == Issue(id, nowMs + 500) && bank.signed == old(bank.signed) + {session}
  {
    MatchesExactlyOwnPassword(r.password, r.password, salt);
    assert IsLoginOf(bank.customers[id], LoginFor(r));
    var res := bank.Login(LoginFor(r), nowMs + 500, true);
    session := Issue(id, nowMs + 500);
  }

  method CustomerPays(bank: Bank, session: Token, body: PaymentBody, nowMs: nat) returns (id: Id)
    requires bank.Valid() && session in bank.signed && Seconds(nowMs) < session.expiry
    requires bank.payments == map[] && ValidatePayment(body) == Pass
    modifies bank`payments, bank`nextId
    ensures bank.Valid() && id == old(bank.nextId)
    ensures bank.payments == map[id := RequestedPayment(session.subject, body, id, nowMs)]
  {
    GateIgnoresPrincipalKind(bank.signed, session, nowMs);
    id := bank.nextId;
    var res := bank.MakePayment(Credentials(Encode(session), "", ""), body, nowMs, true);
    assert res.status == HttpCreated;
  }

  method ClerkLogsIn(bank: Bank, clerk: Employee, password: string, nowMs: nat) returns (session: Token)
    requires bank.employees == map[clerk.id := clerk] && Matches(password, clerk.password)
    modifies bank`signed
    ensures session == Issue(clerk.id, nowMs) && bank.signed == old(bank.signed) + {session}
  {
    assert clerk.id in bank.employees && bank.employees[clerk.id].username == clerk.username;
    var res := bank.EmployeeLogin(EmployeeLoginBody(clerk.username, Some(password)), nowMs, true);
    assert res.status == HttpOk;
    session := Issue(clerk.id, nowMs);
  }

  /** A clerk with a live session sees a stored pending payment, with its owner, in the pending list. */
  method ClerkSeesPending(bank: Bank, session: Token, p: Payment, owner: Customer, nowMs: nat) returns (res: Response)
    requires bank.Valid() && session in bank.signed && Seconds(nowMs) < session.expiry
    requires bank.payments == map[p.id := p] && p.status == StatusPending
    requires bank.customers == map[owner.id := owner] && p.customerId == owner.id
    ensures res.status == HttpOk && res.body.PendingList?
    ensures PendingEntry(p, Some(Owner(owner.fullName, owner.idNumber))) in res.body.entries
  {
    GateIgnoresPrincipalKind(bank.signed, session, nowMs);
    var staff := Credentials("", Encode(session), "");
    assert Protect(staff, bank.signed, nowMs).Admit?;
    res := bank.Transactions(staff, nowMs, true);
    assert p.id in bank.payments && bank.payments[p.id] == p;
    assert OwnerOf(bank.customers, p.customerId) == Some(Owner(owner.fullName, owner.idNumber));
  }

  lemma ListedOne(id: Id)
    ensures None !in [Some(id)] && ListedIds([Some(id)]) == {id}
  {
  }

  lemma SubmitOnePending(p: Payment, nowMs: nat)
    requires p.status == StatusPending
    ensures Modified(map[p.id := p], {p.id}, nowMs) == {p.id}
    ensures ApplySubmit(map[p.id := p], {p.id}, nowMs) == map[p.id := SubmitOne(p, nowMs)]
  {
  }

  method ClerkSubmits(bank: Bank, session: Token, id: Id, nowMs: nat) returns (count: nat)
    requires bank.Valid() && session in bank.signed && Seconds(nowMs) < session.expiry
    modifies bank`payments
    ensures bank.Valid()
    ensures bank.payments == ApplySubmit(old(bank.payments), {id}, nowMs)
    ensures count == |Modified(old(bank.payments), {id}, nowMs)|
  {
    GateIgnoresPrincipalKind(bank.signed, session, nowMs);
    var staff := Credentials("", Encode(session), "");
    assert Protect(staff, bank.signed, nowMs).Admit?;
    ListedOne(id);
    var res := bank.SubmitSwift(staff, Listed([Some(id)]), nowMs, true);
    assert res.status == HttpOk;
    count := res.body.count;
  }

  /** After the submission the clerk's pending list is empty, while the owner's own list still
      holds the payment. */
  method NothingLeftPending(bank: Bank, staff: Token, customer: Token, p: Payment, nowMs: nat)
    returns (pending: Response, mine: Response)
    requires bank.Valid() && staff in bank.signed && Seconds(nowMs) < staff.expiry
    requires customer in bank.signed && Seconds(nowMs) < customer.expiry
    requires bank.payments == map[p.id := p] && p.status == StatusSubmitted && p.customerId == customer.subject
    ensures pending.status == HttpOk && pending.body == PendingList([])
    ensures mine.status == HttpOk && mine.body.PaymentList? && p in mine.body.payments
  {
    GateIgnoresPrincipalKind(bank.signed, staff, nowMs);
    GateIgnoresPrincipalKind(bank.signed, customer, nowMs);
    var clerk := Credentials("", Encode(staff), "");
    var owner := Credentials(Encode(customer), "", "");
    assert Protect(clerk, bank.signed, nowMs).Admit? && Protect(owner, bank.signed, nowMs) == Admit(customer.subject);
    pending := bank.Transactions(clerk, nowMs, true);
    assert pending.body.entries == [];
    mine := bank.CustomerPayments(owner, nowMs, true);
    assert p.id in bank.payments && bank.payments[p.id] == p;
  }

  /** A customer who registers on an empty deployment can log in straight away with the same details. */
  method RegisterThenLogIn(bank: Bank, r: RegisterBody, salt: nat, t0: nat) returns (id: Id, session: Token)
    requires bank.Valid() && bank.customers == map[]
    requires ValidateRegister(r) == Pass && Trim(r.fullName) != "" && ValidateLogin(LoginFor(r)) == Pass
    modifies bank`customers, bank`nextId, bank`signed
    ensures bank.Valid() && session == Issue(id, t0 + 500) && session in bank.signed
    ensures bank.customers == map[id := Customer(id, Trim(r.fullName), r.idNumber, r.accountNumber,
                                                Some(Hash(r.password, salt)), t0, t0)]
  {
    id := RegisterCustomer(bank, r, salt, t0);
    session := CustomerLogsIn(bank, id, r, salt, t0);
  }

  /** Once a clerk submits the only pending payment, no pending transaction is left, and the
      payment's owner still sees it, submitted, in their own list. */
  method SubmitThenNothingPending(bank: Bank, staff: Token, customer: Token, p: Payment, nowMs: nat)
    returns (count: nat, pending: Response, mine: Response)
    requires bank.Valid() && staff in bank.signed && customer in bank.signed
    requires Seconds(nowMs + 1000) < staff.expiry && Seconds(nowMs + 1000) < customer.expiry
    requires bank.payments == map[p.id := p] && p.status == StatusPending && p.customerId == customer.subject
    modifies bank`payments
    ensures bank.payments == map[p.id := SubmitOne(p, nowMs)]
    ensures count == 1
    ensures pending.status == HttpOk && pending.body == PendingList([])
    ensures mine.status == HttpOk && mine.body.PaymentList? && SubmitOne(p, nowMs) in mine.body.payments
  {
    count := ClerkSubmits(bank, staff, p.id, nowMs);
    SubmitOnePending(p, nowMs);
    pending, mine := NothingLeftPending(bank, staff, customer, SubmitOne(p, nowMs), nowMs + 1000);
  }
}
