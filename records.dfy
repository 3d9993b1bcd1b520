/** The stored records: customers (with their unique keys and password-free JSON form), payments
    (with the schema defaults) and employees. Every record carries the id it is stored under and,
    where the schema asks for timestamps, its creation and last-update times in milliseconds. */
module Records {
  import opened Base
  import opened Passwords

  /** A stored customer. The schema requires the password hash; a record written by other means
      may still lack one, so it is optional here. */
  datatype Customer = Customer(
    id: Id,
    fullName: string,
    idNumber: string,
    accountNumber: string,
    password: Option<PasswordHash>,
    createdAt: nat,
    updatedAt: nat)

  /** The JSON form of a customer (`toJSON`, and the login route's `{ password: _, ...rest }`):
      every field except the password, which has no place in it. */
  datatype CustomerJson = CustomerJson(
    id: Id,
    fullName: string,
    idNumber: string,
    accountNumber: string,
    createdAt: nat,
    updatedAt: nat)

  function ToJson(c: Customer): CustomerJson {
    CustomerJson(c.id, c.fullName, c.idNumber, c.accountNumber, c.createdAt, c.updatedAt)
  }

  /** The JSON form does not depend on the password: two customers that differ only there look
      the same from outside. */
  lemma ToJsonIgnoresPassword(c: Customer, other: Option<PasswordHash>)
    ensures ToJson(c.(password := other)) == ToJson(c)
    ensures ToJson(c).fullName == c.fullName && ToJson(c).idNumber == c.idNumber
            && ToJson(c).accountNumber == c.accountNumber && ToJson(c).id == c.id
  {
  }

  /** `unique: true` on `idNumber` and on `accountNumber`: no two stored customers share either. */
  ghost predicate UniqueKeys(customers: map<Id, Customer>) {
    forall a, b :: a in customers && b in customers && a != b ==>
      customers[a].idNumber != customers[b].idNumber
      && customers[a].accountNumber != customers[b].accountNumber
  }

  /** A staff account; provisioned outside this API. */
  datatype Employee = Employee(id: Id, username: string, password: PasswordHash)

  const StatusPending := "Pending"
  const StatusSubmitted := "Submitted"
  const ProviderSwift := "SWIFT"

  /** A stored payment. `status` is free text in the schema; the API writes only "Pending" and
      "Submitted". */
  datatype Payment = Payment(
    id: Id,
    customerId: Id,
    amount: real,
    currency: string,
    provider: string,
    payeeAccount: string,
    swiftCode: string,
    status: string,
    createdAt: nat,
    updatedAt: nat)

  /** The fields given to `new Payment({...})`; `provider` and `status` may be left out. */
  datatype PaymentDraft = PaymentDraft(
    customerId: Id,
    amount: real,
    currency: string,
    provider: Option<string>,
    payeeAccount: string,
    swiftCode: string,
    status: Option<string>)

  /** The record a draft becomes when saved under `id` at `nowMs`: the schema supplies "SWIFT" and
      "Pending" for a missing provider and status, and stamps both timestamps. */
  function NewPayment(d: PaymentDraft, id: Id, nowMs: nat): (p: Payment)
    ensures p.id == id && p.customerId == d.customerId && p.amount == d.amount
    ensures p.currency == d.currency && p.payeeAccount == d.payeeAccount && p.swiftCode == d.swiftCode
    ensures p.provider == d.provider.GetOr(ProviderSwift) && p.status == d.status.GetOr(StatusPending)
    ensures p.createdAt == nowMs && p.updatedAt == nowMs
  {
    Payment(id, d.customerId, d.amount, d.currency, d.provider.GetOr(ProviderSwift),
            d.payeeAccount, d.swiftCode, d.status.GetOr(StatusPending), nowMs, nowMs)
  }

  /** The owner fields `populate("customerId", "fullName idNumber")` attaches. */
  datatype Owner = Owner(fullName: string, idNumber: string)

  /** A payment with its owner populated; `None` when the referenced customer does not exist. */
  datatype PendingEntry = PendingEntry(payment: Payment, owner: Option<Owner>)

  function OwnerOf(customers: map<Id, Customer>, id: Id): Option<Owner> {
    if id in customers then Some(Owner(customers[id].fullName, customers[id].idNumber)) else None
  }
}
