/** The three request validators (registration, customer login, payment creation). Each runs its
    rules in a fixed order and stops at the first rule that fails, answering 400 with that rule's
    message; only a request that passes every rule is handed on to the route handler. */
module Validation {
  import opened Base
  import opened Text

  /** What a validator decides: hand the request on (`next()`), or answer 400 with one message. */
  datatype Verdict = Pass | Reject(message: string)

  const AllFieldsRequired := "All fields are required"
  const IdNumberMustBe13Digits := "ID number must be 13 digits"
  const AccountMustBe10To12Digits := "Account number must be 10-12 digits"
  const PasswordTooShort := "Password must be at least 6 characters"
  const LoginFieldsRequired := "Full name, account number, and password are required"
  const InvalidFullName := "Invalid full name"
  const AccountMustBeNumeric := "Account number must be numeric"
  const PaymentFieldsRequired := "All payment fields are required"
  const AmountMustBePositive := "Amount must be a valid positive number"
  const InvalidCurrency := "Currency must be a valid 3-letter ISO code (e.g., USD, ZAR)"
  const PayeeAccountMustBe10To12Digits := "Payee account number must be 10\U{2013}12 digits"
  const InvalidSwiftCode := "Invalid SWIFT code format"

  const MinPasswordLength := 6
  const MinTrimmedNameLength := 2

  /** Body of `POST /auth/register`. A field that is missing, null or empty is the empty string:
      the validators only ever test such a field for truthiness. */
  datatype RegisterBody = RegisterBody(fullName: string, idNumber: string, accountNumber: string, password: string)

  /** Body of `POST /auth/login`. */
  datatype LoginBody = LoginBody(fullName: string, accountNumber: string, password: string)

  /** The `amount` field as JavaScript sees it: falsy (missing, null, 0, "" or NaN), or truthy
      together with what `Number(amount)` makes of it (`None` when that is NaN). */
  datatype Amount = Falsy | Truthy(number: Option<real>)

  /** Body of `POST /payments/make-payment`. */
  datatype PaymentBody = PaymentBody(amount: Amount, currency: string, payeeAccount: string, swiftCode: string)

  // The patterns, as anchored single-class repetitions.

  /** `/^\d{13}$/` */
  predicate IdNumberPattern(s: string) { FullMatch(Digit, 13, AtMost(13), s) }
  /** `/^\d{10,12}$/` */
  predicate AccountPattern(s: string) { FullMatch(Digit, 10, AtMost(12), s) }
  /** `/^\d+$/` */
  predicate NumericPattern(s: string) { FullMatch(Digit, 1, Unbounded, s) }
  /** `/^[A-Z]{3}$/` */
  predicate CurrencyPattern(s: string) { FullMatch(Upper, 3, AtMost(3), s) }
  /** `/^[A-Z0-9]{8,11}$/` */
  predicate SwiftPattern(s: string) { FullMatch(UpperOrDigit, 8, AtMost(11), s) }

  // The same rules stated directly over lengths and characters.

  predicate IsIdNumber(s: string) { |s| == 13 && AllIn(Digit, s) }
  predicate IsAccountNumber(s: string) { 10 <= |s| <= 12 && AllIn(Digit, s) }
  predicate IsCurrencyCode(s: string) { |s| == 3 && AllIn(Upper, s) }
  predicate IsSwiftCode(s: string) { 8 <= |s| <= 11 && AllIn(UpperOrDigit, s) }

  predicate RegisterFilled(b: RegisterBody) {
    b.fullName != "" && b.idNumber != "" && b.accountNumber != "" && b.password != ""
  }

  /** `validateRegister`: required fields, then the id number, the account number, the password length. */
  function ValidateRegister(b: RegisterBody): (v: Verdict)
    ensures v == Reject(AllFieldsRequired) <==> !RegisterFilled(b)
    ensures v == Reject(IdNumberMustBe13Digits) <==> RegisterFilled(b) && !IsIdNumber(b.idNumber)
    ensures v == Reject(AccountMustBe10To12Digits) <==>
              RegisterFilled(b) && IsIdNumber(b.idNumber) && !IsAccountNumber(b.accountNumber)
    ensures v == Reject(PasswordTooShort) <==>
              RegisterFilled(b) && IsIdNumber(b.idNumber) && IsAccountNumber(b.accountNumber)
              && |b.password| < MinPasswordLength
    ensures v == Pass <==>
              b.fullName != "" && IsIdNumber(b.idNumber) && IsAccountNumber(b.accountNumber)
              && |b.password| >= MinPasswordLength
  {
    if !RegisterFilled(b) then Reject(AllFieldsRequired)
    else if !IdNumberPattern(b.idNumber) then Reject(IdNumberMustBe13Digits)
    else if !AccountPattern(b.accountNumber) then Reject(AccountMustBe10To12Digits)
    else if |b.password| < MinPasswordLength then Reject(PasswordTooShort)
    else Pass
  }

  predicate LoginFilled(b: LoginBody) {
    b.fullName != "" && b.accountNumber != "" && b.password != ""
  }

  /** `validateLogin`: required fields, then at least two characters of name once trimmed, then an
      all-digit account number of any length. */
  function ValidateLogin(b: LoginBody): (v: Verdict)
    ensures v == Reject(LoginFieldsRequired) <==> !LoginFilled(b)
    ensures v == Reject(InvalidFullName) <==> LoginFilled(b) && |Trim(b.fullName)| < MinTrimmedNameLength
    ensures v == Reject(AccountMustBeNumeric) <==>
              LoginFilled(b) && |Trim(b.fullName)| >= MinTrimmedNameLength && !AllIn(Digit, b.accountNumber)
    ensures v == Pass <==>
              LoginFilled(b) && |Trim(b.fullName)| >= MinTrimmedNameLength && AllIn(Digit, b.accountNumber)
  {
    if !LoginFilled(b) then Reject(LoginFieldsRequired)
    else if |Trim(b.fullName)| < MinTrimmedNameLength then Reject(InvalidFullName)
    else if !NumericPattern(b.accountNumber) then Reject(AccountMustBeNumeric)
    else Pass
  }

  predicate PaymentFilled(b: PaymentBody) {
    b.amount.Truthy? && b.currency != "" && b.payeeAccount != "" && b.swiftCode != ""
  }

  /** The amount is a number and strictly positive. */
  predicate PositiveAmount(a: Amount) {
    a.Truthy? && a.number.Some? && a.number.value > 0.0
  }

  /** `validatePayment`: required fields, then the amount, the currency, the payee account, the SWIFT code. */
  function ValidatePayment(b: PaymentBody): (v: Verdict)
    ensures v == Reject(PaymentFieldsRequired) <==> !PaymentFilled(b)
    ensures v == Reject(AmountMustBePositive) <==> PaymentFilled(b) && !PositiveAmount(b.amount)
    ensures v == Reject(InvalidCurrency) <==>
              PaymentFilled(b) && PositiveAmount(b.amount) && !IsCurrencyCode(b.currency)
    ensures v == Reject(PayeeAccountMustBe10To12Digits) <==>
              PaymentFilled(b) && PositiveAmount(b.amount) && IsCurrencyCode(b.currency)
              && !IsAccountNumber(b.payeeAccount)
    ensures v == Reject(InvalidSwiftCode) <==>
              PaymentFilled(b) && PositiveAmount(b.amount) && IsCurrencyCode(b.currency)
              && IsAccountNumber(b.payeeAccount) && !IsSwiftCode(b.swiftCode)
    ensures v == Pass <==>
              PositiveAmount(b.amount) && IsCurrencyCode(b.currency)
              && IsAccountNumber(b.payeeAccount) && IsSwiftCode(b.swiftCode)
  {
    if !PaymentFilled(b) then Reject(PaymentFieldsRequired)
    else if b.amount.number.None? || b.amount.number.value <= 0.0 then Reject(AmountMustBePositive)
    else if !CurrencyPattern(b.currency) then Reject(InvalidCurrency)
    else if !AccountPattern(b.payeeAccount) then Reject(PayeeAccountMustBe10To12Digits)
    else if !SwiftPattern(b.swiftCode) then Reject(InvalidSwiftCode)
    else Pass
  }
}
