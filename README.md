# International payments portal: a Dafny model of the API and the route guard

This project models the server side of a small international-payments portal and the client's
route guard. Customers register with a full name, a 13-digit id number, an account number and a
password. They log in, refresh or drop their session, place SWIFT payments and list their own
payments, newest first. Staff log in with a username and a password. They see every pending
payment together with its owner's name and id number, and they submit a list of payments "to
SWIFT", which marks them "Submitted" and reports how many documents changed.

The model has these modules:

- `Text`: the anchored single-class patterns (`^\d{13}$`, `^[A-Z0-9]{8,11}$`, ...), JavaScript's
  `trim` and `split(" ")[1]`, and decimal numerals.
- `Validation`: the three request validators, with their messages.
- `Passwords`: a bcrypt stand-in.
- `Tokens`: a stand-in for the signed JWT session token, with its one-hour lifetime.
- `Gate`: the `protect` middleware, and the way the refresh route picks its token.
- `Records`: the customer, payment and employee records, with the schema defaults.
- `Queries`: `findOne`, `find`, the newest-first sort and `populate`.
- `Batch`: `updateMany` for the SWIFT submission, stated as a function of the store.
- `Server`: the class `Bank`, which holds the three collections and the set of tokens the
  server has signed. Every route is a method of it.
- `RouteGuard`: the client's `ProtectedRoute` decision.
- `Scenario`: the usual walk through the API (register, log in, pay; a clerk logs in, sees
  the payment, submits it). It is written as clients of the route contracts.

Conventions:

- The store, the clock and the random salt are inputs. Each route takes the time in milliseconds.
  A flag `storeUp` tells whether the database answers; when it does not, the handler's `catch`
  branch gives the 500 answer.
- An absent request field, cookie or header is the empty string. The code tests each of them only
  for truthiness, so `undefined`, `null` and `""` behave alike. The employee login body is the
  exception (`Server.Bank.EmployeeLogin`): an absent password is `None`. For a username that is
  found it answers 500, because `bcrypt.compare` throws on it, while `""` only fails the
  comparison and answers 400. The username is not tested at all and goes straight into the
  query.
- Record ids are natural numbers handed out by a counter.

## Model

| member | source | states |
|---|---|---|
| Text.FullMatch | backend/middleware/validateInput.js:8-12 | an anchored `^[k]{lo,hi}$` test accepts exactly the strings whose length is within the bounds and whose every character is in the class |
| Text.LeadingSpaces | backend/middleware/validateInput.js:39 | the white space `trim` drops at the front is all ECMAScript white space and stops at the first other character |
| Text.TrailingSpaces | backend/middleware/validateInput.js:39 | the same at the back of the string |
| Text.Trim | backend/middleware/validateInput.js:39 | `trim` gives the middle of the string, neither starting nor ending in white space, and is empty exactly when the string is all white space |
| Text.TrimIdempotent | backend/models/Customer.js:5 | trimming an already trimmed name changes nothing: a customer who types their name exactly as the `trim` setter stored it at save time is looked up under that same name |
| Text.TrimUnpadded | backend/models/Customer.js:5 | a string that neither starts nor ends with white space is its own trim |
| Text.IndexOf | backend/middleware/auth.js:14 | the first position of a character, and absent exactly when the character does not occur |
| Text.StartsWith | backend/middleware/auth.js:13 | `startsWith`: the string begins with the prefix; `Gate.NonBearerHeaderIsNoToken` and `Gate.BearerTokenOf` are its two sides in the header check |
| Text.SecondField | backend/middleware/auth.js:14 | `split(" ")[1]` is absent exactly when there is no space, and never holds a space |
| Text.SecondFieldOf | backend/routes/auth.js:144 | for `first + " " + field + rest`, `split(" ")[1]` is `field` |
| Text.Decimal | backend/routes/auth.js:13-17 | the numeral of a token field is non-empty and all digits |
| Text.DecimalRoundTrip | backend/routes/auth.js:13-17 | reading a numeral back gives the number |
| Validation.ValidateRegister | backend/middleware/validateInput.js:1-26 | each rejection message comes exactly when its check is the first to fail, in source order; passes exactly for a non-empty name, 13 digits, 10-12 digits and a password of at least 6 characters |
| Validation.ValidateLogin | backend/middleware/validateInput.js:29-48 | each rejection exactly when its check is the first to fail; passes exactly when all fields are present, the trimmed name has at least 2 characters and the account number is all digits (any length) |
| Validation.ValidatePayment | backend/middleware/validateInput.js:50-80 | each of the five rejections exactly when its check is the first to fail; passes exactly for a positive number, a 3-letter upper-case currency, a 10-12 digit payee account and an 8-11 character upper-case alphanumeric SWIFT code |
| Passwords.Hash | backend/routes/auth.js:45-49 | the stored hash carries cost 12 and the given salt |
| Passwords.Matches | backend/routes/auth.js:108 | `bcrypt.compare` (also backend/routes/employeeRoutes.js:42): a hash made from a password accepts that password; `Passwords.MatchesExactlyOwnPassword` adds that it accepts no other |
| Passwords.MatchesExactlyOwnPassword | backend/routes/auth.js:107-115 | `compare` accepts a candidate against a hash exactly when it is the password that was hashed, whatever the salt |
| Passwords.ReverseReverse | backend/routes/auth.js:49 | the digest stand-in is one-to-one (it is its own inverse) |
| Tokens.Issue | backend/routes/auth.js:13-17 | a new token names the subject, is stamped with the current second and expires 3600 seconds later |
| Tokens.Encode | backend/routes/auth.js:13-17 | a token's text is non-empty and holds no space, so it travels intact in a `Bearer` header |
| Tokens.Decode | backend/middleware/auth.js:26 | reads subject, issue and expiry back out of a token text, failing on text that is not three dot-separated numerals; `Tokens.DecodeEncode` is its round trip with `Encode` |
| Tokens.DecodeEncode | backend/middleware/auth.js:26 | decoding the text of a token gives the token back |
| Tokens.EncodeInjective | backend/middleware/auth.js:26 | two tokens with the same text are the same token |
| Tokens.Verify | backend/middleware/auth.js:26 | `jwt.verify` succeeds exactly for the text of a signed token whose expiry second is still ahead, and then gives its subject |
| Tokens.IssuedTokenVerifies | backend/routes/auth.js:13-17 | an issued token verifies to its subject before its expiry second and is reported expired from then on |
| Tokens.TokenLivesOneHour | backend/routes/auth.js:13-17 | in milliseconds, an issued token is valid for at least an hour less one second and is never valid an hour or more after issue |
| Tokens.UnsignedTokenRefused | backend/middleware/auth.js:26-35 | a well-formed token the server never signed is refused as a bad signature |
| Gate.BearerToken | backend/middleware/auth.js:12-15 | without the `Bearer ` prefix the header yields no token; the token yielded never holds a space |
| Gate.BearerTokenOf | backend/middleware/auth.js:13-14 | a space-free token sent as `Bearer <token>`, with or without further space-separated fields after it, is read back unchanged |
| Gate.SelectToken | backend/middleware/auth.js:9-16 | the customer cookie wins, then the employee cookie, then the bearer token |
| Gate.Protect | backend/middleware/auth.js:6-36 | no token gives 401 "No token, authorization denied"; a failed verification gives 401 "Token is not valid"; the request is admitted exactly when the chosen token is signed and unexpired, with its subject as the user |
| Gate.GateIgnoresPrincipalKind | backend/middleware/auth.js:9 | a live token admits its subject whether it comes as the customer cookie, the employee cookie or a bearer header |
| Gate.CustomerCookieDecides | backend/middleware/auth.js:9 | a present customer cookie decides alone; the employee cookie and the header are not looked at |
| Gate.NonBearerHeaderIsNoToken | backend/middleware/auth.js:11-23 | without cookies, a header that does not start with `Bearer ` counts as no token |
| Gate.RefreshToken | backend/routes/auth.js:143-144 | refresh takes the customer cookie first, and gets nothing from a header without a space; `Gate.RefreshTokenAnyScheme` gives the header's second field otherwise |
| Gate.RefreshTokenAnyScheme | backend/routes/auth.js:143-144 | without a customer cookie, refresh takes the header's second space-separated field under any first word and whatever follows it, and never reads the employee cookie |
| Records.UniqueKeys | backend/models/Customer.js:6-7 | `unique: true` on `idNumber` and `accountNumber`: no two stored customers share either key; `Server.AdmittedCustomerKeepsKeysUnique` and `Server.Bank.SaveCustomer` state that registration keeps it, and `Server.LoginNamesAtMostOne` what login gains from it |
| Records.ToJson | backend/models/Customer.js:14-18 | the customer's JSON form (also what the login route returns, backend/routes/auth.js:124) has no password field; `Records.ToJsonIgnoresPassword` states that it keeps the rest and does not depend on the password |
| Records.ToJsonIgnoresPassword | backend/models/Customer.js:14-18 | the JSON form of a customer does not depend on the password and keeps the identifying fields |
| Records.NewPayment | backend/models/Payment.js:3-17 | a saved payment keeps the given fields, defaults the provider to "SWIFT" and the status to "Pending", and stamps both timestamps |
| Queries.FindOne | backend/routes/auth.js:35-37 | `findOne` finds nothing exactly when no stored record matches the filter; what it finds is stored and matches |
| Queries.ScanStep | backend/routes/paymentRoutes.js:48 | visiting one more key during a `find` scan keeps an exact account of the matches seen so far |
| Queries.Find | backend/routes/paymentRoutes.js:48 | `find` returns only stored payments that match the filter, returns every one of them, and returns each once (the length is the number of matching ids) |
| Queries.InsertNewestFirst | backend/routes/paymentRoutes.js:48-50 | inserting into a newest-first list keeps it newest first and adds exactly the one payment |
| Queries.SortNewestFirst | backend/routes/paymentRoutes.js:48-50 | `.sort({ createdAt: -1 })` returns a newest-first permutation of its input |
| Queries.JoinOwners | backend/routes/employeeRoutes.js:78-81 | `populate` pairs each payment, in order, with its owner's name and id number (none for a missing owner) |
| Queries.PopulateFound | backend/routes/employeeRoutes.js:78-81 | populating what `find` returned lists each matching stored payment with its owner, and nothing else |
| Batch.ApplySubmit | backend/routes/employeeRoutes.js:107-110 | the update keeps the set of stored ids and every record's id |
| Batch.Changes | backend/routes/employeeRoutes.js:113-118 | a stored payment counts as modified exactly when the update (status "Submitted", `updatedAt` now) gives it a different value |
| Batch.Modified | backend/routes/employeeRoutes.js:113-118 | `modifiedCount`'s set: only listed stored payments, and only ones the update changes |
| Batch.ModifiedAreTheChanged | backend/routes/employeeRoutes.js:107-119 | the reported count is exactly the number of stored payments that differ after the update |
| Batch.SubmitEffect | backend/routes/employeeRoutes.js:107-110 | every listed stored payment ends "Submitted" whatever its status was; unlisted payments are untouched; only status and update time change |
| Batch.StatusMonotone | backend/routes/employeeRoutes.js:107-110 | a status stays as it was or becomes "Submitted", and "Submitted" stays |
| Batch.ModifiedAtMostMatched | backend/routes/employeeRoutes.js:107-119 | the count never exceeds the number of listed ids that are stored |
| Batch.SubmitIdempotent | backend/routes/employeeRoutes.js:107-119 | repeating the update at the same instant changes nothing and counts zero |
| Batch.ResubmitLater | backend/routes/employeeRoutes.js:107-119 | repeating it later keeps every status but counts every listed stored payment again, because `updatedAt` changes |
| Batch.SubmitStep | backend/routes/employeeRoutes.js:107-110 | listing one more id extends the update by that payment, and the count grows by one exactly when that payment changes |
| Batch.ProgressStep | backend/routes/employeeRoutes.js:107-119 | applying the update one id at a time keeps the store and the count equal to the whole update over the ids seen |
| Server.ListedIds | backend/routes/employeeRoutes.js:108 | the `$in: transactions` operand: the set of ids the list names; `Server.ListedIdsStep` states how it grows entry by entry, and `Server.Bank.SubmitListed` that the loop over the list submits exactly these ids |
| Server.ListedIdsStep | backend/routes/employeeRoutes.js:107-110 | the ids of a list grow by one entry's id as the list is read |
| Server.SharesKey | backend/routes/auth.js:35-37 | the `$or` duplicate filter: a stored customer holds the id number or the account number; `Server.AdmittedCustomerKeepsKeysUnique` shows that refusing such clashes keeps both keys unique |
| Server.AdmittedCustomerKeepsKeysUnique | backend/routes/auth.js:35-43 | adding a customer whose id number and account number nobody holds keeps both keys unique |
| Server.IsLoginOf | backend/routes/auth.js:88-90 | the login filter: the stored name equals the request's name after the schema's `trim` setter, and the account numbers are equal; `Server.LoginNamesAtMostOne` shows it picks at most one customer |
| Server.LoginNamesAtMostOne | backend/routes/auth.js:88-90 | with unique account numbers, at most one stored customer fits a login's name and account number |
| Server.RequestedPayment | backend/routes/paymentRoutes.js:19-27 | the payment a request creates belongs to the session's user, carries the body's positive amount, currency, payee account and SWIFT code, and is a pending SWIFT payment stamped now |
| Server.Bank.Register | backend/routes/auth.js:29-79 | each validation failure, the store being down, a clash on id or account number, and a name that is blank once trimmed get their own answer and change nothing; otherwise 201 exactly, with a new customer (trimmed name, hashed password) under a fresh id, a newly signed token for it, and the customer cookie set |
| Server.Bank.SaveCustomer | backend/routes/auth.js:52-59 | saving stores the customer under a fresh id and keeps the store's invariants, including unique keys |
| Server.Bank.Login | backend/routes/auth.js:82-137 | validation failure, store down, no customer with that trimmed name and account number, a missing stored hash (500) and a wrong password each get their answer and sign nothing; the right password gives 200, a new token for that customer, its password-free JSON and the customer cookie |
| Server.Bank.CheckPassword | backend/routes/auth.js:100-132 | the password check against the one customer found, with the same three outcomes |
| Server.Bank.Refresh | backend/routes/auth.js:140-169 | no token gives 401 "No token provided"; a token that fails verification gives 401 "Invalid or expired token"; otherwise a new token for the same subject is signed and set as the customer cookie |
| Server.Bank.Logout | backend/routes/auth.js:172-182 | 200 "Logged out successfully" and the customer cookie cleared; no token is revoked |
| Server.Bank.EmployeeLogin | backend/routes/employeeRoutes.js:31-60 | store down gives 500; an unknown username gives 400; a missing password gives 500; a wrong password gives 400; a right one gives 200 with a new token for that employee and the employee cookie; nothing is signed unless it succeeds |
| Server.Bank.EmployeeLogout | backend/routes/employeeRoutes.js:63-73 | 200 "Logged out successfully" and the employee cookie cleared |
| Server.Bank.MakePayment | backend/routes/paymentRoutes.js:9-43 | the gate's refusal, a validation failure and the store being down each get their answer and change nothing; otherwise 201 exactly, with the requested payment stored under a fresh id and returned |
| Server.Bank.SavePayment | backend/routes/paymentRoutes.js:19-29 | saving stores the requested payment under a fresh id and keeps the store's invariants |
| Server.Bank.CustomerPayments | backend/routes/paymentRoutes.js:46-61 | after the gate, the list is newest first and holds exactly the stored payments of the session's user, each once |
| Server.Bank.Transactions | backend/routes/employeeRoutes.js:76-90 | after the gate, the list holds exactly the stored pending payments, each once, each with its owner's name and id number |
| Server.Bank.SubmitSwift | backend/routes/employeeRoutes.js:93-124 | gate refusal; 400 "Invalid request" for a missing or non-array list; 500 when the store is down or an entry is not an id; otherwise the store becomes the bulk update of the listed ids and the count is the number of payments it changed |
| Server.Bank.SubmitListed | backend/routes/employeeRoutes.js:107-119 | updating the listed ids one at a time leaves the store and the count of the bulk update |
| RouteGuard.Decide | webapp/src/components/ProtectedRoute.js:6-35 | an employee session never sees a customer page and a customer session never sees an employee page; a missing session goes to its own login page, keeping the origin; a page renders exactly under a session of its own kind and none of the other |
| Scenario.RegisterCustomer | backend/routes/auth.js:29-79 | valid details on an empty store give a customer with the trimmed name and the hashed password |
| Scenario.CustomerLogsIn | backend/routes/auth.js:82-137 | a customer logs in with the details they registered with and gets a newly signed session |
| Scenario.RegisterThenLogIn | backend/routes/auth.js:29-137 | registering, then logging in with the same details, succeeds and yields a live session |
| Scenario.CustomerPays | backend/routes/paymentRoutes.js:9-43 | a live customer session and a valid body store exactly the requested payment |
| Scenario.ClerkLogsIn | backend/routes/employeeRoutes.js:31-60 | a clerk with the right password gets a newly signed session |
| Scenario.ClerkSeesPending | backend/routes/employeeRoutes.js:76-90 | a clerk's session lists a stored pending payment with its owner |
| Scenario.ListedOne | backend/routes/employeeRoutes.js:102-110 | a list of one id lists exactly that id |
| Scenario.SubmitOnePending | backend/routes/employeeRoutes.js:107-119 | submitting the one pending payment changes it and counts one |
| Scenario.ClerkSubmits | backend/routes/employeeRoutes.js:93-124 | a clerk's session submits a listed payment as the bulk update says |
| Scenario.NothingLeftPending | backend/routes/employeeRoutes.js:76-90 | after submission nothing is pending, and the owner's own list still shows the payment |
| Scenario.SubmitThenNothingPending | backend/routes/employeeRoutes.js:93-124 | submitting the only pending payment marks it submitted and counts 1; afterwards the pending list is empty and the owner's list holds the submitted payment |

## Left out

- Transport and logging are left out: Express routing, `console` output, and the cookie flags
  `httpOnly`, `secure` and `sameSite`. A cookie is modelled by its name, value and `maxAge`.
- The database is a set of in-memory maps. A failure anywhere in a handler's `try` block is the
  single input flag `storeUp`. Concurrent requests, and races on the unique indexes, are not
  modelled.
- `req.sanitizedBody` is the same body the validators read. `express-mongo-sanitize` and the
  server setup in `backend/index.js` and `backend/utils/db.js` are not part of this model.
- Request fields are strings. A non-string JSON value (a number, an array or an object given
  where a string is expected) is not modelled, and neither is the `typeof fullName !== "string"`
  test it would trigger.
- Validation.ValidatePayment: the amount is taken as already converted by JavaScript's `Number`.
  `isNaN` and `Number` on arbitrary text are not modelled, and the payment's amount is a real
  number, not a double.
- Validation.ValidateRegister: the password length counts characters, while JavaScript's
  `password.length` counts UTF-16 code units. A character outside the Basic Multilingual Plane
  counts once here and twice in the code, so a password of three such characters passes the
  code's check (length 6) but is rejected here as too short.
- Validation.ValidateLogin: the length of the trimmed full name counts characters, not UTF-16
  code units, so a name of one character outside the Basic Multilingual Plane passes the code's
  check (length 2) but is rejected here as an invalid full name.
- Passwords.Hash: bcrypt is a one-to-one stand-in. Its salt is an input and its 72-byte
  truncation is not modelled, so two passwords that agree on their first 72 bytes are told apart
  here but not by bcrypt.
- Tokens.Verify: the HMAC signature and the base64url encoding of a JWT are replaced by a set of
  tokens the server has signed, and the text of a token is three dot-separated decimal fields.
  The secret is not modelled.
- Server.Bank.EmployeeLogin: the Employee model file is not part of this model. A username is
  assumed to pick out the stored employees with that exact name. An absent username is looked up
  as the empty string. When several employees share a name, the contract speaks only of the
  cases where all of them agree about the password.
- Server.Bank.Logout: the route only clears the cookie. The token stays valid until it expires,
  and the model keeps it signed.
- Server.Bank.SubmitSwift: `storeUp = false` models a store that fails before writing anything,
  so the contract promises an unchanged store on every 500. An `updateMany` that fails partway,
  leaving some listed payments already "Submitted" before the `catch` answers 500, is not
  modelled.
- Queries.SortNewestFirst: payments created in the same millisecond come out in an unspecified
  order.
- Server.Bank.Transactions: MongoDB returns the pending payments in natural order. Here the order
  is that of the scan, and the contract does not fix it.
- The React pages, contexts and services of the web client, other than `ProtectedRoute`, are not
  part of this model.

Behaviours of the code a reader might not expect, all modelled as the code has them:

- `protect` accepts any live token from either cookie or the header, on customer and staff routes
  alike (`Gate.GateIgnoresPrincipalKind`). A customer session therefore passes the staff routes'
  gate, and a staff session passes the customer routes' gate.
- The refresh route turns any live token, including a staff token sent as a bearer header, into a
  new customer cookie (`Gate.RefreshTokenAnyScheme`, `Server.Bank.Refresh`).
- The payment schema has timestamps, so `updateMany` also sets `updatedAt`. One might expect a
  second submission of the same ids to count only records whose status changed, zero if none. In
  the code it reports zero only within the same millisecond (`Batch.SubmitIdempotent`); later it
  counts every listed stored payment again (`Batch.ResubmitLater`). The statuses themselves are
  idempotent either way.
- A name made only of white space passes `validateRegister`. The schema's `trim` then makes it
  empty, so `required` fails on save and the route answers 500 (`Server.Bank.Register`).
- The login query's `fullName` goes through the same `trim` setter, so a name with surrounding
  spaces finds its customer (`Server.IsLoginOf`).
