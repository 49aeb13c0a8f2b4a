# Signup handler model

This project models the signup endpoint of a small Astro application that uses Lucia
for authentication (`POST` in `src/api/signup.ts`). The endpoint reads `username` and
`password` from the submitted form and answers 400 with a plain-text message when a
guard fails. Otherwise it draws a 15-character user id, hashes the password with
Argon2id, inserts the user into the `User` table, creates a Lucia session for that user,
sets the session cookie on the response and redirects to `/`.

Three modules, one per concern:

- `Utf16` (`utf16.dfy`): JavaScript's `String.length` counts UTF-16 code units. A form
  field reaches the handler as Unicode text, and a Dafny `char` is a Unicode scalar
  value. So `JsLength` counts one unit for a character in the Basic Multilingual Plane
  and two for a character above it.
- `Validation` (`validation.dfy`): the three early returns of the handler as the pure
  function `Validate`. A form value is `Absent` (`null`), `Text(s)` or `FileEntry` (a
  `File`). JavaScript truthiness makes the empty string count as missing, while a
  `File` counts as present. The guards run in the order presence, username, password,
  and the first one that fails decides the response.
- `Signup` (`signup.dfy`): the success path. The state is a `World` with the user
  table, the session table, the response's cookie jar and a log of effects in the order
  they happen. `Signup` is the handler as a function of the state before the request.
  The class `SignupContext` holds the same state in fields. Its effect log is a ghost
  field that only the proofs use, so the handler's real state is the two tables and
  the cookie jar. Its method `Post` performs
  the steps one at a time, calling `InsertUser`, `CreateSession` and `SetCookie`, and is
  proved to produce exactly the state and outcome of `Signup`. The id generator, the
  hasher and the session library are uninterpreted members of an `Env` record.
  `Serve` applies the handler to a sequence of requests, so that properties of the store
  across many signups can be stated.
  A constraint violation when inserting the user or the session is an exception that
  the handler does not catch. It is modelled as an `Uncaught` outcome, and any row
  written before it stays written.

Points where the code's behaviour is easy to misread:

- The empty string is rejected as missing, the same as an absent field.
- The password minimum is 6 code units. The password message says "al menos 4 letras",
  and the model keeps that text exactly as written.
  `PasswordMessageUnderstatesMinimum` shows a 5-letter password being refused with it.
- The code has no special response for a duplicate username. The store's exception
  escapes the handler.
- Success is a 302 redirect to `/`, which is the default status of Astro's `redirect`.

## Model

| member | source | states |
|---|---|---|
| `Utf16.JsLength` | src/api/signup.ts:19-23 | The `.length` the guards compare is at least the character count and at most twice it. It equals the character count exactly when every character is in the Basic Multilingual Plane, and it is 0 exactly for the empty string. |
| `Utf16.JsLengthAppend` | src/api/signup.ts:19-23 | The `.length` of a concatenation is the sum of the lengths of its parts. |
| `Validation.Validate` | src/api/signup.ts:15-25 | A request is accepted iff both fields are strings with at least 3 and at least 6 code units, and then the credentials are the submitted strings unchanged. `MissingCredentials` is returned iff either field is `null` or `""`. `UsernameTooShort` is returned iff both are present and the username is not a string of at least 3 units. `PasswordTooShort` is returned iff the first two guards pass and the password is not a string of at least 6 units. |
| `Validation.BoundaryLengthsAccepted` | src/api/signup.ts:19-25 | A username of exactly 3 and a password of exactly 6 are accepted. |
| `Validation.BelowBoundaryRejected` | src/api/signup.ts:19-25 | A username of 2 or a password of 5 is rejected with that field's message. |
| `Validation.FirstFailingGuardWins` | src/api/signup.ts:15-25 | A request that fails several guards gets the earliest one: `"ab"` with no password gets the presence message, and so does a `File` with an empty password. `"ab"` with a `File` password gets the username message. |
| `Validation.FileEntryGetsLengthMessage` | src/api/signup.ts:19-25 | A `File` passes the presence guard and is then refused by its own field's guard. |
| `Validation.PasswordMessageUnderstatesMinimum` | src/api/signup.ts:23-24 | A 5-letter password meets the minimum of 4 that the message states, yet it is refused with that message. |
| `Validation.BmpTextLimitsAreCharacterCounts` | src/api/signup.ts:19-23 | For text inside the Basic Multilingual Plane, acceptance is exactly: at least 3 and at least 6 characters. |
| `Validation.AstralCharacterCountsTwice` | src/api/signup.ts:19-20 | A two-character username with one character outside the Basic Multilingual Plane has JavaScript length 3 and is accepted. |
| `Validation.LongerCredentialsStayAccepted` | src/api/signup.ts:19-25 | The guards set only lower bounds: appending text to an accepted username or password keeps the request accepted, with the extended strings as the credentials. |
| `Signup.Signup` | src/api/signup.ts:7-42 | A rejected request leaves the state unchanged and answers 400 with the guard's message. The handler redirects to `/` iff validation passes and the store accepts both the user row and the session row. Tables and the effect log only grow, each table by at most one row, and the cookie jar changes only on a redirect. |
| `Signup.SuccessWritesHashedUserAndSession` | src/api/signup.ts:28-40 | On success exactly one user is appended, with the generated id (15 characters when the generator honours its length), the submitted username unchanged and the hasher's output as password. Exactly one session is appended for that same id. The cookie the session library derives from that session's id is set under its own name. |
| `Signup.SuccessEffectOrder` | src/api/signup.ts:28-40 | On success the effects are, in order: id drawn, password hashed, user inserted, session created for the inserted user's id, then the cookie made from that session's id is set. Nothing else happens. |
| `Signup.RejectedRequestHasNoEffects` | src/api/signup.ts:15-25 | A rejected request draws no id and performs no hash, insert, session or cookie effect, and answers status 400. |
| `Signup.UserInsertFailureIsNotCaught` | src/api/signup.ts:31-35 | When the username or generated id is taken, the store's error escapes the handler. The effect log gains exactly the id draw and the hash. No row, session or cookie is written. |
| `Signup.SessionFailureKeepsUser` | src/api/signup.ts:31-38 | If the session insert fails, the user row inserted before it remains, and no session or cookie is written. The effect log gains exactly the id draw, the hash and the user insert. |
| `Signup.SignupPreservesWellFormed` | src/api/signup.ts:31-38 | Every outcome keeps the store's constraints: ids and usernames are unique, session ids are unique, and every session refers to an existing user, because the session is created only after its user is inserted. |
| `Signup.RepeatedUsernameIsRefusedByStore` | src/api/signup.ts:31-35 | After a successful signup, a second request that passes validation with the same username ends in the store's uncaught error and adds no user. |
| `Signup.Serve` | src/api/signup.ts:31-38 | When signup requests are served one after another, the tables only grow, by at most one user and one session per request. |
| `Signup.ServeKeepsUsernamesUnique` | src/api/signup.ts:31-38 | Starting from a store that satisfies its constraints, any sequence of signups keeps them. In particular, no two users ever share a username. |
| `Signup.SignupContext.InsertUser` | src/api/signup.ts:31-35 | The row is appended iff its id and username are new. Otherwise the insert fails and changes nothing. |
| `Signup.SignupContext.CreateSession` | src/api/signup.ts:38 | The session for `userId` is built from the library's drawn id and expiry. It is appended iff its id is new. |
| `Signup.SignupContext.SetCookie` | src/api/signup.ts:39-40 | The cookie jar maps the cookie's name to its value and attributes, and a previous cookie of that name is replaced. |
| `Signup.SignupContext.Post` | src/api/signup.ts:7-42 | The handler, step by step, ends in exactly the state and outcome that `Signup` gives for the state before it. It keeps the store's constraints. |

## Left out

- Form parsing, `async`/`await`, the Astro `APIContext` and the construction of the HTTP `Response` (headers, content type, cookie serialisation) are I/O plumbing. The handler receives the two form values directly.
- Argon2id is an uninterpreted `string -> string` function. Salting, and the fact that two hashes of the same password differ, are therefore not modelled.
- `Signup.SuccessWritesHashedUserAndSession`: it states that the stored password is the hasher's output, not that this output differs from the plaintext. That second fact is a property of Argon2id, which is not part of this model.
- `generateId` is an uninterpreted function. Its randomness and alphabet are not modelled. Its length guarantee is the hypothesis `GeneratesRequestedLength`.
- Lucia's `createSession` is modelled only through its interface: a session with a drawn id, the given user id and a computed expiry, stored in the `Session` table. The session's `fresh` flag is not modelled. The session id, its expiry and the cookie (name, value and attributes) are inputs, so the expiry arithmetic, the clock and Lucia's cookie configuration are not modelled either. `src/auth.ts`, which configures Lucia and its database adapter, is not part of this model.
- What the framework does with an uncaught exception (typically a 500 page) is not modelled. The outcome is just `Uncaught`.
- The store is modelled as enforcing only primary keys and the unique username. The foreign key from `Session.userId` is proved as an invariant the handler keeps, not as a check the store performs.
- `db/config.ts` declares numeric ids, while the handler inserts 15-character string ids. The model uses string ids and does not reconcile the two.
