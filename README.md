# EduSmart LMS account store and credential flows, in Dafny

This project models the account store of the EduSmart LMS backend and the
flows that act on it. They are registration, login, forgot-password (issue
a reset token and mail it), reset-password (exchange the token for a new
password), and reading and updating one's own profile. The store is the
Mongoose `User` collection. Each account holds a name, a lower-cased unique
email, a bcrypt password hash, a role, a creation time and an optional
pair: a SHA-256 digest of a pending reset token and its expiry.

Layout, one module per file:

- `options.dfy` (`Options`) and `http.dfy` (`Http`): an `Option` type, and
  `Reply`, which is a status with a body or a status with an error message.
- `crypto.dfy` (`Crypto`): bcrypt, SHA-256 and JWT as symbolic constructors.
  A hash or digest is a value built from its inputs, so two outputs are
  equal exactly when their inputs are. Only `Compare` and `VerifyJwt` look
  inside one.
- `user_model.dfy` (`UserModel`): the `User` record and its `Role`. It also
  holds the effect of the schema's `lowercase` setter (`Lower`), the
  pre-save hashing hook (`PreSaveHook`), `comparePassword`, the document
  `User.create` builds (`NewUser`), the reset-token fields, query filters,
  and the store invariants (`Persisted`, `UniqueEmails`, `ResetPaired`).
- `user_store.dfy` (`UserStore`): the class `UserCollection`. It holds a
  `map<Id, User>` and the next `_id`, with `findOne`, `create`, a validated
  `save`, and the unvalidated save of the two reset fields.
- `auth_controller.dfy` (`AuthController`) and `user_controller.dfy`
  (`UserController`): the six endpoint handlers. Each is a module-level
  method that takes the `UserCollection` as a parameter. Its `ensures`
  gives the reply and the whole new store for every outcome.
- `scenarios.dfy` (`Scenarios`): client methods that chain several
  requests. They cover the full lifecycle, strict expiry, single use, and a
  new reset request superseding an older one.

Conventions of the model:

- A missing request field is the empty string. For `req.body.name ||
  user.name` and for Mongoose's `required` check, the two behave the same.
- Randomness is a parameter: the bcrypt salt and the plaintext reset
  token. The new `_id` is not random here. It comes from the collection's
  counter, and `findOne` returns the matching document with the least
  `_id`.
- The clock (`now`, in milliseconds) is a parameter, and so is the reset
  expiry window, which the source does not show.
- Whether the mailer delivered is a parameter, and so are the environment
  variables `JWT_SECRET` and `FRONTEND_URL`.
- The authenticated id from the `protect` middleware is a parameter.

Behaviour of the code that a reader might not expect:

- Registration with a missing field does not answer 400 "Invalid user
  data". `User.create` throws a validation error, and the handler's catch
  answers 500. The `else` branch at `backend/src/controllers/auth.controller.ts:40-42`
  cannot be reached.
- A reset or profile update that runs into Mongoose validation also ends in
  500 with nothing written. This happens with an empty new password, or
  with an email another account holds (the unique index). Mongoose
  validates before it runs the pre-save hook.
- When mail delivery fails, both reset fields are cleared. Any pair that
  was pending before the request is not restored.
- Reset-password finds the account and then saves it in a second step.
  The two steps are not one atomic conditional update.
- `getResetPasswordToken` and the two reset fields are used by the
  controllers but not declared in `backend/src/models/user.model.ts`.
  `IssueResetToken` states the contract their uses imply. The method
  returns the plaintext, stores its digest with an expiry, and replaces
  any pending pair.

## Model

| member | source | states |
|---|---|---|
| `Crypto.CompareHash` | backend/src/models/user.model.ts:90-92 | `compare` accepts exactly the password a hash was made from, and refuses every other |
| `Crypto.HashIsSalted` | backend/src/models/user.model.ts:81-82 | hashing one password with two salts gives two different stored hashes, and both verify |
| `Crypto.DigestInjective` | backend/src/controllers/auth.controller.ts:135-138 | two reset tokens have the same SHA-256 digest only if they are equal |
| `Crypto.SigningKey` | backend/src/controllers/auth.controller.ts:11 | the signing key is `JWT_SECRET` when set and non-empty, else `'your_jwt_secret'`, and never empty |
| `Crypto.Sign` | backend/src/controllers/auth.controller.ts:10-14 | a signed token carries the account id and the key, its issue time is the clock in whole seconds, and it expires exactly 30 days after issue |
| `Crypto.VerifyJwt` | backend/src/controllers/auth.controller.ts:10-14 | a token verifies exactly when it was signed with the given key and the clock is strictly before its expiry (section 4.1.4 of RFC 7519), and then it yields the id it carries |
| `Crypto.TokenValidity` | backend/src/controllers/auth.controller.ts:10-14 | a session token verifies under its key until 30 days minus one second after issue; from 30 days on it is rejected, and under any other key it always is |
| `UserModel.LowerChar` | backend/src/models/user.model.ts:57 | an upper-case ASCII letter becomes its lower-case letter; every other character is kept |
| `UserModel.Lower` | backend/src/models/user.model.ts:57 | the `lowercase` setter keeps the length and lowers each character in place |
| `UserModel.LowerFixesLower` | backend/src/models/user.model.ts:53-58 | the setter's output is lower-case, it leaves lower-case input unchanged, and applying it twice equals applying it once |
| `UserModel.ComparePassword` | backend/src/models/user.model.ts:90-92 | a stored plaintext never verifies; a stored hash of the configured cost verifies a candidate exactly when it is the hash of that candidate under the stored salt |
| `UserModel.PreSaveHook` | backend/src/models/user.model.ts:76-87 | an unmodified password is left untouched, and a modified empty one is left as it is; a non-empty new one becomes its bcrypt hash, which is not the plaintext and verifies that plaintext and no other |
| `UserModel.NewUser` | backend/src/models/user.model.ts:48-73 | a created account has the given name, the lower-cased email, role `student`, the creation time, no pending reset, and a hash that verifies only its password |
| `UserModel.IssueResetToken` | backend/src/controllers/auth.controller.ts:83-86 | after issuing `plain` at `now`, a presented token matches exactly when it is `plain` and the clock is strictly before `now + window`; nothing else about the account changes |
| `UserModel.ClearReset` | backend/src/controllers/auth.controller.ts:152-153 | clearing the reset fields leaves neither set, so no token matches at any time; nothing else changes |
| `UserModel.RefusalIsPermanent` | backend/src/controllers/auth.controller.ts:141-144 | once the `$gt` expiry filter refuses a token for an account, it refuses it at every later time |
| `UserModel.OneLiveToken` | backend/src/controllers/auth.controller.ts:141-144 | an account matches at most one token digest, whatever the times the filter is evaluated at |
| `UserStore.FindFrom` | backend/src/controllers/auth.controller.ts:141-144 | the search yields the first id in the range whose document matches the filter, or none if no document in the range matches |
| `UserStore.UserCollection.constructor` | backend/src/models/user.model.ts:94 | an empty collection satisfies the store invariant |
| `UserStore.UserCollection.FindOne` | backend/src/controllers/auth.controller.ts:20 | `findOne` returns a matching document that no earlier document matches, and returns none exactly when no document matches |
| `UserStore.UserCollection.Create` | backend/src/controllers/auth.controller.ts:26-30 | `create` fails exactly on a missing field or a stored email, and then writes nothing; otherwise it adds one `NewUser` under a fresh id |
| `UserStore.UserCollection.Save` | backend/src/controllers/user.controller.ts:37 | `save` succeeds exactly when name, email and any new password are non-empty and no other account has the email; it writes the document with the hook applied to the password, and on failure writes nothing |
| `UserStore.UserCollection.SaveResetFields` | backend/src/controllers/auth.controller.ts:86 | the unvalidated save writes the two reset fields of that one account and nothing else |
| `AuthController.GenerateToken` | backend/src/controllers/auth.controller.ts:10-14 | the issued token names the account id, and at issue time it verifies under the configured key to that id |
| `AuthController.ResetMail` | backend/src/controllers/auth.controller.ts:89-109 | the reset mail comes from the fixed sender with the fixed subject, goes to the given address, and the token read off its link is exactly the plaintext token it was built from |
| `AuthController.RegisterUser` | backend/src/controllers/auth.controller.ts:16-46 | a known email gives 400 and a missing field gives 500, both with the store unchanged (the first account's hash included); otherwise exactly one `student` account is added under the next `_id`, and the reply carries its id, name, email and role plus a token for that id, never the password |
| `AuthController.LoginUser` | backend/src/controllers/auth.controller.ts:48-68 | login succeeds if and only if an account has the email and the password verifies against its hash; the reply then carries that account's profile and a token for its id; every failure is the same 401 |
| `AuthController.ForgotPassword` | backend/src/controllers/auth.controller.ts:73-128 | an unknown email gives 404 with no mail and no change; otherwise a mail to the account's own address carries the plaintext token; on delivery that account alone stores the token's digest and expiry (200); on failure that account alone ends with both fields cleared (500) |
| `AuthController.ResetPassword` | backend/src/controllers/auth.controller.ts:133-165 | with no account holding the token's digest and a strictly later expiry, the reply is 400 and nothing changes; otherwise it succeeds exactly when the new password is non-empty, and an empty one gives 500 with nothing written; the first such account then gets the hash of the new password with both reset fields cleared, nothing else changes, and the reply is a token for it |
| `UserController.GetUserProfile` | backend/src/controllers/user.controller.ts:7-20 | an unknown id gives 404; otherwise the reply is 200 with the account's id, name, email, role and creation time, and no password |
| `UserController.UpdateUserProfile` | backend/src/controllers/user.controller.ts:25-52 | an unknown id gives 404 and no change; an empty name or email keeps the old value, a given one replaces it (email lower-cased); the hash changes only for a non-empty password, and then to its hash; role, id and reset fields never change; taking another account's email gives 500 and no change; the reply has id, name, email and role |
| `Scenarios.AnnLifecycle` | backend/src/tests/auth.routes.test.ts:21-216 | on an empty store the statuses are: register 201, login 200, wrong password 401, forgot-password 200, reset with the mailed token 200, replay of that token 400, old password 401, new password 200 |
| `Scenarios.SignUp` | backend/src/tests/auth.routes.test.ts:52-84 | after registering on an empty store, login with the password succeeds and login with another fails with 401 |
| `Scenarios.ResetByMail` | backend/src/tests/auth.routes.test.ts:151-192 | the mailed token resets the password once; replaying it fails; only the new password logs in afterwards |
| `Scenarios.ForgotAndReset` | backend/src/tests/auth.routes.test.ts:151-201 | a delivered request answers 200, the token read off the mail resets the password (200) and a replay answers 400; afterwards the account holds the hash of the new password and no reset pair, and nothing else about it has changed |
| `Scenarios.LoginsAfterReset` | backend/src/tests/auth.routes.test.ts:175-192 | after the reset the old password is refused with 401 and the new one logs in with 200 |
| `Scenarios.ExpiryIsStrict` | backend/src/tests/auth.routes.test.ts:204-216 | a token is refused at the instant of its expiry and accepted one millisecond before it |
| `Scenarios.ResetTokenIsSingleUse` | backend/src/controllers/auth.controller.ts:151-155 | after a successful reset the same token fails with 400, unless another account holds the same digest |
| `Scenarios.NewRequestSupersedes` | backend/src/controllers/auth.controller.ts:84-86 | after a second delivered forgot-password request, the first token no longer matches that account at any time |

## Left out

- The internals of bcrypt, SHA-256, JWT signing and the random generator are not modelled. They are foreign library code. Hashes and digests are symbolic values, and SHA-256 is treated as collision-free.
- Constant-time comparison cannot be expressed in this model.
- Crypto.CompareHash: bcryptjs uses only the first 72 UTF-8 bytes of a password. The model compares whole strings, so two passwords that agree on their first 72 bytes are told apart here but accepted alike by the source.
- AuthController.LoginUser: the "only if" direction of its login condition inherits the 72-byte limit above. In the source a longer password that shares its first 72 bytes with the stored one also logs in.
- UserModel.ComparePassword: a stored hash made with another cost factor is not covered by the exact-hash clause. Only the refusal of a stored plaintext is stated for it.
- How bcryptjs handles a stored 60-character string that is not a valid hash is not modelled. Any stored value that is not a hash simply fails to compare.
- The encodings are not modelled: hex digests, base64url tokens, and `Date` versus milliseconds.
- UserModel.Lower and UserModel.LowerChar: they fold only the ASCII letters A to Z. JavaScript's `toLowerCase` also folds non-ASCII letters.
- Store and connection failures are not modelled, so the 500 catch paths they lead to are not either. The model covers only validation failures and the unique index, and nothing else throws.
- Mongoose's handling of `undefined` values in query filters and bcrypt's error on an `undefined` password are not modelled. A missing field is the empty string.
- UserStore.UserCollection.FindOne: MongoDB promises no order for `findOne` without a sort, so which of several matching documents comes back is a choice of this model (the least `_id`). It shows only when two accounts hold the same live digest in `AuthController.ResetPassword`.
- Concurrency is not modelled. The model is sequential, and the find-then-save in reset-password is not claimed to be race-free.
- Token verification by the `protect` middleware is not modelled. `backend/src/middleware/auth.middleware.ts` is not part of this model, so the authenticated id is a parameter.
- Mail transport, the `console.error` logging and the Express wiring are not modelled. This covers `backend/src/server.ts`, `backend/src/routes/auth.routes.ts` and `backend/src/routes/user.routes.ts`.
- The profile routes are never mounted (only `/api/auth` is mounted, at `backend/src/server.ts:21`), and `backend/src/controllers/user.controller.ts:2` default-imports a model that is only a named export. The model treats both profile handlers as reachable.
- `UserController.GetUserProfile`: the reply lists the schema's declared fields other than the password. Whether the undeclared reset fields and Mongoose's `__v` key also appear depends on schema parts that are not shown.
- `AuthController.ForgotPassword` and `AuthController.ResetPassword`: the constant parts of a success body are not carried in the reply. That is `success: true` for both, plus `data: 'Password Reset Success'` for reset.
- The course, module, lesson and enrollment models, all frontend code, and the tests are not modelled. The models only declare schemas, and the frontend is UI code. The tests serve as evidence for the scenarios.
