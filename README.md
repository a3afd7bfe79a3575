# Account and request-protection layer of the drintel.io server

This project models the server side of a small customer portal:

- **Storage** (`storage.dfy`): the in-memory user store `MemStorage`. It is a class with two fields. `users` is the id-to-record map. `order` holds the ids in insertion order, which is the order a JavaScript `Map` iterates in.
- **Auth** (`auth.dfy`): the auth service. `registerUser` and `loginUser` are check cascades over the store. Each returns a success-or-error `AuthResult` that carries only the public projection `{id, email, name}` of a user.
- **Csrf** (`csrf.dfy`): the CSRF guard. It has the per-session secret store, token verification, and the `csrfMiddleware` decision cascade.
- **Routes** (`routes.dfy`): the `/api` route handlers for the CSRF token, sign-up, login, "me" and payment completion. It also has the pipeline that runs the general limiter and the CSRF guard before any handler.
- **Common** (`common.dfy`): an `Option` type, ASCII lower-casing, JavaScript truthiness of a string field, and `Array.join`.

Some collaborators are outside this model: the password module, the `csrf` token library, `randomUUID`, the clock and the rate limiters. They become inputs:

- `PasswordCodec` and `TokenScheme` are records of total functions. A property that needs "a password matches its own hash" or "a token verifies under its own secret" takes that fact as a `requires` for the specific values involved.
- A fresh user id, the creation time and a fresh CSRF secret are plain parameters. The id's freshness is the precondition `id !in users`, which stands for the uniqueness of `randomUUID`.
- Each limiter's verdict is a boolean in `Routes.Env`.

Sessions are values passed in and returned. The login handler hands back the new session claim rather than writing to persistent state.

Three behaviours of the code are worth stating plainly:

- Email uniqueness is enforced only by `registerUser`. `createUser` accepts duplicates.
- A non-exempt request without a session gets 401 "Not authenticated" from the CSRF guard (server/csrf.ts:40-41); only a missing or invalid token gets 403.
- As the guard is mounted, the bootstrap endpoints are not exempt, contrary to the comment at server/csrf.ts:30 (see Findings).

## Model

| member | source | states |
|---|---|---|
| `Common.JoinContainsEach` | server/auth.ts:17-24 | every validation error occurs verbatim in the `"; "`-joined error text, so the message lists every violated rule |
| `Storage.FirstByEmail` | server/storage.ts:39-43 | the position found is the first record whose email equals the query ignoring case, or the end when none does |
| `Storage.FindByEmail` | server/storage.ts:39-43 | absent exactly when no stored email matches under lower-casing; otherwise the first match in insertion order |
| `Storage.FindByEmailAppend` | server/storage.ts:39-57 | inserting a record never changes an existing email match; the new record is found only if nothing earlier matches |
| `Storage.WithPayment` | server/storage.ts:59-66 | the payment update keeps the key set, sets only `hasPaid` of the given user, and leaves every other user unchanged |
| `Storage.WithPaymentIdempotent` | server/storage.ts:59-66 | setting the payment flag twice to the same value equals setting it once |
| `Storage.MemStorage.constructor` | server/storage.ts:28-33 | a new store is empty and satisfies the store invariant |
| `Storage.MemStorage.GetUser` | server/storage.ts:35-37 | returns the record stored under the id, or absent when there is none; the store is not modified |
| `Storage.MemStorage.GetUserByEmail` | server/storage.ts:39-43 | the scan returns the first case-insensitive email match in insertion order, or absent; the store is not modified |
| `Storage.MemStorage.CreateUser` | server/storage.ts:45-57 | adds one record under the fresh id with name, email and hash copied and `hasPaid` false; every existing entry is unchanged; no email-uniqueness check |
| `Storage.MemStorage.UpdateUserPaymentStatus` | server/storage.ts:59-66 | unknown id: returns absent and leaves the map unchanged; known id: sets `hasPaid` in place and returns the updated record; insertion order unchanged |
| `Auth.Login` | server/auth.ts:57-91 | succeeds exactly when the first case-insensitive email match accepts the password, returning that user's projection; every failure carries "Invalid email or password" |
| `Auth.LoginFailuresIndistinguishable` | server/auth.ts:62-78 | an unknown email and a wrong password give identical failure results |
| `Auth.Register` | server/auth.ts:11-54 | the store's records before the call are kept as a prefix and at most one is added; a rejection adds none and carries either the `"; "`-joined validation errors (only for an invalid password) or "Email already registered" (only for a valid password whose email is stored, any letter case); a success appends one unpaid record with the given id and email and the password's hash, and returns its projection |
| `Auth.RegisterValidatesFirst` | server/auth.ts:17-33 | a weak password fails with the joined errors (each error included) whatever the store holds, even with a taken email; the store is untouched |
| `Auth.RegisterRejectsTakenEmail` | server/auth.ts:26-33 | a valid password with an email already stored (any letter case) fails with "Email already registered" and creates no user |
| `Auth.RegisterOutcome` | server/auth.ts:11-54 | failure leaves the store unchanged; success happens exactly when the password is valid and the email is unused, and then appends one unpaid user holding the password's hash and returns `{id, email, name}` |
| `Auth.RegisterTwiceRejected` | server/auth.ts:26-54 | after a successful registration, registering the same email again in any letter case with a valid password fails with "Email already registered" and leaves the store unchanged |
| `Auth.RegisterKeepsEmailsUnique` | server/auth.ts:26-54 | registration preserves uniqueness of emails under lower-casing across the store |
| `Auth.RegisterThenLogin` | server/auth.ts:11-91 | round trip: given that a password matches its own hash, logging in after a successful registration succeeds with the new user's id, email and name |
| `Auth.RegisterUser` | server/auth.ts:11-54 | the method's result and the store's new records are those of `Register`; on failure the map and order are unchanged, on success exactly one entry is added |
| `Auth.LoginUser` | server/auth.ts:57-91 | the method's result is `Login` of the current store, and the store is not modified |
| `Csrf.VerifyCsrfToken` | server/csrf.ts:16-22 | false when no non-empty secret is stored for the session; otherwise the library's verdict on the stored secret |
| `Csrf.CsrfMiddleware` | server/csrf.ts:24-54 | GET/HEAD/OPTIONS and the three exempt paths pass; otherwise, in order: 401 without a session, 403 "CSRF token missing" without a non-empty header, 403 "Invalid CSRF token" when verification fails, else pass; each outcome is characterised in both directions |
| `Csrf.SafeMethodsWithinRfc9110` | server/csrf.ts:25-28 | the unchecked methods are a strict subset of the safe methods of RFC 9110 section 9.2.1; TRACE is checked |
| `Csrf.MiddlewareReadsOnlyOwnSecret` | server/csrf.ts:39-53 | the verdict depends on the secret store only through the secret of the request's own session |
| `Csrf.IssueKeepsOtherSessions` | server/csrf.ts:9-14 | issuing a secret for one session does not change what verifies under any other session |
| `Csrf.IssuedTokenVerifies` | server/csrf.ts:9-22 | for a non-empty secret, given that the library accepts a token under its own secret, the issued token verifies under its session immediately |
| `Csrf.ReissueForgetsOldSecret` | server/csrf.ts:9-22 | once a new secret is stored for a session, whether a token verifies under that session is the same whatever the store held before, so an earlier secret is forgotten |
| `Csrf.CsrfTokens.constructor` | server/csrf.ts:4-7 | the secret store starts empty |
| `Csrf.CsrfTokens.GenerateCsrfToken` | server/csrf.ts:9-14 | the session's secret is overwritten by the fresh one, every other key is unchanged, and the returned token is derived from the new secret |
| `Routes.HandleCsrfToken` | server/routes.ts:29-35 | 401 and no change to the secret store without a session user id; otherwise a token generated under key `session.userId` |
| `Routes.HandleSignup` | server/routes.ts:38-57 | a falsy name, email or password gives 400 "Missing required fields" and leaves the store unchanged; otherwise a failure of `registerUser` gives 400 with its error and a success gives `{id, email, name}` |
| `Routes.HandleLogin` | server/routes.ts:59-81 | a falsy email or password gives 400; failed login gives 401 with the generic error and the session unchanged; success sets the session to the user's id and returns the projection |
| `Routes.HandleMe` | server/routes.ts:92-113 | 401 without a session, 404 when the id is not stored, else `{id, email, name, hasPaid}` of the stored user; the store is not modified |
| `Routes.HandlePaymentComplete` | server/routes.ts:115-131 | 401 without a session and 404 for an unknown user, both with the store unchanged; otherwise sets that user's `hasPaid` to true and returns `{success: true, hasPaid: true}` |
| `Routes.SignupLoginPayScenario` | server/routes.ts:38-131 | sign-up, login, "me", payment, "me" on a fresh store, calling the handlers directly and so bypassing the limiters and the CSRF guard on "/api": the flag reads false before payment and true after it |
| `Routes.MountRelativePath` | server/routes.ts:22-26 | a middleware mounted at "/api" sees the request path with the "/api" prefix removed |
| `Routes.CsrfAsMounted` | server/routes.ts:26 | the guard as registered lets GET, HEAD and OPTIONS through; on every registered route it passes a request exactly when the method is safe or the request has a session and a token verifying under that session's secret, so no route is exempt |
| `Routes.BootstrapBlockedAsMounted` | server/routes.ts:26 | as mounted, a POST to an exempt bootstrap path without a session is refused with 401 by the CSRF guard |
| `Routes.CsrfFullPath` | server/csrf.ts:30-37 | comparing the exempt list against the full path lets the bootstrap endpoints through; elsewhere it decides exactly as `csrfMiddleware` on the full path |
| `Routes.RouteOf` | server/routes.ts:29-131 | the route table: every registered path lies under "/api" and its mount-relative form is not on the guard's exempt list; "me" is reached by GET (and HEAD) only, every other route by POST only |
| `Routes.HandleApi` | server/routes.ts:22-131 | with the CSRF guard as mounted on "/api": the general limiter's refusal gives 429 and a guard refusal gives its status and message; when both pass, an unknown route gives no response, a route-limiter refusal gives 429, and otherwise `handled` names the registered route (`app.get` also serving HEAD); every handled state-changing request carried a session and a token valid under its secret; for each handled route the response, the user store, the secret store and the session are exactly what that handler's contract gives; a refusal changes neither store |

## Left out

- server/rateLimit.ts: the four limiters' counting, windows, messages and headers come from the `express-rate-limit` library, which this model does not include. Each verdict is a boolean input, and a refusal is the abstract `Throttled` body with status 429.
- The password module (`hashPassword`, `comparePassword`, `validatePassword`) is not part of this model. It is the `PasswordCodec` parameter. Hashing is a function of the password, so bcrypt's random salt is not modelled.
- The `csrf` library (`secretSync`, `create`, `verify`) is not part of this model. It is the `TokenScheme` parameter plus a secret passed in. `create` is a function of the secret, so the library's per-token random salt is not modelled: two tokens from one secret are equal here.
- `randomUUID` and `new Date()`: the id and timestamp are inputs. Freshness of the id is a precondition. `createdAt` is unconstrained.
- Audit `log` lines, `async`/`Promise` plumbing and the `try/catch` 500 paths are not modelled. Every operation is synchronous and atomic, so the concurrent sign-up race is not modelled.
- The logout handler (server/routes.ts:83-90): it depends on a `destroy` callback supplied by the session middleware, which this model does not include, and sends no response when that callback is absent.
- All `client/` files: UI, mock authentication and calls to third-party services.
- `String.prototype.toLowerCase` is modelled on ASCII letters only. Unicode case mapping is not.
- JSON body fields are strings or absent. Non-string values (numbers, booleans, objects) are not modelled.
- Storage.MemStorage.UpdateUserPaymentStatus: records are values, so aliasing is not modelled. In the source, the in-place `user.hasPaid = ...` is also visible through any reference a caller kept from `createUser`.
- For HEAD on "/api/auth/me" the pipeline computes the GET response. Express then sends the status without the body, which is not modelled.
- Express mount matching is modelled on exact lower-case "/api" prefixes. Case-insensitive routing, a trailing slash ("/api/auth/me/" also reaches the "me" handler under Express's non-strict routing), query strings and unmatched requests falling through to later middleware are not modelled.
- A session claim is a value passed in and returned. How a session survives between requests is outside this model.

## Findings

| source | as written | input that shows it | evidently intended | confidence | as-written member | corrected member |
|---|---|---|---|---|---|---|
| server/routes.ts:26 | The CSRF middleware is mounted with `app.use("/api", ...)`, so the path it compares is "/auth/login", "/auth/signup" or "/csrf-token". The exempt list at server/csrf.ts:31-35 holds the full "/api/..." paths, so the bootstrap exemption never fires. | POST /api/auth/login with no session: refused with 401 "Not authenticated" before the login handler runs | login, sign-up and token requests pass the guard without a session, as the comment at server/csrf.ts:30 says | high; not executed | `Routes.BootstrapBlockedAsMounted` | `Routes.CsrfFullPath` |

`Routes.HandleApi` models the pipeline as registered, with the guard as mounted (`Routes.CsrfAsMounted`), so a sign-up or login request without a session gets the guard's 401 there. `Routes.CsrfFullPath` is the corrected guard, which compares the full request path.
