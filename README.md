# Unideal API core in Dafny

This project models the request pipeline of the Unideal campus marketplace API, an Express server, together with two client helpers. The model covers these parts:

- **Admission:** the fixed-window rate limiters.
- **Access gate:** `requireAuth`, a Clerk bearer-token check followed by a user lookup, plus `requireAdmin` and `requireVerified`.
- **Validation:** the zod validation middleware and the user and common validator schemas.
- **Identity reconciler:** the Clerk `user.created` and `user.updated` webhook, guarded by a Svix signature.
- **User routes:** `GET /me`, `PUT /me`, `POST /onboarding` and `GET /:id`.
- **Error handler:** the global handler that maps Prisma errors to HTTP answers.
- **Routing:** the app's route table.
- **Client:** the `ApiClient` fetch wrapper and the Cloudinary URL helpers.

The database is a value `Tables` holding users, wallets and colleges, with the schema's unique constraints as the predicate `Db.Consistent`. Each Prisma call the core makes is a pure transition `Step(after, result)`. A result is `Ok(value)` or `Err(failure)`, where the failure is a unique or foreign-key violation or a missing record. The class `Db.Store` holds the same tables as mutable fields. Each of its methods is proved to perform exactly the matching transition. The route handlers are methods over a `RequestContext` and a `Store`, and each is proved equal to a pure route function. The lemmas are stated about those functions.

A middleware's result is one of three outcomes:

- `Continue`: pass to the next handler.
- `Respond(r)`: answer with `r`.
- `Forward(f)`: call `next(err)`.

Everything outside the process is a parameter:

- Clerk's token verifier: a function from the token to a payload or a thrown error.
- Svix's signature check.
- The `cuid` and `url` format predicates.
- `fetch`, `JSON.stringify` and the client's token getter.
- The clock.
- The ids Prisma generates for new rows.
- `process.env` values: `NODE_ENV`, `CLERK_WEBHOOK_SECRET` and `VITE_API_URL`.

Nothing in this project was executed; every statement below is a proved contract.

### Where the design and the code differ (the model follows the code)

- **Duplicate `user.created`.** The design describes a second delivery as an idempotent no-op. In the code, `prisma.user.create` raises a unique-constraint error on the second delivery, and the handler answers 500 "Webhook processing failed". See `ClerkWebhook.DuplicateCreatedFails` and `ClerkWebhook.CreatedTwice`. Nothing is written twice, so there is still one user and one wallet.
- **Webhook acknowledgement.** The design says processing failures are always acknowledged with 2xx. The code answers 500 on any processing error, and 400 or 500 when the headers, the signature or the secret are missing or bad.
- **Rate-limiter atomicity.** The design requires counts that cannot lose increments. A single `FixedWindowLimiter.Handle` call is one atomic step in the model.

## Model

| member | source | states |
|---|---|---|
| Constants.RateLimit | unideal-server/src/lib/constants.ts:9-15 | every policy has a one-minute window and a maximum between 5 and 60; only the general policy allows 60 |
| Constants.RateLimitMaxima | unideal-server/src/lib/constants.ts:9-15 | the maxima are auth 5, general 60, items 30, payments 10 and upload 10 |
| Constants.SeedCategoriesDistinct | unideal-server/src/lib/constants.ts:18-25 | there are six seed categories and no two share a slug |
| RateLimiter.Hit | unideal-server/src/middleware/rateLimiter.ts:9-15 | a request is admitted exactly when the current window (a fresh one once the old has expired) has fewer than `max` hits; an admitted request adds one hit, a refused one adds none |
| RateLimiter.HitBounded | unideal-server/src/middleware/rateLimiter.ts:9-15 | a window's hit count never exceeds `max` |
| RateLimiter.AdmittedAfterRollover | unideal-server/src/middleware/rateLimiter.ts:9-15 | a throttled client is admitted again once the window has elapsed, and that request opens a window with one hit |
| RateLimiter.AtMostMaxInOpenWindow | unideal-server/src/middleware/rateLimiter.ts:9-15 | requests that all fall inside an open window add at most `max - hits` admissions |
| RateLimiter.AtMostMaxPerWindow | unideal-server/src/middleware/rateLimiter.ts:9-15 | any burst of requests within one window, however long, admits at most `max` of them |
| RateLimiter.AuthPolicyBurst | unideal-server/src/middleware/rateLimiter.ts:18-24 | under the auth policy five requests in a minute pass, the sixth is refused, and a request a minute later passes |
| RateLimiter.Rejection | unideal-server/src/middleware/rateLimiter.ts:13-14 | a refusal is answered 429 with code `RATE_LIMITED` |
| RateLimiter.FixedWindowLimiter.Handle | unideal-server/src/middleware/rateLimiter.ts:9-15 | the client's window becomes the one `Hit` computes, every other client's window is untouched, and the outcome is continue exactly when the request is admitted |
| RateLimiter.GeneralLimiter | unideal-server/src/middleware/rateLimiter.ts:9-15 | a fresh limiter with no windows, 60 requests per 60000 ms and the general message |
| RateLimiter.AuthLimiter | unideal-server/src/middleware/rateLimiter.ts:18-24 | a fresh limiter with 5 requests per 60000 ms and the auth message |
| RateLimiter.ItemsLimiter | unideal-server/src/middleware/rateLimiter.ts:27-33 | a fresh limiter with 30 requests per 60000 ms |
| RateLimiter.PaymentsLimiter | unideal-server/src/middleware/rateLimiter.ts:36-42 | a fresh limiter with 10 requests per 60000 ms and the payments message |
| RateLimiter.IndependentBudgets | unideal-server/src/middleware/rateLimiter.ts:9-42 | a request counted by one limiter moves only that client's window there, as `Hit` decides, and leaves every other limiter's windows as they were |
| ErrorHandler.HandleError | unideal-server/src/middleware/errorHandler.ts:8-42 | P2002 gives 409 `CONFLICT`, P2025 gives 404 `NOT_FOUND` and a Prisma validation error gives 400 `VALIDATION_ERROR`, each in both directions; everything else gives 500 `INTERNAL_ERROR`, whose message is hidden in production only |
| ErrorHandler.OtherKnownCodesAreInternal | unideal-server/src/middleware/errorHandler.ts:18-25 | a known Prisma error with any other code is a 500 internal error |
| Schema.ParseObject | unideal-server/src/validators/user.ts:7-14 | an object parses exactly when every field of the shape accepts its value; the output keeps only the shape's keys, unchanged; a failure carries at least one issue |
| Schema.ParseString | unideal-server/src/validators/common.ts:7 | a string parses exactly when it passes every check, and it comes back unchanged |
| Strings.Utf16Length | unideal-server/src/validators/user.ts:9 | JavaScript's `length`: at least the number of characters and at most twice it |
| Strings.Utf16LengthOfBmp | unideal-server/src/validators/user.ts:9 | for text without characters beyond the Basic Multilingual Plane the JavaScript length is the character count |
| Strings.AstralCountsTwice | unideal-server/src/validators/user.ts:9 | one emoji has JavaScript length 2 |
| UserSchemas.IsIndianPhone | unideal-server/src/validators/user.ts:12 | ten characters, all digits, the first 6 to 9; `PhonePatternMeaning` proves this is what the pattern accepts |
| UserSchemas.PhonePatternMeaning | unideal-server/src/validators/user.ts:12 | the anchored phone pattern `[6-9]` then nine digits accepts exactly the ten-digit strings whose first digit is 6 to 9 |
| UserSchemas.Onboarding | unideal-server/src/validators/user.ts:7-14 | a body is accepted exactly when it has a cuid `collegeId`, a `fullName` whose JavaScript length (UTF-16 code units) is 2 to 100, and at most a valid phone; the output is the body restricted to those three keys |
| UserSchemas.OnboardingShapeMeaning | unideal-server/src/validators/user.ts:7-14 | the onboarding shape accepts a field map exactly under those three field conditions, lengths counted in UTF-16 code units |
| UserSchemas.OnboardingCountsCodeUnits | unideal-server/src/validators/user.ts:9 | a name made of one emoji (two code units) meets the two-character minimum |
| UserSchemas.OnboardingMissingCollege | unideal-server/src/validators/user.ts:8 | a body without `collegeId` fails, and its first issue is "Required" at `collegeId` |
| UserSchemas.UpdateProfile | unideal-server/src/validators/user.ts:17-25 | every field is optional; phone and avatar may be null; present values must meet the limits, the name's length counted in UTF-16 code units; the output is the body restricted to the three keys |
| UserSchemas.UpdateProfileShapeMeaning | unideal-server/src/validators/user.ts:17-25 | the update shape accepts a field map exactly under those conditions, lengths counted in UTF-16 code units |
| UserSchemas.EmptyProfileUpdate | unideal-server/src/validators/user.ts:17-25 | the empty object is a valid update and parses to itself |
| CommonSchemas.Cuid | unideal-server/src/validators/common.ts:7 | a value parses exactly when it is a string in cuid format, and it comes back unchanged |
| CommonSchemas.IdParam | unideal-server/src/validators/common.ts:20-22 | params parse exactly when `id` is a cuid string |
| CommonSchemas.NumberOf | unideal-server/src/validators/common.ts:12-16 | a query string converts to a number exactly when it is all digits, and the number is its decimal value |
| CommonSchemas.LimitIssues | unideal-server/src/validators/common.ts:12-16 | `limit` has no issue exactly when it is absent or a numeric string between 1 and 50 |
| CommonSchemas.Pagination | unideal-server/src/validators/common.ts:10-17 | a query parses exactly when `cursor` is a string if present and `limit` is a number from 1 to 50 if present; the parsed `limit` is a number and `cursor` is kept |
| CommonSchemas.PaginationReadsEveryLimit | unideal-server/src/validators/common.ts:10-17 | for every limit from 1 to 50 its decimal text parses back to that number, and the cursor is kept |
| CommonSchemas.PaginationBounds | unideal-server/src/validators/common.ts:12-16 | limits 1 and 50 are accepted as numbers, 0 and 51 are refused, and an empty query is accepted |
| Validate.FieldPathLength | unideal-server/src/middleware/validate.ts:23 | a joined issue path is no shorter than its segments together |
| Validate.FieldPathSingleKey | unideal-server/src/middleware/validate.ts:23 | a one-key path is reported as the key itself |
| Validate.Details | unideal-server/src/middleware/validate.ts:22-25 | there is one detail per issue, in order, each with the issue's path joined by dots and its message |
| Validate.Decide | unideal-server/src/middleware/validate.ts:12-32 | continue exactly when the schema accepts; a failed parse is answered 400 `VALIDATION_ERROR` with the details; a thrown error is passed to the error handler |
| Validate.ValidateBody | unideal-server/src/middleware/validate.ts:12-32 | the outcome is `Decide` of the body's parse; on continue the body is replaced by the parsed value, and nothing else in the request changes |
| Validate.ValidateQuery | unideal-server/src/middleware/validate.ts:38-58 | the same for the query string, with the message "Invalid query parameters" |
| AuthMiddleware.BearerToken | unideal-server/src/middleware/auth.ts:25 | the token is the text after `Bearer ` up to the first space |
| AuthMiddleware.BearerTokenOf | unideal-server/src/middleware/auth.ts:25 | `Bearer ` followed by a space-free token gives back exactly that token |
| AuthMiddleware.BareBearerGivesEmptyToken | unideal-server/src/middleware/auth.ts:19-25 | the header `Bearer ` passes the prefix check and yields the empty token |
| AuthMiddleware.SubjectOf | unideal-server/src/middleware/auth.ts:29-41 | a verification is accepted exactly when it returned a payload with a subject, and the subject is that claim |
| AuthMiddleware.Authenticate | unideal-server/src/middleware/auth.ts:13-59 | requests without a bearer header, with a failing verification, with no subject, with an unknown clerk id or with a failed lookup each get their own 401; the request is admitted exactly when the subject belongs to a stored user, and the identity attached is that user's |
| AuthMiddleware.MissingHeaderNeedsNoVerifier | unideal-server/src/middleware/auth.ts:19-23 | without a bearer header the answer is the same whatever the verifier and the store |
| AuthMiddleware.BadTokenNeedsNoLookup | unideal-server/src/middleware/auth.ts:29-41 | a token that fails verification is refused whatever the store holds |
| AuthMiddleware.AuthenticatesStoredUser | unideal-server/src/middleware/auth.ts:43-54 | a verified token whose subject is a stored user's clerk id admits exactly that user |
| AuthMiddleware.RequireAuth | unideal-server/src/middleware/auth.ts:13-59 | the outcome is `Authenticate`'s; the request gains the admitted user and nothing else changes |
| AuthMiddleware.RequireAdmin | unideal-server/src/middleware/auth.ts:64-74 | continue exactly for an admin; otherwise 403 `FORBIDDEN` |
| AuthMiddleware.AdminGateFollowsStore | unideal-server/src/middleware/auth.ts:64-74 | after authentication, the admin gate follows the stored user's admin flag |
| AuthMiddleware.RequireVerified | unideal-server/src/middleware/auth.ts:79-96 | continue exactly when the caller's stored row is verified; otherwise 403 `NOT_VERIFIED` |
| Db.FindUserByClerkId | unideal-server/src/middleware/auth.ts:43-45 | a user is found exactly when some stored user has the clerk id, and it is that stored row |
| Db.FindUserByClerkIdIsTheOwner | unideal-server/src/middleware/auth.ts:43-45 | with unique clerk ids, the lookup by a user's clerk id returns that user |
| Db.FindCollege | unideal-server/src/routes/users.ts:101-103 | a college is found exactly when its id is stored, and it is the stored row |
| Db.CreateUserStep | unideal-server/src/routes/auth.ts:99-109 | the store stays consistent; the create succeeds exactly when no unique constraint is hit, inserting the user with schema defaults and a zero-balance wallet; a failure is a unique violation that changes nothing |
| Db.InsertKeepsConsistent | unideal-server/src/routes/auth.ts:99-109 | inserting a user and wallet with fresh keys keeps every constraint |
| Db.UpdateUserByClerkIdStep | unideal-server/src/routes/auth.ts:129-136 | an unknown clerk id gives record-not-found; success rewrites email, name and avatar of that one row; a failure changes nothing |
| Db.ApplyPatchKeepsIdentity | unideal-server/src/routes/users.ts:74-84 | a profile patch never changes id, clerk id, email, admin or ban flags, or verification state |
| Db.UpdateUserStep | unideal-server/src/routes/users.ts:74-84 | the update succeeds exactly when the user exists and any new college exists; a missing user is record-not-found, a missing college a foreign-key violation; success rewrites only that row |
| Db.UpsertWalletStep | unideal-server/src/routes/users.ts:136-140 | an existing wallet is returned untouched; otherwise a zero-balance wallet is created for an existing user with a fresh id; users and colleges never change |
| Db.UpsertWalletIdempotent | unideal-server/src/routes/users.ts:136-140 | a second upsert after a successful one changes nothing |
| Db.Store.CreateUser | unideal-server/src/routes/auth.ts:99-109 | the store's tables and the result are exactly those of `CreateUserStep` |
| Db.Store.UpdateUserByClerkId | unideal-server/src/routes/auth.ts:129-136 | the store's tables and the result are exactly those of `UpdateUserByClerkIdStep` |
| Db.Store.UpdateUser | unideal-server/src/routes/users.ts:74-84 | the store's tables and the result are exactly those of `UpdateUserStep` |
| Db.Store.UpsertWallet | unideal-server/src/routes/users.ts:136-140 | the store's tables and the result are exactly those of `UpsertWalletStep` |
| ClerkWebhook.PrimaryEmail | unideal-server/src/routes/auth.ts:88-90 | the first address whose id is the primary id is found; none is found exactly when no address has that id |
| ClerkWebhook.FullName | unideal-server/src/routes/auth.ts:97 | first and last name joined by a space when both are present, the one present otherwise, and "User" when neither is; never empty |
| ClerkWebhook.UserCreated | unideal-server/src/routes/auth.ts:87-112 | without a primary email nothing changes and nothing is written; otherwise it succeeds exactly when no unique constraint blocks the insert, and then adds the new user (the event's clerk id, primary email, full name and image, every other field at its default) and one zero-balance wallet for it, leaving the colleges alone; a failure changes nothing and the store stays consistent |
| ClerkWebhook.UserUpdated | unideal-server/src/routes/auth.ts:117-139 | without a primary email nothing changes and nothing is written; an unknown clerk id is P2025 with no change; a success rewrites only the email, full name and avatar of the user with that clerk id; a failure changes nothing and the store stays consistent |
| ClerkWebhook.Dispatch | unideal-server/src/routes/auth.ts:68-77 | only `user.created` and `user.updated` touch the store; any other event is a no-op |
| ClerkWebhook.SvixHeader | unideal-server/src/routes/auth.ts:40-47 | a header is read only when it is present and non-empty |
| ClerkWebhook.HandleWebhook | unideal-server/src/routes/auth.ts:31-82 | no secret gives 500, missing svix headers 400, a bad signature 400, and a failed write 500; the answer is 200 exactly when it is the acknowledgement; any non-200 answer leaves the store as it was |
| ClerkWebhook.OtherEventIgnored | unideal-server/src/routes/auth.ts:68-77 | a verified event of another type is acknowledged and changes nothing |
| ClerkWebhook.NoPrimaryEmailIgnored | unideal-server/src/routes/auth.ts:88-95 | a `user.created` event without a primary email is acknowledged and changes nothing |
| ClerkWebhook.CreatedAddsUserAndWallet | unideal-server/src/routes/auth.ts:99-109 | a first `user.created` adds exactly one user row and one zero-balance wallet for it |
| ClerkWebhook.DuplicateCreatedFails | unideal-server/src/routes/auth.ts:78-81 | a `user.created` for a clerk id already stored is answered 500 and changes nothing |
| ClerkWebhook.CreatedTwice | unideal-server/src/routes/auth.ts:99-109 | delivering the same `user.created` twice leaves exactly the state after the first delivery |
| ClerkWebhook.UpdatedUnknownFails | unideal-server/src/routes/auth.ts:129-136 | a `user.updated` for an unknown clerk id is answered 500 and changes nothing |
| ClerkWebhook.UpdatedChangesThreeFields | unideal-server/src/routes/auth.ts:129-136 | a successful `user.updated` changes only email, name and avatar of that user's row |
| ClerkWebhook.ReceiveWebhook | unideal-server/src/routes/auth.ts:31-82 | the store ends in `HandleWebhook`'s state and the answer is its answer |
| UserRoutes.AdmittedIsStored | unideal-server/src/middleware/auth.ts:43-54 | the identity the gate attaches is a stored user's, under that user's id |
| UserRoutes.Me | unideal-server/src/routes/users.ts:15-67 | 200 exactly when the user exists, with the selected user fields, the college's id, name, slug and city, and the wallet's id and balances; otherwise 404 "User not found" |
| UserRoutes.GetMeRoute | unideal-server/src/routes/users.ts:15-67 | an authenticated caller is always answered 200, a refused one gets the gate's 401; the handler's 404 cannot happen while the store is consistent |
| UserRoutes.GetMeShowsCaller | unideal-server/src/routes/users.ts:15-67 | an authenticated caller always gets their own record and their own wallet |
| UserRoutes.GetMe | unideal-server/src/routes/users.ts:15-67 | the answer is `GetMeRoute` of the request's header and the store |
| UserRoutes.NullableField | unideal-server/src/routes/users.ts:74-84 | a field is written only when the body carries it, with null for an explicit null |
| UserRoutes.ProfilePatch | unideal-server/src/routes/users.ts:74-84 | the profile update writes only fields the body carries, and never the college or the onboarding flag |
| UserRoutes.ProfilePatchOfValidBody | unideal-server/src/routes/users.ts:74-84 | the patch of a validated body touches only name, phone and avatar, never college or onboarding |
| UserRoutes.UpdateMe | unideal-server/src/routes/users.ts:72-90 | the store stays consistent |
| UserRoutes.PutMeRoute | unideal-server/src/routes/users.ts:72-90 | the store stays consistent |
| UserRoutes.PutMeAuthenticatesFirst | unideal-server/src/routes/users.ts:72 | a refused caller gets the gate's 401 whatever the body, and nothing changes |
| UserRoutes.PutMeRejectsInvalidBody | unideal-server/src/middleware/validate.ts:12-32 | an invalid body is answered 400 with the schema's issues and changes nothing |
| UserRoutes.PutMeChangesOnlyCaller | unideal-server/src/routes/users.ts:72-90 | a valid update rewrites only the caller's row, only in the given fields, and answers with the new profile |
| UserRoutes.PutMe | unideal-server/src/routes/users.ts:72-90 | the store ends in `PutMeRoute`'s state and the answer is its answer |
| UserRoutes.PhoneOf | unideal-server/src/routes/users.ts:116 | the phone is stored exactly when it is a non-empty string, and then as given |
| UserRoutes.OnboardingPatch | unideal-server/src/routes/users.ts:111-118 | onboarding writes the body's college and name, `phone || null`, and the completion flag, and never the avatar |
| UserRoutes.OnboardingPatchOfValidBody | unideal-server/src/routes/users.ts:111-118 | for a valid body the write sets the body's college, name and phone (null when empty or absent) and the completion flag |
| UserRoutes.Onboard | unideal-server/src/routes/users.ts:96-146 | a missing or inactive college gives 400 and changes nothing; otherwise the caller's row gets the patch, colleges stay, an existing wallet is kept, and success means the caller has a wallet and is answered with their onboarded view, whose college is the id, name and slug of the chosen active college |
| UserRoutes.OnboardingRoute | unideal-server/src/routes/users.ts:96-146 | the store stays consistent |
| UserRoutes.OnboardingAuthenticatesFirst | unideal-server/src/routes/users.ts:96 | a refused caller gets the gate's answer whatever the body, and nothing changes |
| UserRoutes.OnboardingRejectsInactiveCollege | unideal-server/src/routes/users.ts:101-109 | a valid body naming a missing or inactive college is answered 400 and changes nothing |
| UserRoutes.OnboardingEffect | unideal-server/src/routes/users.ts:111-140 | successful onboarding sets college, name, phone and the flag of the caller's row and nothing else; the college is active; the caller then has a wallet, and an earlier one is untouched |
| UserRoutes.OnboardingTwiceKeepsWallet | unideal-server/src/routes/users.ts:136-140 | onboarding again still admits the caller, succeeds, and changes no wallet |
| UserRoutes.PostOnboarding | unideal-server/src/routes/users.ts:96-146 | the store ends in `OnboardingRoute`'s state and the answer is its answer |
| UserRoutes.CompleteOnboarding | unideal-server/src/routes/users.ts:99-145 | the store ends in `Onboard`'s state and the answer is its answer |
| UserRoutes.PublicProfile | unideal-server/src/routes/users.ts:151-196 | 200 exactly when the id is stored, with only the public fields and the college's id, name and slug; otherwise 404 "User not found" |
| UserRoutes.GetUserById | unideal-server/src/routes/users.ts:151-196 | the answer is `PublicProfile` of the store |
| App.RouteOf | unideal-server/src/index.ts:35-43 | a request reaches the public profile handler only as a GET of `/api/users/` plus one non-empty segment other than `me`; the `/me` routes take precedence over `/:id` |
| App.Routed | unideal-server/src/index.ts:35-46 | the store stays consistent |
| App.ReadsLeaveStoreAlone | unideal-server/src/index.ts:35-43 | health checks, `GET /me`, `GET /:id` and unmatched routes never change the store |
| App.Dispatch | unideal-server/src/index.ts:35-46 | the store ends in `Routed`'s state and the answer is its answer |
| App.Serve | unideal-server/src/index.ts:32-46 | the general limiter runs before routing; a refused request is answered 429 and changes neither the store nor the request; an admitted one is answered as `Routed` says |
| Cloudinary.CloudinaryUrl | unideal-client/src/lib/cloudinary.ts:2-5 | a non-Cloudinary or empty URL comes back unchanged; otherwise the width transformation is inserted right after the first `/upload/` |
| Cloudinary.CloudinaryUrlLength | unideal-client/src/lib/cloudinary.ts:2-5 | a transformed URL grows by exactly the transformation's length |
| Cloudinary.CloudinaryUrlKeepsPrefix | unideal-client/src/lib/cloudinary.ts:2-5 | everything up to and including the first `/upload/` is kept |
| Cloudinary.SrcSet | unideal-client/src/lib/cloudinary.ts:8-12 | the srcset is the 400, 800 and 1200 pixel renditions, each followed by its `w` descriptor, separated by `, ` |
| Cloudinary.SrcSetCandidates | unideal-client/src/lib/cloudinary.ts:8-12 | joining the three candidates gives exactly that text |
| ApiClient.ErrorFor | unideal-client/src/lib/api.ts:41-50 | a body that is not JSON gives "Network error"; a null body throws a property-of-null error; otherwise the status is kept, the code is the body's `code`, and a falsy `error` gives "Unknown error" |
| ApiClient.ServerErrorsSurvive | unideal-client/src/lib/api.ts:41-50 | the server's string error and its code reach the caller unchanged |
| ApiClient.Settle | unideal-client/src/lib/api.ts:36-52 | a 2xx answer resolves with its JSON body and rejects when the body is not JSON; any other answer rejects with `ErrorFor`'s error; a rejected `fetch` rejects the request with fetch's own error, and only then |
| ApiClient.RequestHeaders | unideal-client/src/lib/api.ts:30-34 | the content type is JSON unless overridden, `Authorization` is `Bearer` plus the token exactly when a token is given and not overridden, and caller headers win |
| ApiClient.AuthorizationPresence | unideal-client/src/lib/api.ts:30-34 | `Authorization` is present exactly when there is a token or the caller gave one |
| ApiClient.KeptAppend | unideal-client/src/lib/api.ts:58-63 | filtering the parameters distributes over concatenation |
| ApiClient.Kept | unideal-client/src/lib/api.ts:58-63 | the loop never appends more pairs than there are parameters |
| ApiClient.KeptMembers | unideal-client/src/lib/api.ts:58-63 | a pair appears in the query exactly when its parameter was given with a value other than undefined, null or the empty string, and then with the value's string (order is `KeptAppend`'s and `BuildQuery`'s) |
| ApiClient.KeptEmpty | unideal-client/src/lib/api.ts:58-63 | nothing is appended exactly when every value is undefined, null or the empty string |
| ApiClient.FormEncode | unideal-client/src/lib/api.ts:64-66 | an encoded key or value never contains `&` or `=` |
| ApiClient.Serialize | unideal-client/src/lib/api.ts:64-66 | the query text is empty exactly when no pair was appended |
| ApiClient.SerializeSplits | unideal-client/src/lib/api.ts:64-66 | splitting a serialised query at `&` gives back one `key=value` entry per pair |
| ApiClient.Query | unideal-client/src/lib/api.ts:58-66 | the query text is empty exactly when every value is undefined, null or the empty string |
| ApiClient.GetPath | unideal-client/src/lib/api.ts:56-69 | with no surviving parameter the path is unchanged; otherwise it is the path, `?` and the serialised query |
| ApiClient.BuildQuery | unideal-client/src/lib/api.ts:58-63 | the loop appends exactly the parameters with a defined value, in order |
| ApiClient.BodyText | unideal-client/src/lib/api.ts:72-93 | a request carries a body exactly when the data is given and truthy, and then it is the data stringified |
| ApiClient.Client.constructor | unideal-client/src/lib/api.ts:18-20 | the base URL is the configured one or `http://localhost:5000`; no token getter is set |
| ApiClient.Client.SetTokenGetter | unideal-client/src/lib/api.ts:23-25 | the client's getter becomes the given one |
| ApiClient.Client.CurrentToken | unideal-client/src/lib/api.ts:29 | a client without a getter sends no token; with one, the token is the getter's |
| ApiClient.Client.Call | unideal-client/src/lib/api.ts:28-53 | the fetch goes to the base URL plus the endpoint, with the request's headers |
| ApiClient.Client.Request | unideal-client/src/lib/api.ts:28-53 | the result is the settled reply of fetching the call, so a rejected `fetch` rejects the request unchanged |
| ApiClient.Client.GetRequest | unideal-client/src/lib/api.ts:56-69 | a GET of the path with its query string, and no body |
| ApiClient.Client.Send | unideal-client/src/lib/api.ts:72-93 | POST, PUT or PATCH of the path with the stringified body |
| ApiClient.Client.DeleteRequest | unideal-client/src/lib/api.ts:96-98 | a DELETE of the path, with no body |
| ApiClient.GetterTokenIsSent | unideal-client/src/lib/api.ts:29-34 | when the getter yields a non-empty token and the caller adds no headers, the request's headers are exactly the JSON content type and `Bearer` plus that token |

## Left out

- Clerk token verification, Svix signature checking, `fetch`, `JSON.stringify` and the `cuid` and `url` formats: foreign code, modelled as parameters.
- `process.env`, the clock and Prisma's generated ids: passed in as parameters.
- `console` logging, `app.listen`, helmet's security headers and express-rate-limit's standard headers: I/O and headers with no effect on status or body.
- App.Serve: the stages mounted before the general limiter are not modelled, and two of them can answer a request themselves. `cors()` (index.ts:18-25) answers OPTIONS preflight requests. `express.json({ limit: "10mb" })` (index.ts:29) passes a malformed JSON body, or one over 10 MB, to the error handler, which answers 500 `INTERNAL_ERROR`. Such requests never reach the limiter or a route; the model assumes every request is well-formed JSON and not a preflight.
- The category and college routers, and other unmatched routes: not part of this core; `App.Routed` answers them with the `elsewhere` parameter.
- Concurrency between requests and Prisma transactions: each handler call is one atomic step. When the wallet upsert in onboarding fails after the user update, the user update stays, as in the code.
- `createdAt`, `updatedAt`, `_count`, `averageRating` and the health check's timestamp: they come from the clock or from aggregates outside this model.
- Store reads other than `requireAuth`'s user lookup are modelled as never throwing. In the source a failing read is passed to the error handler and answered 500 (`requireVerified` does not catch its read, so a failure there is left to Express). This applies to the members below.
- UserRoutes.Onboard: the college lookup (users.ts:101-103) never fails in the model; in the source a failure there is answered 500 by the error handler.
- AuthMiddleware.RequireVerified: the verification-status read (auth.ts:84-87) never fails in the model.
- UserRoutes.Me: the `GET /me` read never fails in the model.
- UserRoutes.PublicProfile: the `GET /:id` read and the rating aggregate never fail in the model.
- Malformed webhook payloads (missing fields or wrong types): the event arrives already decoded by the signature check.
- App.RouteOf: Express's lenient path matching (trailing slashes, case-insensitive paths) and its percent-decoding of `req.params.id` are not modelled. Paths are compared exactly and the id is the raw path segment, so `GET /api/users/%63lx…` is looked up as the text `%63lx…`, not as `clx…`.
- Integers are unbounded `nat`; the source's JavaScript numbers never overflow at these sizes.
- ApiClient.Kept: JSON numbers are integers (`Json.JNum` holds an `int`), so a fractional, NaN or infinite query value, which `String(value)` turns into text such as `1.5` or `NaN`, cannot be given; `Json.ToJsString` covers integers only.
- Cloudinary.CloudinaryUrl: the width is a `nat`; the source accepts any JavaScript number and writes it into `w_${width}` as text (`w_1.5`, `w_NaN`), which the model cannot express.
- CommonSchemas.NumberOf: only the empty string and digit strings are interpreted; the model treats any other string as not a number, although JavaScript's `Number()` reads many of them (signs, decimals, surrounding whitespace, hex such as `0x10`, exponents such as `1e1`, `Infinity`), so `?limit=1e1` is 10 in the source and refused by the model.
- ApiClient.RequestHeaders: header names are case-sensitive map keys, and `options.headers` is a plain object and never a `Headers` instance.
- ApiClient.BuildQuery: the parameters are taken in the order given; JavaScript's `Object.entries` lists integer-like keys first.
- ApiClient.Client.CurrentToken: the token getter returns a fixed value; its asynchrony and a rejected promise are not modelled.
- ApiClient.ErrorFor: "Unknown error" appears when `error` is falsy, but the converse is not stated, because a server error whose text is literally "Unknown error" gives the same message.
- RateLimiter.FixedWindowLimiter.Handle: a refused request is not counted, so the hit count stops at `max`; the exact counter value express-rate-limit's memory store keeps beyond `max` is not modelled.
