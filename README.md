# International payments backend: a Dafny model of the request pipeline

This project models the server side of a small international-payments
portal: an Express application over MongoDB. Customers register, log in
and send payments to other customers. An administrator lists every payment
and marks each one verified or submitted to SWIFT. The model covers:

- the validation rules for every endpoint (`Validate`);
- the two home-grown request scrubbers: the markup stripper `CleanXss` and
  the NoSQL-operator key renamer `Sanitize`. Both run on a JSON value tree
  (`JsonValue`);
- the session token and the two session gates (`Session`, `AuthMiddleware`);
- the register, login and logout handlers (`AuthRoutes`);
- the payment routes (`PaymentRoutes`) and the admin routes (`AdminRoutes`);
- the user and payment schemas and their collections (`UserModel`,
  `PaymentModel`);
- the audit logger (`AuditLogger`);
- the seeding script (`SeedUsers`);
- from the server: the global error handler, the HTTPS redirect, and the
  csrf-token and health routes (`Server`).

Shared modules:

- `Wrappers` holds the `Option` and `Result` types and decimal numbers.
- `Http` holds requests, responses and the two ways a handler can finish:
  it answers, or it forwards an error to the error handler.

Form of the model:

- Stores whose documents the code changes become classes, with methods
  that change their fields:
  - `UserModel.UserCollection` and `PaymentModel.PaymentCollection` hold
    the documents;
  - `AuditLogger.AuditLog` is append-only.
- Handlers are methods over those classes.
- Regexes, validation rules and the error mapping are functions and
  predicates.
- Each regex is kept as data (`Validate.Pattern`) next to a plain rule on
  strings. A `...Meaning` lemma proves the two agree in both directions.
- The clock, the CSRF verdict, the `NODE_ENV` flag and the outcome of each
  fire-and-forget audit insert are all parameters.
- bcrypt is modelled as a free constructor: `Hashed(x)` differs from every
  other value.
- A JWT is a record whose signature either checks out or does not.

The model states what the code does, including these points where it is
easy to misread:

- Account numbers are 6 to 31 characters: one word character, then 5 to 30
  more (`Validate.AccountNumberRegexMeaning`). The first character must not
  be `-`.
- Full names may contain ASCII letters only; accented letters are refused
  (`Validate.FullNameRegexMeaning`).
- An amount needs only to be a number above zero. No rule limits its
  decimal places (`Validate.PaymentAcceptance`).
- The payment status order Pending, then Verified, then Submitted is not
  enforced. Submit applies to a Pending payment directly, and verify moves
  a Submitted payment back (`AdminRoutes.StatusOrderNotEnforced`).
- Any authenticated role may create a payment (`PaymentRoutes.CreatePayment`).
- Validation runs before the self-payment check. A payment to oneself with
  an invalid body gets the validation 400, not the self-payment 400.
- `cleanXSS.js` and `sanitize.js` are not mounted. `server.js:38-39`
  installs the library middlewares express-mongo-sanitize and xss-clean
  instead. Both scrubbers are modelled as written, and no route model runs
  them.
- Stripping a script tag does not make a string clean. `cleanString`
  deletes each pattern in one pass, so its output can again hold
  `javascript:` (`CleanXss.SchemeCanReassemble`) or a tag
  (`CleanXss.TagCanReassemble`).
- A registered user cannot log in, for two separate reasons (see Findings).

## Model

| member | source | states |
|---|---|---|
| Wrappers.NatToDecimal | backend/routes/payments.js:71 | the decimal rendering of an id is non-empty and all digits |
| Wrappers.ParseDecimal | backend/routes/admin.js:31 | a route id parses exactly when it is a non-empty run of decimal digits |
| Wrappers.ParseDecimalOfNatToDecimal | backend/routes/payments.js:71 | an id printed into a string reads back as the same id |
| Validate.FullNameRegexMeaning | backend/middleware/validate.js:5 | the full-name pattern matches exactly the strings of 2–100 characters, each an ASCII letter, JavaScript whitespace, `.`, `'` or `-` |
| Validate.IdNumberRegexMeaning | backend/middleware/validate.js:6 | the id pattern matches exactly the strings of 13 ASCII digits |
| Validate.AccountNumberRegexComplete | backend/middleware/validate.js:7 | every string of 6–31 characters from `[A-Za-z0-9_-]` that does not start with `-` matches the account-number pattern |
| Validate.AccountNumberRegexSound | backend/middleware/validate.js:7 | every match of the account-number pattern has 6–31 characters from `[A-Za-z0-9_-]` and does not start with `-` |
| Validate.AccountNumberRegexMeaning | backend/middleware/validate.js:7 | both directions together: the account-number pattern matches exactly that rule |
| Validate.SwiftRegexComplete | backend/middleware/validate.js:8 | every 8- or 11-character string of six upper-case letters followed by upper-case letters or digits matches the SWIFT pattern |
| Validate.SwiftRegexSound | backend/middleware/validate.js:8 | every match of the SWIFT pattern is 8 or 11 characters: six upper-case letters, then upper-case letters or digits |
| Validate.SwiftRegexMeaning | backend/middleware/validate.js:8 | both directions together: the SWIFT pattern matches exactly that rule |
| Validate.CurrencyRegexMeaning | backend/middleware/validate.js:9 | the currency pattern matches exactly three upper-case ASCII letters |
| Validate.ChainErrorsEmpty | backend/middleware/validate.js:13-28 | a rule chain reports nothing exactly when its field is present and passes, or is absent and optional |
| Validate.MissingRequiredFieldReportedTwice | backend/middleware/validate.js:13-16 | an absent required field is reported twice: once with the default message from `.exists()`, once with the chain's own message |
| Validate.RunChainsCollectsAll | backend/middleware/validate.js:29-32 | the error list holds every failure of every chain, and nothing else |
| Validate.RunChainsEmpty | backend/middleware/validate.js:29-33 | the error list is empty exactly when every chain of the list is satisfied |
| Validate.ValidationGate | backend/middleware/validate.js:29-34 | the gate calls `next()` exactly when there is no failure; otherwise it rejects with every failure |
| Validate.RegisterAcceptance | backend/middleware/validate.js:12-35 | a registration body passes exactly when all four fields are present, name, id and account number fit their rules, and the password has at least 8 characters |
| Validate.LoginAcceptance | backend/middleware/validate.js:37-52 | a login body passes exactly when the account number fits its rule and the password has at least 8 characters |
| Validate.PaymentAcceptance | backend/middleware/validate.js:54-77 | a payment body passes exactly when the receiver account fits the account rule, the amount is a number above 0, the currency fits its rule, and a SWIFT code, if present, fits its rule |
| Validate.ProfileUpdateAcceptance | backend/middleware/validate.js:79-88 | both profile fields are optional, and a present one must fit the registration rule |
| CleanXss.SchemeHit | backend/middleware/cleanXSS.js:8 | a case-insensitive `javascript:` at a position is a match of exactly its 11 characters |
| CleanXss.CloseScriptFrom | backend/middleware/cleanXSS.js:6 | the lazy `.*?<\/script>` ends right after the first closing tag, when only ordinary same-line text comes before it |
| CleanXss.ScriptBlockMatch | backend/middleware/cleanXSS.js:6 | `<script>` + inline text + `</script>` is one match of the script pattern |
| CleanXss.NoAngleNoMarkup | backend/middleware/cleanXSS.js:6-7 | a string without `<` matches neither markup pattern anywhere |
| CleanXss.ReplaceFrom | backend/middleware/cleanXSS.js:6-9 | a global delete either returns its input or something strictly shorter |
| CleanXss.KeepStep | backend/middleware/cleanXSS.js:6-9 | where the pattern does not match, the global delete keeps the character and goes on |
| CleanXss.DropStep | backend/middleware/cleanXSS.js:6-9 | where the pattern matches, the global delete drops the whole match and resumes after it |
| CleanXss.ReplaceFromUnchanged | backend/middleware/cleanXSS.js:6-9 | a delete pass leaves its input unchanged exactly when the pattern matches nowhere in it |
| CleanXss.DeleteAllUnchanged | backend/middleware/cleanXSS.js:6-9 | a whole-string pass is the identity exactly when the pattern matches nowhere |
| CleanXss.OneMatchDeleted | backend/middleware/cleanXSS.js:6-9 | a pass over a stretch whose only match runs from `m` to `e` returns the stretch without that match |
| CleanXss.MiddleMatchDeleted | backend/middleware/cleanXSS.js:6-9 | a pass over `a + b + c` that matches exactly `b`, and nothing in `a` or `c`, returns `a + c` |
| CleanXss.CleanString | backend/middleware/cleanXSS.js:4-10 | cleanString never lengthens its input |
| CleanXss.CleanStringUnchangedIff | backend/middleware/cleanXSS.js:4-10 | cleanString returns its input unchanged exactly when none of the four patterns matches it |
| CleanXss.PlainTextUnchanged | backend/middleware/cleanXSS.js:4-10 | a string with no `<`, no `javascript:` and no `on…="…"` comes back unchanged |
| CleanXss.ScriptBlockRemoved | backend/middleware/cleanXSS.js:4-10 | a script block holding any inline text is deleted entirely |
| CleanXss.SchemeDeletedOnce | backend/middleware/cleanXSS.js:8 | deleting the `javascript:` in `java` + `javascript:` + `script:` keeps both sides, which join up |
| CleanXss.SchemeCanReassemble | backend/middleware/cleanXSS.js:4-10 | cleanString of `javajavascript:script:` is `javascript:`: the output can still carry the scheme |
| CleanXss.TagCanReassemble | backend/middleware/cleanXSS.js:4-10 | cleanString of `<<a>a>` is `<a>`, which cleans to "": cleanString is not idempotent |
| CleanXss.DeepClean | backend/middleware/cleanXSS.js:12-18 | the in-place walk leaves exactly the tree in which every string slot is cleaned and every nested container walked, and returns any other value at once |
| CleanXss.CleanXssMiddleware | backend/middleware/cleanXSS.js:20-29 | body and params are deep-cleaned, the query is left alone, and `next()` is called exactly once |
| CleanXss.DeepCleanedKeepsSkeleton | backend/middleware/cleanXSS.js:14-17 | deepClean changes nothing but strings: keys, numbers, booleans, nulls and shapes are kept |
| CleanXss.DeepCleanedFixesCleanTrees | backend/middleware/cleanXSS.js:12-18 | a tree whose strings are all clean already comes back unchanged |
| CleanXss.ScriptPayloadInBodyRemoved | backend/middleware/cleanXSS.js:15 | a body field holding a script block is emptied |
| JsonValue.Lookup | backend/middleware/sanitize.js:12 | `obj[k]` finds a value exactly when `k` is a key of the object |
| JsonValue.Put | backend/middleware/sanitize.js:9 | `obj[s] = v`: `s` now holds `v`, every other key is unchanged, and keys stay unique |
| JsonValue.Remove | backend/middleware/sanitize.js:10 | `delete obj[k]`: `k` is gone and every other key is unchanged |
| Sanitize.ReplaceAll | backend/middleware/sanitize.js:8 | a global character replace changes exactly the occurrences of that character |
| Sanitize.SafeKey | backend/middleware/sanitize.js:8 | the new key has every `$` and `.` turned into `_`, the same length, and is never selected again |
| Sanitize.Renamed | backend/middleware/sanitize.js:7-8 | a key keeps its name exactly when it neither starts with `$` nor contains `.`; the final name is never selected |
| Sanitize.InnerDollarKept | backend/middleware/sanitize.js:7 | `a$b` and `amount` keep their names; `$gt` becomes `_gt` and `a.b` becomes `a_b` |
| Sanitize.MoveKey | backend/middleware/sanitize.js:9-10 | the value moves to the new key, overwriting whatever was there; the old key is gone and nothing else changes |
| Sanitize.SanitizeAsWritten | backend/middleware/sanitize.js:4-16 | the walk as written throws exactly on a non-empty object or array, after renaming at most the first key; any other value passes unchanged |
| Sanitize.SanitizeRequestAsWritten | backend/middleware/sanitize.js:3-22 | the middleware as written raises the ReferenceError exactly when body or params has an entry, and otherwise calls `next()` with the request untouched |
| Sanitize.LoginBodyRaises | backend/middleware/sanitize.js:12 | even a login body with no key to rename is refused with the ReferenceError |
| Sanitize.Moved | backend/middleware/sanitize.js:7-10 | one key's rename: the key set loses the old name and gains the new one, and the value goes with it |
| Sanitize.Sanitized | backend/middleware/sanitize.js:4-16 | the intended walk leaves no selected key at any depth, its top-level keys are exactly the renamed originals, arrays keep their length, and safe trees and non-containers come back unchanged |
| Sanitize.SanitizedItems | backend/middleware/sanitize.js:6-15 | an array's elements are walked one by one; each result is safe and no deeper |
| Sanitize.SanitizedItemsAt | backend/middleware/sanitize.js:6-15 | element `t` of a walked array is element `t` walked |
| Sanitize.VisitOnce | backend/middleware/sanitize.js:7-13 | one loop turn renames the key, then stores the walked value under its final name, keeping the loop invariant |
| Sanitize.UpToVisited | backend/middleware/sanitize.js:6-15 | after any number of turns of the loop over the keys taken on entry, the keys visited so far are renamed, the rest are untouched, the visited members are safe and no value is deeper than the object |
| Sanitize.VisitOnceKeeps | backend/middleware/sanitize.js:7-13 | a loop turn changes no key but the visited one and its new name |
| Sanitize.UpToKeeps | backend/middleware/sanitize.js:6-15 | a run of loop turns leaves a key's value alone when none of them visits it or renames onto it |
| Sanitize.SanitizedValue | backend/middleware/sanitize.js:7-13 | value preservation: each top-level key that no other key renames onto holds its own walked value under its final name; an untouched key keeps its value |
| Sanitize.SanitizedPair | backend/middleware/sanitize.js:7-12 | two scalar members with distinct final names keep their values under their final names |
| Sanitize.SanitizedOperatorExample | backend/middleware/sanitize.js:7-12 | `{"amount": 5, "$gt": "x"}` becomes `{"amount": 5, "_gt": "x"}` |
| Sanitize.VisitKey | backend/middleware/sanitize.js:7-13 | one turn of the loop body computes exactly `VisitOnce` |
| Sanitize.SanitizeMembers | backend/middleware/sanitize.js:6-15 | the loop over an object's keys computes exactly the members after every key has been visited in order (`SanitizedUpTo`) |
| Sanitize.SanitizeItems | backend/middleware/sanitize.js:6-15 | the loop over an array computes exactly `SanitizedItems` |
| Sanitize.SanitizeIntended | backend/middleware/sanitize.js:4-16 | the recursive walk computes exactly `Sanitized` |
| Sanitize.SanitizeRequest | backend/middleware/sanitize.js:18-21 | body and params become their `Sanitized` trees, which are safe, and the query is passed on untouched |
| Http.TokenCookieOptions | backend/routes/auth.js:33-38 | the session cookie is httpOnly, secure and strict in production, lax otherwise, with a one-hour maxAge unless it is being cleared |
| Session.Issue | backend/routes/auth.js:29-31 | a signed token carries the user's id and role and expires one hour after issue, in whole seconds |
| Session.Authenticate | backend/middleware/auth.js:7-16 | no cookie gives NoToken; a bad signature or an expired token gives BadToken; otherwise the payload's user and role are accepted |
| Session.IssuedTokenAcceptedWithinTheHour | backend/routes/auth.js:29-31 | an issued token is accepted, with its own user and role, for 3599 seconds after issue |
| Session.IssuedTokenRejectedAfterTheHour | backend/routes/auth.js:29-38 | once the cookie's maxAge has run out, the token is refused too |
| Session.ForgedTokenRejected | backend/middleware/auth.js:13-20 | a token whose signature fails is refused, whatever it claims |
| AuditLogger.EntryFor | backend/utils/auditLogger.js:6-12 | the record names the user, or "system" when there is none; it uses `req.ip`, or the forwarded-for header when the ip is empty |
| AuditLogger.AuditLog.LogAction | backend/utils/auditLogger.js:4-16 | a successful insert appends exactly one entry; a failed one changes nothing and is swallowed |
| AuthMiddleware.SessionGate | backend/middleware/auth.js:6-22 | 401 with "No token…" or "Token is not valid", or passage with exactly the payload's user and role |
| AuthMiddleware.GateEntries | backend/middleware/auth.js:7-20 | a refusal whose insert succeeds adds one "system" entry, "no token" or "Invalid JWT"; passage or a failed insert adds none |
| AuthMiddleware.AuthenticateUser | backend/middleware/auth.js:6-22 | the answer is the gate's whatever the audit insert does; the log grows by exactly `GateEntries`: one "system" entry per refusal when the insert succeeds, none on passage |
| UserModel.ParseRole | backend/models/User.js:10 | only "customer" and "admin" are roles |
| UserModel.RoleNameRoundTrip | backend/models/User.js:10 | role names and roles convert back and forth without loss |
| UserModel.BcryptCompare | backend/models/User.js:29 | compare rejects exactly when there is no stored hash |
| UserModel.CompareHashedOnce | backend/models/User.js:28-30 | a password hashed once matches exactly its own plain text |
| UserModel.CompareHashedTwice | backend/models/User.js:16-20 | a password hashed twice matches no plain text |
| UserModel.ViewOf | backend/models/User.js:9 | a query result carries every field but the password |
| UserModel.ComparePassword | backend/models/User.js:28-30 | `comparePassword` on a once-hashed password holds exactly for that password |
| UserModel.PreSave | backend/models/User.js:16-25 | the hook hashes the password when it was modified, and keeps it otherwise |
| UserModel.Stored | backend/models/User.js:4-25 | a new document keeps its fields, has its password hashed by the hook, and takes role customer when none is given |
| UserModel.UserCollection.FindOne | backend/models/User.js:8-9 | finds the document under the account number, if any, without its password |
| UserModel.UserCollection.FindOneWithPassword | backend/models/User.js:8-9 | the same lookup with the password selected |
| UserModel.UserCollection.Save | backend/models/User.js:4-25 | invalid drafts and taken account numbers change nothing; otherwise exactly one hashed document is added under a fresh id |
| PaymentModel.NewPayment | backend/models/Payments.js:4-14 | a new payment keeps the supplied fields, with status "Pending" and createdAt set to now |
| PaymentModel.WithStatus | backend/routes/admin.js:34 | setting the status changes no other field |
| PaymentModel.WithStatusIdempotent | backend/routes/admin.js:34 | setting a status twice is setting it once |
| PaymentModel.CollectedContents | backend/routes/admin.js:16 | the stored payments are listed once each, in increasing id order |
| PaymentModel.CollectedAll | backend/routes/admin.js:16 | `find({})` holds every stored payment and nothing else |
| PaymentModel.InsertByDate | backend/routes/admin.js:19 | inserting into a newest-first list keeps it newest first and adds exactly that payment |
| PaymentModel.SortNewestFirst | backend/routes/admin.js:19 | `sort({createdAt: -1})` is newest first and a permutation of its input |
| PaymentModel.Directory | backend/routes/admin.js:17-18 | every user is found by its id, with only fullName and accountNumber |
| PaymentModel.Populate | backend/routes/admin.js:17-18 | populating keeps every payment field and replaces each reference by its user, or null when the user is gone |
| PaymentModel.PopulateAll | backend/routes/admin.js:17-18 | a listing keeps its length and order, and each entry is populated |
| PaymentModel.PaymentCollection.Create | backend/routes/payments.js:60-69 | a draft missing a required field stores nothing; otherwise exactly one new payment is stored under a fresh id |
| PaymentModel.PaymentCollection.FindById | backend/routes/admin.js:31 | finds the payment stored under the id, if any |
| PaymentModel.PaymentCollection.SaveStatus | backend/routes/admin.js:34-35 | only that payment's status changes |
| PaymentModel.PaymentCollection.FindAll | backend/routes/admin.js:16 | returns the whole collection in id order |
| PaymentRoutes.Involving | backend/routes/payments.js:30-32 | the `$or` filter keeps exactly the payments the user sent or received |
| PaymentRoutes.OwnHistoryContents | backend/routes/payments.js:30-35 | GET /me lists exactly the caller's stored payments, newest first, populated |
| PaymentRoutes.MyPayments | backend/routes/payments.js:12-44 | `authCookie` refuses with 401 and no audit entry; otherwise the caller's history is returned and one view is audited |
| PaymentRoutes.PaymentDraftFor | backend/routes/payments.js:60-67 | sender is the caller, receiver the found user, payee the receiver account, currency defaults to "USD", SWIFT to "NOT_REQUIRED_YET"; a validated body always gives a storable draft |
| PaymentRoutes.CreatedActionNamesPayment | backend/routes/payments.js:71 | the audit action is "Created Payment " followed by the new payment's id, which reads back |
| PaymentRoutes.CreatePayment | backend/routes/payments.js:47-78 | the gates run session, then CSRF, then validation; an unknown receiver gets 404 and a payment to oneself 400, both storing nothing; otherwise exactly one Pending payment is stored, audited and returned with 201 |
| AdminRoutes.AdminGate | backend/routes/admin.js:7-11 | 403 "Access denied. Admin role required." exactly for non-admins |
| AdminRoutes.AllPaymentsContents | backend/routes/admin.js:16-19 | the admin listing holds every stored payment once, newest first |
| AdminRoutes.AllPayments | backend/routes/admin.js:14-26 | session gate, then role gate, then the full listing; the log grows by the session gate's refusal entry and nothing else |
| AdminRoutes.StatusUpdated | backend/routes/admin.js:34-35 | only the targeted payment's status changes |
| AdminRoutes.StatusUpdateIdempotent | backend/routes/admin.js:34-35 | verify and submit are idempotent |
| AdminRoutes.StatusOrderNotEnforced | backend/routes/admin.js:51-52 | Pending goes straight to Submitted, and Submitted goes back to Verified |
| AdminRoutes.SetStatusRoute | backend/routes/admin.js:29-42 | session refusal 401 and non-admin 403, both unchanged; an unparsable id gives 500, an unknown id 404, both unchanged; otherwise the status is overwritten and the payment echoed; the log grows only by the session gate's refusal entry |
| AdminRoutes.Verify | backend/routes/admin.js:29-42 | 401, 403, 500 and 404 as for every status route, each leaving the store unchanged; an admin's verify of a stored payment sets "Verified" whatever the prior status and echoes it with "Payment verified."; only the session gate audits |
| AdminRoutes.Submit | backend/routes/admin.js:45-59 | 401, 403, 500 and 404 as for every status route, each leaving the store unchanged; an admin's submit of a stored payment sets "Submitted" whatever the prior status and echoes it; only the session gate audits |
| AuthRoutes.CsrfThenValidation | backend/routes/auth.js:13 | register and login check CSRF first, then the rules; each failure answers without reaching the handler |
| AuthRoutes.NewCustomer | backend/routes/auth.js:20-26 | a registered user is always a customer, under the body's account number |
| AuthRoutes.Registered | backend/routes/auth.js:29-51 | the reply echoes the user without the password or the token, and sets the token cookie |
| AuthRoutes.RegisterBodyComplete | backend/middleware/validate.js:12-28 | a body the registration rules accept has all four fields non-empty |
| AuthRoutes.Register | backend/routes/auth.js:13-56 | a taken account number gets 400 and stores nothing; a password that is not a JSON string makes bcrypt reject, giving 500 and storing nothing; otherwise one customer is stored with a doubly hashed password, audited, and sent a cookie |
| AuthRoutes.RegisterFixed | backend/routes/auth.js:13-56 | the same handler storing the password hashed once |
| AuthRoutes.LoginVerdictFixed | backend/routes/auth.js:62-66 | a login succeeds exactly when the account exists, the password is a JSON string and it matches the hash; compare rejects exactly when the account exists and the password is not a string |
| AuthRoutes.LoginResponse | backend/routes/auth.js:63-85 | 401 "Invalid credentials." for an unknown account or a wrong password, 500 when compare rejects, otherwise `{msg, role}` and the token cookie |
| AuthRoutes.LoginAsWrittenNeverSucceeds | backend/routes/auth.js:62-66 | as written, an unknown account gets 401 and every existing account gets 500 |
| AuthRoutes.FixedLoginFailuresIndistinguishable | backend/routes/auth.js:62-66 | with the password loaded, an unknown account and a wrong password get the identical answer |
| AuthRoutes.RegisteredAsWrittenCannotLogIn | backend/routes/auth.js:19 | a user stored by the register handler as written matches no password |
| AuthRoutes.RegisteredFixedLogsIn | backend/routes/auth.js:19-27 | a user stored by the fixed register logs in with their own password |
| AuthRoutes.Login | backend/routes/auth.js:59-86 | login as written: the gates, then 401 or 500 from the verdict; no audit entry |
| AuthRoutes.LoginFixed | backend/routes/auth.js:59-86 | login with the password loaded: a success is audited and sets the cookie; a non-string password against an existing account gets 500 |
| AuthRoutes.LoggedOut | backend/routes/auth.js:91-98 | logout clears the cookie with the same options but no maxAge |
| AuthRoutes.Logout | backend/routes/auth.js:89-103 | the session gate, whose refusal answers 401 and adds only its own "system" entry; then CSRF; then the cookie is cleared and the logout is audited under the token's user |
| SeedUsers.SeedList | backend/seedUsers.js:13-35 | two customers and one admin, `admin0001`, with distinct account numbers |
| SeedUsers.SeedsValid | backend/seedUsers.js:13-35 | every seed passes the schema |
| SeedUsers.SeedAccountsFitRegistration | backend/seedUsers.js:13-35 | the seeded account numbers satisfy the registration rule |
| SeedUsers.SeedIdNumbersFitRegistration | backend/seedUsers.js:13-35 | the seeded id numbers satisfy the registration rule |
| SeedUsers.InsertMissing | backend/seedUsers.js:44-53 | existing documents are untouched and only seeds are added, each hashed once; a completed loop leaves every seed present, and a run over present seeds changes nothing |
| SeedUsers.Run | backend/seedUsers.js:38-60 | errors are caught and disconnect always runs; a completed run leaves every seed present, so running again adds nothing |
| Server.ErrorHandler | backend/server.js:96-102 | a CSRF error gives 403 with its fixed message; any other error keeps a truthy status (else 500) and a non-empty message (else "Server error.") |
| Server.Dispatch | backend/server.js:96-102 | a forwarded error is answered by the error handler, and a handled request by its own response |
| Server.CsrfRefusalIs403 | backend/server.js:98-100 | every CSRF refusal reaches the client as 403 |
| Server.SanitizeAsWrittenAnswers500 | backend/server.js:101 | the sanitizer as written would turn every request with a body into 500 "safeKey is not defined" |
| Server.RedirectRule | backend/server.js:65-71 | in production, a request that is not secure and not forwarded as https gets a 301 to the https URL; every other request passes |
| Server.RedirectTargetPasses | backend/server.js:67 | a request over TLS, or forwarded as https, or outside production, is not redirected |
| Server.CsrfTokenRoute | backend/server.js:76-78 | GET /api/csrf-token answers 200 with the token |
| Server.HealthRoute | backend/server.js:93 | GET /api/health answers 200 `{status: "ok"}` |

## Left out

- The frontend is not part of this model.
- backend/middleware/csrf.js only configures csurf. The CSRF verdict is the boolean `csrfOk` of each request.
- bcrypt is a free constructor. Salts, the cost factor 12 and the 72-byte input limit are not modelled.
- jsonwebtoken is a record with a signature flag and `exp` in whole seconds. The `iat` claim and the secret are not modelled.
- Database failures are not modelled. This covers connection loss, a failed insert or save, and a thrown query. The stores are maps and their operations succeed, so the 500 catch branches are not modelled beyond the unparsable payment id. That holds for register, login, logout, `/me`, payment creation and the admin routes.
- An ObjectId is a natural number, and a route id is cast by reading decimal digits rather than 24 hex digits.
- `populate` is a lookup in a map from user id to the two selected fields, `fullName` and `accountNumber`. Query mechanics are not modelled.
- Sorting: payments with equal `createdAt` come back in whatever order MongoDB picks. The model states only that the list is newest first and a permutation of the input.
- `timestamps: true` on users (createdAt, updatedAt) is not modelled.
- `isFloat` parsing and express-validator's `toString` of a field are given: a body field is its text, the number it parses to, and whether its JSON value is a string.
- Object key order: both walkers visit keys in stored order. JavaScript's rule that integer-like keys come first is not modelled.
- In-place mutation: deepClean and the sanitizer walk are modelled as rebuilding the tree. Request bodies come from `JSON.parse` and share no sub-objects, so aliasing does not arise.
- Async ordering and fire-and-forget scheduling are not modelled. Each request is one sequential step, and the outcome of each audit insert is a parameter.
- helmet, HSTS, CORS, the rate limiter, the JSON size limit, cookie parsing, TLS certificate loading, port binding and the HTTP redirector server are not modelled. The library sanitizers express-mongo-sanitize and xss-clean are foreign code.
- Console logging is not modelled.
- Sanitize.SanitizedValue: states the value under a final key only when no other key is renamed onto it. When two keys collide, `Sanitize.Sanitized` still fixes the result, one rename at a time, as `Sanitize.MoveKey` states; no lemma says which key wins.
- RegisterFixed: takes a non-string password by its text. Mongoose's String cast does the same for numbers and booleans. An object password, which that cast refuses and the catch turns into 500, is not modelled.
- CleanXss.ReplaceFrom: models the four patterns through per-position matchers (`ScriptMatchAt`, `TagMatchAt`, `SchemeMatchAt`, `HandlerMatchAt`), not a general regex engine. The `i` flag folds ASCII letters only.
- AuthRoutes.Login: the success branch with its audit entry is unreachable as written, so it is modelled only in `AuthRoutes.LoginFixed`.
- The profile-update rules (`profileUpdateValidation`) are mounted on no route; only their acceptance is modelled.

## Findings

| source | as written | input that shows it | evidently intended | confidence | as-written member | corrected member |
|---|---|---|---|---|---|---|
| backend/middleware/sanitize.js:12 | reads `safeKey`, which is declared inside the `if` block at line 8, so the first loop turn throws a ReferenceError | any body with a key, e.g. `{"accountNumber":"10000001","password":"Secur3P@ssw0rd"}` | walk the value under its final key, then go on to the next key | not executed | Sanitize.SanitizeRequestAsWritten, Sanitize.LoginBodyRaises | Sanitize.SanitizeRequest |
| backend/routes/auth.js:65 | compares against `user.password`, which `select: false` (backend/models/User.js:9) leaves out of the query result, so `bcrypt.compare` rejects | any existing account, with any password | load the password with the user and compare against it | not executed | AuthRoutes.Login, AuthRoutes.LoginAsWrittenNeverSucceeds | AuthRoutes.LoginFixed, AuthRoutes.FixedLoginFailuresIndistinguishable |
| backend/routes/auth.js:19 | hashes the password before `new User`, and the pre-save hook (backend/models/User.js:18-20) hashes it again | register with password `Secur3P@ssw0rd`, then log in with it | store the password hashed once | not executed | AuthRoutes.Register, AuthRoutes.RegisteredAsWrittenCannotLogIn | AuthRoutes.RegisterFixed, AuthRoutes.RegisteredFixedLogsIn |
