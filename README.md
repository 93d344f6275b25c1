# Actix-Web-API account service, modelled in Dafny

The service is a web API that keeps player accounts for a game. Clients
register with a username and password and authenticate to get a signed
access token (a JWT). Accounts come in three roles: standard (`"s"`),
upgraded (`"u"`) and admin (`"a"`). An upgrade takes payment details and
is recorded as a transaction. Upgraded and admin accounts have a data row
with three save slots that they can write and read. Admins can list users
page by page, look a user up by username or id, delete, ban and unban.
Every failure is one of a fixed set of domain errors. Each error has a
message and an HTTP status code.

The model has these modules:

- `Wrappers`: `Option` and `Result`.
- `Text`: character classes, SQL `LOWER` on ASCII, decimal printing and
  parsing of numbers, and UTF-8 byte length.
- `Uuids`: the text forms of a UUID: the printed (hyphenated, lower-case)
  form and the four forms the parser accepts.
- `Errors`: the error enum, its messages and status codes, and the mapping
  of store, pool and transaction failures onto it.
- `Models`: the user row and its displayable form, the data row and its
  slots, and the request records.
- `Hashing`: password hashing. The Argon2 function is a parameter; the
  stored form of a hash is its bytes printed in decimal.
- `Tokens`: claims, token creation, decoding with the service's
  validation settings, and the middleware `validator`.
- `Responses`: the success bodies.
- `Db`: the row store. It is a class `Store` whose fields are the users,
  data and transactions tables, as maps. It has one method per database
  operation. `Valid()` is its invariant: rows are keyed by their id,
  credentials are never NULL, `ban_date` is set exactly when the row is
  banned, and usernames are unique up to case.
- `Validation`: the input validators of the handlers, with each regular
  expression restated as a predicate on characters.
- `Routes`: each handler as a gate. A gate either refuses the request with
  an error, answers it without the store, or forwards exactly one store
  call. `Dispatch` puts the token middleware of the `/admin` and `/utils`
  scopes in front of the handlers.
- `Service`: a request end to end, and multi-step scenarios over the store.

A store failure is an input. `Fault` names the one statement of an
operation that fails and the failure it reports. One fault is enough,
because every operation returns at its first failure. The statements are
numbered from 0 in the order the operation runs them. Only statements whose
failure the code turns into an error can fail in the model. In `get_users`
that is the row count (statement 0) alone: the code unwraps the result of
the page query, so a failure there is a panic, which the model does not
have (see "Left out"). Two failures arise
without a fault:
- a `query_one` that finds no row (or more than one) reports a failure
  with no SQLSTATE code, which becomes `UserNotFound`;
- an insertion whose primary key is already present reports
  `unique_violation` (`23505`), which becomes `UsernameTaken`. This
  assumes that `users.id`, `data.id` and `transactions.tx_id` are primary
  keys. The schema is not part of this model.

## Where the code and its comments differ

The model follows the code.

- The comment on `validate_password` asks for 10 to 30 characters with
  all four character kinds. The code accepts any string that does not
  match `^(.{0,9}|[^0-9]*|[^A-Z]*|[^a-z]*|[a-zA-Z0-9]*)$` and has at most
  30 bytes. `.` does not match a line feed, so `"aA1\n"` is accepted
  (`Validation.NewlinePasswordAccepted`). Without a line feed, at least 10
  characters are needed (`Validation.AcceptedPasswordLength`).
- The bound of 30 is in UTF-8 bytes, not characters.
- The payment name pattern `[a-z-A-Z]` also admits `-`
  (`Validation.NameAdmitsHyphen`). The address pattern admits `-` as well.
- `upgrade` looks the account up by the token's username, but it updates
  the role of, and inserts data for, the token's id.
- `del_user` leaves the user's data row in place.
- `save` on an id with no data row changes nothing and still succeeds.
- `register` of an admin inserts the user row and then the data row
  outside a transaction. If the second insertion fails, the user row stays.
- The stored form of a hash is not injective (`Hashing.DbFormNotInjective`).
- `decode_jwt` uses a fixed leeway of 3 seconds and never reads the
  configured `token-leeway`. The library does not check `iat`.

## Model

| member | source | states |
|---|---|---|
| Text.Lower | src/db.rs:39 | SQL `LOWER` keeps the length and lower-cases each ASCII capital, keeping every other character |
| Text.NatToString | src/db.rs:17-20 | a printed number is a non-empty string of decimal digits |
| Text.DecimalOfNatToString | src/db.rs:202 | reading a printed number back gives the number |
| Text.NatToStringLength | src/db.rs:202 | a number from 10^(k-1) to 10^k - 1 prints as exactly k characters, for every k of at least 1 |
| Text.DecimalValue | src/db.rs:202 | a numeral of k digits denotes a number below 10^k |
| Text.Utf8LenBounds | src/routes.rs:27 | a string's byte length is at least its character count, with equality exactly when it is ASCII |
| Uuids.Hyphenated | src/db.rs:203-204 | the printed id has 36 characters, hyphens at 8, 13, 18 and 23, and each nibble's lower-case hex digit elsewhere |
| Uuids.HyphenatedIsLowerHex | src/db.rs:203-204 | every non-hyphen character of the printed id is 0-9 or a-f |
| Uuids.TryParse | src/routes.rs:35 | only strings of 32, 36, 38 or 45 characters parse as an id |
| Uuids.ParseHyphenatedForm | src/routes.rs:35 | parsing the printed form of an id gives the id back |
| Errors.Info | src/errors.rs:33-56 | the `DbError` message is "Database Error: " followed by the code |
| Errors.DbErrorInfoInjective | src/errors.rs:52-54 | different codes give different `DbError` messages |
| Errors.FixedInfoHasNoColon | src/errors.rs:35-51 | no fixed message has a colon at position 14, where every `DbError` message has one |
| Errors.FixedInfoIsNotDbError | src/errors.rs:33-56 | no fixed message equals any `DbError` message |
| Errors.InfoInjective | src/errors.rs:33-56 | distinct errors have distinct messages, so a response body names its error |
| Errors.StatusCode | src/errors.rs:60-83 | 500 exactly for `Pool`, `DBTransaction` and `DbError`; 401 exactly for `Banned` and `UserNotFound`; 403 exactly for `Upgraded`, `NotUpgraded` and `NoPermission`; 400 for all others |
| Errors.ToResponse | src/errors.rs:85-90 | the response has the error's status code and a body whose `error` is its message; the status is 400, 401, 403 or 500 |
| Errors.FromPoolError | src/errors.rs:93-95 | every pool failure is `Pool` (status 500) |
| Errors.FromTransactionError | src/errors.rs:97-99 | every transaction failure is `DBTransaction` (status 500) |
| Errors.FromDbError | src/errors.rs:101-109 | no code gives `UserNotFound`, `23505` gives `UsernameTaken`, and any other code gives `DbError` with that code and the message "Database Error: " + code |
| Models.User.Displayable | src/models.rs:177-181 | password and salt become `None`; id, username, role, creation date, banned and ban date are kept |
| Models.DisplayableIdempotent | src/models.rs:177-181 | making a user displayable twice is the same as once |
| Models.JsonKeys | src/models.rs:167-170 | the `password` and `salt` keys are written exactly when present; the other six keys always are |
| Models.DisplayableHidesCredentials | src/models.rs:163-181 | a displayable user serialises without `password` and `salt` |
| Models.WriteSlot | src/db.rs:281-286 | writing a slot sets its save and timestamp and keeps the other two slots as they were |
| Hashing.DbForm | src/db.rs:17-20 | the stored form is all digits, one to three per hash byte |
| Hashing.CreateHash | src/db.rs:14-23 | it returns the salt it used, and the pair verifies against the password it was made from |
| Hashing.MatchHash | src/db.rs:25-33 | a stored hash verifies only if it is a decimal string of one to three digits per byte of the hash recomputed with the stored salt |
| Hashing.DbFormNotInjective | src/db.rs:17-20 | the byte strings [1, 23] and [12, 3] have the same stored form "123" |
| Tokens.CreateJwt | src/token.rs:18-28 | HS256; the issuer is the configured domain; id, user and role as given; exp - iat is the lifetime plus the gap between the two clock readings |
| Tokens.TokenLifetime | src/token.rs:24-25 | with readings in order, exp is at least iat plus the lifetime, and equal when both readings agree |
| Tokens.DecodeValidation | src/token.rs:31-33 | only HS256, leeway 3, expiry checked, issuer exactly the configured domain |
| Tokens.DecodeJwt | src/token.rs:30-39 | accepts exactly HS256 tokens signed with the configured secret, issued by the domain, with exp at least now - 3; returns their claims unchanged |
| Tokens.DecodeInvertsEncode | src/token.rs:35-37 | re-encoding the claims of an accepted token gives the token back |
| Tokens.IssuedTokenDecodes | src/token.rs:18-39 | a token the service issued decodes to its claims until 3 seconds past its expiry |
| Tokens.ExpiredTokenRejected | src/token.rs:32 | every token is rejected once now exceeds exp + 3 |
| Tokens.IssuerBinding | src/token.rs:20-33 | a token issued for one domain is rejected under another domain, even with the same secret |
| Tokens.ConfiguredLeewayUnused | src/token.rs:32 | the configured leeway does not change what is accepted |
| Tokens.Validator | src/token.rs:41-50 | the request passes unchanged exactly when the token decodes; otherwise the error is described as "Invalid Token" |
| Db.InsertFailure | src/db.rs:108-123 | an insertion succeeds exactly when no failure is injected and its key is new; a key clash becomes `UsernameTaken` |
| Db.TxId | src/db.rs:201-205 | the id is "tx_" followed by the printed number and twelve characters of the printed id, every character after the prefix a digit or a-f |
| Db.TxIdFormat | src/db.rs:202-205 | for a number from 10000 to 99998, the id is "tx_", five digits denoting the number, then the first six and the last six characters of the printed id (twenty characters, all hex after the prefix and digits) |
| Db.QueryUser | src/db.rs:35-54 | an injected failure is reported as is; otherwise a row exactly when `FindUser` selects one, and that row; no row is the failure without SQLSTATE, which becomes `UserNotFound` |
| Db.FindUser | src/db.rs:35-54 | by id, the row with that key; by username, a row exactly when one row matches case-insensitively, and then that row; with unique names, some row exactly when any matches |
| Db.MatchesUnderUniqueNames | src/db.rs:38-40 | with unique names, a username selects at most one row |
| Db.NewUser | src/db.rs:107-123 | the inserted row has the fresh id, username and role, the creation time, no ban, and credentials that verify against the password |
| Db.WithCredentials | src/db.rs:172-184 | only password and salt change, to the new hash and salt |
| Db.BanRow | src/db.rs:451-463 | only `banned` and `ban_date` change, to true and the ban time |
| Db.UnbanRow | src/db.rs:421-433 | only `banned` and `ban_date` change, to false and none |
| Db.UnbanUndoesBan | src/db.rs:416-474 | unbanning a freshly banned row gives the original row |
| Db.UpgradeRow | src/db.rs:241-252 | only the role changes, to "u" |
| Db.Pages | src/db.rs:347 | the page count is the row count divided by 20, rounded up; it is zero exactly when there are no rows |
| Db.RowOnItsPage | src/db.rs:347-350 | scan position j belongs to page j / 20 + 1, which exists, and lies within that page's offset range |
| Db.PageListsRow | src/db.rs:347-367 | every row of the scan is listed on page j / 20 + 1 at place j % 20, without its credentials |
| Db.PageRows | src/db.rs:349-367 | exactly min(20, rows - offset) rows (none past the end) for offset (page - 1) * 20, each the displayable form of the scan row at offset + i; none carries credentials; an existing page is non-empty |
| Db.UpgradeFailure | src/db.rs:219-267 | the upgrade transaction fails exactly when a statement or the commit fails or a key clashes |
| Db.Store.Auth | src/db.rs:56-80 | banned gives `Banned` without a password check; a wrong password or unknown name gives `UserNotFound`; success gives a token with the stored username, role and id; success implies an unbanned matching account |
| Db.Store.Register | src/db.rs:82-151 | a name taken up to case gives `UsernameTaken` and no change; otherwise exactly one row is added under the fresh id; role "a" also adds an empty data row and returns no token, and a data failure leaves the user row; any other role returns a token for the new account |
| Db.Store.UpdatePassword | src/db.rs:153-191 | a wrong current password gives `UserNotFound` and no write; on success only that user's password and salt change, and they verify against the new password |
| Db.Store.Upgrade | src/db.rs:199-278 | a stored role other than "s" gives `Upgraded` and no change; on success the transaction row, the role "u" for the token's id and an empty data row are written together; any failure leaves all three tables unchanged; the token has role "u" |
| Db.Store.Save | src/db.rs:280-299 | only the chosen slot and its timestamp of the caller's data row change; with no data row nothing changes and it still succeeds |
| Db.Store.Load | src/db.rs:301-336 | all three slots and timestamps of the data row, or `UserNotFound` when there is none |
| Db.Store.GetUsers | src/db.rs:338-378 | a page number above the page count gives `Page` (always, with no users); otherwise the page rows, `pages`, and `count` equal to the page length (1 to 20) |
| Db.Store.GetUser | src/db.rs:380-390 | the selected row in displayable form, or `UserNotFound` |
| Db.Store.DelUser | src/db.rs:392-414 | exactly the selected user row is deleted; the data row remains |
| Db.Store.Unban | src/db.rs:416-444 | a user who is not banned gives `NotBanned` and no change; otherwise only that row is unbanned |
| Db.Store.Ban | src/db.rs:446-474 | an already banned user gives `PriorBan` and no change; otherwise only that row is banned as of now |
| Validation.ValidateUsername | src/routes.rs:14-21 | acceptance is `Ok(true)`; any refusal is `CredsFormat` |
| Validation.UsernameIsAscii | src/routes.rs:15 | an accepted username is ASCII with 3 to 15 characters |
| Validation.UuidIsNeverUsername | src/routes.rs:34-42 | no string that parses as an id is an accepted username |
| Validation.ValidatePassword | src/routes.rs:25-32 | acceptance is `Ok(true)`; any refusal is `CredsFormat` |
| Validation.AcceptedPasswordIsStrong | src/routes.rs:25-32 | an accepted password has a digit, an upper-case and a lower-case letter, a non-alphanumeric character, and at most 30 bytes |
| Validation.ShortPasswordRejected | src/routes.rs:26 | every password of at most 9 characters without a line feed is refused |
| Validation.AcceptedPasswordLength | src/routes.rs:23-27 | an accepted password has 4 to 30 characters, and at least 10 without a line feed |
| Validation.NewlinePasswordAccepted | src/routes.rs:23-27 | the four-character password "aA1\n" is accepted |
| Validation.GetIdentifier | src/routes.rs:34-42 | a string that parses as an id names it; otherwise a valid username names itself; everything else is `CredsFormat` |
| Validation.IdentifierOfPrintedUuid | src/routes.rs:35-36 | the printed form of an id names that id |
| Validation.IdentifierOfUsername | src/routes.rs:37-39 | a valid username always names itself, never an id |
| Validation.NameOk | src/routes.rs:115 | `^[a-z-A-Z]{1,50}$`: 1 to 50 letters or `-` |
| Validation.AddressOk | src/routes.rs:116 | `^[a-z-A-Z-0-9-,-.-\s]{1,125}$`: 1 to 125 letters, digits, white space, `,`, `-` or `.` |
| Validation.CardNumberOk | src/routes.rs:117 | 13 to 16 decimal digits |
| Validation.CvcOk | src/routes.rs:118 | 3 or 4 decimal digits |
| Validation.ExpMonthOk | src/routes.rs:119 | the three alternatives of the month pattern, anchored at both ends |
| Validation.ExpYearOk | src/routes.rs:120 | exactly 2 decimal digits |
| Validation.Compliant | src/routes.rs:122-130 | every one of the seven payment fields matches its pattern |
| Validation.ExpMonthIsMonthNumeral | src/routes.rs:119 | the month pattern accepts exactly the one- or two-digit numerals of 1 to 12 |
| Validation.NameAdmitsHyphen | src/routes.rs:115 | the name pattern accepts "Mary-Jane" and "-" |
| Routes.CheckCreds | src/routes.rs:48-49 | credentials pass exactly when both username and password pass; otherwise `CredsFormat` |
| Routes.AuthRoute | src/routes.rs:46-56 | valid credentials, and only those, are forwarded to `auth` |
| Routes.RegisterRoute | src/routes.rs:60-70 | valid credentials, and only those, are forwarded to `register` with role "s" |
| Routes.RefreshRoute | src/routes.rs:74-84 | a new token (same user, role and id, the domain as issuer) exactly when exp - now is at most 30; otherwise `TokenDuration` |
| Routes.UpdatePasswordRoute | src/routes.rs:88-99 | forwarded for the token's user exactly when both passwords pass; otherwise `CredsFormat` |
| Routes.UpgradeRoute | src/routes.rs:113-145 | non-compliant payment gives `PaymentDetails` first; then a token role other than "s" gives `Upgraded`; otherwise forwarded with the token's user and id |
| Routes.SlotOfOpt | src/routes.rs:153-158 | options 1, 2 and 3 name slots one, two and three; no other option names a slot |
| Routes.SaveRoute | src/routes.rs:149-166 | role other than "u"/"a" gives `NotUpgraded` before the option is looked at; then a bad option gives `InvalidOpt`; otherwise forwarded for the token's id |
| Routes.LoadRoute | src/routes.rs:170-180 | forwarded for the token's id exactly when the role is "u" or "a"; otherwise `NotUpgraded` |
| Routes.CreateAdminRoute | src/routes.rs:184-197 | a non-admin gets `NoPermission`; otherwise valid credentials are forwarded to `register` with role "a", else `CredsFormat` |
| Routes.GetUsersRoute | src/routes.rs:201-215 | a non-admin gets `NoPermission`; a page of 0 or less gives `Parameter` and never reaches the store |
| Routes.AdminIdentifierRoute | src/routes.rs:219-279 | a non-admin gets `NoPermission`; otherwise the call is forwarded exactly when the identifier parses, else `CredsFormat` |
| Routes.Handle | src/main.rs:32-62 | each request goes to the handler its route names, with the claims of its token |
| Routes.Dispatch | src/main.rs:32-62 | an `/admin` or `/utils` request reaches its handler exactly when its token decodes; a refusal is "Invalid Token" |
| Routes.AdminRequiresAdminRole | src/routes.rs:184-279 | every admin request whose token role is not "a" is refused with `NoPermission` |
| Routes.AdminAccountsComeFromAdmins | src/routes.rs:60-197 | a forwarded registration has role "s" or "a"; "a" only from `create_admin` under a valid admin token; the credentials are always valid |
| Routes.ForwardedCallsAreChecked | src/routes.rs:46-279 | every forwarded call has passed its handler's checks (valid token, credentials, compliance, role, page number) |
| Routes.OwnDataByTokenId | src/routes.rs:133-180 | save, load and upgrade use the id in the caller's token |
| Routes.WithClient | src/routes.rs:51-53 | a pool failure turns a forwarded call into `Pool`; other gates are unaffected |
| Service.Execute | src/routes.rs:55-275 | runs the forwarded store call; keeps `Valid()`; read-only calls and a failure of the first statement leave the store unchanged |
| Service.Serve | src/main.rs:32-62 | a protected request with a bad token is refused with "Invalid Token" and no change; a non-admin's admin request gives `NoPermission` and no change; a pool failure changes nothing |
| Service.RegisterThenAuth | src/db.rs:56-151 | an account just registered authenticates with the same credentials and gets a role "s" token for its id |
| Service.RegisterTwice | src/db.rs:83-98 | a second registration of a name differing only in case gives `UsernameTaken` |
| Service.BanThenAuth | src/db.rs:56-80 | after a ban, authentication gives `Banned` whatever the password |
| Service.BanThenUnban | src/db.rs:416-474 | a ban followed by an unban succeeds and restores the users table |
| Service.UpgradeTwice | src/db.rs:207-214 | after an upgrade, replaying the old "s" token gives `Upgraded` |

## Left out

- The Argon2d computation and its cost parameters: the hash is a
  deterministic function parameter. No claim is made that a wrong password
  fails to verify.
- HMAC-SHA256 and the base64/JSON encoding of tokens: a token is the
  symbolic term (header, claims, MAC of key, algorithm and claims).
- Randomness and time are method parameters: the salt, `Uuid::new_v4`,
  the `tx_id` number and `Utc::now`. Every clock reading inside one store
  call is the same `now`. `create_jwt`'s two readings are the `TokenClock`.
- The handlers decode the token a second time with `.unwrap()`. The model
  gives them the claims the middleware accepted, at the same instant, so
  the panic of that unwrap is not modelled.
- A request without a bearer header is refused by the extractor before
  `validator` runs. This is not modelled: `Dispatch` takes a token.
- The Host and content-type guards, the JSON size limit, and the
  `Payload` and `Parameter` errors that deserialisation failures produce
  are not modelled (src/main.rs).
- The connection pool, async execution, `spawn_blocking` and concurrency:
  two requests never interleave.
- `src/config.rs` is not part of this model. The domain, secret, lifetime
  and leeway are the fields of `Config`.
- The SQL text and the schema: the tables are maps, and the key
  constraints are stated above.
- Db.Store.GetUsers: a failure of the page query (statement 1) panics in
  the code, through `.unwrap()`; the model cannot fail there and returns
  the page. Rows that fail to convert (`from_row_ref(...).unwrap()`) are
  not modelled either.
- Db.Store.GetUsers: requires a page number of at least 1. Below that, the
  negative OFFSET makes the page query fail and its `.unwrap()` panic. The
  handler never forwards such a page. The page count uses exact integer
  rounding up instead of `f64` `ceil`, and the 32-bit `page` and offset
  are unbounded integers.
- Db.Store.Upgrade: requires the transaction number to be in the
  generator's range, 10000 to 99998.
- Text.Lower: lower-cases only ASCII capitals. SQL `LOWER` also folds
  other letters. Every username that passes the validator is ASCII.
- The save payload (`models::game::SaveData`, which has floating-point
  fields) is an opaque JSON string. Serde's untagged response encoding is
  not modelled; `Responses.Response` lists the bodies.
- Hex digits above 9 in a parsed id may be of either case. The printed id
  is lower-case. Other `Uuid::try_parse` details (such as the error kind)
  are not modelled.
