# Series Locker API: a verified model of its core

Series Locker is an Express and Mongoose backend. A signed-up user keeps a list of TV series
they have watched or plan to watch. This project models its core in Dafny and proves
properties of the model:

- **the listing query builder** `APIFeatures` (`Utils/apiFeatures.js`). It is a class whose
  stages each append operations to `query`. The filter stage strips the reserved keys and
  prefixes the whole words `lt`, `lte`, `gt`, `gte` with `$`.
- **the user document** (`Models/userModel.js`):
  - the schema's checks;
  - the two pre-save hooks, which hash a changed password and record when it changed;
  - `changedPasswordAfter` and `createPasswordResetToken`;
  - the user collection with its unique email index.
- **the authentication handlers** (`Controllers/authController.js`): sign-up, login, the route
  guard `protect`, the two password-reset steps and logout. They are modelled as methods that
  change the user collection, the request and the response (cookies, status, body).
- **the global error handler** (`Controllers/errorController.js`). It turns an error that
  reached `next(err)` into the response sent in development and in production.
- **the series document and handlers** (`Models/seriesModel.js`, `Controllers/seriesController.js`):
  - required fields and the `watchingType` enum;
  - the slug hook and the `createdAt` default;
  - the count filter of the listing;
  - the per-user duplicate-name check;
  - the "new value if truthy" merge of an update;
  - which lookups are scoped to the caller.

Time, randomness and library calls are parameters: the handlers receive
- `now` (milliseconds),
- the 32 random bytes,
- token signing and verification,
- the email check,
- `slugify`,
- the date parser,
- whether the mail transport failed.

bcrypt and SHA-256 are symbolic. `Bcrypt(text, 12)` and `Sha256(text)` are equal only for
equal texts.

Where the code's evident intent and its behaviour differ, the model follows the behaviour:

- `forgotPassword` writes the status beside `next(...)` rather than inside `new AppError(...)`.
  So its "no such user" and "mail failed" errors carry no status code, and the handler sends
  them as 500s. `AuthController.NoSuchEmailIsServerError` states this. That answer also tells
  the client whether the email is registered.
- The duplicate-key mapper has one fixed message, about a series name. A sign-up with a taken
  email gets that message (`AuthController.TakenEmailAnswer`).
- Filter keys whose value is `undefined` are taken to be dropped (see "## Left out"). Under
  that reading `forgotPassword` without an email picks the first user, and `createSeries`
  without a name is refused as a duplicate as soon as the caller owns any series.
- `updateSeries` and `deleteSeries` find the series by id alone, whoever owns it.
- `getSeries` and `updateSeries` pass a string to `next` when nothing is found. The error
  handler cannot read it, so production answers with the generic 500, not a 404.

Files:

- `common.dfy`: options, strings, split/join, hexadecimal text, numbers.
- `errors.dfy`: errors and the global error handler.
- `api_features.dfy`: the query builder.
- `user_model.dfy`: the user document, its hooks and the user collection.
- `http.dfy`: the response object.
- `auth_controller.dfy`: the authentication handlers.
- `series_model.dfy`: the series document and the series collection.
- `series_controller.dfy`: the series handlers.

## Model

| member | source | states |
|---|---|---|
| ApiFeatures.APIFeatures.constructor | Utils/apiFeatures.js:2-5 | the builder starts from the given query and query string |
| ApiFeatures.StripReserved | Utils/apiFeatures.js:8-11 | the copy has every entry of the query string except those under `page`, `sort`, `limit`, `fields`, `search` |
| ApiFeatures.WithoutKeysMembers | Utils/apiFeatures.js:8-11 | an entry survives the deletions exactly when its key is not deleted |
| ApiFeatures.DeleteKeys | Utils/apiFeatures.js:9-11 | deleting the keys one per step leaves exactly the entries under the other keys, in order |
| ApiFeatures.ReservedEntryDropped | Utils/apiFeatures.js:9-11 | an entry under a reserved key never reaches the filter |
| ApiFeatures.LimitNotFiltered | Utils/apiFeatures.js:9-14 | a `limit` parameter does not change the filter text |
| ApiFeatures.Stringify | Utils/apiFeatures.js:14 | the JSON text of a string, array or object starts and ends with its own delimiters |
| ApiFeatures.RewriteOps | Utils/apiFeatures.js:17-20 | the rewrite never removes characters, and rewrites only the empty text to the empty text |
| ApiFeatures.OpWords | Utils/apiFeatures.js:18 | the words the pattern matches are exactly `lt`, `lte`, `gt`, `gte` |
| ApiFeatures.RewriteOpWord | Utils/apiFeatures.js:17-20 | a whole operator word is rewritten to `$` followed by the word |
| ApiFeatures.RewriteWholeWord | Utils/apiFeatures.js:17-20 | an operator word between non-word characters gets a `$` and the text around it is rewritten independently |
| ApiFeatures.RewriteWord | Utils/apiFeatures.js:17-20 | a run of word characters gets a `$` exactly when it is one of the four operator words |
| ApiFeatures.RewriteOtherWord | Utils/apiFeatures.js:17-20 | any other whole word between boundaries is left as it is, and the text around it is rewritten independently |
| ApiFeatures.RewriteOtherChar | Utils/apiFeatures.js:17-20 | a character that is not a word character is copied unchanged |
| ApiFeatures.RewriteAppend | Utils/apiFeatures.js:17-20 | the rewrite of two texts joined at a word boundary is the join of their rewrites |
| ApiFeatures.RewriteOnlyInsertsDollars | Utils/apiFeatures.js:17-20 | the rewrite only inserts `$` characters: dropping every `$` from both sides gives the same text |
| ApiFeatures.APIFeatures.Filter | Utils/apiFeatures.js:6-34 | appends one `find` with the rewritten JSON of the stripped copy and returns the builder itself; the query string is a constant |
| ApiFeatures.SearchOps | Utils/apiFeatures.js:38-43 | a `name` pattern `^term` with flag `i` is added exactly when `search` is truthy, unescaped |
| ApiFeatures.APIFeatures.Search | Utils/apiFeatures.js:36-44 | appends exactly the operations of `SearchOps` and returns the builder |
| Common.SplitJoin | Utils/apiFeatures.js:51 | splitting at a comma and joining with a space replaces every comma by a space and keeps everything else |
| Common.Split | Utils/apiFeatures.js:51 | splitting gives one more part than there are separators, and no part contains one |
| ApiFeatures.SortArgument | Utils/apiFeatures.js:49-56 | the sort is the parameter with commas turned into spaces, `-createdAt` when it is absent or empty, and a throw when it is not a string |
| ApiFeatures.APIFeatures.Sort | Utils/apiFeatures.js:46-59 | appends that sort and returns the builder, or throws and appends nothing |
| ApiFeatures.FieldsArgument | Utils/apiFeatures.js:63-69 | the projection is the parameter with commas turned into spaces, else `-__v`, and a throw when it is not a string |
| ApiFeatures.APIFeatures.Field | Utils/apiFeatures.js:60-72 | appends that projection and returns the builder, or throws |
| ApiFeatures.PageNumber | Utils/apiFeatures.js:76 | the page is `Number(page)` when that is a non-zero number, and 1 when the parameter is absent, is `NaN` or is 0 |
| ApiFeatures.PaginationOps | Utils/apiFeatures.js:76-81 | a skip then a limit of 12; the skip is a whole number of pages, and 0 exactly on page 1 |
| ApiFeatures.PaginationShape | Utils/apiFeatures.js:76-81 | the limit is always 12; the skip is a multiple of 12, and 0 without a page |
| ApiFeatures.DecimalPage | Utils/apiFeatures.js:76-78 | page `n` written in decimal skips `(n - 1) * 12` records |
| ApiFeatures.FallbackPage | Utils/apiFeatures.js:76 | page `0` and the non-numeric page `abc` fall back to page 1 |
| ApiFeatures.ToNumber | Utils/apiFeatures.js:76 | a string of decimal digits is its value; only a leading `-` gives a negative number; `NaN` only for a non-empty text that is not an optionally signed decimal integer |
| ApiFeatures.ToNumberOfDecimal | Utils/apiFeatures.js:76 | `Number` reads a decimal text back as its value |
| ApiFeatures.LimitParameterIgnored | Utils/apiFeatures.js:77-81 | a `limit` parameter changes neither the page size nor the search |
| ApiFeatures.LimitParameterIgnoredBySort | Utils/apiFeatures.js:46-69 | a `limit` parameter changes neither the sort nor the projection |
| ApiFeatures.APIFeatures.Pagination | Utils/apiFeatures.js:73-84 | appends skip and limit, in that order, and returns the builder |
| UserModel.UserErrors | Models/userModel.js:6-38 | a document is saved exactly when username, email (well formed), password (8 or more characters) and a matching confirmation are present |
| UserModel.UsernameErrors | Models/userModel.js:7-10 | one `username` error exactly when the username is missing or empty |
| UserModel.EmailErrors | Models/userModel.js:11-17 | at most one `email` error; none exactly when the email is present and well formed |
| UserModel.PasswordErrors | Models/userModel.js:18-23 | at most one error, on `password` |
| UserModel.ConfirmPasswordErrors | Models/userModel.js:24-34 | at most one `confirmPassword` error; none exactly when the confirmation is present and equals the typed password |
| UserModel.OneErrorPerPath | Models/userModel.js:6-38 | a validation reports at most one error per path |
| UserModel.ShortPasswordReported | Models/userModel.js:18-23 | a short password is reported with its text and the minimum length, and blocks the save |
| UserModel.LowerCased | Models/userModel.js:15 | the `lowercase` setter keeps presence and stores the lower-cased email, which lower-casing leaves alone |
| Common.ToLowerIdempotent | Models/userModel.js:15 | lower-casing twice is lower-casing once |
| Common.ToLower | Models/userModel.js:15 | lower-casing keeps the length and maps each character on its own |
| UserModel.User.New | Models/userModel.js:6-38 | a new document holds the lower-cased email and the typed password, and counts both passwords as modified |
| UserModel.User.Loaded | Models/userModel.js:22-27 | a loaded document has the password only when asked for and never the confirmation |
| UserModel.User.HashPassword | Models/userModel.js:41-50 | a modified password is replaced by its cost-12 hash and the confirmation dropped; an unmodified one is left alone; a missing one throws |
| UserModel.Hooked | Models/userModel.js:41-59 | a save that writes the password stores a cost-12 hash that accepts exactly the typed password, drops the confirmation and records the change one second before now; any other save leaves the document alone; no other field changes |
| UserModel.User.StampPasswordChange | Models/userModel.js:53-59 | a password changed on a stored document records the change one second before the save; a new document records nothing |
| Common.TruncDiv | Models/userModel.js:74-77 | `parseInt(ms / 1000)` is the quotient rounded toward zero: never larger in magnitude than the exact quotient, and less than one from it |
| UserModel.ChangedPasswordAfter | Models/userModel.js:71-84 | never true when the password was not changed |
| UserModel.ChangedAfterInMilliseconds | Models/userModel.js:71-84 | a token issued in second `iat` is stale exactly when the change happened at or after the start of second `iat + 1` |
| UserModel.FreshTokenNotStale | Models/userModel.js:53-84 | thanks to the one-second backdating, a token issued in the second of the save or later is not stale |
| UserModel.User.CreatePasswordResetToken | Models/userModel.js:88-102 | the token handed out is the 64-character hex text of the 32 random bytes; only its SHA-256 digest is kept, with an expiry ten minutes ahead |
| Common.HexEncode | Models/userModel.js:90 | the hex text of `n` bytes has `2n` lower-case hex digits |
| Common.HexRoundTrip | Models/userModel.js:90 | decoding the hex text gives the bytes back, so different bytes give different tokens |
| UserModel.User.SetPasswords | Controllers/authController.js:198-199 | assigns both passwords and marks them modified |
| UserModel.User.ClearResetFields | Controllers/authController.js:162-163 | clears both reset fields together |
| UserModel.User.RemovePassword | Controllers/authController.js:34 | drops the password from the document sent back |
| UserModel.UserStore.Create | Models/userModel.js:6-50 | an invalid document is a `ValidationError` and a taken email a duplicate-key error, both inserting nothing; otherwise one record is appended with the password hashed and no confirmation |
| UserModel.ConsistentInsert | Models/userModel.js:14 | appending a hashed record with a fresh id and an unused email keeps ids and emails unique |
| UserModel.UserStore.Save | Models/userModel.js:41-59 | validation (unless switched off) comes before the hooks; a failure writes nothing; otherwise the hooked document's modified paths are written and nothing else |
| UserModel.WrittenAtRest | Models/userModel.js:41-59 | a save keeps every stored record hashed, without a confirmation, with its reset fields paired |
| UserModel.Written | Models/userModel.js:41-59 | a save never rewrites username or email |
| Http.Response.SetCookie | Controllers/authController.js:31 | the cookie is added and the status and body are left alone |
| Http.Response.Send | Controllers/authController.js:36 | status and body are set and the cookies left alone |
| AuthController.TokenCookie | Controllers/authController.js:18-31 | the `jwt` cookie holds the token, is HTTP-only, lives the configured number of days and is HTTPS-only exactly in production |
| AuthController.IssuedToken | Controllers/authController.js:9-16 | given a `jwt.verify` that accepts what `jwt.sign` issued within the same second, the token verifies now as the user and the current second |
| AuthController.CreateAndSendToken | Controllers/authController.js:15-37 | signs a token for the user in the current second, sets the cookie, drops the password and sends token and user with the given status |
| AuthController.Signup | Controllers/authController.js:39-56 | validation and duplicate-email failures create nothing and leave the response alone; a mail failure leaves the user created and the response alone; otherwise the `jwt` cookie with a token for the new user and a 201 with the token and the user without password |
| AuthController.ShortPasswordAnswer | Controllers/authController.js:39-47 | in production a short password gets a 400 that includes the minimum-length message |
| AuthController.TakenEmailAnswer | Controllers/errorController.js:17-26 | in production a taken email gets the duplicate-key 400 with the fixed series-name message |
| AuthController.CheckLogin | Controllers/authController.js:58-76 | missing credentials are reported exactly when email or password is empty |
| AuthController.LoginSucceedsIff | Controllers/authController.js:65-71 | login succeeds exactly when a record with that email (in any case) holds the hash of that password |
| Common.FirstMatch | Controllers/authController.js:65 | `findOne` gives the first record that matches, and nothing exactly when none does |
| AuthController.UnknownEmailLikeWrongPassword | Controllers/authController.js:69-71 | an unknown email and a wrong password get the same answer |
| AuthController.Login | Controllers/authController.js:58-76 | 400 without both fields, 401 for bad credentials, both leaving the response alone; otherwise the `hello` cookie, then the token cookie, and a 200 with the user without secrets |
| AuthController.BearerToken | Controllers/authController.js:84-89 | a token is taken only from a header that starts with `Bearer`, and contains no space |
| AuthController.BearerTokenRoundTrip | Controllers/authController.js:84-89 | the header `Bearer <token>` gives the token back |
| Common.SplitAtSeparator | Controllers/authController.js:88 | splitting at the first separator gives the text before it, then the split of the rest |
| AuthController.CheckProtect | Controllers/authController.js:78-122 | the checks end in order: not logged in exactly without a bearer token; rejected exactly when the verifier rejects it, with its error; user gone exactly when no record has the token's id; password changed exactly when that record's password changed after the token was issued; a grant names the stored record of the token's id |
| AuthController.IdsAreIndexes | Controllers/authController.js:100 | `findById` of a stored id finds that record |
| AuthController.ProtectGrantsIff | Controllers/authController.js:78-122 | access is granted exactly when there is a token, it verifies, its user exists and the password did not change after it was issued |
| AuthController.Protect | Controllers/authController.js:78-122 | each failed check is its 401 (or the verifier's error) with `req.user` untouched; on success `req.user` is the stored user without secrets and the request is handed on |
| AuthController.NewTokenAcceptedAfterReset | Controllers/authController.js:78-122 | after a password change, a token issued in that second or later passes the guard |
| AuthController.FindByOptionalEmail | Controllers/authController.js:128 | with an email it is the email lookup; without one it finds a record whenever there is one |
| AuthController.ForgotPassword | Controllers/authController.js:124-173 | no user is an error that writes nothing and leaves the response alone; otherwise the digest and expiry are saved and the link is `HOST_URL + "new-password/" + token`; a mail failure clears both fields again and is an error that leaves the response alone; errors carry no status |
| AuthController.SendResetLink | Controllers/authController.js:134-172 | for the user found, the digest and a ten-minute expiry are saved and the link is built from the plain token; a mail failure clears both fields again and is an error without a status that leaves the response alone |
| AuthController.NoSuchEmailIsServerError | Controllers/authController.js:130-131 | in production the unknown-email error is a 500, not the 400 written beside it |
| AuthController.ResetPassword | Controllers/authController.js:175-208 | no pending reset for the token is a 400; otherwise a validated save hashes the new password, records the change and clears the reset fields, then sets the `jwt` cookie with a token for that user and sends it; an invalid password writes nothing; failures leave the response alone |
| AuthController.ResetMatch | Controllers/authController.js:184-187 | the record found holds the digest of the token and an unexpired link; nothing is found exactly when no record does |
| AuthController.ResetLinkLifetime | Controllers/authController.js:184-187 | a fresh reset link finds its user strictly before ten minutes have passed, and never after |
| AuthController.ClearedResetMatchesNothing | Controllers/authController.js:184-203 | a record whose reset fields were cleared matches no token, so a link works once |
| AuthController.Logout | Controllers/authController.js:210-216 | the `jwt` cookie is overwritten by a placeholder that expires in ten seconds, then a 200 |
| AuthController.LogoutReplacesToken | Controllers/authController.js:210-216 | the logout cookie has the token cookie's name, so it replaces it, and expires sooner |
| Errors.AppError | Controllers/errorController.js:3-15 | an `AppError` is operational and keeps its message and status |
| Errors.NotAnError | Controllers/seriesController.js:79 | a string passed to `next` is not operational and has no status code |
| Errors.Thrown | Utils/apiFeatures.js:51 | a runtime error thrown by the code is not operational and has no status |
| Errors.DuplicateKey | Controllers/errorController.js:17-26 | a duplicate-key error has code 11000, is not operational and carries the duplicated values |
| Errors.ValidationError | Controllers/errorController.js:28-35 | a validation error is not operational, has no status code and carries the message of every failing path |
| Errors.Messages | Controllers/errorController.js:29 | the messages are those of the failing paths, one each, in order |
| Errors.WithDefaults | Controllers/errorController.js:71-72 | a missing status code becomes 500 and a missing status `error`; present ones are kept; nothing else changes |
| Errors.HandleJWTError | Controllers/errorController.js:3-4 | an invalid token becomes an operational 401 `fail` with its fixed message |
| Errors.HandleTokenExpiredError | Controllers/errorController.js:6-7 | an expired token becomes an operational 401 `fail` with its fixed message |
| Errors.HandleCastErrorDB | Controllers/errorController.js:9-15 | a cast error becomes an operational 400 `fail` whose message names the path |
| Errors.HandleDuplicateErrorDB | Controllers/errorController.js:17-26 | a duplicate key becomes an operational 400 `fail` with the fixed message, whatever the values |
| Errors.HandleValidationErrorDB | Controllers/errorController.js:28-35 | a validation error becomes an operational 400 `fail` whose message starts `Invalid input data: ` |
| Errors.SendErrorProd | Controllers/errorController.js:46-65 | an operational error is sent with its own status and message; any other gets the generic 500 `error`, hiding its message |
| Errors.Respond | Controllers/errorController.js:67-102 | a response is sent exactly in development (unmapped, with the error's message) and in production (the production form) |
| Errors.ProdTranslate | Controllers/errorController.js:89-96 | a replaced error is an operational `Error` without a driver code |
| Errors.TranslateAsWritten | Controllers/errorController.js:89-96 | the five replacements, tested one after another, give the error of the first rule that applies |
| Errors.GlobalErrorHandler | Controllers/errorController.js:67-102 | the five independent `if`s give the same response as the first rule that applies |
| Errors.TranslatedIsOperational | Controllers/errorController.js:3-35 | every translated error is an operational 400 or 401 with status `fail` |
| Errors.DefaultsInDevelopment | Controllers/errorController.js:37-76 | in development a bare error is sent as a 500 with status `error` |
| Errors.DevelopmentIsUnmapped | Controllers/errorController.js:37-76 | in development the status code, message and stack are sent unmapped |
| Errors.UnknownEnvironmentSendsNothing | Controllers/errorController.js:75-99 | outside development and production no response is sent |
| Errors.ProdCastError | Controllers/errorController.js:9-15 | a cast error is a 400 naming the path and the value |
| Errors.ProdDuplicateKey | Controllers/errorController.js:17-26 | a duplicate key is a 400 with one fixed message, whatever the values |
| Errors.ProdValidationError | Controllers/errorController.js:28-35 | a validation error is a 400 joining the field messages with `. ` |
| Errors.ProdValidationFailure | Controllers/errorController.js:28-35 | a failed save's error reaches the client as that 400 |
| Errors.MessageShown | Controllers/errorController.js:30-32 | every failing path's message is among those shown |
| Errors.ProdTokenErrors | Controllers/errorController.js:3-7 | both token errors are 401s with different messages |
| Errors.ProdUntranslated | Controllers/errorController.js:46-64 | an untranslated operational error keeps its status and message; any other is the generic 500 |
| SeriesModel.SeriesErrors | Models/seriesModel.js:4-35 | a series is saved exactly when name, url, country, an enum watching type and the owner are present and both dates cast |
| SeriesModel.WatchingTypeErrors | Models/seriesModel.js:18-22 | the watching type passes exactly when it is one of the two enum values |
| SeriesModel.WatchingTypeEnum | Models/seriesModel.js:18-22 | with the other fields present, exactly `watched` and `planning to watch` are accepted |
| SeriesModel.UnknownWatchingTypeReported | Models/seriesModel.js:21 | a value outside the enum is reported with the enum message naming it |
| SeriesModel.RequiredErrors | Models/seriesModel.js:5-17 | a required text fails exactly when it is missing or empty |
| SeriesModel.UserErrors | Models/seriesModel.js:23-27 | the owner is required |
| SeriesModel.CastDate | Models/seriesModel.js:28-29 | the empty text is no date; any other text is a date if it parses and a cast error if not |
| SeriesModel.DateErrors | Models/seriesModel.js:28-29 | a date that failed to cast blocks the save |
| SeriesModel.Series.New | Models/seriesModel.js:30-32 | a new document takes the `createdAt` default |
| SeriesModel.Series.Loaded | Models/seriesModel.js:33 | a loaded document has no `createdAt` |
| SeriesModel.Hidden | Models/seriesModel.js:33 | a query returns everything but `createdAt` |
| SeriesModel.Series.SetSlug | Models/seriesModel.js:38-41 | the slug becomes `slugify(name)`, whatever it was |
| SeriesModel.SeriesStore.Create | Models/seriesModel.js:4-41 | an invalid series inserts nothing; a valid one is appended with the slug of its name and the default `createdAt` |
| SeriesModel.SeriesStore.constructor | Models/seriesModel.js:30-32 | the collection starts empty, with the `createdAt` default fixed once |
| SeriesModel.SeriesStore.Save | Models/seriesModel.js:38-41 | validation first; then the slug is recomputed and every path but `createdAt` is written |
| SeriesModel.SameCreationTime | Models/seriesModel.js:30-32 | every stored series has the same `createdAt`, the value of `Date.now()` when the schema was defined |
| SeriesModel.FindOwned | Controllers/seriesController.js:77 | a found series has that id and belongs to the caller; none is found exactly when no such series exists |
| SeriesModel.FindByName | Controllers/seriesController.js:96-99 | a found series belongs to the caller and has the name, if one was given; none is found exactly when no series of the caller has that name |
| SeriesModel.IdsAreIndexes | Controllers/seriesController.js:139 | looking up a stored id finds that record |
| SeriesModel.SeriesStore.Delete | Controllers/seriesController.js:125 | the series with that id, if any, is removed and every other record kept |
| SeriesModel.RemoveAt | Controllers/seriesController.js:125 | removal keeps the order of the other records |
| SeriesController.BuildCountFilter | Controllers/seriesController.js:20-56 | the filter built by the assignments and either branch of the final `if` is the count filter |
| SeriesController.CountFilterBranches | Controllers/seriesController.js:22-56 | the key-by-key assignments and the spread give the union of the base keys and the optional ones |
| SeriesController.CountFilterOf | Controllers/seriesController.js:22-56 | the count filter always has `watchingType` and the caller's `user`; `country`, `name` (`^search`, flag `i`), `dateOfWatching` and `dateOfAdding` exactly when defined |
| SeriesController.Extras | Controllers/seriesController.js:22-37 | the optional keys are present exactly when their parameters are defined, with the values the handler assigns |
| SeriesController.AddOptional | Controllers/seriesController.js:24-37 | adding an optional key is assigning it when it has a value |
| SeriesController.ListingScopedToCaller | Controllers/seriesController.js:8-16 | the listing query starts with the caller's scope and ends with a page of 12 |
| SeriesController.GetAllSeries | Controllers/seriesController.js:6-73 | the page comes from the scoped builder chain and the count from the count filter; `results` is the page's length; a non-string `sort` or `fields` throws and leaves the response alone |
| SeriesController.GetSeries | Controllers/seriesController.js:74-87 | only a series of the caller is returned, without `createdAt`; otherwise the unreadable string error, with the response left alone |
| SeriesController.DateText | Controllers/seriesController.js:92-93 | a truthy date is kept, anything else becomes the empty text |
| SeriesController.MissingDatesAreUnset | Controllers/seriesController.js:92-113 | missing dates become no date and do not block the create |
| SeriesController.CreateSeries | Controllers/seriesController.js:89-122 | a series of the caller with that name is a 401 and creates nothing; otherwise the series is created, owned by the caller, or the validation error is returned; failures leave the response alone |
| SeriesController.DuplicateNamePerUser | Controllers/seriesController.js:96-103 | the same name under another owner does not block a create |
| SeriesController.UnknownWatchingTypeAnswer | Controllers/seriesController.js:105-113 | in production a watching type outside the enum is a 400 naming the value |
| SeriesController.DuplicateNameAnswer | Controllers/seriesController.js:101-103 | in production the duplicate name is a 401 with its own message |
| SeriesController.AssignBody | Controllers/seriesController.js:143-148 | each field becomes the body's value when truthy and keeps its own otherwise |
| SeriesController.Merged | Controllers/seriesController.js:143-148 | each of the four text fields takes the body's value when truthy and keeps its own otherwise; a truthy date becomes the cast of the body's text, and any other keeps its value; the owner, slug and `createdAt` are kept |
| SeriesController.MergeIdempotent | Controllers/seriesController.js:143-148 | applying the same body twice is applying it once |
| SeriesController.EmptyUpdateChangesNothing | Controllers/seriesController.js:133-150 | any body without a truthy field, whatever its falsy values, leaves the loaded series unchanged, valid, and writes back exactly the stored record |
| SeriesController.UpdateSeries | Controllers/seriesController.js:133-159 | the series is found by id alone, merged and saved with validation; success is a 200 with the saved series; not found and invalid leave the response alone |
| SeriesController.SaveEdited | Controllers/seriesController.js:150-158 | a valid edited series replaces the stored record, with the slug of its name and the stored `createdAt`, and is sent back with a 200; an invalid one writes nothing, leaves the response alone and is the validation error |
| SeriesController.DeleteSeries | Controllers/seriesController.js:124-131 | the series with that id is removed, whoever owns it, and the answer is always 204 |

## Left out

- Cryptography is symbolic and collision-free: bcrypt's salt and comparison, SHA-256, and the signing, verification and expiry of JSON web tokens (the verifier is a parameter).
- The mail itself, meaning its content, template and transport (`Utils/email.js`), is not modelled. A handler only learns whether sending failed.
- Query execution is not modelled: regular-expression matching, sorting, skip and limit over a collection, and `countDocuments`. The handlers receive the results as functions of the query and filter they build.
- `Promise.all` and concurrency are not modelled: the listing and the count are taken one after the other, on one collection state.
- A `findOne` with an empty filter returns the first record in insertion order. MongoDB promises no particular record.
- Assignments always mark a path modified; Mongoose's check that skips an assignment of an equal value is not modelled. For the series, writing every assigned path gives the same record as writing only the changed ones.
- Validation messages are listed in schema order; Mongoose lists them in the order its validators finish.
- A driver duplicate-key error is reduced to its code and key values; its full message text is not reproduced.
- Query values are strings, arrays or objects as the query parser gives them.
- ToNumber: `Number()` is modelled for optionally signed decimal integers only. Texts such as `" 2"` (surrounding white space), `"1e1"` (exponent), `"0x2"` (hexadecimal) and `"2.0"` (a fraction) are numbers to `Number()` but `NaN` in the model, so they give page 1 there. Non-integer pages are not modelled.
- `ToLower` lower-cases ASCII letters only; Unicode case mapping is not modelled.
- Request bodies hold strings or nothing; numbers, booleans and objects in JSON bodies are not modelled.
- A regular expression built from an invalid `search` term throws; that throw is not modelled.
- Each request sees one `now`; the handlers read the clock several times.
- A malformed id raises a cast error in every id lookup: `findById` in `protect` and `updateSeries`, `findOne({ _id })` in `getSeries`, and `findByIdAndDelete` in `deleteSeries`. The model treats such an id as one that matches nothing.
- Ids generated by the driver are a parameter assumed fresh.
- In development, a string passed to `next` makes the handler call `res.status(undefined)`; only the production answer, the generic 500, is modelled.
- `sendErrorProd` logs before answering (console output), and the handler calls `next()` after sending; neither is modelled.
- The `hpp`, `mongoSanitize` and `xss` middleware, the rate limiter and the routers (`app.js`, `Routes/`) are not part of this model. That the series handlers run after `protect` is taken as given: the caller's id is always defined.
- `usersController.js` is not part of this model.
- The `!series` and `!newSeries` checks in `getAllSeries` and `createSeries` can never fire, so they are not modelled.
- Filter keys whose value is `undefined` are assumed to be dropped from the query. Whether they are dropped or sent as `null` depends on the Mongoose and driver versions and their options. Under that reading `forgotPassword` without an email and `createSeries` without a name would match only records whose field is missing. `AuthController.FindByOptionalEmail` and `SeriesModel.FindByName` rest on this assumption.
- Stringify: object keys are emitted in insertion order. `JSON.stringify` puts integer-like keys first, in ascending order, so a query string with such keys gives a different filter text.
