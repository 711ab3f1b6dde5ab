# tea-api core, modelled in Dafny

tea-api is a Go HTTP service for a tea catalogue whose users sign in with Telegram.
This project models its core:

- **Telegram login.** The service checks the login widget's payload. It builds the sorted
  `key=value` check-string and compares the lowercase hex HMAC-SHA-256 of that string, keyed by
  SHA-256 of the bot token, with `hash`. It then finds or creates the user by Telegram id and
  issues a pair of JWTs: an access token valid for one hour and a refresh token valid for seven
  days. The refresh token carries a random `jit`, which is stored as the user's current refresh id.
- **Sessions.** JWTs are parsed with the HMAC check. Access and refresh claims are validated
  field by field, including the unchecked Go type assertions that panic. A `Bearer` header is
  checked. Refresh-token rotation accepts only the user's current `(id, jit)` pair and then
  overwrites it with a fresh jit.
- **The request gate.** The v1 controller (`AuthMiddleware` with required or optional auth, then
  `AdminMiddleware`) and the older controller, whose tokens carry no role.
- **The catalogue.** The tea, category, tag and unit services, with their existence, name-clash
  and in-use checks and their error answers. The repositories are modelled over in-memory tables,
  teas to tags as a set of `teas_tags` links. Also modelled: the tag delta used on tea update, the
  SQL text built for the filtered tea list, and the rows inserted for tea tags.
- **Request parsing.** The two generations of list filters (page-based and offset-based), the
  query-string helpers (`ParseUint`, `ParseBool`, the tag-UUID loop, the price loop), the request
  binders and validators, the weight-unit codec (`Scan`/`Value`), and the mapping from errors to
  HTTP status codes.

Cryptography, UUID and JWT encoding are not re-implemented. They are the fields of
`Foreign.Lib`, and the few laws the proofs need are stated as predicates on it
(`Lib.Laws`, `Lib.SigningTotal`). Lowercase hex encoding is modelled concretely.

The clock, the random jit and the ids the database generates are parameters. A failing
repository call is a `fail` flag on a store method, or membership of the call in a `faults` set
on a service method, so every error branch of the source is reachable in the model.

Each method is tied by its `ensures` to a specification function of the old state. The
properties are proved about those functions.

## Model

| member | source | states |
|---|---|---|
| TelegramAuth.VerifyTelegramAuth | internal/service/user.go:180-215 | succeeds exactly when the bot token is non-empty and `hash` equals the lowercase hex HMAC-SHA-256 of the check-string keyed by SHA-256(bot token); an empty bot token fails with the invalid-token error before any hashing, every other failure is the hashes-not-equal error |
| TelegramAuth.CheckLinesPresence | internal/service/user.go:185-198 | the check-string always has the auth_date, first_name and id lines, and has the last_name, photo_url and username lines exactly when that field is non-empty |
| TelegramAuth.SortingGivesCheckLines | internal/service/user.go:185-199 | sorting the lines in the order the code appends them gives the fixed order auth_date, first_name, id, last_name, photo_url, username, whatever the field values |
| TelegramAuth.CheckLineHeads | internal/service/user.go:185-197 | each line starts with its key's first letter, so the keys alone decide the sorted order |
| TelegramAuth.CheckLinesSorted | internal/service/user.go:199 | the check lines are sorted under Go's byte-wise string order |
| TelegramAuth.CheckStringLength | internal/service/user.go:199-200 | the joined check-string is as long as its lines plus one newline between each pair |
| TelegramAuth.FillingOptionalFieldChangesCheckString | internal/service/user.go:189-197 | filling in an empty last_name or photo_url, all else equal, changes the check-string, so the signature covers optional fields too |
| TelegramAuth.UpperCaseHashRejected | internal/service/user.go:208-210 | a `hash` holding an upper-case hex digit never verifies, because the comparison is case-sensitive against lowercase hex |
| Foreign.HexEncode | internal/service/user.go:208 | `hex.EncodeToString` gives two characters per byte |
| Foreign.HexEncodePositions | internal/service/user.go:208 | characters 2i and 2i+1 are the lowercase hex digits of byte i, high nibble first |
| Foreign.HexEncodeAlphabet | internal/service/user.go:208 | every character of the encoding is one of 0-9a-f |
| Foreign.UpperCaseNeverEncoded | internal/service/user.go:208-210 | no encoding equals a string holding one of A-F |
| GoText.TrimPrefix | internal/service/user.go:101 | `strings.TrimPrefix`: with the prefix present, prefix + result is the input; otherwise the input is returned unchanged |
| GoText.JoinLength | internal/service/user.go:200 | `strings.Join` of n parts is their total length plus n-1 separators |
| GoText.LessIrreflexive | internal/service/user.go:199 | Go's string order: no string is less than itself |
| GoText.LessAsymmetric | internal/service/user.go:199 | Go's string order is asymmetric |
| GoText.LessTotal | internal/service/user.go:199 | any two different strings are ordered one way or the other |
| GoText.LessTransitive | internal/service/user.go:199 | Go's string order is transitive |
| GoText.InsertKeepsSorted | internal/service/user.go:199 | inserting into a sorted sequence keeps it sorted |
| GoText.SortStrings | internal/service/user.go:199 | `sort.Strings`: the result is sorted and a permutation of the input |
| GoText.SortedUnique | internal/service/user.go:199 | two sorted permutations of the same strings are equal, so the sorted check-string does not depend on the sort algorithm |
| Errx.ResponseCode | internal/controller/v1/error.go:12-23 | answers 500 exactly for an error that is not an application error or is InternalServerError; an application error answers its own status code |
| SessionTokens.ParseJwt | internal/service/user.go:217-236 | succeeds only for a token that decodes, uses an HMAC method, has a valid signature under the secret and has not expired; a non-HMAC method fails as unverifiable |
| SessionTokens.UuidClaim | internal/service/user.go:252-260 | a claim that is present but not a string panics (unchecked type assertion); the claim is accepted exactly when it is a string that `uuid.Parse` accepts, giving the parsed id; otherwise it is rejected with the missing or the invalid error |
| SessionTokens.StringClaim | internal/service/user.go:262-293 | accepted, with its value, exactly when present and a string; never panics (checked assertion) |
| SessionTokens.ValidateAccessToken | internal/service/user.go:238-296 | accepted exactly when exp is a date, id a UUID string and firstName, username and role are strings, giving those values; panics exactly when exp is a date and id is present but not a string |
| SessionTokens.ValidateRefreshToken | internal/service/user.go:298-334 | accepted exactly when exp is a date and id and jit are UUID strings, giving those values; panics exactly on a non-string id, or on a non-string jit after a good id |
| SessionTokens.RoleOf | internal/service/user.go:338-343 | "admin" exactly for an admin user, "user" otherwise |
| SessionTokens.AccessTokenRoundTrip | internal/service/user.go:336-356 | an access token issued at `now` carries the user's id, names and role with exp = now + 1 h, and parses and validates back to exactly those claims until it expires |
| SessionTokens.AccessTokenExpires | internal/service/user.go:336-356 | from now + 1 h on, the issued access token fails to parse as expired |
| SessionTokens.RefreshTokenRoundTrip | internal/service/user.go:358-373 | a refresh token carries the user id, exp = now + 7 days and the fresh jit, and parses and validates back to them until it expires |
| SessionTokens.TokenKindsNotInterchangeable | internal/service/user.go:238-334 | access claims never validate as refresh claims, and refresh claims are always rejected as access claims |
| SessionTokens.BearerToken | internal/service/user.go:96-101 | the header passes exactly when it starts with "Bearer"; "Bearer " is stripped when present, otherwise the whole header is kept as the token |
| SessionTokens.CheckAuthToken | internal/service/user.go:95-122 | a header not starting with "Bearer" gives 401; every failure is 401 or a panic; success means the token parsed and its claims validated |
| SessionTokens.CheckAuthTokenAcceptsIssued | internal/service/user.go:95-122 | "Bearer " followed by an issued access token is accepted with exactly the issued claims until the token expires |
| Tokens.MarshalJson | internal/schemas/userSchemas/token.go:79-87 | the response body has the single key "token", holding the access token's signed value |
| Tokens.MarshalShowsOnlyAccessToken | internal/schemas/userSchemas/token.go:79-87 | two token pairs with the same signed access token serialise identically, so nothing of the refresh token leaks |
| UserStore.UserByTelegramId | internal/repository/postgres/user.go:64-81 | the user found is stored under its id, has that Telegram id, and reads null names as "" |
| UserStore.SaveRefresh | internal/repository/postgres/user.go:83-103 | sets refresh_token_id on the row with that id only; every other row, and the table for an unknown id, is unchanged |
| UserStore.UserById | internal/repository/postgres/user.go:114-131 | without a fault, found exactly when the id is stored; a missing row is an error, never a nil user |
| UserStore.SaveThenCurrent | internal/repository/postgres/user.go:83-112 | after saving jit j for a user, the refresh-id check for that user holds exactly for j |
| UserStore.SaveLeavesOthers | internal/repository/postgres/user.go:83-112 | saving a refresh id for one user leaves every other user's check as it was |
| UserStore.CreatedUserHasNoRefresh | internal/repository/postgres/user.go:17-52 | a newly created user has no current refresh id |
| UserStore.CreateThenRead | internal/repository/postgres/user.go:17-81 | after a Create, the Telegram id exists and the lookup by it returns the created user under its new id |
| UserStore.UserTable.Create | internal/repository/postgres/user.go:17-52 | inserts the row (names, Telegram id, is_admin, no refresh id) under the new id, or on failure changes nothing |
| UserStore.UserTable.Exists | internal/repository/postgres/user.go:54-62 | true exactly when some row has that Telegram id |
| UserStore.UserTable.GetByTelegramId | internal/repository/postgres/user.go:64-81 | the matching user, or the no-rows error when there is none |
| UserStore.UserTable.SaveRefreshToken | internal/repository/postgres/user.go:83-103 | the table becomes SaveRefresh of the old table, or stays as it was on failure |
| UserStore.UserTable.IsRefreshTokenExists | internal/repository/postgres/user.go:105-112 | true exactly when the user's stored refresh id is that jit |
| UserStore.UserTable.GetById | internal/repository/postgres/user.go:114-131 | answers UserById of the table |
| UserService.ProvisionOutcome | internal/service/user.go:44-64 | Create runs only for an unknown Telegram id; the user returned is the stored one; a failure is 500 and leaves the table as before or with only the created row; Telegram ids stay unique |
| UserService.LoginRejectsUnverified | internal/service/user.go:39-42 | an empty bot token or a wrong hash gives 403 and writes nothing |
| UserService.IssueFailure | internal/service/user.go:66-93 | when issuing fails, nothing is written, and the error is the signing error, 500, or the raw error of the refresh-id write |
| UserService.LoginFailures | internal/service/user.go:38-79 | every failed login is 403, 500 or the raw write error, and leaves behind at most the new user's row |
| UserService.LoginSuccess | internal/service/user.go:38-93 | a successful login verified the payload; its user is stored with the payload's Telegram id; the fresh jit is that user's current refresh id; the role follows is_admin; the lifetimes are 1 h and 7 days |
| UserService.IssueSuccess | internal/service/user.go:66-93 | a successful issue stores the fresh jit for that user and nothing else, and builds the claims from the user |
| UserService.FirstLoginProvisions | internal/service/user.go:44-79 | the first fault-free login of a Telegram id adds exactly one non-admin row with the payload's names and the new jit, and issues "user" claims for the new id |
| UserService.ReturningLoginCreatesNothing | internal/service/user.go:44-79 | a login with a known Telegram id creates no row; at most that user's refresh id changes |
| UserService.RefreshFailureWritesNothing | internal/service/user.go:124-178 | a failed refresh leaves the table unchanged and never answers 404 |
| UserService.RefreshSuccess | internal/service/user.go:124-178 | a refresh succeeds only for a parsed, valid refresh token whose (id, jit) pair is current; the pair then holds the fresh jit, which the new refresh token carries |
| UserService.ReplayAfterRotationFails | internal/service/user.go:144-153 | once a refresh token has been rotated, presenting it again fails (401 unless the check itself errs) and writes nothing |
| UserService.LoginThenRefresh | internal/service/user.go:38-178 | the refresh token from a fault-free login rotates successfully before it expires |
| UserService.UserService.AuthenticateUser | internal/service/user.go:38-79 | answer and user table are those of the login specification, whose properties are the lemmas above |
| UserService.UserService.CreateRefreshToken | internal/service/user.go:81-93 | signs the refresh token and stores its jit for the user, or fails writing nothing |
| UserService.UserService.UpdateAccessToken | internal/service/user.go:124-178 | answer and user table are those of the refresh specification |
| AuthGate.AuthStage | internal/controller/v1/user.go:151-190 | anonymous exactly when auth is optional and the header is empty; otherwise passes exactly when the bearer token is accepted, attaching its claims; every rejection is 401 |
| AuthGate.AdminStage | internal/controller/v1/user.go:192-205 | passes, with the same claims, exactly when the attached role is "admin"; otherwise 403 |
| AuthGate.AdminRouteDecision | internal/controller/v1/user.go:151-205 | an admin route passes exactly for an accepted token with role "admin"; an empty header gives 401; an accepted non-admin gives 403 |
| AuthGate.OptionalAuthDoesNotDowngrade | internal/controller/v1/user.go:155-184 | with a non-empty header, optional auth decides exactly as required auth |
| AuthGate.IssuedTokenOnAdminRoute | internal/controller/v1/user.go:132-205 | an issued, unexpired token passes an admin route exactly when its user is an admin, and gets 403 otherwise |
| AuthGate.GenerateJwt | internal/controller/v1/user.go:132-149 | the controller signs the same access token as the service, and fails exactly when it does |
| AuthGate.AuthAgreesWithService | internal/controller/v1/user.go:38-93 | the controller's login answers a token exactly when the service's login succeeds, with the same access token and the same error statuses |
| AuthGate.UserController.Auth | internal/controller/v1/user.go:38-93 | answer and user table are those of the controller's login specification |
| LegacyAuth.ValidateLegacyClaims | internal/controller/auth.go:206-254 | accepted exactly when exp is a date, id a UUID string and the names are strings; no role is read; panics on a non-string id |
| LegacyAuth.LegacyAuthStage | internal/controller/auth.go:146-182 | a header not starting with "Bearer" gives 401; there is no optional mode; every rejection is 401 |
| LegacyAuth.LegacyAcceptsWhatV1Accepts | internal/controller/auth.go:146-182 | a header the v1 required auth accepts is accepted by the old gate with the same id, names and expiry |
| LegacyAuth.LegacyTokenRoundTrip | internal/controller/auth.go:134-144 | a token from the old controller passes the old gate until it expires, but v1 rejects it with 401 because it has no role |
| LegacyAuth.LegacyAuthMatchesV1 | internal/controller/auth.go:38-95 | the old login writes the same table and answers the same errors as the v1 login |
| LegacyAuth.AuthController.Auth | internal/controller/auth.go:38-95 | answer and user table are those of the old login specification |
| Units.String | internal/entity/unit.go:16-25 | "UNKNOWN" exactly for a value other than Gram and Kilogram |
| Units.Value | internal/entity/unit.go:27-29 | never fails |
| Units.BytesText | internal/entity/unit.go:37-44 | converting bytes to a string keeps each byte |
| Units.UnitOfText | internal/entity/unit.go:46-53 | recognises exactly "G" and "KG", case-sensitively, and String maps the result back to the text |
| Units.WeightUnitVar.Scan | internal/entity/unit.go:31-56 | receiver and error are those of the scan specification |
| Units.ScanAccepts | internal/entity/unit.go:31-56 | no error exactly for NULL, or for the text or bytes "G" or "KG" |
| Units.ScanNullKeepsReceiver | internal/entity/unit.go:32-34 | NULL leaves the receiver unchanged, without error |
| Units.ScanFailureKeepsReceiver | internal/entity/unit.go:37-53 | a failed scan leaves the receiver unchanged |
| Units.ScanYieldsUnit | internal/entity/unit.go:11-53 | a successful scan of a non-NULL value leaves Gram or Kilogram, never the zero value |
| Units.ValueRoundTrip | internal/entity/unit.go:16-53 | scanning what Value wrote gives the unit back; an unknown unit writes "UNKNOWN", which Scan rejects |
| Units.NewUnit | internal/entity/unit.go:65-77 | succeeds exactly for "G" and "KG", keeping the other fields, and names the text in the error otherwise |
| Requests.BindUnitRequest | internal/schemas/unitSchemas/request.go:15-27 | binds exactly when the value is positive and the unit is "G" or "KG"; the value is checked first |
| Requests.BoundUnitRequestBuildsUnit | internal/schemas/unitSchemas/request.go:15-27 | a bound unit request always builds a unit with a positive value |
| Requests.HexGroupsShape | internal/schemas/tagSchemas/request.go:22 | n groups of three hex digits are exactly the 3n-character strings of hex digits |
| Requests.ColorPatternMeaning | internal/schemas/tagSchemas/request.go:22 | the colour pattern matches exactly '#' followed by 3 or 6 hex digits, either case |
| Requests.ColorExamples | internal/schemas/tagSchemas/request.go:22 | "#abc" and "#A1B2C3" match; "#abcd", "abc", "#12345" and "#ggg" do not |
| Requests.BindTagRequest | internal/schemas/tagSchemas/request.go:14-27 | binds exactly for a non-empty name and a colour matching the pattern; a missing name is reported first, then a missing colour |
| Requests.BindTeaRequest | internal/schemas/teaSchemas/request.go:19-24 | binds exactly when the name is non-empty |
| Requests.TeaBindReadsOnlyName | internal/schemas/teaSchemas/request.go:19-24 | binding depends on the name alone |
| Requests.BindEvaluation | internal/schemas/teaSchemas/request.go:31-36 | binds exactly for a rating in [1, 10] |
| Requests.EvaluationBounds | internal/schemas/teaSchemas/request.go:31-36 | both bounds are accepted, and 0.5 and 10.5 are refused |
| Requests.BindLegacyTeaRequest | internal/schemas/tea.go:40-45 | the older tea request binds exactly when the name is non-empty |
| QueryParams.Get | internal/schemas/teaSchemas/filter.go:60-61 | `url.Values.Get`: the first value of the key, or "" |
| QueryParams.Default | internal/schemas/teaSchemas/filter.go:60-67 | a parsed value, or the fallback when parsing failed |
| QueryParams.ParseUint | internal/schemas/teaSchemas/filter.go:60-61 | `strconv.ParseUint(s, 10, 64)` succeeds exactly for a non-empty string of digits whose value fits in 64 bits, and gives that value |
| QueryParams.ParseUintRoundTrip | internal/schemas/teaSchemas/filter.go:60-61 | the decimal text of any value up to 2^64-1 parses back to it |
| QueryParams.ParseUintRejects | internal/schemas/teaSchemas/filter.go:60-61 | "", "-1", "+1" and "1_0" are refused |
| QueryParams.ParseBool | internal/schemas/teaSchemas/filter.go:105-109 | `strconv.ParseBool`: true exactly for 1, t, T, TRUE, true, True; false exactly for 0, f, F, FALSE, false, False |
| QueryParams.FirstInvalidUuid | internal/schemas/teaSchemas/filter.go:90-103 | none exactly when every tag parses as a UUID; otherwise a tag of the list that does not parse |
| QueryParams.FirstInvalidAt | internal/schemas/teaSchemas/filter.go:90-103 | the tag reported is the first one that does not parse |
| QueryParams.CollectTags | internal/schemas/teaSchemas/filter.go:90-103 | the loop reports the first invalid tag, and otherwise collects every tag in order |
| QueryParams.InsertPrice | internal/schemas/teaSchemas/filter.go:134-135 | appending a price and sorting keeps every earlier price and adds exactly the new one |
| QueryParams.InsertPriceKeepsAscending | internal/schemas/teaSchemas/filter.go:134-135 | appending a price to an ascending slice and sorting leaves it ascending |
| QueryParams.PriceLoop | internal/schemas/teaSchemas/filter.go:128-136 | succeeds exactly when every value parses; a failure names a value of the input that does not parse; a success holds one float per value, as a multiset exactly the parsed values |
| QueryParams.PriceLoopSorted | internal/schemas/teaSchemas/filter.go:128-136 | the loop's slice ends ascending |
| QueryParams.PriceLoopFailsAt | internal/schemas/teaSchemas/filter.go:129-133 | the error names the first value that does not parse |
| QueryParams.CollectPrices | internal/schemas/teaSchemas/filter.go:128-136 | the loop as run: the first unparsable value, or the sorted parsed prices, as PriceLoop gives them |
| QueryParams.PriceStepOf | internal/schemas/teaSchemas/filter.go:121-139 | an invalid-price failure names a value of the input that does not parse |
| QueryParams.ReadPriceStep | internal/schemas/teaSchemas/filter.go:121-139 | the count guard, the loop and the indexing as run give PriceStepOf |
| QueryParams.InvalidPriceNamed | internal/schemas/teaSchemas/filter.go:121-133 | once the count guard lets the values through, the error is the first value that does not parse |
| QueryParams.PricesGiveBounds | internal/schemas/teaSchemas/filter.go:121-139 | when every value parses and the count guard passes, the bounds are two of the parsed prices, minimum not above maximum and not above any price; with exactly two values they are those two |
| QueryParams.SinglePricePanics | internal/schemas/teaSchemas/filter.go:121-139 | one price that parses: the count guard tests the stale isAsc error, so with isAsc parsed the code sets the minimum to that price and panics indexing the missing second one, and with isAsc unparsed it reports the count error |
| PageFilter.SortByFilter.Parse | internal/schemas/teaSchemas/filter.go:37-48 | accepts exactly "name", "servePrice" and "rating", storing the value; any other value is rejected by name and the receiver is kept |
| PageFilter.ToDbFilter | internal/schemas/teaSchemas/filter.go:49-56 | a column exactly for a known sort key; servePrice maps to serve_price, the others to themselves |
| PageFilter.PagingStage | internal/schemas/teaSchemas/filter.go:60-74 | limit defaults to 10 and page to 1; nothing else changes |
| PageFilter.TextStage | internal/schemas/teaSchemas/filter.go:76-88 | changes only categoryId and name (CategoryIdRule gives their values) |
| PageFilter.TagsStage | internal/schemas/teaSchemas/filter.go:90-103 | changes only the tags |
| PageFilter.SortStage | internal/schemas/teaSchemas/filter.go:105-119 | changes only isAsc and sortBy |
| PageFilter.PriceStage | internal/schemas/teaSchemas/filter.go:121-145 | changes only the price bounds and isDeleted, reports neither a page nor a tag error, and an invalid-price error names a servePrice[] value that does not parse |
| PageFilter.Filters.Validate | internal/schemas/teaSchemas/filter.go:58-148 | the filter state and outcome are those of the validation specification |
| PageFilter.Filters.ReadPaging | internal/schemas/teaSchemas/filter.go:60-74 | the state becomes PagingStage of the old state |
| PageFilter.Filters.ReadCategoryAndName | internal/schemas/teaSchemas/filter.go:76-88 | the state becomes TextStage of the old state |
| PageFilter.Filters.ReadTags | internal/schemas/teaSchemas/filter.go:90-103 | state and error are TagsStage of the old state |
| PageFilter.Filters.ReadSort | internal/schemas/teaSchemas/filter.go:105-119 | state and error are SortStage of the old state |
| PageFilter.Filters.ReadPrices | internal/schemas/teaSchemas/filter.go:121-145 | state and outcome are PriceStage of the old state |
| PageFilter.PageZeroRejected | internal/schemas/teaSchemas/filter.go:69-71 | validation fails with the page error exactly when page parses as 0, and then no field has been set |
| PageFilter.LimitAndPageDefaults | internal/schemas/teaSchemas/filter.go:60-67 | past the page check, a missing or unparsable limit becomes 10 and page 1, so page is at least 1 |
| PageFilter.CategoryIdRule | internal/schemas/teaSchemas/filter.go:76-83 | a categoryId that is present becomes its parsed UUID, or Nil when it does not parse, never an error; an absent one leaves the field as it was |
| PageFilter.InvalidTagRejected | internal/schemas/teaSchemas/filter.go:90-103 | a non-UUID tag fails validation naming that tag |
| PageFilter.UnknownSortByRejected | internal/schemas/teaSchemas/filter.go:111-119 | an unknown sortBy fails validation naming the value |
| PageFilter.PriceStageDone | internal/schemas/teaSchemas/filter.go:141-145 | isDeleted defaults to false |
| PageFilter.SortStageAccepted | internal/schemas/teaSchemas/filter.go:105-119 | isAsc defaults to true; an accepted sortBy is a known key, or is left as it was when absent |
| PageFilter.AcceptedFilters | internal/schemas/teaSchemas/filter.go:58-148 | an accepted query leaves every tags[] value in order, isAsc true and isDeleted false unless they parse, a sort key that is known or the old one when absent, and offset and userId untouched |
| OffsetFilter.SortByFilter.String | internal/schemas/teaSchemas/teaFilter.go:31-33 | answers the stored value |
| OffsetFilter.SortByFilter.Parse | internal/schemas/teaSchemas/teaFilter.go:34-44 | accepts exactly "name" and "price", storing the value; anything else is rejected by name and the receiver is kept |
| OffsetFilter.PagingStage | internal/schemas/teaSchemas/teaFilter.go:48-58 | limit defaults to 10 and offset to 0; nothing else changes |
| OffsetFilter.TextStage | internal/schemas/teaSchemas/teaFilter.go:60-72 | changes only categoryId and name |
| OffsetFilter.TagsStage | internal/schemas/teaSchemas/teaFilter.go:74-87 | changes only the tags |
| OffsetFilter.SortStage | internal/schemas/teaSchemas/teaFilter.go:89-103 | changes only isAsc and sortBy |
| OffsetFilter.PriceStage | internal/schemas/teaSchemas/teaFilter.go:105-123 | changes only the price bounds, reports neither a page nor a tag error, and an invalid-price error names a price[] value that does not parse |
| OffsetFilter.Filters.Validate | internal/schemas/teaSchemas/teaFilter.go:46-125 | the filter state and outcome are those of the validation specification |
| OffsetFilter.Filters.ReadPaging | internal/schemas/teaSchemas/teaFilter.go:48-58 | the state becomes PagingStage of the old state |
| OffsetFilter.Filters.ReadCategoryAndName | internal/schemas/teaSchemas/teaFilter.go:60-72 | the state becomes TextStage of the old state |
| OffsetFilter.Filters.ReadTags | internal/schemas/teaSchemas/teaFilter.go:74-87 | state and error are TagsStage of the old state |
| OffsetFilter.Filters.ReadSort | internal/schemas/teaSchemas/teaFilter.go:89-103 | state and error are SortStage of the old state |
| OffsetFilter.Filters.ReadPrices | internal/schemas/teaSchemas/teaFilter.go:105-123 | state and outcome are PriceStage of the old state |
| OffsetFilter.LimitAndOffsetDefaults | internal/schemas/tea.go:83-93 | a missing or unparsable limit becomes 10 and offset 0 |
| OffsetFilter.CategoryIdRule | internal/schemas/tea.go:95-102 | a categoryId that is present becomes its parsed UUID, or Nil when it does not parse, never an error; an absent one leaves the field as it was |
| OffsetFilter.InvalidTagRejected | internal/schemas/teaSchemas/teaFilter.go:74-87 | a non-UUID tag fails validation naming that tag |
| OffsetFilter.UnknownSortByRejected | internal/schemas/tea.go:130-138 | an unknown sortBy fails validation naming the value |
| OffsetFilter.SortStageAccepted | internal/schemas/teaSchemas/teaFilter.go:89-103 | isAsc defaults to true; an accepted sortBy is a known key, or is left as it was when absent |
| OffsetFilter.AcceptedFilters | internal/schemas/teaSchemas/teaFilter.go:46-125 | an accepted query leaves every tags[] value in order, isAsc true unless it parses, a sort key that is "name", "price" or the old one when absent, and userId untouched |
| OffsetFilter.AcceptedPricesOrdered | internal/schemas/tea.go:140-158 | an accepted query with price[] values sent at least two, all of which parse; the bounds are two of the parsed prices, minimum not above maximum and not above any price; with exactly two values they are those two |
| TeaQueries.CollectConditions | internal/repository/postgres/tea.go:62-84 | the loop builds the base query plus the tag join, and the list of filter conditions |
| TeaQueries.AppendWhere | internal/repository/postgres/tea.go:86-88 | appends the where clause, and only when there are conditions |
| TeaQueries.AppendOrder | internal/repository/postgres/tea.go:90-100 | appends the order clause with the direction |
| TeaQueries.PrepareFilteredQuery | internal/repository/postgres/tea.go:60-116 | the query text is that of the query specification |
| TeaQueries.QueryFrame | internal/repository/postgres/tea.go:60-102 | every query starts with the base select and ends with the limit/offset clause |
| TeaQueries.JoinPresentIff | internal/repository/postgres/tea.go:74-79 | the teas_tags join follows the base select exactly when tags are requested |
| TeaQueries.WherePresentIff | internal/repository/postgres/tea.go:86-88 | a where clause follows exactly when some filter is set |
| TeaQueries.ConditionsPresence | internal/repository/postgres/tea.go:64-84 | the category, name, tags and price conditions each appear exactly when their filter is set |
| TeaQueries.ConditionsOrder | internal/repository/postgres/tea.go:64-84 | the conditions appear in the order category, name, tags, price |
| TeaQueries.OrderDirectionIff | internal/repository/postgres/tea.go:90-100 | the query ends in " asc" or " desc" plus the limit clause exactly when a sort key is set, following isAsc |
| TeaQueries.QueryTextDependsOnShape | internal/repository/postgres/tea.go:60-102 | two filters with the same set fields and sort produce the same text, since values are bound parameters |
| TeaQueries.InsertTagRows | internal/repository/postgres/tea.go:179-186 | one teas_tags row per tag id, in order |
| TeaQueries.TagRowsDenoteLinks | internal/repository/postgres/tea.go:179-194 | the rows denote exactly the (tea, tag) links of the requested ids |
| TagsDelta.GetTagsDelta | internal/service/tea.go:153-179 | the ids to insert are the incoming ids not already linked, and the ids to delete are the linked ids not incoming, each in input order |
| TagsDelta.MissingMembers | internal/service/tea.go:164-176 | an id is in the difference exactly when it is in the first list and not in the second |
| TagsDelta.MissingCounts | internal/service/tea.go:164-176 | duplicates in the first list are kept as often as they occur |
| TagsDelta.MissingLength | internal/service/tea.go:164-176 | the difference is no longer than the list it filters |
| TagsDelta.DeltaDisjointAndBounded | internal/service/tea.go:153-179 | no id is both inserted and deleted, and neither list outgrows its input |
| TagsDelta.DeltaReconciles | internal/service/tea.go:153-179 | the linked ids minus the deletions plus the insertions are exactly the incoming ids |
| CatalogStore.TeaLookup | internal/repository/postgres/tea.go:25-40 | found exactly for a stored tea, without tags; rated only when a user is given |
| CatalogStore.TagsOf | internal/repository/postgres/tag.go:28-40 | the stored tags linked to the tea through teas_tags |
| CatalogStore.RemoveTea | internal/repository/postgres/tea.go:308-338 | removes every link of the tea |
| CatalogStore.UpdateRow | internal/repository/postgres/category.go:85-126 | an update by id changes that row when it exists and nothing else |
| CatalogStore.TeaWritesKeepLinks | internal/repository/postgres/tea.go:118-338 | every write of the tea repository keeps each link pointing at a stored tea |
| CatalogStore.InsertTeaLinks | internal/repository/postgres/tea.go:118-157 | a created tea is linked to exactly the requested tags |
| CatalogStore.ReplaceTeaLinks | internal/repository/postgres/tea.go:229-271 | an update leaves the tea linked to its old tags minus the deleted plus the inserted, and other teas' links as they were |
| CatalogStore.CatalogDb.GetTeaById | internal/repository/postgres/tea.go:25-40 | the tea lookup without a user, or the failure |
| CatalogStore.CatalogDb.GetTeaByIdWithUser | internal/service/tea.go:11-21 | the tea lookup with the user's rating, or the failure |
| CatalogStore.CatalogDb.CreateTea | internal/repository/postgres/tea.go:118-177 | inserts the tea and one link per requested tag, or on failure changes nothing |
| CatalogStore.CatalogDb.DeleteTea | internal/repository/postgres/tea.go:308-338 | removes the tea and its links, or on failure changes nothing |
| CatalogStore.CatalogDb.UpdateTea | internal/repository/postgres/tea.go:229-306 | rewrites the tea row, inserts then deletes the given links, or on failure changes nothing |
| CatalogStore.CatalogDb.Evaluate | internal/service/tea.go:11-21 | records the user's rating for the tea, or on failure changes nothing |
| CatalogStore.CatalogDb.TeaExists | internal/service/tea.go:11-21 | true exactly for a stored tea id |
| CatalogStore.CatalogDb.TeaExistsByName | internal/service/tea.go:11-21 | true exactly when a tea other than the given id has that name |
| CatalogStore.CatalogDb.ExistsByCategoryId | internal/service/category.go:20-22 | true exactly when some tea is in the category |
| CatalogStore.CatalogDb.GetByTeaId | internal/repository/postgres/tag.go:28-40 | exactly the tags linked to the tea |
| CatalogStore.CatalogDb.GetCategoryById | internal/repository/postgres/category.go:21-32 | the category, or nil for an unknown id |
| CatalogStore.CatalogDb.GetAllCategories | internal/repository/postgres/category.go:34-42 | every stored category |
| CatalogStore.CatalogDb.CreateCategory | internal/repository/postgres/category.go:44-83 | inserts the category under the new id, or on failure changes nothing |
| CatalogStore.CatalogDb.UpdateCategory | internal/repository/postgres/category.go:85-126 | rewrites the row with that id if it exists, returning an empty category otherwise |
| CatalogStore.CatalogDb.DeleteCategory | internal/repository/postgres/category.go:128-148 | removes the category, or on failure changes nothing |
| CatalogStore.CatalogDb.CategoryExists | internal/repository/postgres/category.go:150-157 | true exactly for a stored category id |
| CatalogStore.CatalogDb.CategoryExistsByName | internal/repository/postgres/category.go:159-166 | true exactly when a category other than the given id has that name |
| CatalogStore.CatalogDb.GetAllTags | internal/repository/postgres/tag.go:19-26 | every stored tag |
| CatalogStore.CatalogDb.CreateTag | internal/service/tag.go:10-18 | inserts the tag under the new id, or on failure changes nothing |
| CatalogStore.CatalogDb.UpdateTag | internal/service/tag.go:10-18 | rewrites the row with that id if it exists, returning an empty tag otherwise |
| CatalogStore.CatalogDb.DeleteTag | internal/service/tag.go:10-18 | removes the tag row only, or on failure changes nothing |
| CatalogStore.CatalogDb.TagExists | internal/service/tag.go:10-18 | true exactly for a stored tag id |
| CatalogStore.CatalogDb.TagExistsByName | internal/service/tag.go:10-18 | true exactly when a tag other than the given id has that name |
| CatalogStore.CatalogDb.ExistsByTeas | internal/service/tag.go:10-18 | true exactly when some tea is linked to the tag; false along with the error on failure |
| CatalogStore.CatalogDb.GetAllUnits | internal/repository/postgres/unit.go:34-42 | every stored unit |
| CatalogStore.CatalogDb.CreateUnit | internal/repository/postgres/unit.go:53-95 | inserts the unit under the new id, or on failure changes nothing |
| CatalogStore.CatalogDb.UpdateUnit | internal/repository/postgres/unit.go:97-142 | rewrites the row with that id if it exists, returning an empty unit otherwise |
| CatalogStore.CatalogDb.DeleteUnit | internal/repository/postgres/unit.go:144-165 | removes the unit, or on failure changes nothing |
| CatalogStore.CatalogDb.UnitExists | internal/repository/postgres/unit.go:44-51 | true exactly for a stored unit id |
| TeaService.GetTeaByIdRule | internal/service/tea.go:42-65 | only the lookup matching the user (anonymous or not) is consulted; without faults, 404 exactly for an unknown id, otherwise the tea with its linked tags, rated only for a user |
| TeaService.CreateTeaRule | internal/service/tea.go:76-97 | a taken name gives 400 and no write; the tables change only after the name check and insert pass; a created tea is linked to exactly the requested tags |
| TeaService.UpdateTeaChecks | internal/service/tea.go:114-129 | an unknown id gives 404 before the name is looked at, a name another tea has gives 400, and neither writes |
| TeaService.UpdateTeaLinks | internal/service/tea.go:130-151 | after a successful update the tea is linked to exactly the requested tags, and every other tea keeps its links |
| TeaService.ExistedTagIds | internal/service/tea.go:136-139 | the loop gives the ids of the read tags, position by position |
| TeaService.ExistedIdsAreJoinedIds | internal/service/tea.go:131-139 | those ids are exactly the ids of the tags linked to the tea |
| TeaService.UnknownTeaNotFound | internal/service/tea.go:99-188 | DeleteTea and Evaluate answer 404 for an unknown id and write nothing |
| TeaService.DeleteTeaRemovesLinks | internal/service/tea.go:99-112 | a successful delete removes the tea and all its links and no other tea |
| TeaService.EvaluateRecordsRating | internal/service/tea.go:181-200 | a successful evaluation returns and stores the user's rating and changes no other table |
| TeaService.TeaService.GetTeaById | internal/service/tea.go:42-65 | answers the lookup specification |
| TeaService.TeaService.CreateTea | internal/service/tea.go:76-97 | answer and tables are those of the create specification |
| TeaService.TeaService.DeleteTea | internal/service/tea.go:99-112 | answer and tables are those of the delete specification |
| TeaService.TeaService.UpdateTea | internal/service/tea.go:114-151 | answer and tables are those of the update specification |
| TeaService.TeaService.Evaluate | internal/service/tea.go:181-200 | answer and tables are those of the evaluate specification |
| CategoryService.ReadRules | internal/service/category.go:36-57 | without a fault, GetById answers 404 exactly for an unknown id and otherwise the category with that id; a failed GetAll comes with an empty list |
| CategoryService.CreateChecksName | internal/service/category.go:59-74 | a taken name gives 400 and no write; a write happens only for a free name, and after a successful create under a non-Nil id the name is taken |
| CategoryService.UpdateChecks | internal/service/category.go:76-102 | an unknown id gives 404, then a name another category has gives 400, neither writing; success stores the category under the path id and leaves the others untouched |
| CategoryService.DeleteChecks | internal/service/category.go:104-129 | an unknown id gives 404 and a category holding teas gives 400; only an empty, existing category is deleted |
| CategoryService.DeleteKeepsTeaCategories | internal/service/category.go:104-129 | a successful delete leaves every tea in an existing category |
| CategoryService.CategoryService.GetById | internal/service/category.go:36-48 | answers the lookup specification |
| CategoryService.CategoryService.GetAll | internal/service/category.go:50-57 | answers the list specification |
| CategoryService.CategoryService.Create | internal/service/category.go:59-74 | answer and tables are those of the create specification |
| CategoryService.CategoryService.Update | internal/service/category.go:76-102 | answer and tables are those of the update specification |
| CategoryService.CategoryService.Delete | internal/service/category.go:104-129 | answer and tables are those of the delete specification |
| TagService.GetAllFailureIsEmpty | internal/service/tag.go:30-36 | GetAll fails exactly on a repository failure, and then returns an empty list |
| TagService.CreateChecksName | internal/service/tag.go:38-53 | a taken name gives 400 and no write; a write happens only for a free name |
| TagService.UpdateChecks | internal/service/tag.go:55-81 | an unknown id and a name another tag has both give 404 without writing; success stores the tag under the path id |
| TagService.DeleteChecks | internal/service/tag.go:83-104 | an unknown id gives 404 and, when the in-use check answers, a tag in use gives 400; a delete happens only for an existing tag not known to be in use |
| TagService.DeleteIgnoresInUseError | internal/service/tag.go:93-99 | when the in-use check fails, a tag in use is deleted all the same, leaving links to a missing tag |
| TagService.TagService.GetAll | internal/service/tag.go:30-36 | answers the list specification |
| TagService.TagService.Create | internal/service/tag.go:38-53 | answer and tables are those of the create specification |
| TagService.TagService.Update | internal/service/tag.go:55-81 | answer and tables are those of the update specification |
| TagService.TagService.Delete | internal/service/tag.go:83-104 | answer and tables are those of the delete specification |
| UnitService.CreateAndGetAll | internal/service/unit.go:28-43 | Create checks nothing and, without a fault, stores the unit under the new id; a failed GetAll returns a nil list |
| UnitService.UnknownUnitNotFound | internal/service/unit.go:45-80 | Update and Delete answer 404 for an unknown id and write nothing |
| UnitService.UpdateWritesPathId | internal/service/unit.go:45-62 | a successful update stores the unit under the path id and leaves the other units as they were |
| UnitService.UnitService.GetAll | internal/service/unit.go:28-34 | answers the list specification |
| UnitService.UnitService.Create | internal/service/unit.go:36-43 | answer and tables are those of the create specification |
| UnitService.UnitService.Update | internal/service/unit.go:45-62 | answer and tables are those of the update specification |
| UnitService.UnitService.Delete | internal/service/unit.go:64-80 | answer and tables are those of the delete specification |

## Left out

- Cryptography (SHA-256, HMAC-SHA-256), UTF-8 encoding, UUID parsing and formatting, and JWS encoding and signing are functions of `Foreign.Lib`, not implementations. Only the laws the proofs use are assumed, as explicit `requires` on the lemmas that need them.
- The clock (`time.Now`), the random refresh jit (`uuid.New`) and the ids the database generates are parameters.
- Database errors are a `fail` flag or a `faults` set, not a real connection. sqlx scanning, transactions and rollbacks are not modelled, and a multi-statement write either fully happens or fully fails.
- Concurrency is not modelled: two logins or refreshes racing on the same user are outside the model.
- HTTP plumbing (routing, JSON decoding of bodies, response writing) is not modelled. A body that fails to decode is an absent payload.
- Each price string is parsed by a `FloatParser` function parameter, which stands for `strconv.ParseFloat(p, 64)`. Float rounding and NaN are not modelled, and prices are reals. Because reals are totally ordered, `sort.Float64s` on a sorted slice with one appended value is modelled as inserting that value in order.
- The Mini App login and the refresh HTTP handler are not part of this model. Only the service method `UpdateAccessToken` behind the refresh handler is modelled.
- `GetAllTeas` and the tea repository's `GetAll` are not modelled beyond the SQL text they run (`TeaQueries.PrepareFilteredQuery`). Executing that query against the tables is not modelled.
- The average rating of a tea is not computed. A lookup carries only the asking user's own rating.
- CatalogStore.CatalogDb.GetByTeaId: the order of the returned tags is left open; only their set is stated.
- Foreign keys and unique constraints on `teas_tags` are not modelled. Links are a set, so a duplicate requested tag id makes a single link.
- CatalogStore.CatalogDb.UpdateTea requires that the tea exists, which its only caller, the service's UpdateTea, checks first (internal/service/tea.go:114-129, 143); the statement path for a missing tea is not modelled.
- `prepareFilteredQuery` takes the offset-based filter (`schemas.TeaFilters`). It is modelled over `OffsetFilter.FilterState`, which has the same fields.
- The SQL of the tag repository's writes and existence checks is not part of this model. Their behaviour is stated from the repository interface the tag service uses.
- The Go source does not type-check in two places, and the model settles both. `entity.User` (internal/entity/user.go:8-16) has no `IsAdmin` field, yet internal/service/user.go:339 and internal/controller/v1/user.go:135 read `user.IsAdmin`; the model gives the user the `is_admin` column that the role follows. `schemas.TelegramUser.Id` is an `int` (internal/schemas/user.go:6), yet internal/controller/v1/user.go:54 passes it to `Exists(uint64)`; the model takes the Telegram id as the unsigned 64-bit id of `entity.User`, modelled as a `nat`.
- Telegram ids are assumed unique among stored users (`UniqueTelegramIds`), as the login flow keeps them. The schema that would enforce it is not part of this model.
- The `fmt` debug print in the old controller's middleware is left out: it is output only.
