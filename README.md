# Camper: bearer tokens, sign-in and store registration, modelled in Dafny

This project models three parts of the Camper camping-community back end:

- **`JWTUtil`**: the bearer-token utility. It issues a signed compact JWT for a user. The claims are
  `sub` = user id, `username` = email, `iss` = `Camper`, `iat` and `exp`, and the TTL depends on the
  token's purpose (auth or find-password). It parses a token back into its claims, its principal or its
  expiry, and maps the JWT library's failures to `NotValidTokenException`, `ExpiredTokenException` and
  `UnsupportedTokenException`. This is module `Jwt` (`jwt.dfy`). `Long.parseLong`, which reads the user id back, is in module
  `JavaLong` (`java_long.dfy`). That module also holds the decimal spelling of a long. This spelling
  is how a numeric user id becomes the `userId` string a token is issued for. That conversion happens
  in `UserPrincipal.getName()`, which is not part of this model.
- **`AuthService.signIn`**: looks up a user by email and checks the password against the stored hash.
  Both failures throw `SignInFailedException`. This is module `Auth` (`auth.dfy`).
- **`StoreServiceV1`**: registers and modifies stores. Tags are found or created per
  (store type, title). This is module `Stores` (`stores.dfy`): class `StoreService` holds the two
  repositories as a map and a sequence. Its `UpdateTags` loop is proved against the fold `AddTags`, and
  the tag-table properties are proved about that fold.

`Results` (`results.dfy`) holds the `Option`/`Result` types used for `null`, `Optional` and thrown
exceptions.

Modelling choices:

- A token is a structured value: `Blank`, `Garbled`, or `Compact(header, payload, signature)`.
- The HMAC-SHA-256 signature is the symbolic value `Sign(secret, header, payload)`, an ideal MAC: it
  matches only the exact secret, header and payload it was made from.
- Time is a parameter, in milliseconds since the epoch.
- `getBody` (`JWTUtil.java:56-63`) parses the token twice. The first parse is inside `validateToken`,
  at instant `now`. The second parse (`:58-60`) reads the clock again, at `readAt` (`now <= readAt`),
  and has no try around it. So `getBody`, `getPrincipal` and `getExpiredDate` take both instants. An
  exception from the second parse reaches the caller unmapped (`Thrown.Uncaught`). Once the first parse
  has passed, the only such exception is `ExpiredJwtException`, for a token that expires between the
  two parses (`Jwt.ExpiryBetweenParsesEscapes`).
- The parser follows the order of checks in jjwt 0.9's `parseClaimsJws`:
  1. blank input gives `IllegalArgumentException`;
  2. a bad shape, or a signature under algorithm "none", gives `MalformedJwtException`;
  3. a signature mismatch gives `SignatureException`;
  4. `exp` gives `ExpiredJwtException`;
  5. `nbf` gives `PrematureJwtException`;
  6. an unsigned token, or one that is not a claim set, gives `UnsupportedJwtException`.
- Date claims are stored as whole seconds (`millis / 1000`, truncating) and read back as seconds × 1000.
  So an issued token's expiry instant is `now + TTL` cut to the second (`Jwt.ExpiryInstant`).
- **Expiry boundary (explicit model choice):** a token is expired when `now > exp`. It is still
  accepted at the exact expiry instant. This is the `Date.after` comparison that jjwt 0.9 makes with
  no clock skew.
- The builder chain of `creatToken` is modelled as a list of builder calls folded over a claim map.
  `setClaims(payloads)` at `JWTUtil.java:47` replaces the claim set, so the `setId(userId)` and
  `setSubject(email)` before it are lost. The effective `sub` is the user id. The token carries no
  `jti` claim: `setClaims` at `:47` drops the one `setId` made (`Jwt.CreatTokenClaims`).
- `signIn` keeps the two different messages of the source (`UserNotFound`, `PasswordMismatch`, standing
  for the texts "test" and "test2") under one exception type.
- The `StoreServiceV1` case labels `campGround` / `campSupply` are modelled as written
  (`StoreType.CampGround`, `StoreType.CampSupply`). Every other constant of the enum is `OtherType`.

## Model

| member | source | states |
|---|---|---|
| `Jwt.BearerCredential` | src/main/java/com/ss/camper/common/util/JWTUtil.java:22-23 | The `Authorization` header value is exactly "Bearer", one space, then the bare token. This is how the controller test forms it (`src/test/java/com/ss/camper/store/ui/StoreControllerTest.java:86`). |
| `Jwt.SetClaimsReplaces` | src/main/java/com/ss/camper/common/util/JWTUtil.java:44-47 | `setClaims` discards every claim set before it, whatever the earlier builder calls were. |
| `Jwt.CreatTokenClaims` | src/main/java/com/ss/camper/common/util/JWTUtil.java:40-51 | The builder chain yields exactly sub = user id, username = email, iss = "Camper", iat and exp. It has no `jti`, and the email set as subject is gone. |
| `Jwt.CreatToken` | src/main/java/com/ss/camper/common/util/JWTUtil.java:36-54 | The issued token has header typ JWT / HS256, the claim layout above with exp = now + TTL in seconds, and a signature made with the configured secret over its header and payload. |
| `Jwt.CreatAuthToken` | src/main/java/com/ss/camper/common/util/JWTUtil.java:27-30 | An auth token's exp comes from `authTokenExpirationTime`; its sub and username are the principal's name and username. |
| `Jwt.CreatFindPasswordToken` | src/main/java/com/ss/camper/common/util/JWTUtil.java:32-34 | A find-password token's exp comes from `findPasswordTokenExpirationTime`; its sub and username are the given id and email. |
| `Jwt.PurposeIsolation` | src/main/java/com/ss/camper/common/util/JWTUtil.java:27-34 | Auth and find-password tokens issued at the same instant for the same user differ only in the exp claim. |
| `Jwt.ExpiryInstant` | src/main/java/com/ss/camper/common/util/JWTUtil.java:37-38 | The expiry instant is within one second of now + TTL: never after it for non-negative instants, never before it for negative ones. |
| `Jwt.ParseClaimsJws` | src/main/java/com/ss/camper/common/util/JWTUtil.java:79 | The library parse succeeds exactly for a token with an authentic signature over a claim set that is neither expired nor premature. It then returns those claims. A signature failure implies an inauthentic token, and an expiry failure implies an expired claim set. |
| `Jwt.CatchAsWritten` | src/main/java/com/ss/camper/common/util/JWTUtil.java:81-86 | As written, malformed and illegal-argument map to NotValidToken and nothing else does. Exactly the signature and premature exceptions pass through unmapped, as themselves. Expired maps only to ExpiredToken and unsupported only to UnsupportedToken. |
| `Jwt.Catch` | src/main/java/com/ss/camper/common/util/JWTUtil.java:81-86 | Every library exception becomes one of the three token exceptions. Expired and unsupported map one-to-one, and every other failure is NotValid. |
| `Jwt.ValidateTokenAsWritten` | src/main/java/com/ss/camper/common/util/JWTUtil.java:77-88 | As written, validateToken never returns false and returns true exactly when the parse succeeds. Every parse failure is thrown as the as-written catch list maps it, so signature and premature failures escape unmapped, and only they do. |
| `Jwt.ValidateToken` | src/main/java/com/ss/camper/common/util/JWTUtil.java:77-88 | Under the corrected catch list (`Jwt.Catch`), validateToken returns true or throws NotValid, Expired or Unsupported, and never returns false. It returns true exactly when the parse succeeds. Expired and Unsupported are thrown exactly for the matching library exceptions. |
| `Jwt.GetBody` | src/main/java/com/ss/camper/common/util/JWTUtil.java:56-63 | On the corrected `Jwt.ValidateToken` (`Jwt.Catch`), getBody validates at `now` first and propagates its exception unchanged. After a successful validation, it succeeds exactly when the token is not expired at the second parse's instant. Otherwise it lets the raw ExpiredJwtException through. The claims it returns are the authentically signed payload. |
| `Jwt.GetPrincipal` | src/main/java/com/ss/camper/common/util/JWTUtil.java:65-71 | On the corrected `Jwt.ValidateToken` (`Jwt.Catch`), getPrincipal propagates the validation exception, and only a raw ExpiredJwtException can escape unmapped. A NumberFormatException comes only after successful validation. After successful validation, a token expired at the second parse gives the raw ExpiredJwtException. An unexpired token whose sub does not parse as a long gives NumberFormatException, and otherwise the call succeeds. The id is that 64-bit value, and the email is `String.valueOf` of the username claim. |
| `Jwt.GetExpiredDate` | src/main/java/com/ss/camper/common/util/JWTUtil.java:73-75 | On the corrected `Jwt.ValidateToken` (`Jwt.Catch`), getExpiredDate succeeds exactly when validation does and the token is still unexpired at the second parse. It returns the token's exp claim (null when absent), which is never before the read. Otherwise it propagates the validation exception. After a successful validation, a token expired at the second parse gives the raw ExpiredJwtException. |
| `Jwt.IssuedTokenValidity` | src/main/java/com/ss/camper/common/util/JWTUtil.java:77-88 | An issued token validates up to and including its expiry instant, and throws ExpiredToken after it. |
| `Jwt.IssueThenGetPrincipal` | src/main/java/com/ss/camper/common/util/JWTUtil.java:36-71 | Round trip: for every 64-bit user id, getPrincipal of a token issued for (id, email), with both parses before expiry, yields exactly (id, email). |
| `Jwt.IssuedExpiredDate` | src/main/java/com/ss/camper/common/util/JWTUtil.java:73-75 | getExpiredDate of an issued token, with both parses before expiry, is its expiry instant. |
| `Jwt.ExpiredTokenUnreadable` | src/main/java/com/ss/camper/common/util/JWTUtil.java:56-75 | When the validating parse is past expiry, getBody, getPrincipal and getExpiredDate of an issued token all throw ExpiredToken. |
| `Jwt.ExpiryBetweenParsesEscapes` | src/main/java/com/ss/camper/common/util/JWTUtil.java:56-75 | Suppose an issued token is still valid at the validating parse but expired at the second parse. Then getBody, getPrincipal and getExpiredDate all let the raw ExpiredJwtException through, not ExpiredTokenException. |
| `Jwt.NonNumericSubjectFails` | src/main/java/com/ss/camper/common/util/JWTUtil.java:65-71 | A token issued for a user id that is not a decimal long makes getPrincipal throw NumberFormatException when both parses are before expiry. |
| `Jwt.MalformedInputIsNotValid` | src/main/java/com/ss/camper/common/util/JWTUtil.java:81-82 | Blank input, garbled input and a signature under algorithm "none" all throw NotValidToken. |
| `Jwt.TamperedTokenIsNotValid` | src/main/java/com/ss/camper/common/util/JWTUtil.java:81-82 | Under the corrected catch list (`Jwt.Catch`), changing the payload of a signed token, or replacing its signature, makes it NotValid at any time. |
| `Jwt.UnsignedTokenIsUnsupported` | src/main/java/com/ss/camper/common/util/JWTUtil.java:85-86 | An unsigned claim set that is not ruled out by its own dates throws UnsupportedToken. |
| `Jwt.AlteredSubjectEscapesAsWritten` | src/main/java/com/ss/camper/common/util/JWTUtil.java:81-86 | An issued token whose sub was changed after signing escapes validateToken, as written, with the library's signature exception. The total catch list reports it as NotValid. |
| `Jwt.FutureNotBeforeEscapesAsWritten` | src/main/java/com/ss/camper/common/util/JWTUtil.java:81-86 | A signed token whose nbf lies in the future escapes validateToken, as written, with the library's premature exception. The total catch list reports it as NotValid. |
| `JavaLong.ParseLong` | src/main/java/com/ss/camper/common/util/JWTUtil.java:68 | `Long.parseLong` accepts only an optional sign followed by at least one digit, and its result fits in 64 bits. A negative result comes only from a leading `-`. |
| `JavaLong.ParseShowInt` | src/main/java/com/ss/camper/common/util/JWTUtil.java:68 | Parsing the decimal spelling of any 64-bit value gives that value back. |
| `Auth.FindByEmail` | src/main/java/com/ss/camper/auth/application/AuthService.java:26 | The lookup returns a user of the table with exactly that email, and returns nothing exactly when no user has it. |
| `Auth.SignIn` | src/main/java/com/ss/camper/auth/application/AuthService.java:25-31 | It fails with SignInFailed(UserNotFound) exactly when no user has the email. It succeeds exactly when the user found by email has a hash the matcher accepts, and then it returns that user's projection. A PasswordMismatch failure means a user with that email whose hash the matcher rejects. |
| `Auth.MatcherUnusedForUnknownEmail` | src/main/java/com/ss/camper/auth/application/AuthService.java:26-27 | For an unknown email the outcome does not depend on the password matcher: it is consulted only after a user is found. |
| `Auth.MatcherAskedOnlyAboutFoundUser` | src/main/java/com/ss/camper/auth/application/AuthService.java:27 | The outcome depends on the matcher only through its answer for (password, found user's hash). |
| `Auth.FailuresShareOneType` | src/main/java/com/ss/camper/auth/application/AuthService.java:26-28 | Unknown email and wrong password both throw SignInFailedException; only the message differs. |
| `Stores.KindOf` | src/main/java/com/ss/camper/store/application/StoreServiceV1.java:32-57 | campGround selects CampGroundStore, campSupply selects CampSupplyStore, and every other type selects nothing (the throwing default). |
| `Stores.FindTag` | src/main/java/com/ss/camper/store/application/StoreServiceV1.java:100 | The tag lookup returns the id of a tag with exactly that type and title, and returns nothing exactly when no such tag is saved. |
| `Stores.AddTagStep` | src/main/java/com/ss/camper/store/application/StoreServiceV1.java:100-105 | One iteration only appends to the tag table, at most one new tag with that type and title and only when none existed. It keeps the table free of duplicate (type, title). It adds the title to the set's titles unless already there. |
| `Stores.AddTagsFacts` | src/main/java/com/ss/camper/store/application/StoreServiceV1.java:99-106 | After the loop, existing tags are untouched and each new tag has the store's type and a requested title that was not saved before. No duplicate (type, title) exists. The gathered tags are distinct, of the store's type, and carry the requested titles each once, in first-request order. |
| `Stores.UpdateTagsSpecFacts` | src/main/java/com/ss/camper/store/application/StoreServiceV1.java:95-109 | updateTags sets null exactly for a null or empty request. Otherwise the store's tags have the store's type and exactly the requested titles. Existing tags are untouched and no duplicate tag is created. |
| `Stores.ToDTO` | src/main/java/com/ss/camper/store/application/StoreServiceV1.java:60 | The returned DTO carries the store's id, type and info. It carries null tags exactly when the store's tags are null, and otherwise each tag's id and title in order. |
| `Stores.StoreService.UpdateTags` | src/main/java/com/ss/camper/store/application/StoreServiceV1.java:95-109 | The loop leaves the tag table and the store's tag set exactly as the fold `UpdateTagsSpec` of the old table prescribes. |
| `Stores.StoreService.Register` | src/main/java/com/ss/camper/store/application/StoreServiceV1.java:29-61 | Another type throws NotSupplyStoreType and changes nothing. Otherwise exactly one store is added, under a fresh id, of the matching subclass, with the DTO's type and six info fields and the updated tags, and the table invariant is kept. |
| `Stores.StoreService.Modify` | src/main/java/com/ss/camper/store/application/StoreServiceV1.java:66-79 | An absent id throws NotFoundStore and changes nothing. Otherwise only that store changes: its six info fields and tags are overwritten, and its id, type and subclass are kept. |
| `Stores.StoreService.GetInfo` | src/main/java/com/ss/camper/store/application/StoreServiceV1.java:83-86 | An absent id gives null rather than an exception. Otherwise the result is that store's DTO: its id, type and info, and its tags as id and title. |

## Findings

| source | as written | input that shows it | evidently intended | confidence | as-written member | corrected member |
|---|---|---|---|---|---|---|
| src/main/java/com/ss/camper/common/util/JWTUtil.java:81-86 | The catch list names malformed, illegal-argument, expired and unsupported only. A signature mismatch escapes `validateToken` as the library's own exception, although the comment at :81 files invalid signatures under "not valid". | An issued token whose `sub` claim was changed after signing | `NotValidTokenException` | not executed; high for jjwt 0.9, whose `SignatureException` is none of the caught types | `Jwt.AlteredSubjectEscapesAsWritten` | `Jwt.ValidateToken` |
| src/main/java/com/ss/camper/common/util/JWTUtil.java:81-86 | A correctly signed token whose `nbf` claim lies in the future escapes `validateToken` as the library's premature-token exception. | A token signed with the secret whose `nbf` is later than now | `NotValidTokenException` (fail closed) | not executed; medium, since only a holder of the secret can produce such a token | `Jwt.FutureNotBeforeEscapesAsWritten` | `Jwt.ValidateToken` |

`GetBody`, `GetPrincipal` and `GetExpiredDate` are built on the corrected `Jwt.ValidateToken`. Their second parse is modelled as written.

## Left out

- HMAC-SHA-256, base64url and JSON encoding are not modelled: the signature is symbolic and the token is a structured value.
- jjwt's per-algorithm key checks are not modelled. An algorithm name other than "none" is verified with the same symbolic MAC.
- jjwt's clock-skew allowance is not modelled; none is configured.
- Clock reads are not modelled: the current time is a parameter. The second clock read for `iat` (`JWTUtil.java:50`) is taken to equal the first one (`:37`).
- `Jwt.CreatToken`: the token secret is taken to be a usable non-blank base64 key. For a blank or non-base64 secret, `signWith` (`JWTUtil.java:52`) throws `IllegalArgumentException`. That case is not modelled.
- `Jwt.ValidateToken`: the same unusable secret would make `setSigningKey` (`:79`) throw inside the try, so every token would read as NotValid. That case is not modelled either.
- `Jwt.CreatToken`: does not model the 64-bit wrap-around of `now + expiryTime`, or of seconds × 1000 when an expiry is read back, because instants are unbounded integers. Realistic TTLs never come near the limit.
- `JavaLong.ParseLong`: accepts ASCII digits only. `Character.digit` also accepts other Unicode decimal digits.
- A date claim that holds a string is treated as absent. The library's conversion of it is not modelled.
- The `Authentication` → `UserPrincipal` cast at `JWTUtil.java:28` is not modelled. `CreatAuthToken` takes the principal's name and username directly.
- The Spring `UserPrincipal` has more content (authorities, …) than the model's `UserPrincipal(id, email)`.
- The password encoder's internals are not modelled: the matcher is an injected function.
- `UserDTO` is modelled as the projection (id, email); ModelMapper and the DTO's other fields are not part of this model.
- The user table is a sequence searched for the first match. JPA's error for two users with the same email is not modelled.
- `getPageList` (`StoreServiceV1.java:89-91`) is left out: it only delegates to a query-support class that is not part of this model.
- A `null` store type (a `NullPointerException` in the switch) is not modelled, and neither are null DTO fields.
- The address's latitude and longitude (floating point) are not modelled, and neither are store fields that `register` does not set.
- `Store.updateInfo` and `Store.updateTags` are not part of this model. They are taken to assign the six info fields and the tag set.
- The managed store entity is updated in place in the source. The model replaces its map entry instead, so aliasing of the entity object is not captured.
- The iteration order of the requested tag set is given by the caller, as the order of a sequence.
- Tag ids are positions in the tag table. Tag rows with a duplicate (type, title) that were created outside this service are excluded by the service invariant.
- Transaction rollback is not modelled. Both exceptions are thrown before anything is saved.
- `StoreController`, `ClientUser` and the controller tests are not modelled. The test is cited only for how the header value is formed.
- The exact message texts of `SignInFailedException` ("test", "test2") are not modelled, and neither are the token exception messages.
