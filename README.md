# StaticBackend credential gate and account provisioning, in Dafny

This project models two parts of StaticBackend, a Go backend-as-a-service.

1. **The bearer-credential gate** in `middleware/auth.go`:
   - `RequireAuth` sorts the `Authorization` header into three cases. An empty header on a `/db/pub_` or `/query/pub_` path gets a synthesized zero-role user; an empty header elsewhere is rejected; a header without `Bearer ` is rejected as malformed.
   - `ValidateAuthKey` checks the signature and the base config first. It then consults the process-wide `tokens` cache, keyed by the JWT payload's token. On a miss the code splits the bearer key on `|` into exactly two parts, parses part 0 as an ObjectID, looks the token up and caches the result. Splitting the bearer key is a defect (see "## Findings"); the stateful model splits the payload's token instead.
   - `RequireRoot` splits the key into three `|`-parts, parses two ObjectIDs, looks up the root token and requires role 100 (`RootRole`).
2. **The provisioning rules** of the `create` handler in `account.go`:
   - `randStringRunes`, which draws from a 56-rune alphabet and forces the first rune to `a`;
   - the cheap e-mail check, and the `fromCLI`/`memoryMode` flags;
   - the unique database-name loop, including the `dev-memory-pk` override;
   - the admin password choice and the admin role 100;
   - the root token `ID|AccountID|Token`;
   - the final choice between a plain value, a redirect and the confirmation view.

Files and modules:

- `wrappers.dfy` (`Wrappers`): `Option`, `Result` and `Outcome`.
- `strings.dfy` (`Strings`): the Go `strings` functions the code relies on: `HasPrefix`, `Index`, `Replace(..., -1)`, `Split` and ASCII `ToLower`.
- `object_ids.dfy` (`ObjectIds`): `primitive.ObjectIDFromHex`. It accepts 24 hex digits in either case and decodes them into 12 bytes. Lower-case hex rendering is its inverse.
- `auth.dfy` (`Middleware`): the gate.
  - The process-wide cache is the class `TokenCache`, whose `tokens: map<string, Auth>` field is updated in place by `ValidateAuthKey`. Its miss path is the corrected one, which splits the payload's token; the code as written is the function `ValidateAsWritten`.
  - `RequireRoot` is a function. It never touches the cache.
- `account.go` is modelled in `account.dfy` (`Account`).
  - `randStringRunes` is a method that fills an array in a loop. The function `RandomString` specifies it.
  - The name loop is a method with a `while` loop.
  - `create` is a method that mirrors the handler step by step.
- `handoff.dfy` (`Handoff`): the root token that sign-up composes is accepted by `RequireRoot` exactly when the token's role reaches 100. This holds under three assumptions: the stored token's ID and AccountID strings are the lower-case hex of 12-byte ObjectIDs, and its secret contains neither `|` nor `Bearer `.

How the environment appears in the model:

- **JWT verification** is a map `payloads` from the keys that verify to their payload's `Token` field.
- **The request's base config** is an `Option`.
- **`FindToken` and `FindRootToken`** are maps keyed by their arguments. A missing key is a lookup error.
- **`primitive.NewObjectID()`** is a parameter.
- **`math/rand`** is a sequence of index draws, each below the alphabet's length.
- **Every datastore, billing and mail call in `create`** is represented only by its answer, in the `Collaborators` record. `DatabaseExists` is a function of the name.

## Model

| member | source | states |
|---|---|---|
| Strings.IndexOf | account.go:56 | `strings.Index` for one character: -1 exactly when the character is absent, otherwise the position of its first occurrence |
| Strings.ReplaceAll | middleware/auth.go:72 | `strings.Replace(s, pat, rep, -1)`: a string without the pattern comes back unchanged, and a replacement no longer than the pattern never lengthens the string |
| Strings.ReplaceAllAtPrefix | middleware/auth.go:72 | replacing every occurrence in `pat + s` replaces the leading one and then the ones in `s` |
| Strings.Split | middleware/auth.go:109 | `strings.Split` on one character: at least one part, and no part contains the separator |
| Strings.SplitJoin | middleware/auth.go:153 | splitting the join of separator-free parts gives those parts back |
| Strings.JoinSplit | middleware/auth.go:153 | joining the parts of a split gives the original string back |
| Strings.SplitCount | middleware/auth.go:110 | the number of parts is the number of separators plus one |
| Strings.ToLowerAscii | account.go:42-44 | lower-casing keeps the length |
| Strings.LowerKeepsNonLetter | account.go:56 | a non-letter occurs in the lower-cased string exactly when it occurs in the original |
| ObjectIds.ObjectIdFromHex | middleware/auth.go:114-117 | parsing succeeds exactly for 24 hex digits, and yields 12 bytes |
| ObjectIds.FromHexOfHex | middleware/auth.go:114 | the hex rendering of a 12-byte id parses back to that id |
| ObjectIds.HexOfFromHex | middleware/auth.go:159-169 | a parsed id renders back as the lower-cased input |
| ObjectIds.DecodeEncode | middleware/auth.go:114 | hex decoding inverts hex encoding |
| ObjectIds.EncodeDecode | middleware/auth.go:114 | hex encoding of a decoded string is the string lower-cased |
| ObjectIds.HexHasNoBar | middleware/auth.go:109 | a hex rendering never contains the `\|` separator |
| Middleware.AuthOf | middleware/auth.go:124-129 | the `Auth` built from a found token copies its AccountID, Email and Role, and takes its ID as the user ID; `RequireRoot` builds it the same way (middleware/auth.go:191-196) |
| Middleware.ClassifyHeader | middleware/auth.go:45-72 | an empty header, a non-empty header without the `Bearer ` prefix, or the header with every `Bearer ` removed, which is at least seven characters shorter; `RequireRoot` classifies the same way (middleware/auth.go:140-151) |
| Middleware.PublicPaths | middleware/auth.go:48 | `IsPublicPath`: every `/db/pub_…` and `/query/pub_…` path is public, and a `/db/` or `/query/` path whose name does not start with `pub_` is not |
| Middleware.BearerKeyRecovered | middleware/auth.go:64-72 | `Bearer ` followed by a key that does not contain `Bearer ` is classified as that key |
| Middleware.EveryBearerStripped | middleware/auth.go:72 | stripping removes every `Bearer `, not only the leading one: for all keys `v` and `w` free of `Bearer `, the header `Bearer v\|Bearer w` is classified as the key `v\|w` |
| Middleware.ResolveApiKey | middleware/auth.go:109-129 | a miss fails when the key does not split into two parts, and fails when part 0 is not an ObjectID. Otherwise the token is looked up under this base, the parsed part 0 and part 1: a stored token gives its `Auth`, and a missing one fails as not found |
| Middleware.ApiKeyResolves | middleware/auth.go:109-129 | a key `hex(id)\|secret` whose token is stored resolves to that token's `Auth` |
| Middleware.ValidateOn | middleware/auth.go:89-133 | unverified keys and a missing base config fail with the cache unchanged; a hit returns the cached `Auth` and changes nothing; every failure leaves the cache unchanged; a success maps the payload token to the returned `Auth` and keeps every other entry |
| Middleware.ValidateAsWritten | middleware/auth.go:104-112 | as written, a miss resolves the raw bearer key |
| Middleware.Validate | middleware/auth.go:104-130 | as intended, a miss resolves the payload's token |
| Middleware.AsWrittenMissAlwaysRejected | middleware/auth.go:109-112 | as written, a signed JWT that misses the cache is always rejected for its part count, and the cache is unchanged |
| Middleware.IntendedMissResolves | middleware/auth.go:104-132 | as intended, a miss on a payload token `hex(id)\|secret` whose token is stored returns that token's `Auth` and caches it under the payload token |
| Middleware.SecondValidationHitsCache | middleware/auth.go:104-107 | once a key has validated, validating it again returns the same result and cache whatever the datastore now holds |
| Middleware.TokenCache.constructor | middleware/auth.go:38 | the cache starts empty |
| Middleware.TokenCache.ValidateAuthKey | middleware/auth.go:89-133 | the result and the new cache are those of `Validate` on the old cache: unchanged on failure, one entry set on success |
| Middleware.TokenCache.RequireAuth | middleware/auth.go:40-87 | empty header: the synthesized zero-role `Auth` on public paths, 401 elsewhere; no `Bearer ` prefix: 400 without touching the cache; `Bearer `: the stripped key is validated, with 400 carrying the cause on failure |
| Middleware.ParseRootKey | middleware/auth.go:153-171 | a root key parses exactly when it has three `\|`-parts and parts 0 and 1 are ObjectIDs; the secret is part 2 |
| Middleware.ParseRootKeyOfRendered | middleware/auth.go:153-171 | `hex(id)\|hex(accountID)\|secret` parses back to its components |
| Middleware.RequireRoot | middleware/auth.go:135-203 | 401 on an empty header, 400 without `Bearer `, and 400 on a malformed root key whatever the datastore holds. For a well-formed key: 401 without a base config; otherwise the root token is looked up under this base, the parsed id and account id and part 2, and is refused with 401 when not found or when its role is below 100, and gives its `Auth` otherwise. A success always has role at least 100 |
| Middleware.RootRoleThreshold | middleware/auth.go:173-196 | for a well-formed root key whose token is found, the token's `Auth` when its role is at least 100, and "not enough permission" (401) below that |
| Middleware.UnknownRootTokenRejected | middleware/auth.go:182-185 | a rendered root key whose token is not stored for the base is refused with 401 |
| Middleware.RenderedRootHeaderParses | middleware/auth.go:143-171 | the header `Bearer hex(id)\|hex(accountID)\|secret` passes the prefix check and is stripped and parsed back to its components |
| Middleware.RenderedRootKeyHasNoBearer | middleware/auth.go:151 | a rendered root key contains `Bearer ` only if its secret does |
| Middleware.HexHasNoBearer | middleware/auth.go:151 | hex digits never spell `Bearer ` |
| Account.RandomString | account.go:299-308 | a drawn string has the draw's length and starts with `letterRunes[0]`, which is `a` |
| Account.RandomStringShape | account.go:301-306 | every character after the first is the drawn rune, so every character comes from the alphabet |
| Account.RandStringRunes | account.go:299-309 | the filled and overwritten rune array is `RandomString` of the draw |
| Account.ValidEmail | account.go:56-59 | an address is accepted exactly when it has at least four characters, an `@` and a `.`, in any order |
| Account.ValidEmailIgnoresCase | account.go:42-56 | checking the lower-cased address decides the same as checking the raw one |
| Account.DeriveMode | account.go:31-54 | memory mode holds exactly for a non-POST request outside production with `mem=1`; a POST is never from the CLI; any other request is from the CLI exactly when `ui` is empty; the address is lower-cased from the form or the query |
| Account.CandidateStartsWithLetter | account.go:124-136 | every database name tried starts with a letter |
| Account.AllocateDbName | account.go:123-140 | the loop stops at the first name not reported taken: its name when it is free, the lookup error otherwise; there is no retry limit; in memory mode the result is `dev-memory-pk` exactly when that name is free |
| Account.NextCandidateExists | account.go:134-137 | while every name so far was taken, another draw is available |
| Account.NamesDifferFromDevName | account.go:125-128 | a drawn name is never `dev-memory-pk` |
| Account.RootToken | account.go:189 | the root token is the ID, a `\|`, the AccountID, a `\|` and the token, at those exact positions |
| Account.RootTokenSplits | account.go:189 | splitting `ID\|AccountID\|Token` on `\|` gives back the three components when none of them contains `\|` |
| Account.ThreePartsAreRootToken | middleware/auth.go:153-157 | every string with exactly three `\|`-parts is the root token of those parts |
| Account.SelectResponse | account.go:250-260 | CLI callers get the plain URL; browser callers are redirected exactly when it starts with `https`, and are shown the confirmation otherwise |
| Account.DevPlaceholderNeverRedirects | account.go:168 | the dev placeholder URL never redirects |
| Account.StatusOf | account.go:57-66 | an invalid address is a 400; a taken address and every collaborator failure are a 500 |
| Account.Create | account.go:30-261 | an invalid address stops with the invalid-address error; a taken address or a failed lookup stops with their errors. Once the address is accepted, every failure is `Internal` (a 500 by `StatusOf`), and each step in the handler's order stops with its own error when every earlier step succeeded: the Stripe customer, the subscription, `CreateCustomer`, the lookup of the first untaken name, `CreateBase`, the admin creation, the portal session, `FindTokenByEmail` and the mail. A success has the customer, the base, the admin (`devpw1234` in memory mode, else a drawn 6-character password; role 100), the root token and the response exactly as the handler builds them. The base name is the first candidate the datastore did not report taken, and it is free and starts with a letter. When every collaborator succeeds and the first untaken name is free, the handler succeeds |
| Account.MemoryModeSignUp | account.go:37-189 | a memory-mode CLI sign-up with `dev-memory-pk` free creates base `dev-memory-pk`, password `devpw1234`, role 100 and an active customer, and returns the placeholder as a plain value |
| Handoff.ProvisionedRootTokenAuthorizes | account.go:189 | the root token composed at sign-up, sent as `Bearer <token>`, is accepted by `RequireRoot` with the stored token's `Auth` exactly when its role is at least 100 |
| Handoff.AdminRootTokenAuthorizes | account.go:163 | the root token of the role-100 admin created at sign-up is accepted by `RequireRoot` |

## Left out

- HTTP plumbing is not modelled: `http.Error` messages, `respond`, `render`, `http.Redirect`, `context.WithValue` and `next.ServeHTTP`. A gate's outcome is a `Result` carrying the status code and a reason, and `create` ends with a `Response` value.
- JWT verification and the `JWT_SECRET` key are inputs: the `payloads` map from verified keys to payload tokens.
- `primitive.NewObjectID()` cannot be modelled, because freshness is not expressible; the two new ids of the public case are a parameter.
- The internals of `FindToken`, `FindRootToken`, `EmailExists`, `DatabaseExists`, `CreateCustomer`, `CreateBase`, `FindTokenByEmail` and `membership.createAccountAndUser` are not modelled. Only their answers are inputs.
- Collaborator answers do not depend on their arguments, except `DatabaseExists`, which is a function of the name. So `Create` does not state which values it passes to Stripe, the datastore or the mailer.
- The Stripe calls (customer, subscription, portal session) are represented only by their answers, and the `portal` and `auth` handlers are not modelled, because they are thin wrappers over those foreign calls.
- `math/rand` is replaced by a sequence of index draws, each below the alphabet's length.
- `time.Now` is not modelled, and neither are the `Plan` and `Created` customer fields.
- The e-mail body, `StripHTML`, the `fmt.Printf` console output and the logging are not modelled. Only whether mail sending fails matters.
- Account.DeriveMode: `strings.ToLower` is modelled as ASCII lower-casing. Unicode case mapping is not modelled.
- Account.ValidEmail: the length in the e-mail check counts characters, not UTF-8 bytes.
- Account.DeriveMode: `config.Current.AppEnv != AppEnvProd` is the flag `isProd`, because the value of `AppEnvProd` is defined outside `account.go`.
- Account.AllocateDbName: the source loop is unbounded. The model takes a finite sequence of draws and requires that some name in it is not taken, so a datastore that reports every name as taken forever is not modelled. `Account.Create` asks for such a name only when it reaches the loop, that is when the address is accepted and billing and `CreateCustomer` succeeded.
- Account.Create: the customer in the result is the record as built before `CreateCustomer`. The base's customer ID is the one `CreateCustomer` returned, as in the source.
- Account.Create: the root token's three fields are strings, because the datastore token type is defined outside `account.go`. `Handoff` assumes that the ID and AccountID strings are the lower-case hex of 12-byte ObjectIDs (what `%s` prints for an ObjectID is defined outside `account.go`), and that the secret contains neither `|` nor `Bearer `.
- Middleware.TokenCache.ValidateAuthKey: the stateful model runs the corrected miss path. It splits the payload's token, not the raw bearer key that middleware/auth.go:109 splits, so a verified key whose payload token `hex(id)|secret` is stored succeeds and is cached here, while the code rejects it. The code as written is modelled only as the function `Middleware.ValidateAsWritten`.
- Middleware.TokenCache.RequireAuth: it validates through the corrected `ValidateAuthKey` above, so it inherits the same difference from the code.
- Concurrent access to the unsynchronized global `tokens` map is not modelled. The cache is one object used sequentially.
- The alphabet is the 56 runes the code declares.
- A taken e-mail address gets status 500 (`StatusOf`), as in the code.

## Findings

| source | as written | input that shows it | evidently intended | confidence | as-written member | corrected member |
|---|---|---|---|---|---|---|
| middleware/auth.go:109 | on a cache miss `ValidateAuthKey` splits `key`, the raw bearer credential, on `\|` | any signed JWT (`header.payload.signature` in base64url, section 7.1 of RFC 7515 and section 5 of RFC 4648) that verifies and whose payload token is not cached: it has no `\|`, so it splits into one part and is rejected as "invalid authentication token" | split `pl.Token`, the `id\|secret` carried in the verified payload, which is also the cache key | medium, not executed | Middleware.AsWrittenMissAlwaysRejected | Middleware.IntendedMissResolves |
