# Truck-driver app: session records, CSRF middlewares, settings and permissions in Dafny

This project models the request-independent logic of the truck-driver FastAPI service and proves
properties of it. It covers five pieces:

- **The session record** (`SessionUserModel`, `project/db/models.py`):
  - the session-id validator, a regular expression and a 30–40 length window;
  - the column defaults of `created_at` and `expires_at`;
  - the `is_expired` property;
  - `replace`, which updates the record in place.
- **The database handle** (`project/db/models.py`): the state `Database.__init__` sets up, and the
  URL classifier `_check_async_url`.
- **The settings** (`project/db/corn.py`):
  - the ordered list of allowed methods, whose first four are "safe" and the rest "unsafe";
  - the CSRF cookie policy;
  - the secret key, a version-7 UUID in text;
  - the two database URLs and the two normalised paths.
- **Two CSRF middlewares and a JWT middleware**:
  - `project/middlewares.py` holds a guard that issues `secret-without-hyphens + "Bearer" + random`
    and checks the header part before the first `Bearer` against the secret. The same file holds a
    JWT middleware that forwards everything.
  - `project/middleware.py` holds the double-submit guard the application installs. It calls the
    downstream application first. It then issues a random cookie or compares the header with the
    cookie, and overwrites the status code.
- **The permission classes** (`project/permissions.py`): short-circuit rules over the user's flags
  and groups, and the module-level aliases.

## How the model is built

- Modules follow the source files:

  | module | models |
  |---|---|
  | `Models` | models.py |
  | `Corn` | corn.py |
  | `Middlewares` | middlewares.py |
  | `Middleware` | middleware.py |
  | `Permissions` | permissions.py |
  | `Wrappers` | option, result and failure types |
  | `Text` | Python string operations |
  | `Regex` | the fragment of `re` the validator uses |
  | `Http` | the parts of the Starlette request and response the middlewares touch |

- **Exceptions** are values. A `Failure` names the exception:
  - `PatternMismatch`, `TooShort`, `TooLong` and `NoneGuard` are the `ValueError`s;
  - `Forbidden403` and `MethodNotAllowed405` are the `HTTPException`s;
  - `Crash` is an `AttributeError`.
- **`call_next`**: the downstream response is a `Response` object passed to `Dispatch`. Its status
  code and cookie list are changed in place. `Dispatch` also returns `calls`, the number of times
  `call_next` ran.
- **Non-determinism and configuration** are parameters:
  - the clock: a `Timestamp` in microseconds, and a broken-down `DateTime` that `strftime` formats;
  - `secrets.token_urlsafe(32)`: the parameter `rnd`;
  - `uuid7()`: a `Uuid` value;
  - `DEBUG`: the parameter `debug`;
  - the environment read by `dotenv_.py`: an `Environment` value.
- **The regular expression** is modelled as a small regex datatype with a full-match semantics.
  `Models.RegexMeansPattern` proves it equal to a character-by-character pattern.

### Behaviour as written

The model follows the code, not the comments or the evident intent. Where they differ:

- The character class is `[a-zA-A0-9]`, so the only upper-case letter a session id may hold is `A`.
  A UUID written in capitals is refused.
- `replace` raises `ValueError` for every argument that is not `None`, because the guard is
  inverted. For `None` it assigns a `%F::%T.%f` timestamp, which holds colons. The validator refuses
  that assignment, so `replace` raises for every argument and changes nothing.
- The test that lists `"061cb8fe0f0b7c398003d44a7ee0bdf6"` among the invalid ids expects a refusal.
  The id is in fact accepted; the test asserts only inside its `except` branch.
- `DATABASE_URL_PS` writes no `:` between host and port.
- The double-submit guard passes `samesite=settings.CSRF_COOKIE_SAMESITE is str`. That is the
  boolean `False`, not `"lax"`. Starlette's `set_cookie` calls `samesite.lower()` whenever
  `samesite` is not None, so with `False` the cookie issuance at project/middleware.py:32-38 most
  likely raises `AttributeError` instead of setting the cookie. The model records the argument as
  given and does not follow Starlette into that call.
- The double-submit guard stores `secret_key` and never reads it.
- The same guard calls `call_next` before deciding, so a request it then refuses has already run
  downstream.
- The JWT middleware looks for a header named `REFRESH` (the enum member's name). Header names
  arrive in lower case, so that header is never found.
- `IsReader` defines `has_permissionps`, not `has_permission`. `IsReader().has_permission` and
  `is_reader` are therefore the base method, which raises 405.
- `IsOwnerRaport` reads `geroups` and calls `axists`. It is falsy for an inactive user and raises
  for an active one.

## Model

| member | source | states |
|---|---|---|
| `Models.ValidateSessionId` | project/db/models.py:59-83 | An id is accepted iff it matches the pattern and has 30 to 40 characters, and is returned unchanged. Otherwise the pattern failure comes first, then too short, then too long, each iff its condition holds. |
| `Models.RegexMeansPattern` | project/db/models.py:61-62 | `re.fullmatch` of `[a-zA-A0-9][a-zA-A0-9-]*[a-zA-A0-9]` holds exactly for strings of at least two characters. Their first and last characters are a-z, A or 0-9, and those in between may also be a hyphen. |
| `Regex.EdgeStarEdge` | project/db/models.py:61 | A class, a starred class and a class match exactly the strings whose ends lie in the edge class and whose inside lies in the starred class. |
| `Regex.EdgeStarEdgeSound` | project/db/models.py:61 | Every string the class-star-class regex matches has that shape. |
| `Regex.EdgeStarEdgeComplete` | project/db/models.py:61 | Every string of that shape is matched by the class-star-class regex. |
| `Regex.StarOfClass` | project/db/models.py:61 | A starred character class matches exactly the strings made of characters of the class. |
| `Models.UpperCaseOnlyA` | project/db/models.py:61 | Of the upper-case letters, only `A` is admitted. |
| `Models.SuiteValidExample` | __tests__/tests_models/test_SessionUserModel_valid.py:16 | The 36-character version-7 UUID text the valid-model test module declares is accepted. |
| `Models.SuiteTooLongExample` | __tests__/tests_models/test_SessionUserModel_unvalided.py:18 | The 47-character id matches the pattern and is refused as too long. |
| `Models.SuiteInnerSpaceExample` | __tests__/tests_models/test_SessionUserModel_unvalided.py:19 | A space inside the id is a pattern failure. |
| `Models.SuiteHexOnlyExample` | __tests__/tests_models/test_SessionUserModel_unvalided.py:20 | The 32-digit hexadecimal id is accepted, contrary to the test's expectation. |
| `Models.SuiteBoundaryExamples` | __tests__/tests_models/test_SessionUserModel_unvalided.py:21-24 | A `%` or a space at either end is a pattern failure, before any length check, and so is the upper-case UUID. |
| `Models.SuiteSpaceExample` | __tests__/tests_models/test_SessionUserModel_unvalided.py:25 | A lone space is a pattern failure. |
| `Models.SuiteTooShortExample` | __tests__/tests_models/test_SessionUserModel_unvalided.py:26 | The 13-character id matches the pattern and is refused as too short. |
| `Models.SecretKeyIsValidSessionId` | project/db/corn.py:27 | Every version-7 UUID text, the secret key's form, passes the session-id validator. |
| `Models.SessionUserModel.IsExpired` | project/db/models.py:85-92 | A row is expired iff the clock has reached its `expires_at`; the expiry instant itself counts, with no grace period. |
| `Models.ExpiryIsMonotone` | project/db/models.py:91 | Once a row's `is_expired` holds at a clock reading, it holds at every later one. |
| `Models.ExpiresAtDefault` | project/db/models.py:57 | The default `expires_at` lies exactly one hour after the insertion time. |
| `Models.DefaultExpiryWindow` | project/db/models.py:57 | A row with the default expiry is expired iff the clock has reached insertion time plus one hour, so it is live throughout that hour. |
| `Models.FallbackStamp` | project/db/models.py:107 | `strftime("%F::%T.%f")` gives at least 27 characters and begins with the date part. |
| `Models.FallbackStampRejected` | project/db/models.py:107 | The `%F::%T.%f` text `replace` falls back to is refused on the pattern, whatever the clock reads. |
| `Models.ReplaceOutcome` | project/db/models.py:99-108 | `replace` completes iff its argument is None and the validator accepts the fallback id. A non-None argument raises the None-guard error; otherwise a failure is the validator's error. |
| `Models.ReplaceAlwaysRaises` | project/db/models.py:99-108 | `replace` raises the None-guard error for every argument other than None, and the pattern error for None. |
| `Models.SessionUserModel.constructor` | project/db/models.py:56-57 | A stored row has an accepted id. Its `created_at` is the class-definition time shared by all rows, and its `expires_at` is its insertion time plus one hour. |
| `Models.SessionUserModel.Insert` | project/db/models.py:49-83 | A row comes into being iff the validator accepts its id; otherwise the validator's error is raised. A freshly inserted row is not expired at its insertion time and is expired one hour later. |
| `Models.SessionUserModel.Replace` | project/db/models.py:94-115 | The outcome is `ReplaceOutcome`. A failure leaves every field unchanged, and the validated id is kept. |
| `Models.CheckAsyncUrl` | project/db/models.py:213-219 | A URL is async iff it contains `+aiosqlite`, `+asyncpg` or `+asyncmy` as a literal substring. |
| `Models.SqliteUrlIsAsync` | project/db/corn.py:88-91 | `DATABASE_URL_SQLITE` classifies as async, whatever the path. |
| `Models.PostgresUrlIsAsync` | project/db/corn.py:83-86 | `DATABASE_URL_PS` classifies as async, whatever the credentials, host, port and database. |
| `Models.Database.constructor` | project/db/models.py:144-147 | Records the URL and sets `is_async` from the classifier. Engine and session factory start as None. |
| `Corn.UuidText` | project/db/corn.py:27 | `str(uuid7())` is 36 characters with hyphens at positions 8, 13, 18 and 23, beginning with the first group and ending with the node. |
| `Corn.PathJoin` | project/db/corn.py:31 | `os.path.join` ends with the name, and begins with the directory unless the name is absolute, in which case it is the name. |
| `Corn.LoadSettings` | project/db/corn.py:26-81 | The secret key is the UUID text, the Postgres fields come from the environment, the cookie is secure iff not debug, and the two paths keep their joined length. |
| `Corn.DatabaseUrlPs` | project/db/corn.py:83-86 | The Postgres URL begins with `postgresql+asyncpg://` and ends with `/` and the database name. |
| `Corn.DatabaseUrlSqlite` | project/db/corn.py:88-91 | The SQLite URL begins with `sqlite+aiosqlite:///` and ends with the database path. |
| `Corn.Classify` | project/db/corn.py:51-60 | A method is safe iff it is HEAD, OPTIONS, TRACE or GET, and unsafe iff it is PUT, DELETE, PATCH or POST. It is neither iff it is not in the list. |
| `Corn.MethodSplitIsPartition` | project/db/corn.py:51-60 | The first four and the last four entries are disjoint and together make up the whole list. |
| `Corn.SettingsDefaults` | project/db/corn.py:78-81 | The cookie defaults are: not http-only, samesite "lax", max-age 40. The session lifetime is 3600 seconds, and the cookie is secure iff not in debug mode. |
| `Corn.PathsUseForwardSlashes` | project/db/corn.py:30-76 | Neither the SQLite path nor the templates path holds a backslash. Each path has the joined path's length, each backslash of the joined path becomes `/`, and every other character is kept. |
| `Corn.HostAndPortRunTogether` | project/db/corn.py:83-86 | With no separator between host and port, every split of the same host-and-port text gives the same URL. |
| `Corn.StrippedSecretKey` | project/db/corn.py:27 | The secret key without hyphens is its 32 lower-case hexadecimal digits and holds no `Bearer`. |
| `Text.ReplaceChar` | project/db/corn.py:32 | `.replace` of one character keeps the length and changes exactly the occurrences of that character. |
| `Text.RemoveChar` | project/middlewares.py:44 | `.replace("-", "")` leaves no hyphen, keeps every other character with its multiplicity, never lengthens, and leaves a hyphen-free string as it was. |
| `Text.RemoveCharAppend` | project/middlewares.py:44 | Removing a character distributes over concatenation. |
| `Text.BeforeFirst` | project/middlewares.py:66 | `split(sep)[0]` is a prefix holding no separator, no separator starts inside it, and a separator follows it unless it is the whole string: it ends at the first occurrence. |
| `Text.BeforeFirstIs` | project/middlewares.py:66 | For a separator that cannot overlap itself, `split(sep)[0]` is `p` exactly when `p` begins the string, holds no separator, and is followed by a separator or by nothing. |
| `Text.SplitAtFirstSeparator` | project/middlewares.py:66 | `split(sep)[0]` of `a + sep + b` is `a` when `a` holds no separator. |
| `Middlewares.BearerDoesNotOverlap` | project/middlewares.py:45 | The marker `Bearer` cannot overlap itself. |
| `Middlewares.IssueToken` | project/middlewares.py:42-48 | The issued token is the stripped secret, then `Bearer`, then the random part. |
| `Middlewares.HeaderMatchesSecret` | project/middlewares.py:66-71 | A present header passes iff the stripped secret is non-empty, holds no `Bearer` and begins the header, and the header ends there or `Bearer` follows. |
| `Middlewares.CheckHeader` | project/middlewares.py:66-75 | An absent header crashes, a failing header is refused with 403, and a passing one is accepted. |
| `Middlewares.IssuedTokenRoundTrip` | project/middlewares.py:42-71 | An issued token sent back as the header is accepted iff the stripped secret is non-empty and holds no `Bearer`. |
| `Middlewares.SecretKeyTokenAccepted` | project/middlewares.py:42-71 | With a version-7 UUID as the secret, every issued token is accepted back. |
| `Middlewares.CustomHeaderMiddleware.constructor` | project/middlewares.py:21-31 | Stores the secret and cookie name, with no token yet. |
| `Middlewares.CustomHeaderMiddleware.WithDefaultCookie` | project/middlewares.py:21 | Without `cookie_name` the cookie is `csrf_token`. |
| `Middlewares.CustomHeaderMiddleware.IssuedCookie` | project/middlewares.py:49-56 | The cookie has the issued token as its value, is not http-only, has samesite "lax", is secure iff not debug, and has max-age 40. |
| `Middlewares.CustomHeaderMiddleware.Dispatch` | project/middlewares.py:33-80 | Safe methods are forwarded, and the cookie is appended iff none is truthy. Unsafe methods follow `CheckHeader` on the header alone and are forwarded only when accepted. Other methods are forwarded untouched. The status is never changed. |
| `Middlewares.ReadJwtToken` | project/middlewares.py:99-106 | The collected token is a header value. When the access header is present it is that header's value. |
| `Middlewares.RefreshHeaderNeverRead` | project/middlewares.py:105-106 | With lower-case header names, the token is the access header's value or empty. |
| `Middlewares.CustomJWTMiddleware.constructor` | project/middlewares.py:90-94 | Stores the header name. |
| `Middlewares.CustomJWTMiddleware.WithDefaultHeader` | project/middlewares.py:90-92 | Without `header_name` the header name is `token_access`. |
| `Middlewares.CustomJWTMiddleware.Dispatch` | project/middlewares.py:96-111 | Every request is forwarded exactly once and its response is returned unchanged. |
| `Middleware.IssuedCookie` | project/middleware.py:31-38 | The cookie value is the random token alone, with samesite False, not http-only, secure iff not debug, and no max-age. |
| `Middleware.CheckHeader` | project/middleware.py:43-50 | An unsafe request is accepted iff header and cookie are both present, non-empty and equal; otherwise it is refused with 403. |
| `Middleware.EchoedTokenAccepted` | project/middleware.py:43-51 | A request whose header echoes its non-empty cookie is accepted. |
| `Middleware.AnyAgreeingPairAccepted` | project/middleware.py:47 | Any non-empty value sent as both cookie and header is accepted. |
| `Middleware.CustomHeaderMiddleware.constructor` | project/middleware.py:13-22 | Stores the secret and cookie name. |
| `Middleware.CustomHeaderMiddleware.WithDefaultCookie` | project/middleware.py:13 | Without `cookie_name` the cookie is `csrf_token`. |
| `Middleware.CustomHeaderMiddleware.Dispatch` | project/middleware.py:24-53 | Downstream is called once for every method, refused ones included. For safe methods the cookie is appended iff none is truthy, and the status becomes 200. Unsafe methods follow `CheckHeader`, and the status becomes 201 when accepted. Other methods are returned unchanged. |
| `Http.Lookup` | project/middleware.py:43 | `dict.get` gives the stored value iff the key is present. |
| `Http.Response.AddCookie` | project/middlewares.py:49-56 | `set_cookie` appends one cookie and leaves the status alone. |
| `Http.Response.SetStatus` | project/middleware.py:39 | Assigning `status_code` changes the status and no cookie. |
| `Permissions.IsActiveRule` | project/permissions.py:21-22 | Only a present user can pass, and a present user who is not both authenticated and active fails. |
| `Permissions.IsReaderHasPermissionps` | project/permissions.py:42-50 | The reader rule admits only active users who are not superusers. |
| `Permissions.HasPermission` | project/permissions.py:8-72 | Only Base and IsReader raise 405, and only IsOwnerRaport with an active user raises the attribute error. Every grant implies an active user. |
| `Permissions.BaseAlwaysRaises` | project/permissions.py:11-15 | The base method raises 405 for every request. |
| `Permissions.ReaderAliasRaises` | project/permissions.py:77 | `is_reader` raises 405, even for a user the reader rule admits. |
| `Permissions.ActiveGrantsExactly` | project/permissions.py:21-22 | `is_active` grants iff the user is present, authenticated and active. |
| `Permissions.AllGrantsExactly` | project/permissions.py:28-36 | `is_aLL` grants iff the user is active staff and a superuser or in ADMIN or Supervisor. |
| `Permissions.ReaderRuleExactly` | project/permissions.py:42-50 | `has_permissionps` holds iff the user is active, not a superuser, and staff or in BASE or Employee. |
| `Permissions.ManipulateGrantsExactly` | project/permissions.py:68-72 | IsManipulate grants iff the user is active and in MANAGER or Manager. |
| `Permissions.OwnerRaportNeverGrants` | project/permissions.py:56-62 | `is_ownerraport` never grants. It is falsy iff the user is not active, and raises otherwise. |
| `Permissions.OnlyThreeCanGrant` | project/permissions.py:11-72 | Only IsActive, IsAll and IsManipulate can grant, and each grant implies `is_active` grants. |

## Left out

- The `Database` engine methods (`init_engine`, the table creation and existence checks, `drop_tables`) and `create_db`: they are SQLAlchemy engine I/O and async calls.
- The `unique` and `String(40)` column constraints and `nullable=False`: the storage engine enforces them.
- The HTTP clients, the log-truncation thread, the application wiring, the routers and `dotenv_.py`: they are I/O and configuration loading. `DEBUG` and the environment are parameters.
- pydantic's environment overrides of `Settings` fields, and the CORS lists: only the literal defaults are modelled.
- Randomness and the clock: `secrets.token_urlsafe`, `uuid7` and `datetime.now` are parameters, so no property depends on their distribution.
- Starlette internals:
  - `HTTPException` propagation is modelled as a `Fail` outcome.
  - What `set_cookie` does with a boolean `samesite` is not modelled: the argument is recorded as given.
  - The case-insensitive header lookup is modelled as a lookup by the lower-case name `x-csrf-token`. Both CSRF `Dispatch` methods and the JWT `Dispatch` require the header names to be lower case, as an ASGI server delivers them, so that these lookups are the case-insensitive ones.
  - Starlette's headers are a list of name and value pairs, and `.get` returns the first value for a name. The request's header map holds only that first value of each name, so repeated headers are not modelled.
- `call_next` is an opaque downstream response. Which of the middlewares wraps which is not modelled.
- `groups.filter(name__in=...).exists()` is modelled as a non-empty intersection of sets of group names. Any user object is truthy, and an absent user is falsy.
- `os.path.join` is modelled by its POSIX behaviour only.
- The permission aliases are unbound functions: each is modelled as called with an instance and a request. A call with the request alone, such as `is_reader(request)`, raises `TypeError` before any rule runs, and that is not modelled.
- The `log.info` calls in the validator and in `replace` (project/db/models.py:67-70, 103-106, 110-113) write to the log only and are dropped.
- `Models.FallbackStamp`: `%F` is modelled with the year padded to four digits. The model does not follow the platform `strftime` for years below 1000, and no property depends on it.
- `Models.SessionUserModel.Replace`: the `BaseSession` branch is not written out, because `ReplaceAlwaysRaises` shows the guard makes it unreachable.
- `Text.LowerAscii`: only ASCII letters are lowered.
