# Verdaccio LDAP authentication plugin, modelled in Dafny

This project models the decision logic of `AuthCustomPlugin`, the Verdaccio
authentication plugin that checks user names and passwords against an LDAP
directory and keeps a time-limited cache of successful logins. It covers four parts.

- **Access evaluator** (`access.dfy`, module `Access`). This covers `allow` and the
  hooks `allow_access`, `allow_publish` and `allow_unpublish`. An absent policy list
  grants access. A present list grants access iff one of its names is exactly one of
  the user's groups. An empty list is truthy in JavaScript, so it denies everyone.
- **Group normaliser** (`groups.dfy`, module `Groups`). This covers
  `authenticatedUserGroups`. The output is the user's `cn`, then one name per
  `_groups` entry, then one `CN` per `memberOf` DN, in input order and without
  deduplication. A scalar attribute counts as a one-element list. A single empty
  `memberOf` string is falsy and yields nothing. A missing attribute value is
  `undefined`, modelled as `None`.
- **Configuration resolution** (`config.dfy`, module `Config`, and the constructor in
  `plugin.dfy`). `groupNameAttribute` defaults to `cn`, also when it is empty.
  `expire` is the numeric `cache.expire`, or 300 when that is not a number, and stays
  0 without a cache. The cache object exists only when `cache` is configured.
  `LDAP_ADMIN_PASS` overrides `adminPassword` whenever it is set. The directory
  client's own cache is always switched off.
- **Authenticate-with-cache protocol**. `protocol.dfy` (module `Protocol`) defines
  `AuthenticateOutcome`, `ReadFromCacheOutcome` and `LoadUserOutcome`. Each one is a
  function from the cache contents, the clock and the directory's answer to the result,
  the new cache contents and whether the directory was asked.
  `plugin.dfy` (module `Plugin`) holds the class `AuthCustomPlugin`. Its fields are
  `config`, `expire` and an optional `userCache`. Its methods `Authenticate`,
  `ReadFromCache`, `LoadUser`, `ToCache` and `FromCache` are proved to behave as those
  functions say. A ghost field `lookups` records every directory query.
  `cache.dfy` (module `Cache`) is the TTL store: a `MemoryCache` class over a map of
  slots. Each slot holds the value, its write time and its TTL. An entry is absent once
  `now > createdAt + ttl`.

External collaborators become inputs:
- The directory is a function `Directory` from (user name, password) to
  `DirectoryError(message) | Found(user) | NotFound`.
- bcrypt is a pair of functions `Bcrypt(hash, compare)`. Its promise, that a hash is
  non-empty and compares true against its own password, is the predicate
  `Password.Sound`. Collision resistance, that a hash compares true only against its own
  password, is the predicate `Password.Binding`. Lemmas that need either list it as a
  precondition.
- The random salt, or the exception `hashSync` may throw, is the `SaltDraw` argument
  of `Authenticate`.
- The RFC 2253 parse of a `memberOf` DN followed by `.get('CN')` is the function
  `cnOf: string -> Option<string>`.
- The clock is the `now` argument.
- The environment variable is an `Option<string>` argument of the constructor.

Behaviour the model makes explicit:
- Directory errors are not cached. `toCache` is reached only on the success branch
  (src/index.ts:170-175), even though the entry type has an `error` field and
  `readFromCache` has a branch that replays stored errors.
- The cache is written only after a successful directory lookup. So every stored
  entry has a user and no error (`Protocol.OnlySuccessesPreserved`). On such caches
  the stored-error branch of `readFromCache` never fires (`Protocol.StoredErrorUnreachable`).
- A live entry decides on its own. A password that does not match the cached hash is
  denied without asking the directory, even when the directory would accept it
  (`Protocol.LiveEntryDecides`).
- A bcrypt failure during a successful login stores the empty hash. That entry then
  denies every later login of the user until it expires
  (`Protocol.HashFailureLocksOutUntilExpiry`). A hash failure is therefore not
  harmless to later calls, even though it never fails the call in which it happens.
- Normalisation is a Dafny function, so identical input always gives identical output.

## Model

| member | source | states |
|---|---|---|
| Access.IndexOf | src/index.ts:107 | `indexOf` returns -1 iff the name is absent, and otherwise the position of its first occurrence |
| Access.SomeIn | src/index.ts:107 | `required.some(...)` holds iff some required name occurs in the groups |
| Access.Allow | src/index.ts:106-108 | an absent list grants; a present list grants iff one of its names is one of the user's groups |
| Access.AllowAccess | src/index.ts:79-81 | read access is decided by `pkg.access` alone, with the same rule |
| Access.AllowPublish | src/index.ts:89-91 | publish is decided by `pkg.publish` alone, with the same rule |
| Access.AllowUnpublish | src/index.ts:93-95 | unpublish is decided by `pkg['unpublish']` alone, with the same rule |
| Access.EmptyPolicyAllowsEveryone | tests/test.spec.ts:119-141 | a package without policy lists lets every user access, publish and unpublish |
| Access.EmptyListDeniesEveryone | src/index.ts:107 | a present but empty list denies every user |
| Access.HooksAreIndependent | src/index.ts:79-95 | each hook's answer does not change when the other two lists change |
| Access.AllowSeesGroupsAsSet | src/index.ts:107 | two users with the same set of groups get the same answer, whatever the order or repetition |
| Access.AllowMonotone | src/index.ts:107 | adding groups to a user never revokes access |
| Access.AccessControlScenarios | tests/access-control.spec.ts:39-101 | the match by name, the miss and the match by group in the access-control tests |
| Groups.Map | src/index.ts:114-115 | `.map` keeps the length and applies the function at every position |
| Groups.AuthenticatedUserGroups | src/index.ts:110-117 | `cn` is at index 0, then the `_groups` names in order, then the `memberOf` CNs in order, and nothing else |
| Groups.NormalisedLength | src/index.ts:110-117 | the length is 1 plus the number of `_groups` and `memberOf` values (a scalar counts 1, absent 0, a lone empty DN 0) |
| Groups.NoDeduplication | src/index.ts:110-117 | as a multiset the output is exactly `cn`, the group names and the CNs, so duplicates are kept |
| Groups.ScalarGroupsIsOneElementList | src/index.ts:113-114 | a scalar `_groups` gives the same output as a one-element list, whatever `memberOf` holds |
| Groups.ScalarMemberOfIsOneElementList | src/index.ts:113-115 | a non-empty scalar `memberOf` gives the same output as a one-element list, whatever `_groups` holds |
| Groups.TesteeGroups | tests/ldap-client.spec.ts:51-59 | the test user `testee`, whose group arrives as a `memberOf` DN with CN `testeegroup`, comes out as `["testee", "testeegroup"]` |
| Password.HashOrEmpty | src/index.ts:97-104 | a throwing hash gives ""; a sound bcrypt gives a non-empty hash that verifies against the password |
| Password.FailedHashMatchesNothing | src/index.ts:131 | the empty hash left by a failure never matches any password |
| Password.HashMatchesItsPassword | src/index.ts:99 | with a sound bcrypt, a computed hash passes the cache check for its own password |
| Cache.MemoryCache.constructor | src/index.ts:47 | a new cache is empty |
| Cache.MemoryCache.SetItem | src/index.ts:195-203 | the entry under the key is replaced wholesale with a new write time and TTL; other keys are untouched |
| Cache.MemoryCache.GetItem | src/index.ts:209 | reading yields the live value under the key and changes nothing |
| Cache.TtlWindow | src/index.ts:202 | a value written at `t` reads back until `t + ttl` and is absent after; other keys are unaffected |
| Config.GroupNameAttributeOrDefault | src/index.ts:43 | the configured attribute is kept when truthy; otherwise it is `cn`; the result is never empty |
| Config.ExpireOf | src/index.ts:45-46 | the numeric `cache.expire`, else 300; 0 without a cache |
| Config.AdminPassword | src/index.ts:50-52 | the environment value wins whenever set; otherwise the configured value is unchanged |
| Config.Resolve | src/index.ts:37-52 | the resolved configuration: client cache off, group attribute defaulted, admin password overridden, cache setting kept |
| Config.ResolveIdempotent | src/index.ts:43-52 | resolving an already resolved configuration changes nothing |
| Config.EnvironmentWins | tests/test.spec.ts:211-231 | "asdf" configured with "1234" in the environment resolves to "1234"; without it "asdf" stays |
| Plugin.AuthCustomPlugin.constructor | src/index.ts:33-55 | the configuration is resolved, `expire` is set, and a fresh empty cache exists exactly when caching is configured |
| Plugin.AuthCustomPlugin.Authenticate | src/index.ts:63-71 | result, new cache and directory queries are those of `AuthenticateOutcome`; the cache keeps holding only successes |
| Plugin.AuthCustomPlugin.ReadFromCache | src/index.ts:119-148 | result, new cache and directory queries are those of `ReadFromCacheOutcome` |
| Plugin.AuthCustomPlugin.LoadUser | src/index.ts:150-182 | result and new cache are those of `LoadUserOutcome`; the directory is asked exactly once |
| Plugin.AuthCustomPlugin.ToCache | src/index.ts:192-204 | the entry (hash, user, error) is stored under the user name with TTL `expire`, and nothing else changes |
| Plugin.AuthCustomPlugin.FromCache | src/index.ts:206-210 | yields the live entry under the user name, if there is one |
| Plugin.UseCacheScenario | tests/test.spec.ts:157-173 | two logins of "testee": the first is not a cache hit, the second is, with the same groups |
| Protocol.CachingOffAlwaysAsksDirectory | src/index.ts:63-71 | with caching off every call asks the directory, leaves the cache alone and follows the directory's answer |
| Protocol.OnlyFreshSuccessWrites | src/index.ts:165-180 | the cache changes only on a successful lookup with caching on, by storing the hash and user under the user name |
| Protocol.LiveEntryDecides | src/index.ts:125-139 | a live entry answers without the directory: stored error, then matching hash, then denial |
| Protocol.CacheGrantNeedsMatchingHash | src/index.ts:131-134 | a cached grant implies a live error-free entry for this user name whose non-empty hash matches the password |
| Protocol.CacheHitFlagsProvenance | src/index.ts:131-176 | a grant has `cacheHit` set exactly when the directory was not asked |
| Protocol.FailuresAreNotCached | src/index.ts:165-180 | a directory error or a user not found leaves the cache unchanged and yields (internal error) or (false) |
| Protocol.OnlySuccessesPreserved | src/index.ts:170-175 | if every stored entry has no error before a call, the same holds after it |
| Protocol.StoredErrorUnreachable | src/index.ts:127-129 | on such caches an internal error only ever comes from a directory error in the same call |
| Protocol.SecondLoginHitsCache | tests/test.spec.ts:157-173 | a second login within the TTL is a cache hit with the same groups and no directory lookup |
| Protocol.WrongPasswordNeverHitsCache | src/index.ts:125-139 | with binding bcrypt hashes, a login within the TTL of a successful one is granted only with the same password |
| Protocol.HashFailureLocksOutUntilExpiry | src/index.ts:97-139 | a hash failure on a successful login makes every later login within the TTL a denial |
| Protocol.NotFoundLeavesNoEntry | src/index.ts:178-180 | a user the directory does not find is denied without error and gets no cache entry |

## Left out

- The LDAP client (`ldapauth-fork`) is left out: connecting, binding, searching, the `'error'` event handler and `shutdown`/`close`. It is network I/O, and the model sees it only as the `Directory` answer.
- bcrypt internals are left out: salt generation and the cost-10 work factor inside the hash. The model keeps only the `Bcrypt` interface and the `Sound` promise. An exception from `compareSync` on a malformed stored hash is not modelled.
- The RFC 2253 parser is left out. It is a foreign library, so the model has the function `cnOf`. A malformed DN that makes the parser throw is not modelled.
- `node-ts-cache` internals are left out. Removing an expired entry on read does not change what any read returns, so the model does not do it. How the library treats a TTL of 0 or a negative TTL is not visible, and the model applies the plain rule `now > createdAt + ttl`.
- Promise and callback asynchrony is left out, and so are concurrent calls. Calls run one after another against one explicit clock.
- The `.catch` path of `readFromCache` is left out. It turns an exception thrown later in the chain, including one thrown by the host's callback, into an internal error.
- `cached.cacheHit = false` is not modelled. It is written into the object returned by the storage library, and nothing reads it back.
- `Plugin.AuthCustomPlugin.constructor` does not model that the caller's configuration object is changed in place. The aliasing is not modelled, and the logger assignment to `client_options.log` is left out.
- Only numeric `cache.expire` values that are integers are modelled. A fractional or `NaN` number is not.
- `user.cn` is modelled as one optional string. A multi-valued `cn` attribute is not modelled.
- A `_groups` entry is modelled as a map from attribute names to single strings. A multi-valued group-name attribute, for which `group[groupNameAttribute]` is an array, is not modelled.
- The model writes `cacheHit = false` on a group list from the directory. The source casts an array literal `as CachableUserGroups`, so the class initializer never runs and the flag is `undefined` there. Both values are falsy, so callers see the same behaviour.
- Logging is left out, and so are the `@verdaccio/types` plumbing and the `users` field, which is never used.
- src/ldap-config.ts holds only type declarations and guided the `LdapConfig` datatype. jest.config.ts and tests/test-commons.ts are not part of this model.
- The tests "should return false and set cache" (tests/test.spec.ts:175-188, tests/ldap-client.spec.ts:84-97) are not modelled. They look up the key `user + hash`, but the code keys entries by user name. They also assert only that a Promise is truthy.
