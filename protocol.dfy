/**
  The authenticate-with-cache protocol of src/index.ts (`authenticate`, `readFromCache`,
  `loadUser`) as functions of the cache contents before the call. The class in
  plugin.dfy is proved to behave as these functions say; the lemmas below state what
  the protocol promises.
*/
module Protocol {
  import opened Wrappers
  import opened Groups
  import opened Password
  import opened Cache

  /** A cache entry, keyed by user name: the password hash, the directory entry, the error. */
  datatype CachedUser = CachedUser(password: string, user: Principal, error: Option<string>)

  /** The group list handed to the registry, with the provenance flag `cacheHit`. */
  datatype CachableUserGroups = CachableUserGroups(groups: seq<Option<string>>, cacheHit: bool)

  /**
    What the callback receives: `(null, groups)`, `(null, false)`, or
    `(getInternalError(message), false)`.
  */
  datatype AuthResult = Granted(userGroups: CachableUserGroups) | Denied | InternalError(message: string)

  /** The answer of the LDAP bind and search for a user name and password. */
  datatype DirectoryResult = DirectoryError(message: string) | Found(user: Principal) | NotFound

  /** The directory as the plugin sees it at the time of a call. */
  type Directory = (string, string) -> DirectoryResult

  /** The plugin's resolved settings that the protocol reads. */
  datatype Settings = Settings(
    caching: bool,
    expire: int,
    groupNameAttribute: string,
    bcrypt: Bcrypt,
    cnOf: string -> Option<string>)

  /** The result of one call, the cache after it, and whether the directory was asked. */
  datatype Outcome = Outcome(result: AuthResult, cache: Slots<CachedUser>, queried: bool)

  function GroupsOf(s: Settings, user: Principal): seq<Option<string>>
  {
    AuthenticatedUserGroups(user, s.groupNameAttribute, s.cnOf)
  }

  /** The entry a successful lookup stores: the pre-computed hash, the user, no error. */
  function FreshEntry(s: Settings, username: string, hash: string, user: Principal, now: int): Slot<CachedUser>
  {
    Slot(CachedUser(hash, user, None), now, s.expire)
  }

  /** `loadUser`: ask the directory; on success normalise the groups and, with caching on, store the entry. */
  function LoadUserOutcome(s: Settings, cache: Slots<CachedUser>, username: string, password: string,
                           hash: string, directory: Directory, now: int): Outcome
  {
    match directory(username, password)
    case DirectoryError(message) => Outcome(InternalError(message), cache, true)
    case Found(user) =>
      var written := if s.caching then cache[username := FreshEntry(s, username, hash, user, now)] else cache;
      Outcome(Granted(CachableUserGroups(GroupsOf(s, user), false)), written, true)
    case NotFound => Outcome(Denied, cache, true)
  }

  /** `readFromCache`: a live entry decides alone; only a miss falls through to `loadUser`. */
  function ReadFromCacheOutcome(s: Settings, cache: Slots<CachedUser>, username: string, password: string,
                                hash: string, directory: Directory, now: int): Outcome
  {
    match Get(cache, username, now)
    case None => LoadUserOutcome(s, cache, username, password, hash, directory, now)
    case Some(cached) =>
      if cached.error.Some? then Outcome(InternalError(cached.error.value), cache, false)
      else if Matches(s.bcrypt, password, cached.password) then
        Outcome(Granted(CachableUserGroups(GroupsOf(s, cached.user), true)), cache, false)
      else Outcome(Denied, cache, false)
  }

  /** `authenticate`: hash first, then read through the cache if one is configured. */
  function AuthenticateOutcome(s: Settings, cache: Slots<CachedUser>, username: string, password: string,
                               draw: SaltDraw, directory: Directory, now: int): Outcome
  {
    var hash := HashOrEmpty(s.bcrypt, password, draw);
    if s.caching then ReadFromCacheOutcome(s, cache, username, password, hash, directory, now)
    else LoadUserOutcome(s, cache, username, password, hash, directory, now)
  }

  /** Every stored entry carries a user and no error. */
  ghost predicate OnlySuccesses(cache: Slots<CachedUser>)
  {
    forall username :: username in cache ==> cache[username].value.error.None?
  }

  /** With caching off the cache is neither read nor written: every call goes to the directory. */
  lemma CachingOffAlwaysAsksDirectory(s: Settings, cache: Slots<CachedUser>, username: string, password: string,
                                      draw: SaltDraw, directory: Directory, now: int)
    requires !s.caching
    ensures var o := AuthenticateOutcome(s, cache, username, password, draw, directory, now);
            && o.queried && o.cache == cache
            && (o.result.Granted? <==> directory(username, password).Found?)
            && (o.result.Granted? ==> o.result.userGroups == CachableUserGroups(GroupsOf(s, directory(username, password).user), false))
            && (o.result.InternalError? <==> directory(username, password).DirectoryError?)
  {
  }

  /**
    The cache changes only after a successful directory lookup with caching on, and
    then exactly by storing the fresh entry under the user name.
  */
  lemma OnlyFreshSuccessWrites(s: Settings, cache: Slots<CachedUser>, username: string, password: string,
                               draw: SaltDraw, directory: Directory, now: int)
    ensures var o := AuthenticateOutcome(s, cache, username, password, draw, directory, now);
            var answer := directory(username, password);
            o.cache == if s.caching && o.queried && answer.Found?
                       then cache[username := FreshEntry(s, username, HashOrEmpty(s.bcrypt, password, draw), answer.user, now)]
                       else cache
  {
  }

  /**
    A live entry answers the call on its own, without the directory: a stored error is
    replayed, a matching password is granted from the cache, and anything else is denied,
    even a password the directory would now accept.
  */
  lemma LiveEntryDecides(s: Settings, cache: Slots<CachedUser>, username: string, password: string,
                         draw: SaltDraw, directory: Directory, now: int)
    requires s.caching && Get(cache, username, now).Some?
    ensures var o := AuthenticateOutcome(s, cache, username, password, draw, directory, now);
            var cached := Get(cache, username, now).value;
            && !o.queried && o.cache == cache
            && (cached.error.Some? ==> o.result == InternalError(cached.error.value))
            && (cached.error.None? && Matches(s.bcrypt, password, cached.password) ==>
                  o.result == Granted(CachableUserGroups(GroupsOf(s, cached.user), true)))
            && (cached.error.None? && !Matches(s.bcrypt, password, cached.password) ==> o.result == Denied)
  {
  }

  /**
    A grant served from the cache always comes from a live, error-free entry for this
    very user name whose non-empty hash matches the password just supplied.
  */
  lemma CacheGrantNeedsMatchingHash(s: Settings, cache: Slots<CachedUser>, username: string, password: string,
                                    draw: SaltDraw, directory: Directory, now: int)
    ensures var o := AuthenticateOutcome(s, cache, username, password, draw, directory, now);
            o.result.Granted? && o.result.userGroups.cacheHit ==>
              && s.caching && !o.queried
              && Get(cache, username, now).Some?
              && Get(cache, username, now).value.error.None?
              && Get(cache, username, now).value.password != ""
              && s.bcrypt.compare(password, Get(cache, username, now).value.password)
              && o.result.userGroups.groups == GroupsOf(s, Get(cache, username, now).value.user)
  {
  }

  /** A grant is flagged `cacheHit` exactly when the directory was not asked. */
  lemma CacheHitFlagsProvenance(s: Settings, cache: Slots<CachedUser>, username: string, password: string,
                                draw: SaltDraw, directory: Directory, now: int)
    ensures var o := AuthenticateOutcome(s, cache, username, password, draw, directory, now);
            o.result.Granted? ==> (o.result.userGroups.cacheHit <==> !o.queried)
  {
  }

  /** Failed lookups, by directory error or by a user not found, leave the cache as it was. */
  lemma FailuresAreNotCached(s: Settings, cache: Slots<CachedUser>, username: string, password: string,
                             draw: SaltDraw, directory: Directory, now: int)
    requires !directory(username, password).Found?
    ensures var o := AuthenticateOutcome(s, cache, username, password, draw, directory, now);
            && o.cache == cache
            && (o.queried && directory(username, password).DirectoryError? ==>
                  o.result == InternalError(directory(username, password).message))
            && (o.queried && directory(username, password).NotFound? ==> o.result == Denied)
  {
  }

  /** The protocol only ever stores successes: every call keeps `OnlySuccesses`. */
  lemma OnlySuccessesPreserved(s: Settings, cache: Slots<CachedUser>, username: string, password: string,
                               draw: SaltDraw, directory: Directory, now: int)
    requires OnlySuccesses(cache)
    ensures OnlySuccesses(AuthenticateOutcome(s, cache, username, password, draw, directory, now).cache)
  {
  }

  /**
    On caches the protocol itself builds, the stored-error branch of `readFromCache` never
    fires: an internal error always comes from a directory error in this very call.
  */
  lemma StoredErrorUnreachable(s: Settings, cache: Slots<CachedUser>, username: string, password: string,
                               draw: SaltDraw, directory: Directory, now: int)
    requires OnlySuccesses(cache)
    ensures var o := AuthenticateOutcome(s, cache, username, password, draw, directory, now);
            o.result.InternalError? ==>
              && o.queried
              && directory(username, password) == DirectoryError(o.result.message)
  {
  }

  /**
    Logging in twice with caching on: the first call asks the directory and is not a cache
    hit; the second, within the TTL, is served from the cache with the same groups and
    without a directory lookup.
  */
  lemma SecondLoginHitsCache(s: Settings, cache: Slots<CachedUser>, username: string, password: string,
                             salt: string, draw: SaltDraw, directory: Directory, t1: int, t2: int)
    requires s.caching && Sound(s.bcrypt)
    requires Get(cache, username, t1).None? && directory(username, password).Found?
    requires t2 <= t1 + s.expire
    ensures var o1 := AuthenticateOutcome(s, cache, username, password, Drawn(salt), directory, t1);
            var o2 := AuthenticateOutcome(s, o1.cache, username, password, draw, directory, t2);
            var groups := GroupsOf(s, directory(username, password).user);
            && o1.queried && o1.result == Granted(CachableUserGroups(groups, false))
            && !o2.queried && o2.result == Granted(CachableUserGroups(groups, true))
            && o2.cache == o1.cache
  {
  }

  /**
    No impersonation through the cache: after a successful login within the TTL, a second
    login for the same user name is granted only with the very password of the first,
    provided bcrypt's hashes are binding.
  */
  lemma WrongPasswordNeverHitsCache(s: Settings, cache: Slots<CachedUser>, username: string, password: string,
                                    other: string, salt: string, draw: SaltDraw, directory: Directory,
                                    t1: int, t2: int)
    requires s.caching && Binding(s.bcrypt)
    requires Get(cache, username, t1).None? && directory(username, password).Found?
    requires t2 <= t1 + s.expire
    ensures var o1 := AuthenticateOutcome(s, cache, username, password, Drawn(salt), directory, t1);
            var o2 := AuthenticateOutcome(s, o1.cache, username, other, draw, directory, t2);
            o2.result.Granted? ==> other == password && o2.result.userGroups.cacheHit && !o2.queried
  {
  }

  /**
    A hash failure during a successful login stores an empty hash, and that entry then
    denies every later login of the user, right password or not, until it expires.
  */
  lemma HashFailureLocksOutUntilExpiry(s: Settings, cache: Slots<CachedUser>, username: string, password: string,
                                       password2: string, draw: SaltDraw, directory: Directory, t1: int, t2: int)
    requires s.caching && Get(cache, username, t1).None? && directory(username, password).Found?
    requires t2 <= t1 + s.expire
    ensures var o1 := AuthenticateOutcome(s, cache, username, password, HashThrows, directory, t1);
            var o2 := AuthenticateOutcome(s, o1.cache, username, password2, draw, directory, t2);
            o1.result.Granted? && o2.result == Denied && !o2.queried
  {
  }

  /** A user the directory does not find is denied, without error, and gets no cache entry. */
  lemma NotFoundLeavesNoEntry(s: Settings, cache: Slots<CachedUser>, username: string, password: string,
                              draw: SaltDraw, directory: Directory, now: int)
    requires Get(cache, username, now).None? && directory(username, password).NotFound?
    ensures var o := AuthenticateOutcome(s, cache, username, password, draw, directory, now);
            o.queried && o.result == Denied && Get(o.cache, username, now).None?
  {
  }
}
