/**
  The plugin object `AuthCustomPlugin` of src/index.ts: the constructor that resolves
  the configuration, and the methods that run the authenticate-with-cache protocol
  against the shared `userCache`. Each method is proved to do what the functions of
  module Protocol say, from the state it starts in.
*/
module Plugin {
  import opened Wrappers
  import opened Groups
  import opened Password
  import opened Cache
  import opened Config
  import opened Protocol

  class AuthCustomPlugin {
    var config: LdapConfig
    var expire: int
    /** Present only when `config.cache` is set. */
    var userCache: MemoryCache?<CachedUser>
    /** The bcrypt library. */
    const bcrypt: Bcrypt
    /** The `CN` component of a distinguished name, as the RFC 2253 parser yields it. */
    const cnOf: string -> Option<string>
    /** The (user name, password) pairs the directory has been asked about, oldest first. */
    ghost var lookups: seq<(string, string)>

    ghost predicate Valid()
      reads this
    {
      config.groupNameAttribute.Some? && (userCache != null <==> config.cache.CacheOn?)
    }

    /** The settings the protocol reads. */
    ghost function CurrentSettings(): Settings
      reads this
      requires Valid()
    {
      Settings(config.cache.CacheOn?, expire, config.groupNameAttribute.value, bcrypt, cnOf)
    }

    /** The cache contents; none without a cache. */
    ghost function Store(): Slots<CachedUser>
      reads this, userCache
    {
      if userCache == null then map[] else userCache.slots
    }

    /** `env` is the `LDAP_ADMIN_PASS` environment variable, `None` when unset. */
    constructor (config: LdapConfig, env: Option<string>, bcrypt: Bcrypt, cnOf: string -> Option<string>)
      ensures Valid()
      ensures this.config == Resolve(config, env)
      ensures expire == ExpireOf(config.cache)
      ensures config.cache.CacheOn? ==> fresh(userCache) && Store() == map[]
      ensures this.bcrypt == bcrypt && this.cnOf == cnOf && lookups == []
    {
      var c := config;
      // the directory client's own cache is always off
      c := c.(clientOptions := c.clientOptions.(cache := false));
      c := c.(groupNameAttribute := Some(GroupNameAttributeOrDefault(c.groupNameAttribute)));
      if config.cache.CacheOn? {
        expire := if config.cache.expire.Some? then config.cache.expire.value else DefaultExpire;
        userCache := new MemoryCache();
      } else {
        expire := 0;
        userCache := null;
      }
      if env.Some? {
        c := c.(clientOptions := c.clientOptions.(adminPassword := env));
      }
      this.config := c;
      this.bcrypt := bcrypt;
      this.cnOf := cnOf;
      lookups := [];
    }

    /** `authenticate`: hash the password, then read through the cache or go to the directory. */
    method Authenticate(username: string, password: string, draw: SaltDraw, directory: Directory, now: int)
      returns (r: AuthResult)
      requires Valid()
      modifies this`lookups, userCache
      ensures Valid()
      ensures var o := AuthenticateOutcome(old(CurrentSettings()), old(Store()), username, password, draw, directory, now);
              && r == o.result && Store() == o.cache
              && lookups == old(lookups) + (if o.queried then [(username, password)] else [])
      ensures old(OnlySuccesses(Store())) ==> OnlySuccesses(Store())
    {
      ghost var before := Store();
      var hash := HashOrEmpty(bcrypt, password, draw);
      if config.cache.CacheOn? {
        r := ReadFromCache(username, password, hash, directory, now);
      } else {
        r := LoadUser(username, password, hash, directory, now);
      }
      if OnlySuccesses(before) {
        OnlySuccessesPreserved(CurrentSettings(), before, username, password, draw, directory, now);
      }
    }

    /** `readFromCache`: a live entry answers alone; a miss goes to `loadUser`. */
    method ReadFromCache(username: string, password: string, hash: string, directory: Directory, now: int)
      returns (r: AuthResult)
      requires Valid() && userCache != null
      modifies this`lookups, userCache
      ensures Valid()
      ensures var o := ReadFromCacheOutcome(old(CurrentSettings()), old(Store()), username, password, hash, directory, now);
              && r == o.result && Store() == o.cache
              && lookups == old(lookups) + (if o.queried then [(username, password)] else [])
    {
      var cached := FromCache(username, now);
      if cached.Some? {
        if cached.value.error.Some? {
          r := InternalError(cached.value.error.value);
        } else if cached.value.password != "" && bcrypt.compare(password, cached.value.password) {
          var userGroups := CachableUserGroups(AuthenticatedUserGroups(cached.value.user, config.groupNameAttribute.value, cnOf), false);
          userGroups := userGroups.(cacheHit := true);
          r := Granted(userGroups);
        } else {
          r := Denied;
        }
      } else {
        r := LoadUser(username, password, hash, directory, now);
      }
    }

    /** `loadUser`: one directory lookup; a success is cached when caching is on. */
    method LoadUser(username: string, password: string, hash: string, directory: Directory, now: int)
      returns (r: AuthResult)
      requires Valid()
      modifies this`lookups, userCache
      ensures Valid()
      ensures var o := LoadUserOutcome(old(CurrentSettings()), old(Store()), username, password, hash, directory, now);
              r == o.result && Store() == o.cache
      ensures lookups == old(lookups) + [(username, password)]
    {
      lookups := lookups + [(username, password)];
      // set only on the error branch, so the success branch always stores "no error"
      var currentError: Option<string> := None;
      match directory(username, password)
      case DirectoryError(message) =>
        currentError := Some(message);
        r := InternalError(message);
      case Found(user) =>
        var groups := AuthenticatedUserGroups(user, config.groupNameAttribute.value, cnOf);
        if config.cache.CacheOn? {
          ToCache(username, hash, user, currentError, now);
        }
        r := Granted(CachableUserGroups(groups, false));
      case NotFound =>
        r := Denied;
    }

    /** `toCache`: store the entry under the user name for `expire` time units. */
    method ToCache(username: string, hash: string, currentUser: Principal, currentError: Option<string>, now: int)
      requires userCache != null
      modifies userCache
      ensures Store() == old(Store())[username := Slot(CachedUser(hash, currentUser, currentError), now, expire)]
    {
      userCache.SetItem(username, CachedUser(hash, currentUser, currentError), expire, now);
    }

    /** `fromCache`: the live entry for the user name, if any. */
    method FromCache(username: string, now: int) returns (cached: Option<CachedUser>)
      requires userCache != null
      ensures cached == Get(userCache.slots, username, now)
    {
      cached := userCache.GetItem(username, now);
    }
  }

  /**
    The registry's cache test: two logins of "testee" with the same password. The first
    asks the directory and is not a cache hit; the second is a cache hit with the same
    groups, "testee" first, and no second directory lookup.
  */
  method UseCacheScenario(bcrypt: Bcrypt, cnOf: string -> Option<string>, directory: Directory, salt: string)
    returns (first: AuthResult, second: AuthResult)
    requires Sound(bcrypt)
    requires directory("testee", "password") == Found(Principal(Some("testee"), Absent, Absent))
    ensures first == Granted(CachableUserGroups([Some("testee")], false))
    ensures second == Granted(CachableUserGroups([Some("testee")], true))
  {
    var config := LdapConfig(ClientOptions(None, true, "ldap://127.0.0.1:4389"), None, CacheOn(None));
    var plugin := new AuthCustomPlugin(config, None, bcrypt, cnOf);
    first := plugin.Authenticate("testee", "password", Drawn(salt), directory, 0);
    assert plugin.lookups == [("testee", "password")];
    second := plugin.Authenticate("testee", "password", HashThrows, directory, 1);
    assert plugin.lookups == [("testee", "password")];
  }
}
