/**
  The configuration the plugin's constructor resolves (src/index.ts), reduced to the
  settings the core reads. `env` is the value of the `LDAP_ADMIN_PASS` environment
  variable, `None` when it is not set.
*/
module Config {
  import opened Wrappers

  /** Default time to live of a cache entry, in seconds. */
  const DefaultExpire: int := 300

  /** Default attribute holding a group's name. */
  const DefaultGroupNameAttribute: string := "cn"

  /**
    `config.cache`: falsy (`CacheOff`) or truthy; `expire` is `None` when
    `cache.expire` is not a number (absent, or `cache: true`).
  */
  datatype CacheSetting = CacheOff | CacheOn(expire: Option<int>)

  /** The `ldapauth-fork` options the plugin touches. */
  datatype ClientOptions = ClientOptions(adminPassword: Option<string>, cache: bool, url: string)

  datatype LdapConfig = LdapConfig(
    clientOptions: ClientOptions,
    groupNameAttribute: Option<string>,
    cache: CacheSetting)

  /** `this.config.groupNameAttribute || 'cn'`: an unset or empty attribute falls back to `cn`. */
  function GroupNameAttributeOrDefault(configured: Option<string>): (attr: string)
    ensures attr != ""
    ensures configured.Some? && configured.value != "" ==> attr == configured.value
    ensures attr != DefaultGroupNameAttribute ==> configured == Some(attr)
  {
    if configured.Some? && configured.value != "" then configured.value else DefaultGroupNameAttribute
  }

  /** `this.expire`: the numeric `cache.expire`, else 300; 0 when the cache is off. */
  function ExpireOf(cache: CacheSetting): (expire: int)
    ensures cache.CacheOff? ==> expire == 0
    ensures cache.CacheOn? && cache.expire.Some? ==> expire == cache.expire.value
    ensures cache.CacheOn? && cache.expire.None? ==> expire == DefaultExpire
  {
    match cache
    case CacheOff => 0
    case CacheOn(e) => if e.Some? then e.value else DefaultExpire
  }

  /** `client_options.adminPassword` after the environment override. */
  function AdminPassword(configured: Option<string>, env: Option<string>): (pass: Option<string>)
    ensures env.Some? ==> pass == env
    ensures env.None? ==> pass == configured
  {
    if env.Some? then env else configured
  }

  /**
    The configuration as the constructor leaves it: the directory client's own cache
    off, the group attribute defaulted, the admin password overridden by the environment.
  */
  function Resolve(config: LdapConfig, env: Option<string>): (r: LdapConfig)
    ensures r.cache == config.cache
    ensures !r.clientOptions.cache
    ensures r.clientOptions.url == config.clientOptions.url
    ensures r.groupNameAttribute == Some(GroupNameAttributeOrDefault(config.groupNameAttribute))
    ensures r.clientOptions.adminPassword == AdminPassword(config.clientOptions.adminPassword, env)
  {
    config.(
      clientOptions := config.clientOptions.(cache := false,
                                             adminPassword := AdminPassword(config.clientOptions.adminPassword, env)),
      groupNameAttribute := Some(GroupNameAttributeOrDefault(config.groupNameAttribute)))
  }

  /** Resolving twice changes nothing more: every default is applied only where it was unset. */
  lemma ResolveIdempotent(config: LdapConfig, env: Option<string>)
    ensures Resolve(Resolve(config, env), env) == Resolve(config, env)
  {
  }

  /** The admin-password tests: "asdf" configured and "1234" in the environment gives "1234". */
  lemma EnvironmentWins()
    ensures var c := LdapConfig(ClientOptions(Some("asdf"), true, "ldap://localhost:4389"), None, CacheOn(None));
            && Resolve(c, Some("1234")).clientOptions.adminPassword == Some("1234")
            && Resolve(c, None).clientOptions.adminPassword == Some("asdf")
            && Resolve(c, None).groupNameAttribute == Some("cn")
            && ExpireOf(c.cache) == 300
  {
  }
}
