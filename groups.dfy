/**
  The group normaliser `authenticatedUserGroups` (src/index.ts): the ordered
  group list a directory entry yields, the user's own `cn` first.
*/
module Groups {
  import opened Wrappers

  /** An LDAP attribute that a directory may return as a single value or as a list. */
  datatype Attr<T> = Absent | One(value: T) | Many(values: seq<T>)

  /** A group entry under `_groups`: its attribute names and values. */
  type LdapGroup = map<string, string>

  /**
    The directory entry of an authenticated user, reduced to what the normaliser reads.
    `None` stands for a JavaScript `undefined` attribute.
  */
  datatype Principal = Principal(cn: Option<string>, groups: Attr<LdapGroup>, memberOf: Attr<string>)

  /** `[].concat(x)`: a list stays a list, a single value becomes a one-element list. */
  function AsList<T>(a: Attr<T>): seq<T>
  {
    match a
    case Absent => []
    case One(v) => [v]
    case Many(vs) => vs
  }

  /** `user._groups ? [].concat(user._groups) : []`; a group object is always truthy. */
  function GroupEntries(a: Attr<LdapGroup>): seq<LdapGroup>
  {
    AsList(a)
  }

  /** `user.memberOf ? [].concat(user.memberOf) : []`; a single empty DN is falsy and yields nothing. */
  function MemberOfDns(a: Attr<string>): seq<string>
  {
    if a == One("") then [] else AsList(a)
  }

  /** `group[groupNameAttribute]`. */
  function NameOf(group: LdapGroup, groupNameAttribute: string): Option<string>
  {
    if groupNameAttribute in group then Some(group[groupNameAttribute]) else None
  }

  /** `Array.prototype.map`. */
  function Map<A, B>(f: A -> B, xs: seq<A>): (ys: seq<B>)
    ensures |ys| == |xs|
    ensures forall i :: 0 <= i < |xs| ==> ys[i] == f(xs[i])
  {
    if |xs| == 0 then [] else [f(xs[0])] + Map(f, xs[1..])
  }

  /**
    `authenticatedUserGroups(user, groupNameAttribute)`. `cnOf` is the `CN` component of a
    distinguished name as the RFC 2253 parser returns it, `None` when there is none.
  */
  function AuthenticatedUserGroups(user: Principal, groupNameAttribute: string, cnOf: string -> Option<string>)
    : (gs: seq<Option<string>>)
    ensures var entries, dns := GroupEntries(user.groups), MemberOfDns(user.memberOf);
            && |gs| == 1 + |entries| + |dns|
            && gs[0] == user.cn
            && (forall i :: 0 <= i < |entries| ==> gs[1 + i] == NameOf(entries[i], groupNameAttribute))
            && (forall j :: 0 <= j < |dns| ==> gs[1 + |entries| + j] == cnOf(dns[j]))
  {
    [user.cn]
      + Map(g => NameOf(g, groupNameAttribute), GroupEntries(user.groups))
      + Map(cnOf, MemberOfDns(user.memberOf))
  }

  /** Number of values an attribute carries: a scalar counts one, an absent attribute none. */
  function Arity<T>(a: Attr<T>): nat
  {
    match a
    case Absent => 0
    case One(_) => 1
    case Many(vs) => |vs|
  }

  /**
    The length of the normalised list is one plus the number of `_groups` and `memberOf`
    values: nothing is deduplicated, and only a lone empty `memberOf` DN is dropped.
  */
  lemma NormalisedLength(user: Principal, groupNameAttribute: string, cnOf: string -> Option<string>)
    ensures |AuthenticatedUserGroups(user, groupNameAttribute, cnOf)|
            == 1 + Arity(user.groups) + Arity(user.memberOf) - (if user.memberOf == One("") then 1 else 0)
  {
  }

  /**
    No deduplication: the normalised list holds, as a multiset, exactly the user's `cn`,
    one name per `_groups` value and one `CN` per `memberOf` DN.
  */
  lemma NoDeduplication(user: Principal, groupNameAttribute: string, cnOf: string -> Option<string>)
    ensures multiset(AuthenticatedUserGroups(user, groupNameAttribute, cnOf))
            == multiset{user.cn}
               + multiset(Map(g => NameOf(g, groupNameAttribute), GroupEntries(user.groups)))
               + multiset(Map(cnOf, MemberOfDns(user.memberOf)))
  {
  }

  /** A scalar `_groups` is treated exactly like a one-element list, whatever `memberOf` holds. */
  lemma ScalarGroupsIsOneElementList(user: Principal, groupNameAttribute: string, cnOf: string -> Option<string>)
    requires user.groups.One?
    ensures AuthenticatedUserGroups(user, groupNameAttribute, cnOf)
            == AuthenticatedUserGroups(user.(groups := Many([user.groups.value])), groupNameAttribute, cnOf)
  {
  }

  /** A non-empty scalar `memberOf` is treated exactly like a one-element list, whatever `_groups` holds. */
  lemma ScalarMemberOfIsOneElementList(user: Principal, groupNameAttribute: string, cnOf: string -> Option<string>)
    requires user.memberOf.One? && user.memberOf.value != ""
    ensures AuthenticatedUserGroups(user, groupNameAttribute, cnOf)
            == AuthenticatedUserGroups(user.(memberOf := Many([user.memberOf.value])), groupNameAttribute, cnOf)
  {
  }

  /**
    The directory test user: `cn` "testee" with its group in `memberOf` (the test client
    requests `memberOf` and sets no group search) comes out as ["testee", "testeegroup"],
    the user's own name first.
  */
  lemma TesteeGroups(cnOf: string -> Option<string>, dn: string)
    requires dn != "" && cnOf(dn) == Some("testeegroup")
    ensures AuthenticatedUserGroups(Principal(Some("testee"), Absent, One(dn)), "cn", cnOf)
            == [Some("testee"), Some("testeegroup")]
  {
  }
}
