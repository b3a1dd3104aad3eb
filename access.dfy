/**
  The access evaluator of the plugin: `allow` and the three hooks the registry
  calls for read, publish and unpublish requests (src/index.ts).
*/
module Access {
  import opened Wrappers

  /** The registry's view of a logged-in user. */
  datatype RemoteUser = RemoteUser(name: string, groups: seq<string>, realGroups: seq<string>)

  /** A package's policy; an absent list is `undefined` in the registry's configuration. */
  datatype PackageAccess = PackageAccess(
    access: Option<seq<string>>,
    publish: Option<seq<string>>,
    unpublish: Option<seq<string>>)

  /** `Array.prototype.indexOf`: the first position of `x` in `s`, or -1. */
  function IndexOf(s: seq<string>, x: string): (i: int)
    ensures -1 <= i < |s|
    ensures i == -1 <==> x !in s
    ensures 0 <= i ==> s[i] == x && x !in s[..i]
  {
    if |s| == 0 then -1
    else if s[0] == x then 0
    else
      var j := IndexOf(s[1..], x);
      if j == -1 then -1
      else
        assert s[..j + 1] == [s[0]] + s[1..][..j];
        j + 1
  }

  /** `required.some(accessValue => groups.indexOf(accessValue) >= 0)`. */
  function SomeIn(required: seq<string>, groups: seq<string>): (b: bool)
    ensures b <==> exists i :: 0 <= i < |required| && required[i] in groups
  {
    if |required| == 0 then false
    else if IndexOf(groups, required[0]) >= 0 then true
    else
      var b := SomeIn(required[1..], groups);
      assert forall i :: 1 <= i < |required| ==> required[i] == required[1..][i - 1];
      b
  }

  /** The private `allow`: no required list grants, otherwise one shared name must be present. */
  function Allow(user: RemoteUser, required: Option<seq<string>>): (ok: bool)
    ensures required.None? ==> ok
    ensures required.Some? ==> (ok <==> exists g :: g in required.value && g in user.groups)
  {
    match required
    case None => true
    case Some(names) => SomeIn(names, user.groups)
  }

  function AllowAccess(user: RemoteUser, pkg: PackageAccess): (ok: bool)
    ensures ok <==> pkg.access.None? || exists g :: g in pkg.access.value && g in user.groups
  {
    Allow(user, pkg.access)
  }

  function AllowPublish(user: RemoteUser, pkg: PackageAccess): (ok: bool)
    ensures ok <==> pkg.publish.None? || exists g :: g in pkg.publish.value && g in user.groups
  {
    Allow(user, pkg.publish)
  }

  function AllowUnpublish(user: RemoteUser, pkg: PackageAccess): (ok: bool)
    ensures ok <==> pkg.unpublish.None? || exists g :: g in pkg.unpublish.value && g in user.groups
  {
    Allow(user, pkg.unpublish)
  }

  /** A package without any policy lets every user read, publish and unpublish. */
  lemma EmptyPolicyAllowsEveryone(user: RemoteUser)
    ensures var pkg := PackageAccess(None, None, None);
            AllowAccess(user, pkg) && AllowPublish(user, pkg) && AllowUnpublish(user, pkg)
  {
  }

  /** A present but empty list is truthy in JavaScript and so denies everyone. */
  lemma EmptyListDeniesEveryone(user: RemoteUser)
    ensures !Allow(user, Some([]))
  {
  }

  /** Each hook reads only its own list: changing the other two never changes its answer. */
  lemma HooksAreIndependent(user: RemoteUser, pkg: PackageAccess, other: PackageAccess)
    ensures AllowAccess(user, pkg) == AllowAccess(user, pkg.(publish := other.publish, unpublish := other.unpublish))
    ensures AllowPublish(user, pkg) == AllowPublish(user, pkg.(access := other.access, unpublish := other.unpublish))
    ensures AllowUnpublish(user, pkg) == AllowUnpublish(user, pkg.(access := other.access, publish := other.publish))
  {
  }

  /** Order and repetition of the user's groups do not matter: only their set does. */
  lemma AllowSeesGroupsAsSet(u1: RemoteUser, u2: RemoteUser, required: Option<seq<string>>)
    requires forall g :: g in u1.groups <==> g in u2.groups
    ensures Allow(u1, required) == Allow(u2, required)
  {
  }

  /** Granting more groups never takes access away. */
  lemma AllowMonotone(user: RemoteUser, extra: seq<string>, required: Option<seq<string>>)
    ensures Allow(user, required) ==> Allow(user.(groups := user.groups + extra), required)
  {
  }

  /** The registry's access-control tests: a match by name, a miss, and a match by group. */
  lemma AccessControlScenarios()
    ensures var pkg := PackageAccess(Some(["Testuser", "testeegroup"]), Some(["Testuser", "testeegroup"]),
                                     Some(["Testuser", "testeegroup"]));
            var testee := RemoteUser("Testuser", ["Testuser"], []);
            var testee1 := RemoteUser("testee1", ["testee1"], []);
            var testee2 := RemoteUser("testee2", ["testee2", "testeegroup"], []);
            && AllowAccess(testee, pkg) && AllowPublish(testee, pkg) && AllowUnpublish(testee, pkg)
            && !AllowAccess(testee1, pkg) && !AllowPublish(testee1, pkg) && !AllowUnpublish(testee1, pkg)
            && AllowAccess(testee2, pkg) && AllowPublish(testee2, pkg)
  {
  }
}
