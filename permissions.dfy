/** project/permissions.py: permission classes whose `has_permission` is a short-circuit rule over
    the request's user. A user is absent (`None`, falsy) or a record of flags and group names;
    `groups.filter(name__in=names).exists()` is a non-empty intersection with `names`. */
module Permissions {
  import opened Wrappers

  datatype User = User(isAuthenticated: bool, isActive: bool, isStaff: bool, isSuperuser: bool, groups: set<string>)

  /** The outcome of a permission call: a truthy or falsy value, or an exception. */
  datatype Verdict = Granted | Denied | Raised(reason: Failure)

  /** The permission classes; the name is the class whose `has_permission` is called. */
  datatype Permission = Base | Active | All | Reader | OwnerRaport | Manipulate

  const ADMIN_GROUPS: set<string> := {"ADMIN", "Supervisor"}
  const READER_GROUPS: set<string> := {"BASE", "Employee"}
  const DRIVER_GROUPS: set<string> := {"DRIVER", "Truck driver"}
  const MANAGER_GROUPS: set<string> := {"MANAGER", "Manager"}

  function FromTruth(b: bool): Verdict {
    if b then Granted else Denied
  }

  predicate InAnyGroup(u: User, names: set<string>) {
    u.groups * names != {}
  }

  /** `BasePermission.has_permission`: raises 405 whatever the request. */
  function BaseHasPermission(user: Option<User>): Verdict {
    Raised(MethodNotAllowed405)
  }

  /** `IsActive.has_permission`: a present, authenticated and active user. */
  predicate IsActiveRule(user: Option<User>)
    ensures IsActiveRule(user) ==> user.Some?
    ensures user.Some? && !(user.value.isAuthenticated && user.value.isActive) ==> !IsActiveRule(user)
  {
    user.Some? && user.value.isAuthenticated && user.value.isActive
  }

  /** `IsReader.has_permissionps`, the rule that, misspelled, is never called as `has_permission`. */
  predicate IsReaderHasPermissionps(user: Option<User>)
    ensures IsReaderHasPermissionps(user) ==> IsActiveRule(user) && !user.value.isSuperuser
  {
    IsActiveRule(user) && !user.value.isSuperuser && (user.value.isStaff || InAnyGroup(user.value, READER_GROUPS))
  }

  /** `P().has_permission(request)`, after looking the method up along the class hierarchy: IsReader
      defines none of its own and gets BasePermission's, which raises 405; IsOwnerRaport's rule reads
      the missing attribute `geroups` once its first operand is truthy. */
  function HasPermission(p: Permission, user: Option<User>): (v: Verdict)
    ensures v == Raised(MethodNotAllowed405) <==> p == Base || p == Reader
    ensures v == Raised(Crash) <==> p == OwnerRaport && IsActiveRule(user)
    ensures v == Granted ==> IsActiveRule(user)
  {
    match p
    case Base => BaseHasPermission(user)
    case Active => FromTruth(IsActiveRule(user))
    case All => FromTruth(IsActiveRule(user) && user.value.isStaff
                          && (user.value.isSuperuser || InAnyGroup(user.value, ADMIN_GROUPS)))
    case Reader => BaseHasPermission(user)
    case OwnerRaport => if !IsActiveRule(user) then Denied else Raised(Crash)
    case Manipulate => FromTruth(IsActiveRule(user) && InAnyGroup(user.value, MANAGER_GROUPS))
  }

  /** The module-level aliases `is_active`, `is_aLL`, `is_reader` and `is_ownerraport`: each is the
      `has_permission` its class resolves to. */
  const ALIAS_IS_ACTIVE: Permission := Active
  const ALIAS_IS_ALL: Permission := All
  const ALIAS_IS_READER: Permission := Reader
  const ALIAS_IS_OWNERRAPORT: Permission := OwnerRaport

  /** The base method raises 405 for every request. */
  lemma BaseAlwaysRaises(user: Option<User>)
    ensures HasPermission(Base, user) == Raised(MethodNotAllowed405)
  {
  }

  /** `is_reader`, like `IsReader().has_permission`, is the inherited base method and raises 405 for
      every request, even for a user the reader rule admits. */
  lemma ReaderAliasRaises(user: Option<User>)
    ensures HasPermission(ALIAS_IS_READER, user) == Raised(MethodNotAllowed405)
    ensures IsReaderHasPermissionps(user) ==> HasPermission(Reader, user) != Granted
  {
  }

  /** `IsActive` grants exactly the present, authenticated, active users. */
  lemma ActiveGrantsExactly(user: Option<User>)
    ensures HasPermission(ALIAS_IS_ACTIVE, user) == Granted <==>
      user.Some? && user.value.isAuthenticated && user.value.isActive
  {
  }

  /** `IsAll` grants only active staff who are superusers or in ADMIN or Supervisor, and grants every one of them. */
  lemma AllGrantsExactly(user: Option<User>)
    ensures HasPermission(ALIAS_IS_ALL, user) == Granted <==>
      IsActiveRule(user) && user.value.isStaff
      && (user.value.isSuperuser || "ADMIN" in user.value.groups || "Supervisor" in user.value.groups)
  {
    if user.Some? && ("ADMIN" in user.value.groups || "Supervisor" in user.value.groups) {
      assert "ADMIN" in user.value.groups ==> "ADMIN" in user.value.groups * ADMIN_GROUPS;
      assert "Supervisor" in user.value.groups ==> "Supervisor" in user.value.groups * ADMIN_GROUPS;
    }
  }

  /** `IsManipulate` grants exactly the active users in MANAGER or Manager. */
  lemma ManipulateGrantsExactly(user: Option<User>)
    ensures HasPermission(Manipulate, user) == Granted <==>
      IsActiveRule(user) && ("MANAGER" in user.value.groups || "Manager" in user.value.groups)
  {
    if user.Some? && ("MANAGER" in user.value.groups || "Manager" in user.value.groups) {
      assert "MANAGER" in user.value.groups ==> "MANAGER" in user.value.groups * MANAGER_GROUPS;
      assert "Manager" in user.value.groups ==> "Manager" in user.value.groups * MANAGER_GROUPS;
    }
  }

  /** The reader rule never admits a superuser, and admits active staff or active BASE or Employee members. */
  lemma ReaderRuleExactly(user: Option<User>)
    ensures IsReaderHasPermissionps(user) <==>
      IsActiveRule(user) && !user.value.isSuperuser
      && (user.value.isStaff || "BASE" in user.value.groups || "Employee" in user.value.groups)
  {
    if user.Some? && ("BASE" in user.value.groups || "Employee" in user.value.groups) {
      assert "BASE" in user.value.groups ==> "BASE" in user.value.groups * READER_GROUPS;
      assert "Employee" in user.value.groups ==> "Employee" in user.value.groups * READER_GROUPS;
    }
  }

  /** `IsOwnerRaport` (and `is_ownerraport`) never grants: it answers falsy for a user who is not
      active and raises for one who is, whatever their groups. */
  lemma OwnerRaportNeverGrants(user: Option<User>)
    ensures HasPermission(ALIAS_IS_OWNERRAPORT, user) != Granted
    ensures HasPermission(ALIAS_IS_OWNERRAPORT, user) == Denied <==> !IsActiveRule(user)
  {
  }

  /** Only IsActive, IsAll and IsManipulate can ever grant, and each grant implies an active user. */
  lemma OnlyThreeCanGrant(p: Permission, user: Option<User>)
    requires HasPermission(p, user) == Granted
    ensures p == Active || p == All || p == Manipulate
    ensures HasPermission(Active, user) == Granted
  {
  }
}
