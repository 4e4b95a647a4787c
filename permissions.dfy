/**
 * The permission vocabulary shared by the server and the client: the six
 * department permissions, the three user roles, the six-flag permission record,
 * its all-false default and its German labels.
 */
module Permissions {
  import opened Wrappers

  /** One department permission; the order of the constructors is the key order of the record. */
  datatype Permission = Marketing | Management | Projects | Accounting | Hr | Admin

  datatype Role = RoleUser | RoleManager | RoleAdmin

  /** Every permission, in the key order of `UserPermissions`. */
  const AllPermissions: seq<Permission> := [Marketing, Management, Projects, Accounting, Hr, Admin]

  const AllRoles: seq<Role> := [RoleAdmin, RoleUser, RoleManager]

  /** The six-flag permission record. */
  datatype Flags = Flags(marketing: bool, management: bool, projects: bool, accounting: bool, hr: bool, admin: bool)
  {
    /** `permissions[p]`. */
    function Get(p: Permission): bool {
      match p
      case Marketing => marketing
      case Management => management
      case Projects => projects
      case Accounting => accounting
      case Hr => hr
      case Admin => admin
    }

    /** `{ ...permissions, [p]: v }`: only flag `p` changes. */
    function Set(p: Permission, v: bool): (r: Flags)
      ensures r.Get(p) == v
      ensures forall q :: q != p ==> r.Get(q) == Get(q)
    {
      match p
      case Marketing => this.(marketing := v)
      case Management => this.(management := v)
      case Projects => this.(projects := v)
      case Accounting => this.(accounting := v)
      case Hr => this.(hr := v)
      case Admin => this.(admin := v)
    }
  }

  /** `DEFAULT_PERMISSIONS`. */
  const DefaultPermissions := Flags(false, false, false, false, false, false)

  /** The record every admin is given: all six flags true. */
  const AllGranted := Flags(true, true, true, true, true, true)

  /** `{ ...DEFAULT_PERMISSIONS, marketing: true }`, the fallback for a non-admin without stored permissions. */
  const MarketingOnly := DefaultPermissions.(marketing := true)

  /** Two permission records are equal when they agree on every permission. */
  lemma FlagsExtensional(a: Flags, b: Flags)
    requires forall p :: a.Get(p) == b.Get(p)
    ensures a == b
  {
    assert a.Get(Marketing) == b.Get(Marketing) && a.Get(Management) == b.Get(Management);
    assert a.Get(Projects) == b.Get(Projects) && a.Get(Accounting) == b.Get(Accounting);
    assert a.Get(Hr) == b.Get(Hr) && a.Get(Admin) == b.Get(Admin);
  }

  /** There are exactly six permissions and three roles, each listed once. */
  lemma EnumerationsComplete()
    ensures |AllPermissions| == 6 && forall p: Permission :: p in AllPermissions
    ensures forall i, j :: 0 <= i < j < |AllPermissions| ==> AllPermissions[i] != AllPermissions[j]
    ensures |AllRoles| == 3 && forall r: Role :: r in AllRoles
    ensures forall i, j :: 0 <= i < j < |AllRoles| ==> AllRoles[i] != AllRoles[j]
  {
    forall p: Permission ensures p in AllPermissions {
      var i := match p
        case Marketing => 0 case Management => 1 case Projects => 2
        case Accounting => 3 case Hr => 4 case Admin => 5;
      assert AllPermissions[i] == p;
    }
    forall r: Role ensures r in AllRoles {
      var i := match r case RoleAdmin => 0 case RoleUser => 1 case RoleManager => 2;
      assert AllRoles[i] == r;
    }
  }

  /** The default record grants nothing, the admin record everything, the fallback record only marketing. */
  lemma ConstantRecords(p: Permission)
    ensures !DefaultPermissions.Get(p)
    ensures AllGranted.Get(p)
    ensures MarketingOnly.Get(p) <==> p == Marketing
  {
  }

  /** `PERMISSION_LABELS`. */
  function Label(p: Permission): (s: string)
    ensures s != ""
  {
    match p
    case Marketing => "Marketing"
    case Management => "Management"
    case Projects => "Projekte"
    case Accounting => "Buchhaltung"
    case Hr => "Personalwesen"
    case Admin => "Administration"
  }

  /** Every permission has its own label. */
  lemma LabelsDistinct(p: Permission, q: Permission)
    ensures Label(p) == Label(q) ==> p == q
  {
  }

  /** The key of a permission in the record and in request bodies. */
  function Key(p: Permission): string {
    match p
    case Marketing => "marketing"
    case Management => "management"
    case Projects => "projects"
    case Accounting => "accounting"
    case Hr => "hr"
    case Admin => "admin"
  }

  /** The `Permission` a string literal denotes, if any. */
  function ParsePermission(s: string): (r: Option<Permission>)
    ensures r.Some? ==> Key(r.value) == s
  {
    if s == "marketing" then Some(Marketing)
    else if s == "management" then Some(Management)
    else if s == "projects" then Some(Projects)
    else if s == "accounting" then Some(Accounting)
    else if s == "hr" then Some(Hr)
    else if s == "admin" then Some(Admin)
    else None
  }

  /** Keys and parsing are inverse: every permission is recognised from its own key. */
  lemma ParseKeyRoundTrip(p: Permission)
    ensures ParsePermission(Key(p)) == Some(p)
  {
  }

  function RoleKey(r: Role): string {
    match r
    case RoleUser => "user"
    case RoleManager => "manager"
    case RoleAdmin => "admin"
  }

  /** The role a string denotes: the schema's `enum: ['admin', 'user', 'manager']`. */
  function ParseRole(s: string): (r: Option<Role>)
    ensures r.Some? ==> RoleKey(r.value) == s
  {
    if s == "admin" then Some(RoleAdmin)
    else if s == "user" then Some(RoleUser)
    else if s == "manager" then Some(RoleManager)
    else None
  }

  lemma ParseRoleRoundTrip(r: Role)
    ensures ParseRole(RoleKey(r)) == Some(r)
  {
  }

  /**
   * The fallback several handlers apply to a record that may lack permissions:
   * `permissions || (role === 'admin' ? all true : { ...DEFAULT_PERMISSIONS, marketing: true })`.
   */
  function Effective(stored: Option<Flags>, role: Option<Role>): (r: Flags)
    ensures stored.Some? ==> r == stored.value
    ensures stored.None? && role == Some(RoleAdmin) ==> forall p :: r.Get(p)
    ensures stored.None? && role != Some(RoleAdmin) ==> forall p :: r.Get(p) <==> p == Marketing
  {
    match stored
    case Some(f) => f
    case None => if role == Some(RoleAdmin) then AllGranted else MarketingOnly
  }

  /** `ps.some(p => flags[p])`, scanning left to right. */
  function AnyHeld(f: Flags, ps: seq<Permission>): (b: bool)
    ensures b <==> exists i :: 0 <= i < |ps| && f.Get(ps[i])
  {
    if ps == [] then false
    else f.Get(ps[0]) || (assert forall i :: 0 < i < |ps| ==> ps[i] == ps[1..][i - 1]; AnyHeld(f, ps[1..]))
  }

  /** `ps.every(p => flags[p])`. */
  function AllHeld(f: Flags, ps: seq<Permission>): (b: bool)
    ensures b <==> forall i :: 0 <= i < |ps| ==> f.Get(ps[i])
  {
    if ps == [] then true
    else f.Get(ps[0]) && (assert forall i :: 0 < i < |ps| ==> ps[i] == ps[1..][i - 1]; AllHeld(f, ps[1..]))
  }
}
