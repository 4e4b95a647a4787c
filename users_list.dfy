/**
 * The user administration list: the filter chain over the fetched users (search,
 * role, status, permission), the counters of the statistics cards, the list of a
 * user's granted permission keys, the avatar initials and the status badge.
 * A missing `approved` or `isActive` is read as false, as JavaScript's truthiness does.
 */
module UsersList {
  import opened Wrappers
  import opened Text
  import opened Seqs
  import opened Permissions

  /** A user as the list receives it. */
  datatype ListedUser = ListedUser(firstName: string, lastName: string, email: string, role: string,
                                   approved: bool, isActive: bool, permissions: Option<Flags>)

  /** The four filter controls; 'all' switches a control off, an empty search term likewise. */
  datatype Filters = Filters(searchTerm: string, roleFilter: string, statusFilter: string, permissionFilter: string)

  const NoFilters := Filters("", "all", "all", "all")

  /** The search test: the term, lower-cased, occurs in the lower-cased first name, last name or email. */
  predicate MatchesTerm(u: ListedUser, term: string) {
    var t := ToLower(term);
    Contains(ToLower(u.firstName), t) || Contains(ToLower(u.lastName), t) || Contains(ToLower(u.email), t)
  }

  /** `user.approved && user.isActive`. */
  predicate IsActiveUser(u: ListedUser) {
    u.approved && u.isActive
  }

  /** `user.permissions && user.permissions[key]`: a key that names no flag reads as undefined. */
  predicate HoldsKey(u: ListedUser, key: string) {
    u.permissions.Some? && ParsePermission(key).Some? && u.permissions.value.Get(ParsePermission(key).value)
  }

  function SearchTest(term: string): ListedUser -> bool { (u: ListedUser) => MatchesTerm(u, term) }
  function RoleTest(role: string): ListedUser -> bool { (u: ListedUser) => u.role == role }
  function ActiveTest(): ListedUser -> bool { (u: ListedUser) => IsActiveUser(u) }
  function InactiveTest(): ListedUser -> bool { (u: ListedUser) => !u.approved || !u.isActive }
  function PendingTest(): ListedUser -> bool { (u: ListedUser) => !u.approved }
  function KeyTest(key: string): ListedUser -> bool { (u: ListedUser) => HoldsKey(u, key) }

  /** The status step: 'active', 'inactive' and 'pending' filter; any other value keeps the list. */
  function ByStatus(us: seq<ListedUser>, status: string): seq<ListedUser> {
    if status == "all" then us
    else if status == "active" then Filter(us, ActiveTest())
    else if status == "inactive" then Filter(us, InactiveTest())
    else if status == "pending" then Filter(us, PendingTest())
    else us
  }

  /** The search step: an empty term keeps the list. */
  function BySearch(us: seq<ListedUser>, term: string): seq<ListedUser> {
    if term != "" then Filter(us, SearchTest(term)) else us
  }

  /** The role step: 'all' keeps the list. */
  function ByRole(us: seq<ListedUser>, role: string): seq<ListedUser> {
    if role != "all" then Filter(us, RoleTest(role)) else us
  }

  /** The permission step: 'all' keeps the list. */
  function ByPermission(us: seq<ListedUser>, key: string): seq<ListedUser> {
    if key != "all" then Filter(us, KeyTest(key)) else us
  }

  /** The filter effect: search, then role, then status, then permission, each narrowing the previous result. */
  function FilteredUsers(users: seq<ListedUser>, f: Filters): seq<ListedUser> {
    ByPermission(ByStatus(ByRole(BySearch(users, f.searchTerm), f.roleFilter), f.statusFilter), f.permissionFilter)
  }

  /** What the status control demands of one user. */
  predicate StatusKeeps(status: string, u: ListedUser) {
    if status == "active" then IsActiveUser(u)
    else if status == "inactive" then !u.approved || !u.isActive
    else if status == "pending" then !u.approved
    else true
  }

  /** What all four controls together demand of one user. */
  predicate Keeps(f: Filters, u: ListedUser) {
    && (f.searchTerm != "" ==> MatchesTerm(u, f.searchTerm))
    && (f.roleFilter != "all" ==> u.role == f.roleFilter)
    && StatusKeeps(f.statusFilter, u)
    && (f.permissionFilter != "all" ==> HoldsKey(u, f.permissionFilter))
  }

  // ----- Properties of the filter -----

  /** A user is listed exactly when it is fetched and passes every active control. */
  lemma FilteredExactly(users: seq<ListedUser>, f: Filters)
    ensures forall u :: u in FilteredUsers(users, f) <==> u in users && Keeps(f, u)
  {
  }

  /** The result keeps the fetched order; with every control off it is the whole list. */
  lemma FilteredKeepsOrder(users: seq<ListedUser>, f: Filters)
    ensures IsSubsequence(FilteredUsers(users, f), users)
    ensures FilteredUsers(users, NoFilters) == users
  {
    var s1 := BySearch(users, f.searchTerm);
    var s2 := ByRole(s1, f.roleFilter);
    var s3 := ByStatus(s2, f.statusFilter);
    var s4 := ByPermission(s3, f.permissionFilter);
    StepsAreSubsequences(users, f.searchTerm, f.roleFilter, f.statusFilter, f.permissionFilter);
    StepsAreSubsequences(s1, f.searchTerm, f.roleFilter, f.statusFilter, f.permissionFilter);
    StepsAreSubsequences(s2, f.searchTerm, f.roleFilter, f.statusFilter, f.permissionFilter);
    StepsAreSubsequences(s3, f.searchTerm, f.roleFilter, f.statusFilter, f.permissionFilter);
    SubsequenceTransitive(s4, s3, s2);
    SubsequenceTransitive(s4, s2, s1);
    SubsequenceTransitive(s4, s1, users);
  }

  /** Each of the four steps keeps a subsequence of its input. */
  lemma StepsAreSubsequences(us: seq<ListedUser>, term: string, role: string, status: string, key: string)
    ensures IsSubsequence(BySearch(us, term), us)
    ensures IsSubsequence(ByRole(us, role), us)
    ensures IsSubsequence(ByStatus(us, status), us)
    ensures IsSubsequence(ByPermission(us, key), us)
  {
    SubsequenceReflexive(us);
    FilterIsSubsequence(us, SearchTest(term));
    FilterIsSubsequence(us, RoleTest(role));
    FilterIsSubsequence(us, KeyTest(key));
    FilterIsSubsequence(us, ActiveTest());
    FilterIsSubsequence(us, InactiveTest());
    FilterIsSubsequence(us, PendingTest());
  }

  /** The 'active' and 'inactive' status filters split the users between them. */
  lemma StatusPartition(users: seq<ListedUser>)
    ensures |ByStatus(users, "active")| + |ByStatus(users, "inactive")| == |users|
    ensures forall u :: u in users ==> (u in ByStatus(users, "active") <==> u !in ByStatus(users, "inactive"))
  {
    CountSplit(users, ActiveTest(), InactiveTest());
  }

  // ----- Statistics cards -----

  datatype UserStats = UserStats(totalUsers: nat, activeUsers: nat, approvedUsers: nat,
                                 adminUsers: nat, managerUsers: nat, standardUsers: nat)

  function ApprovedTest(): ListedUser -> bool { (u: ListedUser) => u.approved }

  /** `getUserStats()`. */
  function GetUserStats(users: seq<ListedUser>): UserStats {
    UserStats(|users|, Count(users, ActiveTest()), Count(users, ApprovedTest()),
              Count(users, RoleTest("admin")), Count(users, RoleTest("manager")), Count(users, RoleTest("user")))
  }

  /** Active users are approved users, who are users; when every role is one of the three, the role counts add up to the total. */
  lemma StatsBounds(users: seq<ListedUser>)
    ensures var s := GetUserStats(users);
      && s.activeUsers <= s.approvedUsers <= s.totalUsers
      && ((forall u :: u in users ==> u.role in ["admin", "manager", "user"]) ==>
            s.adminUsers + s.managerUsers + s.standardUsers == s.totalUsers)
  {
    CountMonotone(users, ActiveTest(), ApprovedTest());
    if forall u :: u in users ==> u.role in ["admin", "manager", "user"] {
      RoleCounts(users);
    }
  }

  lemma {:induction false} RoleCounts(users: seq<ListedUser>)
    requires forall u :: u in users ==> u.role in ["admin", "manager", "user"]
    ensures Count(users, RoleTest("admin")) + Count(users, RoleTest("manager")) + Count(users, RoleTest("user")) == |users|
    decreases |users|
  {
    if users != [] {
      assert users[0] in users;
      assert forall u :: u in users[1..] ==> u in users;
      RoleCounts(users[1..]);
    }
  }

  // ----- Per-user display -----

  function HeldBy(f: Flags): Permission -> bool { (p: Permission) => f.Get(p) }

  function KeysOf(ps: seq<Permission>): (ks: seq<string>)
    ensures |ks| == |ps| && forall i :: 0 <= i < |ps| ==> ks[i] == Key(ps[i])
  {
    seq(|ps|, i requires 0 <= i < |ps| => Key(ps[i]))
  }

  /**
   * `getActivePermissions(user)`: the keys whose flag is true, none without a record. The
   * order is that of `Object.entries`, the field order of the received object; the model
   * fixes it at the schema's key order (`AllPermissions`).
   */
  function ActivePermissions(u: ListedUser): seq<string> {
    match u.permissions
    case None => []
    case Some(f) => KeysOf(Filter(AllPermissions, HeldBy(f)))
  }

  /** A key is listed exactly when its permission is. */
  lemma {:induction false} KeysOfMembers(ps: seq<Permission>, p: Permission)
    ensures Key(p) in KeysOf(ps) <==> p in ps
  {
    var ks := KeysOf(ps);
    if Key(p) in ks {
      var i :| 0 <= i < |ks| && ks[i] == Key(p);
      KeyInjective(ps[i], p);
    }
  }

  /** Exactly the keys of the true flags are listed, each a valid key, at most one per permission. */
  lemma ActivePermissionsExactly(u: ListedUser)
    ensures forall p :: Key(p) in ActivePermissions(u) <==> u.permissions.Some? && u.permissions.value.Get(p)
    ensures forall k :: k in ActivePermissions(u) ==> ParsePermission(k).Some?
    ensures |ActivePermissions(u)| <= |AllPermissions|
    ensures u.permissions.Some? ==> IsSubsequence(Filter(AllPermissions, HeldBy(u.permissions.value)), AllPermissions)
  {
    if u.permissions.Some? {
      var f := u.permissions.value;
      var held := Filter(AllPermissions, HeldBy(f));
      var ks := KeysOf(held);
      forall p ensures Key(p) in ks <==> f.Get(p) {
        KeysOfMembers(held, p);
        EnumerationsComplete();
      }
      forall k | k in ks ensures ParsePermission(k).Some? {
        var i :| 0 <= i < |ks| && ks[i] == k;
        ParseKeyRoundTrip(held[i]);
      }
      FilterIsSubsequence(AllPermissions, HeldBy(f));
    }
  }

  lemma KeyInjective(p: Permission, q: Permission)
    requires Key(p) == Key(q)
    ensures p == q
  {
    ParseKeyRoundTrip(p);
    ParseKeyRoundTrip(q);
  }

  /** The badges shown next to a user: the first three permissions, and the number of the others after a '+'. */
  function ShownPermissions(u: ListedUser): seq<string> {
    var ks := ActivePermissions(u);
    if |ks| <= 3 then ks else ks[..3]
  }

  function HiddenCount(u: ListedUser): nat {
    var ks := ActivePermissions(u);
    if |ks| > 3 then |ks| - 3 else 0
  }

  /** The shown badges and the hidden count together account for every granted permission. */
  lemma BadgesAccount(u: ListedUser)
    ensures |ShownPermissions(u)| <= 3
    ensures |ShownPermissions(u)| + HiddenCount(u) == |ActivePermissions(u)|
    ensures ShownPermissions(u) <= ActivePermissions(u)
  {
  }

  /** `charAt(0)`: the first character, or nothing for an empty string. */
  function FirstChar(s: string): string {
    if s == [] then "" else [s[0]]
  }

  /** `getInitials(firstName, lastName)`. */
  function Initials(firstName: string, lastName: string): string {
    ToUpper(FirstChar(firstName) + FirstChar(lastName))
  }

  /** The initials are the upper-cased first letters of the two names, one for each non-empty name. */
  lemma InitialsShape(firstName: string, lastName: string)
    ensures |Initials(firstName, lastName)| == (if firstName == [] then 0 else 1) + (if lastName == [] then 0 else 1)
    ensures firstName != [] && lastName != [] ==> Initials(firstName, lastName) == [UpperChar(firstName[0]), UpperChar(lastName[0])]
  {
  }

  datatype Badge = NotApproved | Deactivated | Active

  /** The badge choice both user views make: not approved wins over deactivated; 'active' only when both hold. */
  function BadgeFor(approved: bool, isActive: bool): (b: Badge)
    ensures b == Active <==> approved && isActive
    ensures b == NotApproved <==> !approved
    ensures b == Deactivated <==> approved && !isActive
  {
    if !approved then NotApproved else if !isActive then Deactivated else Active
  }

  /** `getStatusBadge(user)`. */
  function StatusBadge(u: ListedUser): Badge {
    BadgeFor(u.approved, u.isActive)
  }
}
