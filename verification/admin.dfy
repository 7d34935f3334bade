/** The user administration pages of app/routes/admin.py. Every handler first
  * checks that the caller is an administrator. */
module Admin {
  import opened Common
  import opened Records
  import UserModel

  // ------------------------------------------------------------ user list

  /** The query arguments of the user list; an empty string means "no filter". */
  datatype UserFilters = UserFilters(status: string, role: string, search: string)

  function StatusIs(v: string): User -> bool { (u: User) => u.status == Some(v) }
  function RoleIs(v: string): User -> bool { (u: User) => u.role == Some(v) }

  /** The search matches the username or the display name, ignoring case. */
  function NameHas(q: string): User -> bool
  {
    (u: User) => IsSubstring(Lower(q), Lower(u.username)) || IsSubstring(Lower(q), Lower(GetOr(u.displayName, "")))
  }

  /** The three comprehensions in the handler's order. */
  function FilterUsers(users: seq<User>, f: UserFilters): seq<User>
  {
    var byStatus := Narrow(users, f.status != "", StatusIs(f.status));
    var byRole := Narrow(byStatus, f.role != "", RoleIs(f.role));
    Narrow(byRole, f.search != "", NameHas(f.search))
  }

  /** A user passes every filter that was given. */
  predicate Matches(f: UserFilters, u: User)
  {
    && (f.status == "" || u.status == Some(f.status))
    && (f.role == "" || u.role == Some(f.role))
    && (f.search == "" || NameHas(f.search)(u))
  }

  function MatchTest(f: UserFilters): User -> bool { (u: User) => Matches(f, u) }

  function StatusRoleTest(f: UserFilters): User -> bool
  {
    (u: User) => Relaxed(f.status != "", StatusIs(f.status))(u) && Relaxed(f.role != "", RoleIs(f.role))(u)
  }

  /** The list shown is the users, in stored order, that pass every given filter. */
  lemma FilterUsersIsOneFilter(users: seq<User>, f: UserFilters)
    ensures FilterUsers(users, f) == Filter(users, MatchTest(f))
  {
    var byStatus := Narrow(users, f.status != "", StatusIs(f.status));
    var byRole := Narrow(byStatus, f.role != "", RoleIs(f.role));
    NarrowAsFilter(users, f.status != "", StatusIs(f.status));
    NarrowAsFilter(byStatus, f.role != "", RoleIs(f.role));
    FilterFilter(users, Relaxed(f.status != "", StatusIs(f.status)), Relaxed(f.role != "", RoleIs(f.role)),
                 StatusRoleTest(f));
    NarrowAsFilter(byRole, f.search != "", NameHas(f.search));
    FilterFilter(users, StatusRoleTest(f), Relaxed(f.search != "", NameHas(f.search)), MatchTest(f));
  }

  datatype Stats = Stats(total: nat, active: nat, pending: nat, admins: nat)

  function UserStats(users: seq<User>): (s: Stats)
    ensures s.active + s.pending <= s.total && s.admins <= s.total
    ensures s.total == |users|
  {
    CountExclusive(users, StatusIs("active"), StatusIs("pending"), (u: User) => u.status in {Some("active"), Some("pending")});
    Stats(|users|, Count(users, StatusIs("active")), Count(users, StatusIs("pending")), Count(users, RoleIs("admin")))
  }

  datatype Page = Page(users: seq<User>, stats: Stats)

  /** admin_users: a caller who is not an administrator is sent away. The
    * statistics always cover every user, whatever the filters. */
  function AdminUsers(d: Data, caller: UserModel.User, f: UserFilters): (r: Reply<Page>)
    ensures r.Fail? <==> !UserModel.IsAdmin(caller)
    ensures r.Ok? ==> r.value.stats == UserStats(d.users) && |r.value.users| <= |d.users|
  {
    if !UserModel.IsAdmin(caller) then Fail(302, "Access denied. Admin privileges required.")
    else
      FilterUsersIsOneFilter(d.users, f);
      Ok(Page(FilterUsers(d.users, f), UserStats(d.users)))
  }

  // ------------------------------------------------------------ single updates

  function WithStatus(s: Option<string>): User -> User { (u: User) => u.(status := s) }
  function WithRole(s: Option<string>): User -> User { (u: User) => u.(role := s) }

  /** admin_update_user_status: denied to non-administrators; otherwise the
    * first user with the id gets the status, and the reply is a success even
    * when no user has the id. */
  method UpdateStatus(st: Store, caller: UserModel.User, userId: Option<int>, status: Option<string>)
    returns (r: Reply<string>)
    modifies st
    ensures r.Fail? <==> !UserModel.IsAdmin(caller)
    ensures r.Fail? ==> r.error == "Access denied" && st.Snapshot() == old(st.Snapshot())
    ensures r.Ok? ==> st.Snapshot() == old(st.Snapshot()).(users := SetFirst(old(st.users), userId, WithStatus(status)))
  {
    if !UserModel.IsAdmin(caller) {
      return Fail(200, "Access denied");
    }
    var k := FindUser(st.users, userId);
    if k.Some? {
      st.users := st.users[k.value := st.users[k.value].(status := status)];
    }
    r := Ok("updated");
  }

  /** admin_update_user_role: as UpdateStatus, for the role. */
  method UpdateRole(st: Store, caller: UserModel.User, userId: Option<int>, role: Option<string>)
    returns (r: Reply<string>)
    modifies st
    ensures r.Fail? <==> !UserModel.IsAdmin(caller)
    ensures r.Fail? ==> r.error == "Access denied" && st.Snapshot() == old(st.Snapshot())
    ensures r.Ok? ==> st.Snapshot() == old(st.Snapshot()).(users := SetFirst(old(st.users), userId, WithRole(role)))
  {
    if !UserModel.IsAdmin(caller) {
      return Fail(200, "Access denied");
    }
    var k := FindUser(st.users, userId);
    if k.Some? {
      st.users := st.users[k.value := st.users[k.value].(role := role)];
    }
    r := Ok("updated");
  }

  // ------------------------------------------------------------ bulk update

  /** Every user whose id is listed takes the status. */
  function SetStatusOf(users: seq<User>, ids: seq<int>, status: string): (r: seq<User>)
  {
    seq(|users|, i requires 0 <= i < |users| => if users[i].id in ids then users[i].(status := Some(status)) else users[i])
  }

  /** The status a bulk action sets, if it is one the handler knows. */
  function BulkStatus(action: Option<string>): Option<string>
  {
    if action == Some("activate") then Some("active")
    else if action == Some("suspend") then Some("suspended")
    else None
  }

  /** Exactly the listed users take the status; every other field and every other user stay. */
  lemma SetStatusOfEffect(users: seq<User>, ids: seq<int>, status: string)
    ensures |SetStatusOf(users, ids, status)| == |users|
    ensures forall i :: 0 <= i < |users| ==>
      SetStatusOf(users, ids, status)[i].(status := users[i].status) == users[i]
      && (SetStatusOf(users, ids, status)[i].status == Some(status) <==> users[i].id in ids || users[i].status == Some(status))
    ensures SetStatusOf(SetStatusOf(users, ids, status), ids, status) == SetStatusOf(users, ids, status)
  {
  }

  /** admin_bulk_update_users: 'activate' and 'suspend' set the status of the
    * listed users; any other action changes nothing but still succeeds. */
  method BulkUpdate(st: Store, caller: UserModel.User, ids: seq<int>, action: Option<string>)
    returns (r: Reply<string>)
    modifies st
    ensures r.Fail? <==> !UserModel.IsAdmin(caller)
    ensures r.Fail? ==> r.error == "Access denied" && st.Snapshot() == old(st.Snapshot())
    ensures r.Ok? && BulkStatus(action).None? ==> st.Snapshot() == old(st.Snapshot())
    ensures r.Ok? && BulkStatus(action).Some? ==>
      st.Snapshot() == old(st.Snapshot()).(users := SetStatusOf(old(st.users), ids, BulkStatus(action).value))
  {
    if !UserModel.IsAdmin(caller) {
      return Fail(200, "Access denied");
    }
    var status := BulkStatus(action);
    if status.Some? {
      ghost var before := st.users;
      ghost var target := SetStatusOf(before, ids, status.value);
      var i := 0;
      while i < |st.users|
        invariant 0 <= i <= |st.users| == |before| == |target|
        invariant forall k :: 0 <= k < i ==> st.users[k] == target[k]
        invariant forall k :: i <= k < |before| ==> st.users[k] == before[k]
        invariant st.Snapshot() == old(st.Snapshot()).(users := st.users)
      {
        if st.users[i].id in ids {
          st.users := st.users[i := st.users[i].(status := status)];
        }
        i := i + 1;
      }
      assert st.users == target;
    }
    r := Ok("updated");
  }
}
