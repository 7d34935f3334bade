/** `UserService` of app_modules/services/user_service.py: account creation,
  * status and role changes, bulk actions, counts and search over the users of
  * the loaded data file. The e-mails it sends are not part of this model. */
module UserService {
  import opened Common
  import opened Records

  // ------------------------------------------------------------ create_user

  /** The reason create_user refuses an account, checked in this order. */
  function Refusal(users: seq<User>, username: string, email: string): Option<string>
  {
    if exists i :: 0 <= i < |users| && users[i].username == username then Some("Username already exists")
    else if exists i :: 0 <= i < |users| && users[i].email == Some(email) then Some("Email already exists")
    else None
  }

  /** `max([int(u['id']) for u in users if str(u['id']).isdigit()], default=0) + 1`:
    * negative ids are not digit strings and are skipped. */
  function NewUserId(users: seq<User>): (r: int)
    ensures r >= 1
    ensures forall i :: 0 <= i < |users| ==> users[i].id < r
  {
    if users == [] then 1
    else
      var rest := NewUserId(users[1..]);
      assert forall i :: 1 <= i < |users| ==> users[i] == users[1..][i - 1];
      if users[0].id >= rest then users[0].id + 1 else rest
  }

  /** create_user: an existing username, then an existing e-mail, is refused
    * with nothing changed; otherwise one user is appended with a fresh id. */
  method CreateUser(st: Store, username: string, email: string, displayName: string, passwordHash: string,
                    role: string, status: string, now: string) returns (r: Reply<User>)
    modifies st
    ensures r.Fail? <==> Refusal(old(st.users), username, email).Some?
    ensures r.Fail? ==> r.error == Refusal(old(st.users), username, email).value && st.Snapshot() == old(st.Snapshot())
    ensures r.Ok? ==> forall i :: 0 <= i < |old(st.users)| ==> old(st.users)[i].id < r.value.id
    ensures r.Ok? ==> r.value == User(r.value.id, username, passwordHash, Some(email), Some(displayName), Some(role),
                                      Some(status), None, map["created_at" := now])
    ensures r.Ok? ==> st.Snapshot() == old(st.Snapshot()).(users := old(st.users) + [r.value])
  {
    var refusal := Refusal(st.users, username, email);
    if refusal.Some? {
      return Fail(200, refusal.value);
    }
    var user := User(NewUserId(st.users), username, passwordHash, Some(email), Some(displayName), Some(role),
                     Some(status), None, map["created_at" := now]);
    st.users := st.users + [user];
    r := Ok(user);
  }

  /** A created account is new: its username and e-mail belonged to no user before. */
  lemma CreatedIsNew(users: seq<User>, username: string, email: string)
    requires Refusal(users, username, email).None?
    ensures forall i :: 0 <= i < |users| ==> users[i].username != username && users[i].email != Some(email)
  {
  }

  // ------------------------------------------------------------ status and role

  /** The user after an administrator changed its status. */
  function StatusChanged(status: Option<string>, admin: string, now: string): User -> User
  {
    (u: User) => u.(status := status, stamps := u.stamps["status_updated_at" := now]["status_updated_by" := admin])
  }

  function RoleChanged(role: Option<string>, admin: string, now: string): User -> User
  {
    (u: User) => u.(role := role, stamps := u.stamps["role_updated_at" := now]["role_updated_by" := admin])
  }

  /** update_user_status: "User not found" without a user of that id; otherwise
    * the first such user takes the status and the audit stamps. */
  method UpdateUserStatus(st: Store, userId: Option<int>, status: Option<string>, admin: string, now: string)
    returns (r: Reply<User>)
    modifies st
    ensures var k := FindFirst(old(st.users), HasId(userId));
      && (r.Fail? <==> k.None?)
      && (r.Fail? ==> r.error == "User not found" && st.Snapshot() == old(st.Snapshot()))
      && (r.Ok? ==>
            r.value == StatusChanged(status, admin, now)(old(st.users)[k.value])
            && st.Snapshot() == old(st.Snapshot()).(users := SetFirst(old(st.users), userId, StatusChanged(status, admin, now))))
  {
    var k := FindUser(st.users, userId);
    if k.None? {
      return Fail(200, "User not found");
    }
    var user := StatusChanged(status, admin, now)(st.users[k.value]);
    st.users := st.users[k.value := user];
    r := Ok(user);
  }

  /** update_user_role: as UpdateUserStatus, for the role. */
  method UpdateUserRole(st: Store, userId: Option<int>, role: Option<string>, admin: string, now: string)
    returns (r: Reply<User>)
    modifies st
    ensures var k := FindFirst(old(st.users), HasId(userId));
      && (r.Fail? <==> k.None?)
      && (r.Fail? ==> r.error == "User not found" && st.Snapshot() == old(st.Snapshot()))
      && (r.Ok? ==>
            r.value == RoleChanged(role, admin, now)(old(st.users)[k.value])
            && st.Snapshot() == old(st.Snapshot()).(users := SetFirst(old(st.users), userId, RoleChanged(role, admin, now))))
  {
    var k := FindUser(st.users, userId);
    if k.None? {
      return Fail(200, "User not found");
    }
    var user := RoleChanged(role, admin, now)(st.users[k.value]);
    st.users := st.users[k.value := user];
    r := Ok(user);
  }

  /** Status changes keep everything but the status and the stamps. */
  lemma ChangesKeepIdentity(u: User, s: Option<string>, admin: string, now: string)
    ensures StatusChanged(s, admin, now)(u).(status := u.status, stamps := u.stamps) == u
    ensures RoleChanged(s, admin, now)(u).(role := u.role, stamps := u.stamps) == u
    ensures StatusChanged(s, admin, now)(u).status == s && RoleChanged(s, admin, now)(u).role == s
  {
  }

  // ------------------------------------------------------------ bulk_update_users

  /** The status an action sets; None for an action the service does not know. */
  function ActionStatus(action: Option<string>): Option<string>
  {
    if action == Some("approve") then Some("active")
    else if action == Some("reject") then Some("inactive")
    else if action == Some("suspend") then Some("suspended")
    else None
  }

  /** What one matched entry does: the status changes for a known action, the stamps always. */
  function BulkStep(action: Option<string>, admin: string, now: string): User -> User
  {
    (u: User) => u.(status := if ActionStatus(action).Some? then ActionStatus(action) else u.status,
                    stamps := u.stamps["status_updated_at" := now]["status_updated_by" := admin])
  }

  /** The users after the loop has handled every listed id, in order. */
  function BulkApplied(users: seq<User>, ids: seq<int>, action: Option<string>, admin: string, now: string): seq<User>
  {
    if ids == [] then users
    else SetFirst(BulkApplied(users, ids[..|ids| - 1], action, admin, now), Some(ids[|ids| - 1]), BulkStep(action, admin, now))
  }

  /** The bulk update keeps the list's length and every user's id and username. */
  lemma {:induction false} BulkKeepsIds(users: seq<User>, ids: seq<int>, action: Option<string>, admin: string, now: string)
    ensures var r := BulkApplied(users, ids, action, admin, now);
      |r| == |users| && forall i :: 0 <= i < |r| ==> r[i].id == users[i].id && r[i].username == users[i].username
  {
    if ids != [] {
      var before := BulkApplied(users, ids[..|ids| - 1], action, admin, now);
      BulkKeepsIds(users, ids[..|ids| - 1], action, admin, now);
      SetFirstEffect(before, Some(ids[|ids| - 1]), BulkStep(action, admin, now));
    }
  }

  predicate HasUser(users: seq<User>, id: int)
  {
    exists i :: 0 <= i < |users| && users[i].id == id
  }

  function Known(users: seq<User>): int -> bool { (id: int) => HasUser(users, id) }

  /** The loop of bulk_update_users over the user list: every listed id that
    * names a user changes the first user with it; the count is the number of
    * listed ids that named a user (an id listed twice counts twice). */
  method BulkPass(users: seq<User>, ids: seq<int>, action: Option<string>, admin: string, now: string)
    returns (result: seq<User>, updated: nat)
    ensures result == BulkApplied(users, ids, action, admin, now)
    ensures updated == Count(ids, Known(users)) && updated <= |ids|
  {
    result := users;
    updated := 0;
    var j := 0;
    while j < |ids|
      invariant 0 <= j <= |ids|
      invariant result == BulkApplied(users, ids[..j], action, admin, now)
      invariant updated == Count(ids[..j], Known(users))
    {
      var k := FindUser(result, Some(ids[j]));
      BulkNext(users, ids, j, action, admin, now, k);
      if k.Some? {
        result := result[k.value := BulkStep(action, admin, now)(result[k.value])];
        updated := updated + 1;
      }
      j := j + 1;
    }
    assert ids[..j] == ids;
  }

  /** bulk_update_users: the pass above, saved. */
  method BulkUpdateUsers(st: Store, ids: seq<int>, action: Option<string>, admin: string, now: string)
    returns (updated: nat)
    modifies st
    ensures updated == Count(ids, Known(old(st.users)))
    ensures st.Snapshot() == old(st.Snapshot()).(users := BulkApplied(old(st.users), ids, action, admin, now))
  {
    var users;
    users, updated := BulkPass(st.users, ids, action, admin, now);
    st.users := users;
  }

  /** Lists with the same ids: the lookup in one finds the id exactly when the other holds it. */
  lemma FoundIffKnown(users: seq<User>, changed: seq<User>, id: int)
    requires |changed| == |users|
    requires forall i :: 0 <= i < |users| ==> changed[i].id == users[i].id
    ensures FindFirst(changed, HasId(Some(id))).Some? <==> HasUser(users, id)
  {
    if HasUser(users, id) {
      var i :| 0 <= i < |users| && users[i].id == id;
      assert Some(changed[i].id) == Some(id);
    }
  }

  /** One more turn of the bulk loop: the next id changes the user the lookup
    * found, and counts when it names one of the original users. */
  lemma BulkNext(users: seq<User>, ids: seq<int>, j: int, action: Option<string>, admin: string, now: string,
                 k: Option<nat>)
    requires 0 <= j < |ids|
    requires k == FindFirst(BulkApplied(users, ids[..j], action, admin, now), HasId(Some(ids[j])))
    ensures var before := BulkApplied(users, ids[..j], action, admin, now);
      BulkApplied(users, ids[..j + 1], action, admin, now)
        == if k.Some? then before[k.value := BulkStep(action, admin, now)(before[k.value])] else before
    ensures Count(ids[..j + 1], Known(users)) == Count(ids[..j], Known(users)) + if k.Some? then 1 else 0
  {
    assert ids[..j + 1][..j] == ids[..j];
    assert ids[..j + 1] == ids[..j] + [ids[j]];
    FilterAppend(ids[..j], [ids[j]], Known(users));
    var before := BulkApplied(users, ids[..j], action, admin, now);
    BulkKeepsIds(users, ids[..j], action, admin, now);
    FoundIffKnown(users, before, ids[j]);
  }

  /** With a known action, after the bulk update a user carries the action's
    * status if it is the first user with one of the listed ids, and its old
    * status otherwise. */
  lemma {:induction false} BulkEffect(users: seq<User>, ids: seq<int>, action: Option<string>, admin: string, now: string)
    requires ActionStatus(action).Some?
    ensures var r := BulkApplied(users, ids, action, admin, now);
      |r| == |users| &&
      forall i :: 0 <= i < |users| ==>
        r[i].status == if FirstHolder(users, i) && users[i].id in ids then ActionStatus(action) else users[i].status
  {
    BulkKeepsIds(users, ids, action, admin, now);
    if ids != [] {
      var init := ids[..|ids| - 1];
      var before := BulkApplied(users, init, action, admin, now);
      BulkEffect(users, init, action, admin, now);
      BulkKeepsIds(users, init, action, admin, now);
      var id := ids[|ids| - 1];
      SetFirstEffect(before, Some(id), BulkStep(action, admin, now));
      forall i | 0 <= i < |users|
        ensures FindFirst(before, HasId(Some(id))) == Some(i) <==> FirstHolder(users, i) && users[i].id == id
      {
        SameFirst(users, before, id, i);
      }
      assert forall x :: x in ids <==> x in init || x == id;
    }
  }

  /** No earlier user has the same id. */
  predicate FirstHolder(users: seq<User>, i: int)
    requires 0 <= i < |users|
  {
    forall j :: 0 <= j < i ==> users[j].id != users[i].id
  }

  /** Lists with the same ids find the same first holder of an id. */
  lemma SameFirst(a: seq<User>, b: seq<User>, id: int, i: int)
    requires |a| == |b| && 0 <= i < |a|
    requires forall j :: 0 <= j < |a| ==> a[j].id == b[j].id
    ensures FindFirst(b, HasId(Some(id))) == Some(i) <==> FirstHolder(a, i) && a[i].id == id
  {
    var k := FindFirst(b, HasId(Some(id)));
    if FirstHolder(a, i) && a[i].id == id {
      assert Some(b[i].id) == Some(id);
      assert k.Some? && k.value <= i;
      assert a[k.value].id == id;
    }
  }

  // ------------------------------------------------------------ statistics

  datatype Stats = Stats(total: nat, active: nat, pending: nat, suspended: nat, admins: nat, managers: nat, regular: nat)

  function StatusIs(v: string): User -> bool { (u: User) => u.status == Some(v) }
  function RoleIs(v: string): User -> bool { (u: User) => u.role == Some(v) }
  function StatusIn2(a: string, b: string): User -> bool { (u: User) => u.status == Some(a) || u.status == Some(b) }
  function RoleIn2(a: string, b: string): User -> bool { (u: User) => u.role == Some(a) || u.role == Some(b) }

  /** get_user_activity_stats: the status counts and the role counts each add up to at most the total. */
  function UserStats(users: seq<User>): (s: Stats)
    ensures s.total == |users|
    ensures s.active + s.pending + s.suspended <= s.total
    ensures s.admins + s.managers + s.regular <= s.total
  {
    CountExclusive(users, StatusIs("active"), StatusIs("pending"), StatusIn2("active", "pending"));
    CountExclusive(users, StatusIn2("active", "pending"), StatusIs("suspended"),
                   (u: User) => u.status in {Some("active"), Some("pending"), Some("suspended")});
    CountExclusive(users, RoleIs("admin"), RoleIs("manager"), RoleIn2("admin", "manager"));
    CountExclusive(users, RoleIn2("admin", "manager"), RoleIs("user"),
                   (u: User) => u.role in {Some("admin"), Some("manager"), Some("user")});
    Stats(|users|, Count(users, StatusIs("active")), Count(users, StatusIs("pending")), Count(users, StatusIs("suspended")),
          Count(users, RoleIs("admin")), Count(users, RoleIs("manager")), Count(users, RoleIs("user")))
  }

  /** get_pending_users */
  function PendingUsers(users: seq<User>): (r: seq<User>)
    ensures forall i :: 0 <= i < |r| ==> r[i] in users && r[i].status == Some("pending")
    ensures forall i :: 0 <= i < |users| && users[i].status == Some("pending") ==> users[i] in r
  {
    Filter(users, StatusIs("pending"))
  }

  // ------------------------------------------------------------ search_users

  /** The query (already lower-cased) in the username, the e-mail or the display name. */
  function TextHas(q: string): User -> bool
  {
    (u: User) => IsSubstring(q, Lower(u.username)) || IsSubstring(q, Lower(GetOr(u.email, "")))
                 || IsSubstring(q, Lower(GetOr(u.displayName, "")))
  }

  /** search_users: the filters in the service's order. */
  function SearchUsers(users: seq<User>, query: string, status: string, role: string): seq<User>
  {
    var byStatus := Narrow(users, status != "", StatusIs(status));
    var byRole := Narrow(byStatus, role != "", RoleIs(role));
    Narrow(byRole, query != "", TextHas(Lower(query)))
  }

  predicate Matches(query: string, status: string, role: string, u: User)
  {
    && (status == "" || u.status == Some(status))
    && (role == "" || u.role == Some(role))
    && (query == "" || TextHas(Lower(query))(u))
  }

  function MatchTest(query: string, status: string, role: string): User -> bool
  {
    (u: User) => Matches(query, status, role, u)
  }

  function StatusRoleTest(status: string, role: string): User -> bool
  {
    (u: User) => Relaxed(status != "", StatusIs(status))(u) && Relaxed(role != "", RoleIs(role))(u)
  }

  /** The result is the users, in stored order, passing every given filter. */
  lemma SearchUsersIsOneFilter(users: seq<User>, query: string, status: string, role: string)
    ensures SearchUsers(users, query, status, role) == Filter(users, MatchTest(query, status, role))
  {
    var byStatus := Narrow(users, status != "", StatusIs(status));
    var byRole := Narrow(byStatus, role != "", RoleIs(role));
    NarrowAsFilter(users, status != "", StatusIs(status));
    NarrowAsFilter(byStatus, role != "", RoleIs(role));
    FilterFilter(users, Relaxed(status != "", StatusIs(status)), Relaxed(role != "", RoleIs(role)),
                 StatusRoleTest(status, role));
    NarrowAsFilter(byRole, query != "", TextHas(Lower(query)));
    FilterFilter(users, StatusRoleTest(status, role), Relaxed(query != "", TextHas(Lower(query))),
                 MatchTest(query, status, role));
  }
}
