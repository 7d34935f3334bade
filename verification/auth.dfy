/** Login, registration and profile of app/routes/auth.py. Password hashes are
  * checked by a function the caller supplies (werkzeug's check is not part of
  * this model), and the clock reading is a parameter. */
module Auth {
  import opened Common
  import opened Records
  import UserModel

  /** How a login attempt ends: logged in with the session's user object, turned
    * away because the account is not active, or refused as invalid. */
  datatype LoginOutcome = LoggedIn(user: UserModel.User) | NotActive(status: Option<string>) | Invalid

  /** The session's user object built from the record: role 'user' and status
    * 'active' stand in for missing keys. */
  function SessionUser(u: User): (s: UserModel.User)
    ensures s.id == u.id && s.username == u.username && s.passwordHash == u.passwordHash && s.email == u.email
    ensures s.role == GetOr(u.role, UserModel.DefaultRole) && s.status == GetOr(u.status, UserModel.DefaultStatus)
  {
    UserModel.NewUser(u.id, u.username, u.passwordHash, u.email, u.displayName,
                      GetOr(u.role, UserModel.DefaultRole), GetOr(u.status, UserModel.DefaultStatus))
  }

  /** The decision of `login`: the first user with the username, then the
    * password check, then the status. */
  function LoginResult(users: seq<User>, username: string, password: string, check: (string, string) -> bool): LoginOutcome
  {
    match UserByName(users, username)
    case None => Invalid
    case Some(k) =>
      if !check(users[k].passwordHash, password) then Invalid
      else if users[k].status != Some("active") then NotActive(users[k].status)
      else LoggedIn(SessionUser(users[k]))
  }

  /** A login succeeds exactly when a user has the name, the first such user's
    * password checks and that user is active; an inactive account is turned
    * away even with the right password. */
  lemma LoginGate(users: seq<User>, username: string, password: string, check: (string, string) -> bool)
    ensures var r := LoginResult(users, username, password, check);
      && (r.LoggedIn? <==> exists k :: 0 <= k < |users| && UserByName(users, username) == Some(k)
                                   && check(users[k].passwordHash, password) && users[k].status == Some("active"))
      && (r.Invalid? <==> forall k :: 0 <= k < |users| && UserByName(users, username) == Some(k)
                                   ==> !check(users[k].passwordHash, password))
      && (r.LoggedIn? ==> r.user.username == username && r.user.status == "active")
      && (r.NotActive? ==> r.status != Some("active"))
  {
    match UserByName(users, username)
    case None =>
    case Some(k) =>
      assert users[k].username == username;
  }

  /** The message shown to an account that is not active. */
  function StatusMessage(status: Option<string>): (m: string)
    ensures m != ""
  {
    if status == Some("pending") then "Your account is pending admin approval."
    else if status == Some("suspended") then "Your account has been suspended."
    else if status == Some("inactive") then "Your account is inactive."
    else "Your account is not active."
  }

  /** The flash of this login for an inactive account: the status (Python's
    * `None` when it is missing) followed by the message. */
  function NotActiveFlash(status: Option<string>): (m: string)
    ensures |m| > |"Account status: "| && m[..|"Account status: "|] == "Account status: "
  {
    "Account status: " + GetOr(status, "None") + " - " + StatusMessage(status)
  }

  /** The record after a login at `now`. */
  function Touched(now: string): User -> User
  {
    (u: User) => u.(stamps := u.stamps["last_login" := now])
  }

  /** login: the outcome above; a successful login records the time on the
    * first user with the logged-in id and changes nothing else. */
  method Login(st: Store, username: string, password: string, check: (string, string) -> bool, now: string)
    returns (r: LoginOutcome)
    modifies st
    ensures r == LoginResult(old(st.users), username, password, check)
    ensures !r.LoggedIn? ==> st.Snapshot() == old(st.Snapshot())
    ensures r.LoggedIn? ==>
      st.Snapshot() == old(st.Snapshot()).(users := SetFirst(old(st.users), Some(r.user.id), Touched(now)))
  {
    r := LoginResult(st.users, username, password, check);
    if r.LoggedIn? {
      var k := FindUser(st.users, Some(r.user.id));
      if k.Some? {
        st.users := st.users[k.value := Touched(now)(st.users[k.value])];
      }
    }
  }

  /** A login only ever adds or refreshes the last-login stamp: every user keeps
    * every other field, and only the first user with the id is touched. */
  lemma LoginTouchesOnlyLastLogin(users: seq<User>, id: int, now: string)
    ensures var r := SetFirst(users, Some(id), Touched(now));
      && |r| == |users|
      && forall i :: 0 <= i < |users| ==>
           r[i].(stamps := users[i].stamps) == users[i]
           && r[i].stamps - {"last_login"} == users[i].stamps - {"last_login"}
           && (r[i] != users[i] ==> users[i].id == id && r[i].stamps["last_login"] == now)
  {
    SetFirstEffect(users, Some(id), Touched(now));
  }

  /** register of this module: the confirmation is checked before the length,
    * and even a valid form only shows a notice. It takes no store, so it adds
    * no user. */
  function Register(password: string, confirm: string): (message: string)
    ensures message == "Passwords do not match" <==> password != confirm
    ensures message == "Password must be at least 6 characters long" <==> password == confirm && |password| < 6
    ensures password == confirm && |password| >= 6 ==>
      message == "Registration feature will be implemented in the next phase."
  {
    if password != confirm then "Passwords do not match"
    else if |password| < 6 then "Password must be at least 6 characters long"
    else "Registration feature will be implemented in the next phase."
  }

  /** What the profile form writes into the user's record. */
  function ProfileEdit(email: string, notifications: bool): User -> User
  {
    (u: User) => u.(email := Some(email), emailNotifications := Some(notifications))
  }

  /** The profile form keeps every other field, and saving it twice is saving it once. */
  lemma ProfileEditKeeps(u: User, email: string, notifications: bool)
    ensures var v := ProfileEdit(email, notifications)(u);
      && v.(email := u.email, emailNotifications := u.emailNotifications) == u
      && v.email == Some(email) && v.emailNotifications == Some(notifications)
      && ProfileEdit(email, notifications)(v) == v
  {
  }

  /** profile GET: the current user's record, if it is still there. */
  function Profile(d: Data, currentId: int): (r: Option<User>)
    ensures r.Some? ==> r.value in d.users && r.value.id == currentId
    ensures r.None? <==> forall i :: 0 <= i < |d.users| ==> d.users[i].id != currentId
  {
    match FindFirst(d.users, HasId(Some(currentId)))
    case None => None
    case Some(k) => Some(d.users[k])
  }

  /** profile POST: the first user with the current user's id takes the e-mail
    * and the notification choice; no other record changes. */
  method UpdateProfile(st: Store, currentId: int, email: string, notifications: bool)
    modifies st
    ensures st.Snapshot() == old(st.Snapshot()).(users := SetFirst(old(st.users), Some(currentId), ProfileEdit(email, notifications)))
  {
    var k := FindUser(st.users, Some(currentId));
    if k.Some? {
      st.users := st.users[k.value := ProfileEdit(email, notifications)(st.users[k.value])];
    }
  }
}

/** The same pages in app_modules/routes/auth.py, where registration creates
  * the account through the user service and the administrator pages are
  * guarded by `can_manage_users`. */
module ModulesAuth {
  import opened Common
  import opened Records
  import UserModel
  import ModuleUsers
  import UserService
  import Auth

  /** This login's flash for an inactive account is the bare message; the rest
    * of its login is `Auth.Login`. */
  function NotActiveFlash(status: Option<string>): (m: string)
    ensures m != "" && m == Auth.StatusMessage(status)
    ensures m != Auth.NotActiveFlash(status)
  {
    var m := Auth.StatusMessage(status);
    assert |Auth.NotActiveFlash(status)| > |m| by {
      assert |Auth.NotActiveFlash(status)| == |"Account status: "| + |GetOr(status, "None")| + |" - "| + |m|;
    }
    m
  }

  /** register: the confirmation, then the length; only a form passing both
    * reaches the user service, which creates a pending account with role 'user'. */
  method Register(st: Store, username: string, email: string, displayName: string, password: string,
                  confirm: string, passwordHash: string, now: string) returns (r: Reply<User>)
    modifies st
    ensures password != confirm ==> r == Fail(200, "Passwords do not match") && st.Snapshot() == old(st.Snapshot())
    ensures password == confirm && |password| < 6 ==>
      r == Fail(200, "Password must be at least 6 characters long") && st.Snapshot() == old(st.Snapshot())
    ensures password == confirm && |password| >= 6 ==>
      && (r.Fail? <==> UserService.Refusal(old(st.users), username, email).Some?)
      && (r.Fail? ==> st.Snapshot() == old(st.Snapshot()))
      && (r.Ok? ==> r.value.username == username && r.value.role == Some("user") && r.value.status == Some("pending")
                    && st.Snapshot() == old(st.Snapshot()).(users := old(st.users) + [r.value]))
  {
    if password != confirm {
      return Fail(200, "Passwords do not match");
    }
    if |password| < 6 {
      return Fail(200, "Password must be at least 6 characters long");
    }
    r := UserService.CreateUser(st, username, email, displayName, passwordHash, "user", "pending", now);
  }

  datatype Page = Page(users: seq<User>, stats: UserService.Stats)

  /** admin_users: a caller who cannot manage users is sent away; otherwise the
    * service's search and its statistics over every user. */
  function AdminUsers(d: Data, caller: UserModel.User, query: string, status: string, role: string): (r: Reply<Page>)
    ensures r.Fail? <==> !ModuleUsers.CanManageUsers(caller)
    ensures r.Ok? ==> r.value.stats == UserService.UserStats(d.users)
    ensures r.Ok? ==> r.value.users == Filter(d.users, UserService.MatchTest(query, status, role))
  {
    if !ModuleUsers.CanManageUsers(caller) then Fail(302, "Access denied. Admin privileges required.")
    else
      UserService.SearchUsersIsOneFilter(d.users, query, status, role);
      Ok(Page(UserService.SearchUsers(d.users, query, status, role), UserService.UserStats(d.users)))
  }

  /** admin_user_stats */
  function AdminUserStats(d: Data, caller: UserModel.User): (r: Reply<UserService.Stats>)
    ensures r.Fail? <==> !ModuleUsers.CanManageUsers(caller)
    ensures r.Ok? ==> r.value.total == |d.users|
  {
    if !ModuleUsers.CanManageUsers(caller) then Fail(200, "Access denied") else Ok(UserService.UserStats(d.users))
  }

  /** admin_update_user_status: denied, with nothing changed, to a caller who
    * cannot manage users; otherwise the service's update, audited under the
    * caller's username. */
  method AdminUpdateStatus(st: Store, caller: UserModel.User, userId: Option<int>, status: Option<string>, now: string)
    returns (r: Reply<User>)
    modifies st
    ensures !ModuleUsers.CanManageUsers(caller) ==> r == Fail(200, "Access denied") && st.Snapshot() == old(st.Snapshot())
    ensures ModuleUsers.CanManageUsers(caller) ==>
      && (r.Fail? <==> FindFirst(old(st.users), HasId(userId)).None?)
      && (r.Fail? ==> st.Snapshot() == old(st.Snapshot()))
      && (r.Ok? ==> st.Snapshot() == old(st.Snapshot()).(users := SetFirst(old(st.users), userId,
                                                        UserService.StatusChanged(status, caller.username, now))))
  {
    if !ModuleUsers.CanManageUsers(caller) {
      return Fail(200, "Access denied");
    }
    r := UserService.UpdateUserStatus(st, userId, status, caller.username, now);
  }

  /** admin_update_user_role: as AdminUpdateStatus, for the role. */
  method AdminUpdateRole(st: Store, caller: UserModel.User, userId: Option<int>, role: Option<string>, now: string)
    returns (r: Reply<User>)
    modifies st
    ensures !ModuleUsers.CanManageUsers(caller) ==> r == Fail(200, "Access denied") && st.Snapshot() == old(st.Snapshot())
    ensures ModuleUsers.CanManageUsers(caller) ==>
      && (r.Fail? <==> FindFirst(old(st.users), HasId(userId)).None?)
      && (r.Fail? ==> st.Snapshot() == old(st.Snapshot()))
      && (r.Ok? ==> st.Snapshot() == old(st.Snapshot()).(users := SetFirst(old(st.users), userId,
                                                        UserService.RoleChanged(role, caller.username, now))))
  {
    if !ModuleUsers.CanManageUsers(caller) {
      return Fail(200, "Access denied");
    }
    r := UserService.UpdateUserRole(st, userId, role, caller.username, now);
  }

  /** admin_bulk_update_users: denied as above; otherwise the service's bulk
    * update, whose reply carries the number of matched ids. */
  method AdminBulkUpdate(st: Store, caller: UserModel.User, ids: seq<int>, action: Option<string>, now: string)
    returns (r: Reply<nat>)
    modifies st
    ensures !ModuleUsers.CanManageUsers(caller) ==> r == Fail(200, "Access denied") && st.Snapshot() == old(st.Snapshot())
    ensures ModuleUsers.CanManageUsers(caller) ==>
      && r == Ok(Count(ids, UserService.Known(old(st.users))))
      && st.Snapshot() == old(st.Snapshot()).(users := UserService.BulkApplied(old(st.users), ids, action, caller.username, now))
  {
    if !ModuleUsers.CanManageUsers(caller) {
      return Fail(200, "Access denied");
    }
    var n := UserService.BulkUpdateUsers(st, ids, action, caller.username, now);
    r := Ok(n);
  }
}
