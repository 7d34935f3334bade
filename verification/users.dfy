/** The logged-in user object of app/models/user.py: a record filled once by
  * its constructor and the role and status predicates the routes consult. */
module UserModel {
  import opened Common
  import opened Numerals

  datatype User = User(
    id: int,
    username: string,
    passwordHash: string,
    email: Option<string>,
    displayName: string,
    role: string,
    status: string)

  const DefaultRole := "user"
  const DefaultStatus := "active"

  /** `User(...)`: an empty or missing display name falls back to the username. */
  function NewUser(id: int, username: string, passwordHash: string, email: Option<string>,
                   displayName: Option<string>, role: string, status: string): (u: User)
    ensures displayName.None? ==> u.displayName == username
    ensures displayName.Some? && displayName.value != "" ==> u.displayName == displayName.value
    ensures u.displayName == "" ==> username == ""
    ensures u.id == id && u.username == username && u.role == role && u.status == status
  {
    User(id, username, passwordHash, email, OrElse(displayName, username), role, status)
  }

  /** `get_id`: the decimal text of the id. */
  function GetId(u: User): (r: string)
    ensures ParseInt(r) == Some(u.id)
  {
    IntRoundTrip(u.id);
    IntToString(u.id)
  }

  /** Different users' ids give different texts. */
  lemma GetIdInjective(u: User, v: User)
    requires GetId(u) == GetId(v)
    ensures u.id == v.id
  {
    IntToStringInjective(u.id, v.id);
  }

  predicate HasPermission(u: User, permission: string)
  {
    u.role == "admin"
  }

  predicate IsAdmin(u: User)
  {
    u.role == "admin"
  }

  predicate IsActiveUser(u: User)
  {
    u.status == "active"
  }

  predicate CanManageUsers(u: User)
  {
    u.role == "admin"
  }

  /** Every permission, user management and the admin role go together. */
  lemma AdminPowers(u: User, permission: string)
    ensures HasPermission(u, permission) <==> IsAdmin(u)
    ensures CanManageUsers(u) <==> IsAdmin(u)
    ensures IsActiveUser(u) <==> u.status == "active"
  {
  }
}

/** The user object of app_modules/models/user.py and the JSON-file branch of
  * its `load_data`. The Firestore branch is not part of this model. */
module ModuleUsers {
  import opened Common
  import opened Records
  import UserModel

  predicate IsAdmin(u: UserModel.User)
  {
    u.role == "admin"
  }

  predicate IsManager(u: UserModel.User)
  {
    u.role == "admin" || u.role == "manager"
  }

  predicate CanManageUsers(u: UserModel.User)
  {
    u.role == "admin"
  }

  /** Admins are managers; only admins manage users; a manager who is not an admin has role 'manager'. */
  lemma RoleLadder(u: UserModel.User)
    ensures IsAdmin(u) ==> IsManager(u)
    ensures CanManageUsers(u) <==> IsAdmin(u)
    ensures IsManager(u) && !IsAdmin(u) ==> u.role == "manager"
  {
  }

  /** The keys of data.json this loader looks at; any may be missing. */
  datatype DataFile = DataFile(
    users: Option<seq<Records.User>>,
    projects: Option<seq<Project>>,
    cards: Option<seq<Card>>,
    comments: Option<seq<Comment>>)

  /** The administrator every seeding writes; its password hash is a parameter. */
  function SeedAdmin(adminHash: string): (u: Records.User)
    ensures u.id == 1 && u.username == "admin" && u.role == Some("admin") && u.status == Some("active")
  {
    Records.User(1, "admin", adminHash, Some("admin@pmtool.com"), Some("Administrator"), Some("admin"),
                 Some("active"), None, map["created_at" := "2024-01-01 00:00:00"])
  }

  function SeedCard(id: int, title: string, description: string, status: string, assignee: string,
                    priority: string, created: string, due: string): Card
  {
    Card(id, Some(1), None, None, title, Some(description), status, priority, Some(assignee), Some(due),
         None, None, None, map["created_at" := created])
  }

  /** What the loader returns when there is no data file. */
  function Fallback(adminHash: string): DataFile
  {
    DataFile(
      Some([SeedAdmin(adminHash)]),
      Some([Project(1, "Sample Project", Some("Your first project"), None, None, None, None, map[])]),
      Some([SeedCard(1, "Setup project", "Initial setup", "done", "John", "High", "2024-01-01", "2024-01-15"),
            SeedCard(2, "Design UI", "Create mockups", "in_progress", "Jane", "Medium", "2024-01-02", "2024-12-30"),
            SeedCard(3, "Implement backend", "API development", "todo", "Bob", "High", "2024-01-03", "2024-12-20")]),
      Some([Comment(1, 1, "admin", "Great work on the setup!", map["created_at" := "2024-01-02 10:30:00"]),
            Comment(2, 2, "admin", "Please update the color scheme", map["created_at" := "2024-01-03 14:15:00"])]))
  }

  /** `load_data` on the JSON branch: a file without users gets the one
    * administrator, a file without comments an empty list, and no file the
    * sample data. */
  function LoadData(file: Option<DataFile>, adminHash: string): (r: DataFile)
    ensures r.users.Some? && r.comments.Some?
    ensures file.None? ==> r == Fallback(adminHash)
    ensures file.Some? ==> r.projects == file.value.projects && r.cards == file.value.cards
    ensures file.Some? && file.value.users.None? ==> r.users == Some([SeedAdmin(adminHash)])
    ensures file.Some? && file.value.users.Some? ==> r.users == file.value.users
    ensures file.Some? && file.value.comments.None? ==> r.comments == Some([])
    ensures file.Some? && file.value.comments.Some? ==> r.comments == file.value.comments
  {
    match file
    case None => Fallback(adminHash)
    case Some(f) =>
      var withUsers := if f.users.None? then f.(users := Some([SeedAdmin(adminHash)])) else f;
      if withUsers.comments.None? then withUsers.(comments := Some([])) else withUsers
  }

  /** The sample data has one active administrator with id 1, and every seed
    * comment is on a seed card. */
  lemma FallbackWellFormed(adminHash: string)
    ensures var f := Fallback(adminHash);
      && |f.users.value| == 1 && f.users.value[0].id == 1
      && f.users.value[0].role == Some("admin") && f.users.value[0].status == Some("active")
      && forall i :: 0 <= i < |f.comments.value| ==>
           exists j :: 0 <= j < |f.cards.value| && f.cards.value[j].id == f.comments.value[i].cardId
  {
    var f := Fallback(adminHash);
    assert f.cards.value[0].id == f.comments.value[0].cardId;
    assert f.cards.value[1].id == f.comments.value[1].cardId;
  }
}
