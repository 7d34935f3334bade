/** The testing copy of the application (testing_env/test_app.py): the seeding
  * that load_data does on top of the local data files, and add_card. The data
  * files are the store the handlers change; password hashes and the clock
  * reading are parameters. Its due-date helpers are the ones of `Helpers`. */
module TestApp {
  import opened Common
  import opened Records
  import AppCards

  // ------------------------------------------------------------ load_data seeding

  function UserId(): User -> int { (u: User) => u.id }

  /** Some user is called 'testuser'. */
  predicate HasTestUser(users: seq<User>)
  {
    exists i :: 0 <= i < |users| && users[i].username == "testuser"
  }

  function DefaultAdmin(passwordHash: string, now: string): User
  {
    User(1, "admin", passwordHash, Some("admin@test.com"), Some("Test Admin"), Some("admin"), Some("active"), None,
         map["created_at" := now])
  }

  function RegularUser(id: int, passwordHash: string, now: string): User
  {
    User(id, "testuser", passwordHash, Some("testuser@test.com"), Some("Test Regular User"), Some("user"), Some("active"),
         None, map["created_at" := now])
  }

  /** The users after the admin step: an admin when there were no users at all. */
  function WithAdmin(users: seq<User>, adminHash: string, now: string): seq<User>
  {
    if users == [] then [DefaultAdmin(adminHash, now)] else users
  }

  /** The users after the testuser step: a regular 'testuser' numbered after the
    * largest id, unless one is there already. */
  function WithRegular(users: seq<User>, testHash: string, now: string): seq<User>
  {
    if HasTestUser(users) then users else users + [RegularUser(NextId(users, UserId()), testHash, now)]
  }

  /** The users load_data hands back. */
  function SeededUsers(users: seq<User>, adminHash: string, testHash: string, now: string): seq<User>
  {
    WithRegular(WithAdmin(users, adminHash, now), testHash, now)
  }

  /** load_data: the two seeding steps, each saved as it happens. */
  method LoadData(st: Store, adminHash: string, testHash: string, now: string)
    modifies st
    ensures st.Snapshot() == old(st.Snapshot()).(users := SeededUsers(old(st.users), adminHash, testHash, now))
  {
    if st.users == [] {
      st.users := st.users + [DefaultAdmin(adminHash, now)];
    }
    if !HasTestUser(st.users) {
      var id := NextId(st.users, UserId());
      st.users := st.users + [RegularUser(id, testHash, now)];
    }
  }

  /** After load_data there is a user, and one of them is 'testuser'. */
  lemma SeededHasTestUser(users: seq<User>, adminHash: string, testHash: string, now: string)
    ensures SeededUsers(users, adminHash, testHash, now) != []
    ensures HasTestUser(SeededUsers(users, adminHash, testHash, now))
  {
    var before := WithAdmin(users, adminHash, now);
    if !HasTestUser(before) {
      assert SeededUsers(users, adminHash, testHash, now)[|before|].username == "testuser";
    }
  }

  /** The loaded users stay in front, untouched; at most the admin and the
    * testuser are added, and only when they are needed. */
  lemma SeededKeepsUsers(users: seq<User>, adminHash: string, testHash: string, now: string)
    ensures SeededUsers(users, adminHash, testHash, now)[..|users|] == users
    ensures |users| <= |SeededUsers(users, adminHash, testHash, now)| <= |users| + 2
    ensures users != [] && HasTestUser(users) ==> SeededUsers(users, adminHash, testHash, now) == users
    ensures users == [] ==> SeededUsers(users, adminHash, testHash, now)
                            == [DefaultAdmin(adminHash, now), RegularUser(2, testHash, now)]
  {
    if users == [] {
      var admin := [DefaultAdmin(adminHash, now)];
      assert !HasTestUser(admin) by {
        assert admin[0].username == "admin";
      }
      assert NextId(admin, UserId()) == 2;
    }
  }

  /** An added testuser is numbered one above the largest existing user id. */
  lemma RegularUserNumbered(users: seq<User>, adminHash: string, testHash: string, now: string)
    requires users != [] && !HasTestUser(users)
    ensures SeededUsers(users, adminHash, testHash, now) == users + [RegularUser(SeededUsers(users, adminHash, testHash, now)[|users|].id, testHash, now)]
    ensures forall i :: 0 <= i < |users| ==> users[i].id < SeededUsers(users, adminHash, testHash, now)[|users|].id
    ensures exists i :: 0 <= i < |users| && users[i].id == SeededUsers(users, adminHash, testHash, now)[|users|].id - 1
  {
    var r := SeededUsers(users, adminHash, testHash, now);
    assert r[|users|] == RegularUser(NextId(users, UserId()), testHash, now);
    forall i | 0 <= i < |users| ensures users[i].id < r[|users|].id {
      assert UserId()(users[i]) < NextId(users, UserId());
    }
    var i :| 0 <= i < |users| && UserId()(users[i]) == NextId(users, UserId()) - 1;
    assert users[i].id == r[|users|].id - 1;
  }

  /** A second load seeds nothing more. */
  lemma SeedingIdempotent(users: seq<User>, adminHash: string, testHash: string, now: string,
                          adminHash': string, testHash': string, now': string)
    ensures SeededUsers(SeededUsers(users, adminHash, testHash, now), adminHash', testHash', now')
         == SeededUsers(users, adminHash, testHash, now)
  {
    SeededHasTestUser(users, adminHash, testHash, now);
  }

  // ------------------------------------------------------------ add_card

  /** add_card of the testing copy: load_data seeds (and saves) the users first;
    * then as in the main application, but the card carries no story_points key,
    * and any failure (here the missing title) is answered with 500 and the
    * error text, with the seeded users already saved. */
  method AddCard(st: Store, req: AppCards.CardRequest, adminHash: string, testHash: string, now: string)
    returns (r: Reply<Card>)
    modifies st
    ensures r.Ok? <==> req.title.Some?
    ensures st.users == SeededUsers(old(st.users), adminHash, testHash, now)
    ensures r.Fail? ==> r.code == 500 && st.Snapshot() == old(st.Snapshot()).(users := st.users)
    ensures r.Ok? ==>
      && (r.value.projectId, r.value.epicId) == AppCards.DeriveParents(old(st.Snapshot()), req.projectId, req.epicId, req.storyId)
      && r.value.storyId == req.storyId && r.value.title == req.title.value
      && r.value.status == GetOr(req.status, "todo") && r.value.priority == GetOr(req.priority, "Medium")
      && r.value.description == Some(GetOr(req.description, "")) && r.value.assignee == Some(GetOr(req.assignee, ""))
      && r.value.dueDate == Some(GetOr(req.dueDate, "")) && r.value.labels == Some(GetOr(req.labels, []))
      && r.value.storyPoints.None? && r.value.sprintIds.None? && r.value.stamps == map["created_at" := now]
      && (forall c :: c in old(st.cards) ==> c.id < r.value.id)
      && (old(st.cards) == [] ==> r.value.id == 1)
      && st.Snapshot() == old(st.Snapshot()).(users := st.users, cards := old(st.cards) + [r.value])
  {
    LoadData(st, adminHash, testHash, now);
    if req.title.None? {
      return Fail(500, "'title'");
    }
    var parents := AppCards.DeriveParents(st.Snapshot(), req.projectId, req.epicId, req.storyId);
    var id := NextId(st.cards, (c: Card) => c.id);
    var card := Card(id, parents.0, parents.1, req.storyId, req.title.value, Some(GetOr(req.description, "")),
                     GetOr(req.status, "todo"), GetOr(req.priority, "Medium"), Some(GetOr(req.assignee, "")),
                     Some(GetOr(req.dueDate, "")), Some(GetOr(req.labels, [])), None, None,
                     map["created_at" := now]);
    st.cards := st.cards + [card];
    r := Ok(card);
  }
}
