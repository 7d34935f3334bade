/** The JSON API blueprint (app/routes/api.py): creating projects, epics,
  * stories and cards, changing a card's status, archiving and restoring a
  * project, storing a project's mind map, the team list and the global search. */
module Api {
  import opened Common
  import opened Records

  // ------------------------------------------------------------ mind map

  function WithMindmap(p: Project, nodes: seq<MapNode>, links: seq<MapLink>, now: string): Project
  {
    p.(mindmapNodes := Some(nodes), mindmapConnections := Some(links),
       stamps := p.stamps["mindmap_updated_at" := now])
  }

  /** save_mindmap: the first project with the id gets the nodes and links;
    * an unknown id changes nothing and still reports success. */
  method SaveMindmap(st: Store, projectId: Option<int>, nodes: Option<seq<MapNode>>, links: Option<seq<MapLink>>,
                     now: string) returns (r: Reply<string>)
    modifies st
    ensures r.Ok?
    ensures var k := FindFirst(old(st.projects), (p: Project) => Some(p.id) == projectId);
      && (k.None? ==> st.Snapshot() == old(st.Snapshot()))
      && (k.Some? ==> st.Snapshot() == old(st.Snapshot()).(projects := old(st.projects)[k.value :=
            WithMindmap(old(st.projects)[k.value], GetOr(nodes, []), GetOr(links, []), now)]))
  {
    var i := 0;
    while i < |st.projects|
      invariant 0 <= i <= |st.projects| && st.Snapshot() == old(st.Snapshot())
      invariant forall j :: 0 <= j < i ==> Some(st.projects[j].id) != projectId
    {
      if Some(st.projects[i].id) == projectId {
        assert FindFirst(st.projects, (p: Project) => Some(p.id) == projectId) == Some(i);
        st.projects := st.projects[i := WithMindmap(st.projects[i], GetOr(nodes, []), GetOr(links, []), now)];
        break;
      }
      i := i + 1;
    }
    r := Ok("saved");
  }

  /** load_mindmap: the stored nodes and links, empty when never saved; an error for an unknown project. */
  function LoadMindmap(d: Data, projectId: int): (r: Reply<(seq<MapNode>, seq<MapLink>)>)
    ensures r.Fail? <==> ProjectById(d.projects, projectId).None?
    ensures r.Ok? ==> var p := d.projects[ProjectById(d.projects, projectId).value];
      r.value == (GetOr(p.mindmapNodes, []), GetOr(p.mindmapConnections, []))
  {
    match ProjectById(d.projects, projectId)
    case None => Fail(200, "Project not found")
    case Some(k) =>
      var p := d.projects[k];
      Ok((GetOr(p.mindmapNodes, []), GetOr(p.mindmapConnections, [])))
  }

  /** What save_mindmap stores, load_mindmap returns. */
  lemma LoadAfterSave(d: Data, projectId: int, nodes: seq<MapNode>, links: seq<MapLink>, now: string)
    requires ProjectById(d.projects, projectId).Some?
    ensures var k := ProjectById(d.projects, projectId).value;
      LoadMindmap(d.(projects := d.projects[k := WithMindmap(d.projects[k], nodes, links, now)]), projectId)
        == Ok((nodes, links))
  {
    var k := ProjectById(d.projects, projectId).value;
    var ps := d.projects[k := WithMindmap(d.projects[k], nodes, links, now)];
    assert forall j :: 0 <= j < |ps| ==> ps[j].id == d.projects[j].id;
    assert ProjectById(ps, projectId) == Some(k);
  }

  // ------------------------------------------------------------ creation

  /** add_project: a name is required; the new project is not archived and has an id above all others. */
  method AddProject(st: Store, name: Option<string>, description: Option<string>, now: string, actor: string)
    returns (r: Reply<Project>)
    modifies st
    ensures r.Ok? <==> TruthyStr(name)
    ensures r.Fail? ==> st.Snapshot() == old(st.Snapshot())
    ensures r.Ok? ==> r.value.name == name.value && r.value.archived == Some(false)
                      && r.value == Project(r.value.id, name.value, Some(GetOr(description, "")), Some(false), None, None, None,
                                            map["created_at" := now, "created_by" := actor])
                      && (forall p :: p in old(st.projects) ==> p.id < r.value.id)
                      && (old(st.projects) == [] ==> r.value.id == 1)
                      && st.Snapshot() == old(st.Snapshot()).(projects := old(st.projects) + [r.value])
  {
    if !TruthyStr(name) {
      return Fail(200, "Project name is required");
    }
    var id := NextId(st.projects, (p: Project) => p.id);
    var project := Project(id, name.value, Some(GetOr(description, "")), Some(false), None, None, None,
                           map["created_at" := now, "created_by" := actor]);
    st.projects := st.projects + [project];
    r := Ok(project);
  }

  /** add_epic: a name and a project id are required; the id is above every epic id. */
  method AddEpic(st: Store, projectId: Option<int>, name: Option<string>, description: Option<string>,
                 now: string, actor: string) returns (r: Reply<Epic>)
    modifies st
    ensures r.Ok? <==> TruthyStr(name) && TruthyInt(projectId)
    ensures r.Fail? ==> st.Snapshot() == old(st.Snapshot())
    ensures r.Ok? ==> r.value.name == name && r.value.projectId == projectId.value
                      && r.value == Epic(r.value.id, projectId.value, name, None, Some(GetOr(description, "")), None, None,
                                         map["created_at" := now, "created_by" := actor])
                      && (forall e :: e in old(st.epics) ==> e.id < r.value.id)
                      && (old(st.epics) == [] ==> r.value.id == 1)
                      && st.Snapshot() == old(st.Snapshot()).(epics := old(st.epics) + [r.value])
  {
    if !TruthyStr(name) || !TruthyInt(projectId) {
      return Fail(200, "Name and project ID are required");
    }
    var id := NextId(st.epics, (e: Epic) => e.id);
    var epic := Epic(id, projectId.value, name, None, Some(GetOr(description, "")), None, None,
                     map["created_at" := now, "created_by" := actor]);
    st.epics := st.epics + [epic];
    r := Ok(epic);
  }

  /** add_story: a name and an existing epic are required; the story inherits the epic's project. */
  method AddStory(st: Store, epicId: Option<int>, name: Option<string>, description: Option<string>,
                  now: string, actor: string) returns (r: Reply<Story>)
    modifies st
    ensures r.Ok? <==> TruthyStr(name) && TruthyInt(epicId) && EpicById(old(st.epics), epicId.value).Some?
    ensures TruthyStr(name) && TruthyInt(epicId) && r.Fail? ==> r.error == "Epic not found"
    ensures r.Fail? ==> st.Snapshot() == old(st.Snapshot())
    ensures r.Ok? ==> r.value.epicId == epicId.value && r.value.name == name
                      && r.value.projectId == old(st.epics)[EpicById(old(st.epics), epicId.value).value].projectId
                      && r.value == Story(r.value.id, epicId.value, r.value.projectId, name, None, Some(GetOr(description, "")),
                                          None, None, map["created_at" := now, "created_by" := actor])
                      && (forall s :: s in old(st.stories) ==> s.id < r.value.id)
                      && st.Snapshot() == old(st.Snapshot()).(stories := old(st.stories) + [r.value])
  {
    if !TruthyStr(name) || !TruthyInt(epicId) {
      return Fail(200, "Name and epic ID are required");
    }
    var k := EpicById(st.epics, epicId.value);
    if k.None? {
      return Fail(200, "Epic not found");
    }
    var id := NextId(st.stories, (s: Story) => s.id);
    var story := Story(id, epicId.value, st.epics[k.value].projectId, name, None, Some(GetOr(description, "")),
                       None, None, map["created_at" := now, "created_by" := actor]);
    st.stories := st.stories + [story];
    r := Ok(story);
  }

  /** add_card: a title is required; the card starts as 'todo', unassigned and with no due date. */
  method AddCard(st: Store, title: Option<string>, description: Option<string>, projectId: Option<int>,
                 epicId: Option<int>, storyId: Option<int>, priority: Option<string>, labels: Option<seq<string>>,
                 now: string, actor: string) returns (r: Reply<Card>)
    modifies st
    ensures r.Ok? <==> TruthyStr(title)
    ensures r.Fail? ==> st.Snapshot() == old(st.Snapshot())
    ensures r.Ok? ==> r.value.status == "todo" && r.value.assignee == Some("") && r.value.dueDate == Some("")
                      && r.value.title == title.value && r.value.priority == GetOr(priority, "Medium")
                      && (r.value.projectId, r.value.epicId, r.value.storyId) == (projectId, epicId, storyId)
                      && r.value.description == Some(GetOr(description, "")) && r.value.labels == Some(GetOr(labels, []))
                      && r.value.storyPoints.None? && r.value.sprintIds.None?
                      && r.value.stamps == map["created_at" := now, "created_by" := actor]
                      && (forall c :: c in old(st.cards) ==> c.id < r.value.id)
                      && st.Snapshot() == old(st.Snapshot()).(cards := old(st.cards) + [r.value])
  {
    if !TruthyStr(title) {
      return Fail(200, "Title is required");
    }
    var id := NextId(st.cards, (c: Card) => c.id);
    var card := Card(id, projectId, epicId, storyId, title.value, Some(GetOr(description, "")), "todo",
                     GetOr(priority, "Medium"), Some(""), Some(""), Some(GetOr(labels, [])), None, None,
                     map["created_at" := now, "created_by" := actor]);
    st.cards := st.cards + [card];
    r := Ok(card);
  }

  /** update_card_status: only the first card with the id changes, and only its status and stamp. */
  method UpdateCardStatus(st: Store, cardId: int, status: string, now: string) returns (r: Reply<string>)
    modifies st
    ensures var k := CardById(old(st.cards), cardId);
      && (r.Fail? <==> k.None?)
      && (r.Fail? ==> r.error == "Card not found" && st.Snapshot() == old(st.Snapshot()))
      && (r.Ok? ==> st.Snapshot() == old(st.Snapshot()).(cards := old(st.cards)[k.value :=
            old(st.cards)[k.value].(status := status, stamps := old(st.cards)[k.value].stamps["updated_at" := now])]))
  {
    var k := CardById(st.cards, cardId);
    if k.None? {
      return Fail(200, "Card not found");
    }
    var c := st.cards[k.value];
    st.cards := st.cards[k.value := c.(status := status, stamps := c.stamps["updated_at" := now])];
    r := Ok("updated");
  }

  // ------------------------------------------------------------ archive

  function Archived(p: Project, now: string, actor: string): Project
  {
    p.(archived := Some(true), stamps := p.stamps["archived_at" := now]["archived_by" := actor])
  }

  function Restored(p: Project, now: string, actor: string): Project
  {
    p.(archived := Some(false), stamps := p.stamps["restored_at" := now]["restored_by" := actor])
  }

  /** Archiving hides a project from the active list, restoring brings it back,
    * and neither touches anything but the flag and the stamps. */
  lemma ArchiveRestore(p: Project, now: string, actor: string)
    ensures IsArchived(Archived(p, now, actor)) && !IsArchived(Restored(p, now, actor))
    ensures Restored(Archived(p, now, actor), now, actor).(stamps := p.stamps) == p.(archived := Some(false))
  {
  }

  /** archive_project: the first project with the id is archived; otherwise an error and no change. */
  method ArchiveProject(st: Store, projectId: Option<int>, now: string, actor: string) returns (r: Reply<string>)
    modifies st
    ensures var k := FindFirst(old(st.projects), (p: Project) => Some(p.id) == projectId);
      && (r.Fail? <==> k.None?)
      && (r.Fail? ==> r.error == "Project not found" && st.Snapshot() == old(st.Snapshot()))
      && (r.Ok? ==> st.Snapshot() == old(st.Snapshot()).(projects := old(st.projects)[k.value :=
            Archived(old(st.projects)[k.value], now, actor)]))
  {
    var k := FindFirst(st.projects, (p: Project) => Some(p.id) == projectId);
    if k.None? {
      return Fail(200, "Project not found");
    }
    st.projects := st.projects[k.value := Archived(st.projects[k.value], now, actor)];
    r := Ok("archived");
  }

  /** restore_project: the first project with the id is restored; otherwise an error and no change. */
  method RestoreProject(st: Store, projectId: Option<int>, now: string, actor: string) returns (r: Reply<string>)
    modifies st
    ensures var k := FindFirst(old(st.projects), (p: Project) => Some(p.id) == projectId);
      && (r.Fail? <==> k.None?)
      && (r.Fail? ==> r.error == "Project not found" && st.Snapshot() == old(st.Snapshot()))
      && (r.Ok? ==> st.Snapshot() == old(st.Snapshot()).(projects := old(st.projects)[k.value :=
            Restored(old(st.projects)[k.value], now, actor)]))
  {
    var k := FindFirst(st.projects, (p: Project) => Some(p.id) == projectId);
    if k.None? {
      return Fail(200, "Project not found");
    }
    st.projects := st.projects[k.value := Restored(st.projects[k.value], now, actor)];
    r := Ok("restored");
  }

  // ------------------------------------------------------------ team

  datatype Member = Member(id: int, username: string, displayName: string)

  function MemberOf(u: User): Member
  {
    Member(u.id, u.username, GetOr(u.displayName, u.username))
  }

  /** The member is shown for an active user. */
  predicate ActiveMember(users: seq<User>, m: Member)
  {
    exists j :: 0 <= j < |users| && users[j].status == Some("active") && m == MemberOf(users[j])
  }

  /** get_team_members: the active users, with the display name falling back to the username. */
  function TeamMembers(users: seq<User>): (r: seq<Member>)
    ensures |r| <= |users|
    ensures forall i :: 0 <= i < |r| ==> ActiveMember(users, r[i])
    ensures forall j :: 0 <= j < |users| && users[j].status == Some("active") ==> MemberOf(users[j]) in r
  {
    if users == [] then []
    else
      var rest := TeamMembers(users[1..]);
      assert forall j :: 0 < j < |users| ==> users[j] == users[1..][j - 1];
      assert forall i :: 0 <= i < |rest| ==> ActiveMember(users, rest[i]) by {
        forall i | 0 <= i < |rest| ensures ActiveMember(users, rest[i]) {
          var j :| 0 <= j < |users[1..]| && users[1..][j].status == Some("active") && rest[i] == MemberOf(users[1..][j]);
          assert users[j + 1] == users[1..][j];
        }
      }
      if users[0].status == Some("active") then [MemberOf(users[0])] + rest else rest
  }

  // ------------------------------------------------------------ search

  /** One search result: the record's kind, id, title and the first 100 characters of its description. */
  datatype Hit = Hit(kind: string, id: int, title: string, description: string)

  predicate CardMatches(q: string, c: Card)
  {
    IsSubstring(q, Lower(c.title)) || IsSubstring(q, Lower(GetOr(c.description, "")))
  }

  predicate EpicMatches(q: string, e: Epic)
  {
    IsSubstring(q, Lower(GetOr(e.name, ""))) || IsSubstring(q, Lower(GetOr(e.description, "")))
  }

  predicate StoryMatches(q: string, s: Story)
  {
    IsSubstring(q, Lower(GetOr(s.name, ""))) || IsSubstring(q, Lower(GetOr(s.description, "")))
  }

  function CardHit(c: Card): Hit { Hit("card", c.id, c.title, Take(GetOr(c.description, ""), 100)) }
  function EpicHit(e: Epic): Hit { Hit("epic", e.id, GetOr(e.name, ""), Take(GetOr(e.description, ""), 100)) }
  function StoryHit(s: Story): Hit { Hit("story", s.id, GetOr(s.name, ""), Take(GetOr(s.description, ""), 100)) }

  /** The hits of one loop: a result for every element that passes, in order. */
  function Collect<T>(s: seq<T>, keep: T -> bool, hit: T -> Hit): seq<Hit>
  {
    if s == [] then []
    else
      var rest := Collect(s[..|s| - 1], keep, hit);
      if keep(s[|s| - 1]) then rest + [hit(s[|s| - 1])] else rest
  }

  /** `h` is the hit of some element of `s` that passes `keep`. */
  predicate HitOf<T>(s: seq<T>, keep: T -> bool, hit: T -> Hit, h: Hit)
  {
    exists j :: 0 <= j < |s| && keep(s[j]) && h == hit(s[j])
  }

  /** Collect keeps exactly the hits of the passing elements. */
  lemma {:induction false} CollectProperties<T>(s: seq<T>, keep: T -> bool, hit: T -> Hit)
    ensures |Collect(s, keep, hit)| <= |s|
    ensures forall i :: 0 <= i < |Collect(s, keep, hit)| ==> HitOf(s, keep, hit, Collect(s, keep, hit)[i])
    ensures forall j :: 0 <= j < |s| && keep(s[j]) ==> hit(s[j]) in Collect(s, keep, hit)
  {
    if s != [] {
      var init := s[..|s| - 1];
      var r := Collect(s, keep, hit);
      var rest := Collect(init, keep, hit);
      CollectProperties(init, keep, hit);
      forall i | 0 <= i < |r| ensures HitOf(s, keep, hit, r[i]) {
        if i < |rest| {
          assert HitOf(init, keep, hit, rest[i]);
          var j :| 0 <= j < |init| && keep(init[j]) && rest[i] == hit(init[j]);
          assert init[j] == s[j] && r[i] == rest[i];
        } else {
          assert r[i] == hit(s[|s| - 1]);
        }
      }
      forall j | 0 <= j < |s| && keep(s[j]) ensures hit(s[j]) in r {
        if j < |init| {
          assert init[j] == s[j];
        }
      }
    }
  }

  function CardTest(q: string): Card -> bool { (c: Card) => CardMatches(q, c) }
  function EpicTest(q: string): Epic -> bool { (e: Epic) => EpicMatches(q, e) }
  function StoryTest(q: string): Story -> bool { (s: Story) => StoryMatches(q, s) }
  function CardUnnamed(): Card -> bool { (c: Card) => false }
  function EpicUnnamed(): Epic -> bool { (e: Epic) => e.name.None? }
  function StoryUnnamed(): Story -> bool { (s: Story) => s.name.None? }

  /** The intended results for a (lower-cased, non-empty) query: cards, then epics, then stories. */
  function Results(d: Data, q: string): seq<Hit>
  {
    Collect(d.cards, CardTest(q), CardHit) + Collect(d.epics, EpicTest(q), EpicHit)
      + Collect(d.stories, StoryTest(q), StoryHit)
  }

  /** Some element passes the test and yet makes the handler raise. */
  predicate Raises<T>(s: seq<T>, keep: T -> bool, bad: T -> bool)
  {
    exists j :: 0 <= j < |s| && keep(s[j]) && bad(s[j])
  }

  /** An epic or story that matches through its description but has no `name` key. */
  predicate Nameless(d: Data, q: string)
  {
    Raises(d.epics, EpicTest(q), EpicUnnamed()) || Raises(d.stories, StoryTest(q), StoryUnnamed())
  }

  /** search as written: `epic['name']` and `story['name']` raise KeyError for a
    * matching record without a name, and the handler then reports a failure. */
  function SearchAsWritten(d: Data, query: string): Reply<seq<Hit>>
  {
    var q := Lower(query);
    if q == "" then Ok([])
    else if Nameless(d, q) then Fail(200, "'name'")
    else Ok(Results(d, q))
  }

  /** One pass of the search loop: append the hit of every passing element,
    * stopping at the first passing element that raises. */
  method Pass<T>(s: seq<T>, keep: T -> bool, bad: T -> bool, hit: T -> Hit) returns (hits: seq<Hit>, raised: bool)
    ensures raised <==> Raises(s, keep, bad)
    ensures !raised ==> hits == Collect(s, keep, hit)
  {
    hits := [];
    var i := 0;
    while i < |s|
      invariant 0 <= i <= |s|
      invariant hits == Collect(s[..i], keep, hit)
      invariant forall j :: 0 <= j < i ==> !(keep(s[j]) && bad(s[j]))
    {
      assert s[..i + 1][..i] == s[..i];
      if keep(s[i]) {
        if bad(s[i]) {
          return hits, true;
        }
        hits := hits + [hit(s[i])];
      }
      i := i + 1;
    }
    assert s[..i] == s;
    raised := false;
  }

  /** The search handler: three passes, cards then epics then stories. */
  method Search(d: Data, query: string) returns (r: Reply<seq<Hit>>)
    ensures r == SearchAsWritten(d, query)
  {
    var q := Lower(query);
    if q == "" {
      return Ok([]);
    }
    var cardHits, _ := Pass(d.cards, CardTest(q), CardUnnamed(), CardHit);
    var epicHits, epicRaised := Pass(d.epics, EpicTest(q), EpicUnnamed(), EpicHit);
    if epicRaised {
      return Fail(200, "'name'");
    }
    var storyHits, storyRaised := Pass(d.stories, StoryTest(q), StoryUnnamed(), StoryHit);
    if storyRaised {
      return Fail(200, "'name'");
    }
    r := Ok(cardHits + epicHits + storyHits);
  }

  function Rank(kind: string): int
  {
    if kind == "card" then 0 else if kind == "epic" then 1 else 2
  }

  /** Descriptions are cut to 100 characters, and cards come before epics before stories. */
  lemma ResultsOrdered(d: Data, q: string)
    ensures var r := Results(d, q);
      && (forall i :: 0 <= i < |r| ==> |r[i].description| <= 100)
      && (forall i, j :: 0 <= i < j < |r| ==> Rank(r[i].kind) <= Rank(r[j].kind))
  {
    var a := Collect(d.cards, CardTest(q), CardHit);
    var b := Collect(d.epics, EpicTest(q), EpicHit);
    var c := Collect(d.stories, StoryTest(q), StoryHit);
    CollectProperties(d.cards, CardTest(q), CardHit);
    CollectProperties(d.epics, EpicTest(q), EpicHit);
    CollectProperties(d.stories, StoryTest(q), StoryHit);
    assert forall i :: 0 <= i < |a| ==> a[i].kind == "card" && |a[i].description| <= 100;
    assert forall i :: 0 <= i < |b| ==> b[i].kind == "epic" && |b[i].description| <= 100;
    assert forall i :: 0 <= i < |c| ==> c[i].kind == "story" && |c[i].description| <= 100;
    OrderedThree(a, b, c);
  }

  /** Card hits, then epic hits, then story hits, each with a short description. */
  lemma OrderedThree(a: seq<Hit>, b: seq<Hit>, c: seq<Hit>)
    requires forall i :: 0 <= i < |a| ==> a[i].kind == "card" && |a[i].description| <= 100
    requires forall i :: 0 <= i < |b| ==> b[i].kind == "epic" && |b[i].description| <= 100
    requires forall i :: 0 <= i < |c| ==> c[i].kind == "story" && |c[i].description| <= 100
    ensures var r := a + b + c;
      && (forall i :: 0 <= i < |r| ==> |r[i].description| <= 100)
      && (forall i, j :: 0 <= i < j < |r| ==> Rank(r[i].kind) <= Rank(r[j].kind))
  {
    var r := a + b + c;
    assert forall i :: 0 <= i < |r| ==>
      Rank(r[i].kind) == (if i < |a| then 0 else if i < |a| + |b| then 1 else 2) && |r[i].description| <= 100;
  }

  /** Every hit comes from a record that contains the query in its name or
    * title or description, and every such record is found. */
  lemma ResultsExact(d: Data, q: string)
    ensures var r := Results(d, q);
      && (forall i :: 0 <= i < |r| ==>
            HitOf(d.cards, CardTest(q), CardHit, r[i]) || HitOf(d.epics, EpicTest(q), EpicHit, r[i])
            || HitOf(d.stories, StoryTest(q), StoryHit, r[i]))
      && (forall j :: 0 <= j < |d.cards| && CardMatches(q, d.cards[j]) ==> CardHit(d.cards[j]) in r)
      && (forall j :: 0 <= j < |d.epics| && EpicMatches(q, d.epics[j]) ==> EpicHit(d.epics[j]) in r)
      && (forall j :: 0 <= j < |d.stories| && StoryMatches(q, d.stories[j]) ==> StoryHit(d.stories[j]) in r)
  {
    ResultsSound(d, q);
    ResultsComplete(d, q);
  }

  lemma ResultsSound(d: Data, q: string)
    ensures var r := Results(d, q);
      forall i :: 0 <= i < |r| ==>
        HitOf(d.cards, CardTest(q), CardHit, r[i]) || HitOf(d.epics, EpicTest(q), EpicHit, r[i])
        || HitOf(d.stories, StoryTest(q), StoryHit, r[i])
  {
    var a := Collect(d.cards, CardTest(q), CardHit);
    var b := Collect(d.epics, EpicTest(q), EpicHit);
    var c := Collect(d.stories, StoryTest(q), StoryHit);
    CollectProperties(d.cards, CardTest(q), CardHit);
    CollectProperties(d.epics, EpicTest(q), EpicHit);
    CollectProperties(d.stories, StoryTest(q), StoryHit);
    SoundThree(a, b, c, h => HitOf(d.cards, CardTest(q), CardHit, h), h => HitOf(d.epics, EpicTest(q), EpicHit, h),
               h => HitOf(d.stories, StoryTest(q), StoryHit, h));
  }

  /** Every element of three lists joined satisfies the test of the list it came from. */
  lemma SoundThree(a: seq<Hit>, b: seq<Hit>, c: seq<Hit>, pa: Hit -> bool, pb: Hit -> bool, pc: Hit -> bool)
    requires forall i :: 0 <= i < |a| ==> pa(a[i])
    requires forall i :: 0 <= i < |b| ==> pb(b[i])
    requires forall i :: 0 <= i < |c| ==> pc(c[i])
    ensures forall i :: 0 <= i < |a + b + c| ==> pa((a + b + c)[i]) || pb((a + b + c)[i]) || pc((a + b + c)[i])
  {
    var r := a + b + c;
    forall i | 0 <= i < |r| ensures pa(r[i]) || pb(r[i]) || pc(r[i]) {
      if i < |a| {
        assert r[i] == a[i];
      } else if i < |a| + |b| {
        assert r[i] == b[i - |a|];
      } else {
        assert r[i] == c[i - |a| - |b|];
      }
    }
  }

  lemma ResultsComplete(d: Data, q: string)
    ensures var r := Results(d, q);
      && (forall j :: 0 <= j < |d.cards| && CardMatches(q, d.cards[j]) ==> CardHit(d.cards[j]) in r)
      && (forall j :: 0 <= j < |d.epics| && EpicMatches(q, d.epics[j]) ==> EpicHit(d.epics[j]) in r)
      && (forall j :: 0 <= j < |d.stories| && StoryMatches(q, d.stories[j]) ==> StoryHit(d.stories[j]) in r)
  {
    var a := Collect(d.cards, CardTest(q), CardHit);
    var b := Collect(d.epics, EpicTest(q), EpicHit);
    var c := Collect(d.stories, StoryTest(q), StoryHit);
    CollectProperties(d.cards, CardTest(q), CardHit);
    CollectProperties(d.epics, EpicTest(q), EpicHit);
    CollectProperties(d.stories, StoryTest(q), StoryHit);
    InThree(a, b, c);
  }

  /** An element of any of three lists is in their concatenation. */
  lemma InThree(a: seq<Hit>, b: seq<Hit>, c: seq<Hit>)
    ensures forall h :: h in a || h in b || h in c ==> h in a + b + c
  {
    forall h | h in a || h in b || h in c ensures h in a + b + c {
      if h in a {
        var k :| 0 <= k < |a| && a[k] == h;
        assert (a + b + c)[k] == h;
      } else if h in b {
        var k :| 0 <= k < |b| && b[k] == h;
        assert (a + b + c)[|a| + k] == h;
      } else {
        var k :| 0 <= k < |c| && c[k] == h;
        assert (a + b + c)[|a| + |b| + k] == h;
      }
    }
  }

  /** Where no matching epic or story lacks a name, the handler returns the intended results. */
  lemma AsWrittenAgrees(d: Data, query: string)
    requires Lower(query) != "" && !Nameless(d, Lower(query))
    ensures SearchAsWritten(d, query) == Ok(Results(d, Lower(query)))
  {
  }

  /** ... but one epic written with a title and no name, whose description
    * contains the query, makes the whole search fail. */
  lemma NamelessEpicBreaksSearch()
    ensures var e := Epic(1, 1, None, Some("x"), Some("x"), None, None, map[]);
      var d := Data([], [], [e], [], [], [], [], []);
      SearchAsWritten(d, "x").Fail? && Results(d, "x") == [Hit("epic", 1, "", "x")]
  {
    var e := Epic(1, 1, None, Some("x"), Some("x"), None, None, map[]);
    var d := Data([], [], [e], [], [], [], [], []);
    assert Lower("x") == "x";
    assert OccursAt("x", "x", 0);
    assert EpicMatches("x", e);
    assert d.epics[0] == e && EpicTest("x")(e) && EpicUnnamed()(e);
    assert Raises(d.epics, EpicTest("x"), EpicUnnamed());
    assert Collect(d.epics, EpicTest("x"), EpicHit) == [EpicHit(e)];
  }
}
