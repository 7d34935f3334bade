/** migrate_to_hierarchical.py: every project without an epic gets a default
  * epic and a default story, and its cards are moved under them. The JSON file
  * is the store the migration changes; the clock reading is a parameter. */
module Migration {
  import opened Common
  import opened Records

  function EpicId(): Epic -> int { (e: Epic) => e.id }
  function StoryId(): Story -> int { (s: Story) => s.id }
  /** The project already has an epic. */
  predicate Planned(epics: seq<Epic>, pid: int)
  {
    exists k :: 0 <= k < |epics| && epics[k].projectId == pid
  }

  /** The projects with the id. */
  function HasId(pid: int): Project -> bool { (p: Project) => p.id == pid }

  /** The first place of a project with the id. */
  function Place(ps: seq<Project>, pid: int): Option<nat>
  {
    FindFirst(ps, HasId(pid))
  }

  /** The place found holds the id, no earlier place does, and there is none
    * exactly when no project has the id. */
  lemma PlaceSpec(ps: seq<Project>, pid: int)
    ensures Place(ps, pid).Some? ==> Place(ps, pid).value < |ps| && ps[Place(ps, pid).value].id == pid
    ensures Place(ps, pid).Some? ==> forall j :: 0 <= j < Place(ps, pid).value ==> ps[j].id != pid
    ensures Place(ps, pid).None? <==> forall j :: 0 <= j < |ps| ==> ps[j].id != pid
  {
    assert forall p: Project :: HasId(pid)(p) == (p.id == pid);
  }

  function Stamps(now: string): Stamps { map["created_at" := now, "created_by" := "migration_script"] }

  function DefaultEpic(id: int, p: Project, now: string): Epic
  {
    Epic(id, p.id, None, Some(p.name + " - Main Epic"), Some("Default epic created during migration for " + p.name),
         Some("active"), None, Stamps(now))
  }

  function DefaultStory(id: int, epicId: int, p: Project, now: string): Story
  {
    Story(id, epicId, p.id, None, Some(p.name + " - Main Story"), Some("Default story created during migration for " + p.name),
          Some("in_progress"), None, Stamps(now))
  }

  /** The card moved under the epic and the story. */
  function Link(c: Card, epicId: int, storyId: int): Card { c.(epicId := Some(epicId), storyId := Some(storyId)) }

  /** The card moved under the epic and the story when it belongs to the project. */
  function Moved(c: Card, pid: int, epicId: int, storyId: int): Card
  {
    if c.projectId == Some(pid) then Link(c, epicId, storyId) else c
  }

  /** The project's cards moved under the new epic and story. */
  function Retag(cards: seq<Card>, pid: int, epicId: int, storyId: int): seq<Card>
  {
    seq(|cards|, k requires 0 <= k < |cards| => Moved(cards[k], pid, epicId, storyId))
  }

  /** What the loop changes: the epics, stories and cards, and the two id counters. */
  datatype Migration = Migration(epics: seq<Epic>, stories: seq<Story>, cards: seq<Card>, epicCounter: int, storyCounter: int)

  function Step(m: Migration, p: Project, now: string): Migration
  {
    if Planned(m.epics, p.id) then m
    else
      var e, s := m.epicCounter + 1, m.storyCounter + 1;
      Migration(m.epics + [DefaultEpic(e, p, now)], m.stories + [DefaultStory(s, e, p, now)], Retag(m.cards, p.id, e, s), e, s)
  }

  function MigrateAll(m: Migration, ps: seq<Project>, now: string): Migration
    decreases |ps|
  {
    if ps == [] then m else Step(MigrateAll(m, ps[..|ps| - 1], now), ps[|ps| - 1], now)
  }

  /** The counters start at the largest existing id, or 0. */
  function Start(d: Data): Migration
  {
    Migration(d.epics, d.stories, d.cards, NextId(d.epics, EpicId()) - 1, NextId(d.stories, StoryId()) - 1)
  }

  /** The migrated data in one piece (see `Closed` for the loop): one default
    * epic and story per fresh project, numbered on from the counters, and
    * each fresh project's cards moved under them. */
  function Migrated(d: Data, now: string): Data
  {
    var f, m := Fresh(d.epics, d.projects), Start(d);
    d.(epics := d.epics + NewEpics(f, m.epicCounter, now),
       stories := d.stories + NewStories(f, m.epicCounter, m.storyCounter, now),
       cards := RelinkAll(d.cards, f, m.epicCounter, m.storyCounter))
  }

  /** migrate_data on the loaded file. */
  method MigrateData(st: Store, now: string)
    modifies st
    ensures st.Snapshot() == Migrated(old(st.Snapshot()), now)
  {
    ghost var d0 := st.Snapshot();
    var projects := st.projects;
    var epicCounter := NextId(st.epics, EpicId()) - 1;
    var storyCounter := NextId(st.stories, StoryId()) - 1;
    var i := 0;
    while i < |projects|
      invariant 0 <= i <= |projects| && projects == d0.projects
      invariant MigrateAll(Start(d0), projects[..i], now) == Migration(st.epics, st.stories, st.cards, epicCounter, storyCounter)
      invariant st.Snapshot() == d0.(epics := st.epics, stories := st.stories, cards := st.cards)
    {
      assert projects[..i + 1][..i] == projects[..i];
      var p := projects[i];
      assert MigrateAll(Start(d0), projects[..i + 1], now) == Step(MigrateAll(Start(d0), projects[..i], now), p, now);
      epicCounter, storyCounter := MigrateProject(st, p, epicCounter, storyCounter, now);
      i := i + 1;
    }
    assert projects[..i] == projects;
    Closed(d0, now);
  }

  /** One pass of the loop: a project without an epic gets the next epic and
    * story, and its cards move under them. */
  method MigrateProject(st: Store, p: Project, epicCounter: int, storyCounter: int, now: string)
    returns (epicCounter': int, storyCounter': int)
    modifies st
    ensures Migration(st.epics, st.stories, st.cards, epicCounter', storyCounter')
         == Step(Migration(old(st.epics), old(st.stories), old(st.cards), epicCounter, storyCounter), p, now)
    ensures st.Snapshot() == old(st.Snapshot()).(epics := st.epics, stories := st.stories, cards := st.cards)
  {
    epicCounter', storyCounter' := epicCounter, storyCounter;
    if !Planned(st.epics, p.id) {
      epicCounter' := epicCounter + 1;
      storyCounter' := storyCounter + 1;
      st.epics := st.epics + [DefaultEpic(epicCounter', p, now)];
      st.stories := st.stories + [DefaultStory(storyCounter', epicCounter', p, now)];
      RetagCards(st, p.id, epicCounter', storyCounter');
    }
  }

  /** The loop over the project's cards. */
  method RetagCards(st: Store, pid: int, epicId: int, storyId: int)
    modifies st
    ensures st.Snapshot() == old(st.Snapshot()).(cards := Retag(old(st.cards), pid, epicId, storyId))
  {
    var j := 0;
    while j < |st.cards|
      invariant 0 <= j <= |st.cards| == |old(st.cards)|
      invariant st.Snapshot() == old(st.Snapshot()).(cards := st.cards)
      invariant forall k :: 0 <= k < j ==> st.cards[k] == Retag(old(st.cards), pid, epicId, storyId)[k]
      invariant forall k :: j <= k < |st.cards| ==> st.cards[k] == old(st.cards)[k]
    {
      if st.cards[j].projectId == Some(pid) {
        st.cards := st.cards[j := Link(st.cards[j], epicId, storyId)];
      }
      j := j + 1;
    }
  }

  // ------------------------------------------------------------ the closed form

  /** The projects that get a default epic, in order: those without an epic,
    * first of each id (a later project with the same id then finds the new epic). */
  function Fresh(epics: seq<Epic>, ps: seq<Project>): seq<Project>
    decreases |ps|
  {
    if ps == [] then []
    else
      var f := Fresh(epics, ps[..|ps| - 1]);
      var p := ps[|ps| - 1];
      if Planned(epics, p.id) || Place(f, p.id).Some? then f else f + [p]
  }

  /** The fresh projects are listed projects without an epic, no id twice. */
  lemma {:induction false} FreshProjects(epics: seq<Epic>, ps: seq<Project>)
    ensures forall i :: 0 <= i < |Fresh(epics, ps)| ==> Fresh(epics, ps)[i] in ps && !Planned(epics, Fresh(epics, ps)[i].id)
    ensures forall i, j :: 0 <= i < j < |Fresh(epics, ps)| ==> Fresh(epics, ps)[i].id != Fresh(epics, ps)[j].id
    decreases |ps|
  {
    if ps != [] {
      var init, last := ps[..|ps| - 1], ps[|ps| - 1];
      FreshProjects(epics, init);
      var f := Fresh(epics, init);
      forall i | 0 <= i < |f| ensures f[i] in ps {
        var j :| 0 <= j < |init| && init[j] == f[i];
        assert ps[j] == init[j];
      }
      if !(Planned(epics, last.id) || Place(f, last.id).Some?) {
        PlaceSpec(f, last.id);
        var g := f + [last];
        assert Fresh(epics, ps) == g;
        forall i, j | 0 <= i < j < |g| ensures g[i].id != g[j].id {
          if j == |f| {
            assert g[i] == f[i];
          } else {
            assert g[i] == f[i] && g[j] == f[j];
          }
        }
      }
    }
  }

  function NewEpics(f: seq<Project>, epicBase: int, now: string): seq<Epic>
  {
    seq(|f|, k requires 0 <= k < |f| => DefaultEpic(epicBase + k + 1, f[k], now))
  }

  function NewStories(f: seq<Project>, epicBase: int, storyBase: int, now: string): seq<Story>
  {
    seq(|f|, k requires 0 <= k < |f| => DefaultStory(storyBase + k + 1, epicBase + k + 1, f[k], now))
  }

  /** The place of the card's project among the fresh projects, if any. */
  function Slot(c: Card, f: seq<Project>): Option<nat>
  {
    if c.projectId.None? then None else Place(f, c.projectId.value)
  }

  /** A card in the k-th slot sits under the k-th new epic and story. */
  function LinkAt(c: Card, slot: Option<nat>, epicBase: int, storyBase: int): Card
  {
    match slot
    case None => c
    case Some(k) => Link(c, epicBase + k + 1, storyBase + k + 1)
  }

  /** Each card of a fresh project under that project's new epic and story. */
  function RelinkAll(cards: seq<Card>, f: seq<Project>, epicBase: int, storyBase: int): seq<Card>
  {
    seq(|cards|, k requires 0 <= k < |cards| => LinkAt(cards[k], Slot(cards[k], f), epicBase, storyBase))
  }

  /** `r` is what the loop reaches from `m` when `f` are the projects it gave a
    * default epic: one new epic and story per project of `f`, numbered on from
    * the counters, and the cards of those projects moved under them. */
  predicate IsClosed(r: Migration, m: Migration, f: seq<Project>, now: string)
  {
    && r.epics == m.epics + NewEpics(f, m.epicCounter, now)
    && r.stories == m.stories + NewStories(f, m.epicCounter, m.storyCounter, now)
    && r.cards == RelinkAll(m.cards, f, m.epicCounter, m.storyCounter)
    && r.epicCounter == m.epicCounter + |f|
    && r.storyCounter == m.storyCounter + |f|
  }

  /** The loop from `m` over `ps` reaches the closed form over the fresh projects. */
  lemma {:induction false} ClosedAll(m: Migration, ps: seq<Project>, now: string)
    ensures IsClosed(MigrateAll(m, ps, now), m, Fresh(m.epics, ps), now)
    decreases |ps|
  {
    if ps == [] {
      assert m.epics + [] == m.epics && m.stories + [] == m.stories;
      assert RelinkAll(m.cards, [], m.epicCounter, m.storyCounter) == m.cards;
    } else {
      ClosedAll(m, ps[..|ps| - 1], now);
      StepClosed(MigrateAll(m, ps[..|ps| - 1], now), m, Fresh(m.epics, ps[..|ps| - 1]), ps[|ps| - 1], now);
    }
  }

  /** One more project keeps the closed form: it is added to the fresh projects
    * unless it had an epic or is fresh already. */
  lemma StepClosed(r: Migration, m: Migration, f: seq<Project>, p: Project, now: string)
    requires IsClosed(r, m, f, now)
    ensures IsClosed(Step(r, p, now), m, if Planned(m.epics, p.id) || Place(f, p.id).Some? then f else f + [p], now)
  {
    PlannedAfter(m.epics, f, m.epicCounter, now, p.id);
    if !(Planned(m.epics, p.id) || Place(f, p.id).Some?) {
      NewEpicsAppend(f, p, m.epicCounter, now);
      NewStoriesAppend(f, p, m.epicCounter, m.storyCounter, now);
      RelinkStep(m.cards, f, p, m.epicCounter, m.storyCounter);
      assert m.epics + NewEpics(f + [p], m.epicCounter, now) == r.epics + [DefaultEpic(m.epicCounter + |f| + 1, p, now)];
      assert m.stories + NewStories(f + [p], m.epicCounter, m.storyCounter, now)
          == r.stories + [DefaultStory(m.storyCounter + |f| + 1, m.epicCounter + |f| + 1, p, now)];
    }
  }

  lemma NewEpicsAppend(f: seq<Project>, p: Project, epicBase: int, now: string)
    ensures NewEpics(f + [p], epicBase, now) == NewEpics(f, epicBase, now) + [DefaultEpic(epicBase + |f| + 1, p, now)]
  {
    assert forall k :: 0 <= k < |f| ==> (f + [p])[k] == f[k];
  }

  lemma NewStoriesAppend(f: seq<Project>, p: Project, epicBase: int, storyBase: int, now: string)
    ensures NewStories(f + [p], epicBase, storyBase, now)
         == NewStories(f, epicBase, storyBase, now) + [DefaultStory(storyBase + |f| + 1, epicBase + |f| + 1, p, now)]
  {
    assert forall k :: 0 <= k < |f| ==> (f + [p])[k] == f[k];
  }

  /** After the new epics, a project has an epic iff it had one or is fresh. */
  lemma PlannedAfter(epics: seq<Epic>, f: seq<Project>, epicBase: int, now: string, pid: int)
    ensures Planned(epics + NewEpics(f, epicBase, now), pid) <==> Planned(epics, pid) || Place(f, pid).Some?
  {
    var all := epics + NewEpics(f, epicBase, now);
    PlaceSpec(f, pid);
    if Place(f, pid).Some? {
      var k := Place(f, pid).value;
      assert all[|epics| + k].projectId == pid;
    }
    if Planned(epics, pid) {
      var k :| 0 <= k < |epics| && epics[k].projectId == pid;
      assert all[k].projectId == epics[k].projectId;
    }
    if Planned(all, pid) {
      var k :| 0 <= k < |all| && all[k].projectId == pid;
      if k >= |epics| {
        assert all[k].projectId == NewEpics(f, epicBase, now)[k - |epics|].projectId == f[k - |epics|].id;
      } else {
        assert all[k].projectId == epics[k].projectId;
      }
    }
  }

  /** Appending a project whose id is new gives that id the new place. */
  lemma PlaceAppend(f: seq<Project>, p: Project, pid: int)
    requires Place(f, p.id).None?
    ensures Place(f + [p], pid) == if pid == p.id then Some(|f|) else Place(f, pid)
  {
    PlaceSpec(f, pid);
    FindFirstAppend(f, p, HasId(pid));
  }

  lemma RelinkStep(cards: seq<Card>, f: seq<Project>, p: Project, epicBase: int, storyBase: int)
    requires Place(f, p.id).None?
    ensures Retag(RelinkAll(cards, f, epicBase, storyBase), p.id, epicBase + |f| + 1, storyBase + |f| + 1)
         == RelinkAll(cards, f + [p], epicBase, storyBase)
  {
    forall k | 0 <= k < |cards|
      ensures Retag(RelinkAll(cards, f, epicBase, storyBase), p.id, epicBase + |f| + 1, storyBase + |f| + 1)[k]
           == RelinkAll(cards, f + [p], epicBase, storyBase)[k]
    {
      CardStep(cards[k], f, p, epicBase, storyBase);
    }
  }

  /** One card across the step: moved if it belongs to p, else relinked as before. */
  lemma CardStep(c: Card, f: seq<Project>, p: Project, epicBase: int, storyBase: int)
    requires Place(f, p.id).None?
    ensures Moved(LinkAt(c, Slot(c, f), epicBase, storyBase), p.id, epicBase + |f| + 1, storyBase + |f| + 1)
         == LinkAt(c, Slot(c, f + [p]), epicBase, storyBase)
  {
    SlotStep(c, f, p);
    if c.projectId == Some(p.id) {
      assert LinkAt(c, Slot(c, f), epicBase, storyBase) == c;
    } else {
      assert LinkAt(c, Slot(c, f), epicBase, storyBase) == LinkAt(c, Slot(c, f + [p]), epicBase, storyBase);
    }
  }

  /** The slots after appending a project that held none. */
  lemma SlotStep(c: Card, f: seq<Project>, p: Project)
    requires Place(f, p.id).None?
    ensures c.projectId == Some(p.id) ==> Slot(c, f) == None && Slot(c, f + [p]) == Some(|f|)
    ensures c.projectId != Some(p.id) ==> Slot(c, f + [p]) == Slot(c, f)
  {
    if c.projectId.Some? {
      PlaceAppend(f, p, c.projectId.value);
    }
  }

  /** The i-th new epic and story: their ids, their project, the story under the epic. */
  lemma NewAt(epics: seq<Epic>, stories: seq<Story>, f: seq<Project>, epicBase: int, storyBase: int, now: string, i: int)
    requires 0 <= i < |f|
    ensures |epics + NewEpics(f, epicBase, now)| == |epics| + |f|
    ensures |stories + NewStories(f, epicBase, storyBase, now)| == |stories| + |f|
    ensures (epics + NewEpics(f, epicBase, now))[|epics| + i].id == epicBase + i + 1
    ensures (epics + NewEpics(f, epicBase, now))[|epics| + i].projectId == f[i].id
    ensures (stories + NewStories(f, epicBase, storyBase, now))[|stories| + i].id == storyBase + i + 1
    ensures (stories + NewStories(f, epicBase, storyBase, now))[|stories| + i].epicId == epicBase + i + 1
    ensures (stories + NewStories(f, epicBase, storyBase, now))[|stories| + i].projectId == f[i].id
  {
    assert (epics + NewEpics(f, epicBase, now))[|epics| + i] == NewEpics(f, epicBase, now)[i];
    assert (stories + NewStories(f, epicBase, storyBase, now))[|stories| + i] == NewStories(f, epicBase, storyBase, now)[i];
  }

  /** A card whose project is the i-th fresh one is linked to the i-th new pair; any other card is left alone. */
  lemma RelinkAt(cards: seq<Card>, f: seq<Project>, epicBase: int, storyBase: int, k: int)
    requires 0 <= k < |cards|
    ensures |RelinkAll(cards, f, epicBase, storyBase)| == |cards|
    ensures Slot(cards[k], f).Some? ==>
      RelinkAll(cards, f, epicBase, storyBase)[k] == Link(cards[k], epicBase + Slot(cards[k], f).value + 1, storyBase + Slot(cards[k], f).value + 1)
    ensures Slot(cards[k], f).None? ==> RelinkAll(cards, f, epicBase, storyBase)[k] == cards[k]
  {
  }

  // ------------------------------------------------------------ what the migration promises

  /** Every project ends up with an epic: it had one, or it is fresh. */
  lemma {:induction false} FreshCovers(epics: seq<Epic>, ps: seq<Project>, p: Project)
    requires p in ps
    ensures Planned(epics, p.id) || Place(Fresh(epics, ps), p.id).Some?
    decreases |ps|
  {
    var init, last := ps[..|ps| - 1], ps[|ps| - 1];
    var f := Fresh(epics, init);
    assert ps == init + [last];
    PlaceSpec(f, p.id);
    if !Planned(epics, p.id) {
      if p != last {
        FreshCovers(epics, init, p);
        var i := Place(f, p.id).value;
        assert Fresh(epics, ps)[i].id == p.id;
      } else if Place(f, p.id).Some? {
        var i := Place(f, p.id).value;
        assert Fresh(epics, ps)[i].id == p.id;
      } else {
        assert Fresh(epics, ps)[|f|].id == p.id;
      }
    }
  }

  /** The loop computes the data in one piece. */
  lemma Closed(d: Data, now: string)
    ensures MigrateAll(Start(d), d.projects, now).epics == Migrated(d, now).epics
    ensures MigrateAll(Start(d), d.projects, now).stories == Migrated(d, now).stories
    ensures MigrateAll(Start(d), d.projects, now).cards == Migrated(d, now).cards
  {
    ClosedAll(Start(d), d.projects, now);
  }

  /** The epics and stories before the migration stay as they were, at the
    * front, followed by as many new epics as new stories; nothing but epics,
    * stories and cards changes. */
  lemma MigratedPrefix(d: Data, now: string)
    ensures |Migrated(d, now).epics| - |d.epics| == |Migrated(d, now).stories| - |d.stories| >= 0
    ensures Migrated(d, now).epics[..|d.epics|] == d.epics
    ensures Migrated(d, now).stories[..|d.stories|] == d.stories
    ensures |Migrated(d, now).cards| == |d.cards|
    ensures Migrated(d, now).(epics := d.epics, stories := d.stories, cards := d.cards) == d
  {
  }

  /** The j-th new story sits under the j-th new epic, both in a listed project
    * that had no epic, with ids above every id before. */
  lemma MigratedNewPairs(d: Data, now: string, j: int)
    requires |d.epics| <= j < |Migrated(d, now).epics|
    ensures j - |d.epics| + |d.stories| < |Migrated(d, now).stories|
    ensures Migrated(d, now).stories[j - |d.epics| + |d.stories|].epicId == Migrated(d, now).epics[j].id
    ensures Migrated(d, now).stories[j - |d.epics| + |d.stories|].projectId == Migrated(d, now).epics[j].projectId
    ensures !Planned(d.epics, Migrated(d, now).epics[j].projectId)
    ensures exists p :: p in d.projects && p.id == Migrated(d, now).epics[j].projectId
    ensures forall i :: 0 <= i < |d.epics| ==> d.epics[i].id < Migrated(d, now).epics[j].id
    ensures forall i :: 0 <= i < |d.stories| ==> d.stories[i].id < Migrated(d, now).stories[j - |d.epics| + |d.stories|].id
  {
    FreshProjects(d.epics, d.projects);
    var f, m := Fresh(d.epics, d.projects), Start(d);
    var k := j - |d.epics|;
    NewAt(d.epics, d.stories, f, m.epicCounter, m.storyCounter, now, k);
    assert f[k] in d.projects;
  }

  /** New epics have increasing ids and distinct projects: one per project. */
  lemma MigratedNewDistinct(d: Data, now: string, i: int, j: int)
    requires |d.epics| <= i < j < |Migrated(d, now).epics|
    ensures Migrated(d, now).epics[i].id < Migrated(d, now).epics[j].id
    ensures Migrated(d, now).epics[i].projectId != Migrated(d, now).epics[j].projectId
  {
    FreshProjects(d.epics, d.projects);
    NewDistinct(d.epics, Fresh(d.epics, d.projects), Start(d).epicCounter, now, i, j);
  }

  /** New epics over projects with distinct ids have increasing ids and distinct projects. */
  lemma NewDistinct(epics: seq<Epic>, f: seq<Project>, epicBase: int, now: string, i: int, j: int)
    requires |epics| <= i < j < |epics| + |f|
    requires forall a, b :: 0 <= a < b < |f| ==> f[a].id != f[b].id
    ensures (epics + NewEpics(f, epicBase, now))[i].id < (epics + NewEpics(f, epicBase, now))[j].id
    ensures (epics + NewEpics(f, epicBase, now))[i].projectId != (epics + NewEpics(f, epicBase, now))[j].projectId
  {
    assert (epics + NewEpics(f, epicBase, now))[i] == NewEpics(f, epicBase, now)[i - |epics|];
    assert (epics + NewEpics(f, epicBase, now))[j] == NewEpics(f, epicBase, now)[j - |epics|];
  }

  /** Every listed project has an epic afterwards. */
  lemma MigratedCovers(d: Data, now: string, p: Project)
    requires p in d.projects
    ensures Planned(Migrated(d, now).epics, p.id)
  {
    FreshCovers(d.epics, d.projects, p);
    PlannedAfter(d.epics, Fresh(d.epics, d.projects), Start(d).epicCounter, now, p.id);
  }

  /** Projects that already had an epic are skipped, and so are their cards. */
  lemma PlannedCardsUntouched(d: Data, now: string, k: int)
    requires 0 <= k < |d.cards| && d.cards[k].projectId.Some? && Planned(d.epics, d.cards[k].projectId.value)
    ensures |Migrated(d, now).cards| == |d.cards| && Migrated(d, now).cards[k] == d.cards[k]
  {
    FreshProjects(d.epics, d.projects);
    var f := Fresh(d.epics, d.projects);
    PlaceSpec(f, d.cards[k].projectId.value);
    assert Slot(d.cards[k], f).None?;
  }

  /** After the migration (epics, stories, cards), the k-th card of the data
    * before it (with epics0, stories0, cards0) sits under a new epic of its
    * project and the new story beside that epic, and nothing else about the
    * card changed. */
  predicate MovedUnder(epics: seq<Epic>, stories: seq<Story>, cards: seq<Card>,
                       epics0: seq<Epic>, stories0: seq<Story>, cards0: seq<Card>, k: int)
    requires 0 <= k < |cards0| && cards0[k].projectId.Some? && |cards| == |cards0|
  {
    exists j :: (|epics0| <= j < |epics| && 0 <= j - |epics0| + |stories0| < |stories|
                 && epics[j].projectId == cards0[k].projectId.value
                 && stories[j - |epics0| + |stories0|].projectId == cards0[k].projectId.value
                 && cards[k] == Link(cards0[k], epics[j].id, stories[j - |epics0| + |stories0|].id))
  }

  /** A card of a fresh project sits under the new epic of its project and the story beside it. */
  lemma MovedPair(epics: seq<Epic>, stories: seq<Story>, cards: seq<Card>, f: seq<Project>,
                  epicBase: int, storyBase: int, now: string, k: int)
    requires 0 <= k < |cards| && Slot(cards[k], f).Some?
    ensures |RelinkAll(cards, f, epicBase, storyBase)| == |cards|
    ensures MovedUnder(epics + NewEpics(f, epicBase, now), stories + NewStories(f, epicBase, storyBase, now),
                       RelinkAll(cards, f, epicBase, storyBase), epics, stories, cards, k)
  {
    PlaceSpec(f, cards[k].projectId.value);
    var i := Slot(cards[k], f).value;
    NewAt(epics, stories, f, epicBase, storyBase, now, i);
    RelinkAt(cards, f, epicBase, storyBase, k);
    var j := |epics| + i;
    assert j - |epics| + |stories| == |stories| + i;
  }

  /** Every card of a listed project that had no epic is moved under that
    * project's new epic and the story beside it; nothing else about the card
    * changes. */
  lemma FreshCardsMoved(d: Data, now: string, k: int)
    requires 0 <= k < |d.cards| && d.cards[k].projectId.Some? && !Planned(d.epics, d.cards[k].projectId.value)
    requires exists p :: p in d.projects && p.id == d.cards[k].projectId.value
    ensures |Migrated(d, now).cards| == |d.cards|
    ensures MovedUnder(Migrated(d, now).epics, Migrated(d, now).stories, Migrated(d, now).cards, d.epics, d.stories, d.cards, k)
  {
    var f, m := Fresh(d.epics, d.projects), Start(d);
    var p :| p in d.projects && p.id == d.cards[k].projectId.value;
    FreshCovers(d.epics, d.projects, p);
    MovedPair(d.epics, d.stories, d.cards, f, m.epicCounter, m.storyCounter, now, k);
  }

  // ------------------------------------------------------------ verify_migration

  function TruthyId(o: Option<int>): bool { o.Some? && o.value != 0 }

  /** A card is linked when its epic_id and story_id are both truthy. */
  predicate Linked(c: Card) { TruthyId(c.epicId) && TruthyId(c.storyId) }

  /** verify_migration on the file's data: false at the first card without
    * truthy epic_id and story_id, or, failing that, the first story without a
    * truthy epic_id. */
  method VerifyMigration(d: Data) returns (ok: bool)
    ensures ok <==> (forall k :: 0 <= k < |d.cards| ==> Linked(d.cards[k]))
                    && (forall k :: 0 <= k < |d.stories| ==> d.stories[k].epicId != 0)
  {
    var i := 0;
    while i < |d.cards|
      invariant 0 <= i <= |d.cards|
      invariant forall k :: 0 <= k < i ==> Linked(d.cards[k])
    {
      if !Linked(d.cards[i]) {
        return false;
      }
      i := i + 1;
    }
    i := 0;
    while i < |d.stories|
      invariant 0 <= i <= |d.stories|
      invariant forall k :: 0 <= k < i ==> d.stories[k].epicId != 0
    {
      if d.stories[i].epicId == 0 {
        return false;
      }
      i := i + 1;
    }
    return true;
  }

  /** With counters that are not negative, every relinked card is linked. */
  lemma RelinkLinks(cards: seq<Card>, f: seq<Project>, epicBase: int, storyBase: int)
    requires epicBase >= 0 && storyBase >= 0
    requires forall k :: 0 <= k < |cards| ==> Linked(cards[k]) || Slot(cards[k], f).Some?
    ensures forall k :: 0 <= k < |RelinkAll(cards, f, epicBase, storyBase)| ==> Linked(RelinkAll(cards, f, epicBase, storyBase)[k])
  {
  }

  /** With a counter that is not negative, every new story has a truthy epic_id. */
  lemma NewStoriesLinked(stories: seq<Story>, f: seq<Project>, epicBase: int, storyBase: int, now: string)
    requires epicBase >= 0
    requires forall k :: 0 <= k < |stories| ==> stories[k].epicId != 0
    ensures forall k :: 0 <= k < |stories + NewStories(f, epicBase, storyBase, now)| ==>
      (stories + NewStories(f, epicBase, storyBase, now))[k].epicId != 0
  {
    var all := stories + NewStories(f, epicBase, storyBase, now);
    forall k | 0 <= k < |all| ensures all[k].epicId != 0 {
      if k >= |stories| {
        assert all[k].epicId == NewStories(f, epicBase, storyBase, now)[k - |stories|].epicId;
      } else {
        assert all[k].epicId == stories[k].epicId;
      }
    }
  }

  /** The counters start at 0 or above when no id is negative. */
  lemma StartNotNegative(d: Data)
    requires forall k :: 0 <= k < |d.epics| ==> d.epics[k].id >= 0
    requires forall k :: 0 <= k < |d.stories| ==> d.stories[k].id >= 0
    ensures Start(d).epicCounter >= 0 && Start(d).storyCounter >= 0
  {
    if d.epics != [] {
      var i :| 0 <= i < |d.epics| && d.epics[i].id == NextId(d.epics, EpicId()) - 1;
    }
    if d.stories != [] {
      var i :| 0 <= i < |d.stories| && d.stories[i].id == NextId(d.stories, StoryId()) - 1;
    }
  }

  /** When ids are not negative, stories already have an epic, and every card
    * either is linked or belongs to a listed project without an epic, the
    * migrated data passes verify_migration. */
  lemma MigrationLinksAll(d: Data, now: string)
    requires forall k :: 0 <= k < |d.epics| ==> d.epics[k].id >= 0
    requires forall k :: 0 <= k < |d.stories| ==> d.stories[k].id >= 0 && d.stories[k].epicId != 0
    requires forall k :: 0 <= k < |d.cards| ==>
               (Linked(d.cards[k])
                || (d.cards[k].projectId.Some? && !Planned(d.epics, d.cards[k].projectId.value)
                    && exists p :: p in d.projects && p.id == d.cards[k].projectId.value))
    ensures forall k :: 0 <= k < |Migrated(d, now).cards| ==> Linked(Migrated(d, now).cards[k])
    ensures forall k :: 0 <= k < |Migrated(d, now).stories| ==> Migrated(d, now).stories[k].epicId != 0
  {
    var m, f := Start(d), Fresh(d.epics, d.projects);
    StartNotNegative(d);
    forall k | 0 <= k < |d.cards| ensures Linked(d.cards[k]) || Slot(d.cards[k], f).Some? {
      if !Linked(d.cards[k]) {
        var p :| p in d.projects && p.id == d.cards[k].projectId.value;
        FreshCovers(d.epics, d.projects, p);
      }
    }
    RelinkLinks(d.cards, f, m.epicCounter, m.storyCounter);
    NewStoriesLinked(d.stories, f, m.epicCounter, m.storyCounter, now);
  }
}
