/** The sprint handlers of the monolithic Flask application (app.py): create,
  * start, complete, attach issues and items, detach items, edit and delete a
  * sprint. Each loads the data set, changes it in place and saves it; a
  * failing request returns before saving, so the data set stays as it was. */
module AppSprints {
  import opened Common
  import opened Dates
  import opened Records

  // ------------------------------------------------------------ lifecycle

  /** The guard of start_sprint: still planned, with a start date that parses and is not past. */
  predicate CanStart(s: Sprint, today: Date)
  {
    s.status == Some("planning") && s.startDate.Some?
    && ParseDate(s.startDate.value).Some? && !Before(ParseDate(s.startDate.value).value, today)
  }

  /** The guard of complete_sprint. */
  predicate CanComplete(s: Sprint)
  {
    s.status == Some("active")
  }

  function Started(s: Sprint, now: string, actor: string): Sprint
  {
    s.(status := Some("active"), stamps := s.stamps["started_at" := now]["started_by" := actor])
  }

  function Completed(s: Sprint, now: string, actor: string): Sprint
  {
    s.(status := Some("completed"), stamps := s.stamps["completed_at" := now]["completed_by" := actor])
  }

  /** The lifecycle runs planning -> active -> completed and never backwards:
    * a started sprint can be completed and not started again, a completed one neither. */
  lemma Lifecycle(s: Sprint, today: Date, now: string, actor: string)
    requires CanStart(s, today)
    ensures CanComplete(Started(s, now, actor)) && !CanStart(Started(s, now, actor), today)
    ensures !CanStart(Completed(Started(s, now, actor), now, actor), today)
    ensures !CanComplete(Completed(Started(s, now, actor), now, actor))
  {
  }

  datatype SprintRequest = SprintRequest(
    name: Option<string>,
    projectId: Option<int>,
    startDate: Option<string>,
    endDate: Option<string>,
    goal: Option<string>,
    storyPoints: Option<int>)

  function NewSprint(id: int, req: SprintRequest, now: string, actor: string): Sprint
    requires req.name.Some? && req.projectId.Some? && req.startDate.Some? && req.endDate.Some?
  {
    Sprint(id, req.name.value, req.projectId, req.startDate, req.endDate, Some(GetOr(req.goal, "")), None,
           Some(GetOr(req.storyPoints, 0)), Some("planning"), Some([]), None, None, None,
           map["created_at" := now, "created_by" := actor])
  }

  /** create_sprint: the four required keys must be present; the new sprint is
    * planned, has no issues and an id above every existing sprint id. */
  method CreateSprint(st: Store, req: SprintRequest, now: string, actor: string) returns (r: Reply<Sprint>)
    modifies st
    ensures r.Ok? <==> req.name.Some? && req.projectId.Some? && req.startDate.Some? && req.endDate.Some?
    ensures r.Ok? ==> r.value.status == Some("planning") && r.value.issues == Some([])
    ensures r.Ok? ==> r.value == NewSprint(r.value.id, req, now, actor)
    ensures r.Ok? ==> r.value.name == req.name.value && r.value.projectId == req.projectId
                      && r.value.startDate == req.startDate && r.value.endDate == req.endDate
                      && r.value.goal == Some(GetOr(req.goal, "")) && r.value.storyPoints == Some(GetOr(req.storyPoints, 0))
                      && r.value.stamps == map["created_at" := now, "created_by" := actor]
    ensures r.Ok? ==> forall s :: s in old(st.sprints) ==> s.id < r.value.id
    ensures r.Ok? ==> st.Snapshot() == old(st.Snapshot()).(sprints := old(st.sprints) + [r.value])
    ensures r.Fail? ==> st.Snapshot() == old(st.Snapshot())
  {
    if req.name.None? || req.projectId.None? || req.startDate.None? || req.endDate.None? {
      return Fail(200, "missing key");
    }
    var id := NextId(st.sprints, (s: Sprint) => s.id);
    var sprint := NewSprint(id, req, now, actor);
    st.sprints := st.sprints + [sprint];
    r := Ok(sprint);
  }

  /** start_sprint: 404 for an unknown sprint, 400 unless it is planned, an error
    * when its start date does not parse, 400 when that date is past; otherwise active. */
  method StartSprint(st: Store, sprintId: int, today: Date, now: string, actor: string) returns (r: Reply<Sprint>)
    modifies st
    ensures var k := SprintById(old(st.sprints), sprintId);
      && (r.Ok? <==> k.Some? && CanStart(old(st.sprints)[k.value], today))
      && (k.None? ==> r == Fail(404, "Sprint not found"))
      && (k.Some? && old(st.sprints)[k.value].status.Some? && old(st.sprints)[k.value].status != Some("planning") ==>
            r == Fail(400, "Can only start sprints in planning status"))
      && (k.Some? && old(st.sprints)[k.value].status == Some("planning") && old(st.sprints)[k.value].startDate.Some?
          && ParseDate(old(st.sprints)[k.value].startDate.value).Some?
          && Before(ParseDate(old(st.sprints)[k.value].startDate.value).value, today) ==>
            r == Fail(400, "Cannot start sprint with past start date"))
      && (r.Ok? ==> r.value == Started(old(st.sprints)[k.value], now, actor)
                    && st.Snapshot() == old(st.Snapshot()).(sprints := old(st.sprints)[k.value := r.value]))
      && (r.Fail? ==> st.Snapshot() == old(st.Snapshot()))
  {
    var k := SprintById(st.sprints, sprintId);
    if k.None? {
      return Fail(404, "Sprint not found");
    }
    var sprint := st.sprints[k.value];
    if sprint.status.None? {
      return Fail(200, "'status'");
    }
    if sprint.status != Some("planning") {
      return Fail(400, "Can only start sprints in planning status");
    }
    if sprint.startDate.None? {
      return Fail(200, "'start_date'");
    }
    var start := ParseDate(sprint.startDate.value);
    if start.None? {
      return Fail(200, "time data does not match format '%Y-%m-%d'");
    }
    if Before(start.value, today) {
      return Fail(400, "Cannot start sprint with past start date");
    }
    var started := Started(sprint, now, actor);
    st.sprints := st.sprints[k.value := started];
    r := Ok(started);
  }

  /** complete_sprint: 404 for an unknown sprint, 400 unless it is active. */
  method CompleteSprint(st: Store, sprintId: int, now: string, actor: string) returns (r: Reply<Sprint>)
    modifies st
    ensures var k := SprintById(old(st.sprints), sprintId);
      && (r.Ok? <==> k.Some? && CanComplete(old(st.sprints)[k.value]))
      && (k.None? ==> r == Fail(404, "Sprint not found"))
      && (r.Ok? ==> r.value == Completed(old(st.sprints)[k.value], now, actor)
                    && st.Snapshot() == old(st.Snapshot()).(sprints := old(st.sprints)[k.value := r.value]))
      && (r.Fail? ==> st.Snapshot() == old(st.Snapshot()))
  {
    var k := SprintById(st.sprints, sprintId);
    if k.None? {
      return Fail(404, "Sprint not found");
    }
    var sprint := st.sprints[k.value];
    if sprint.status.None? {
      return Fail(200, "'status'");
    }
    if sprint.status != Some("active") {
      return Fail(400, "Can only complete active sprints");
    }
    var done := Completed(sprint, now, actor);
    st.sprints := st.sprints[k.value := done];
    r := Ok(done);
  }

  // ------------------------------------------------------------ membership

  /** Appending each id that is not yet present, in order: the list the loops of
    * add_issue_to_sprint and add_items_to_sprint build. */
  function Merge(list: seq<int>, ids: seq<int>): seq<int>
  {
    if ids == [] then list
    else
      var m := Merge(list, ids[..|ids| - 1]);
      if ids[|ids| - 1] in m then m else m + [ids[|ids| - 1]]
  }

  /** The old list is kept as a prefix, every requested id ends up present, only
    * requested ids are added, and no id is added twice. */
  lemma {:induction false} MergeProperties(list: seq<int>, ids: seq<int>)
    ensures |Merge(list, ids)| >= |list| && Merge(list, ids)[..|list|] == list
    ensures forall x :: x in ids ==> x in Merge(list, ids)
    ensures forall x :: x in Merge(list, ids) ==> x in list || x in ids
    ensures NoDuplicates(list) ==> NoDuplicates(Merge(list, ids))
  {
    if ids != [] {
      var init := ids[..|ids| - 1];
      MergeProperties(list, init);
      assert forall x :: x in ids ==> x in init || x == ids[|ids| - 1];
    }
  }

  /** The `for id in ids: if id not in lst: lst.append(id)` loop. */
  method AppendMissing(list: seq<int>, ids: seq<int>) returns (r: seq<int>)
    ensures r == Merge(list, ids)
  {
    r := list;
    var i := 0;
    while i < |ids|
      invariant 0 <= i <= |ids|
      invariant r == Merge(list, ids[..i])
    {
      assert ids[..i + 1][..i] == ids[..i];
      if ids[i] !in r {
        r := r + [ids[i]];
      }
      i := i + 1;
    }
    assert ids[..|ids|] == ids;
  }

  /** add_issue_to_sprint: 404 for an unknown sprint, 400 for a falsy issue id;
    * otherwise the issue list exists afterwards and holds the id exactly once more at most. */
  method AddIssueToSprint(st: Store, sprintId: int, issueId: Option<int>) returns (r: Reply<Sprint>)
    modifies st
    ensures var k := SprintById(old(st.sprints), sprintId);
      && (r.Ok? <==> k.Some? && TruthyInt(issueId))
      && (k.None? ==> r == Fail(404, "Sprint not found"))
      && (k.Some? && !TruthyInt(issueId) ==> r == Fail(400, "Issue ID is required"))
      && (r.Ok? ==> r.value == old(st.sprints)[k.value].(issues := Some(Merge(GetOr(old(st.sprints)[k.value].issues, []), [issueId.value])))
                    && st.Snapshot() == old(st.Snapshot()).(sprints := old(st.sprints)[k.value := r.value]))
      && (r.Fail? ==> st.Snapshot() == old(st.Snapshot()))
  {
    var k := SprintById(st.sprints, sprintId);
    if k.None? {
      return Fail(404, "Sprint not found");
    }
    if !TruthyInt(issueId) {
      return Fail(400, "Issue ID is required");
    }
    var sprint := st.sprints[k.value];
    var issues := GetOr(sprint.issues, []);
    issues := AppendMissing(issues, [issueId.value]);
    sprint := sprint.(issues := Some(issues));
    st.sprints := st.sprints[k.value := sprint];
    r := Ok(sprint);
  }

  function AddItems(s: Sprint, epicIds: seq<int>, storyIds: seq<int>, issueIds: seq<int>): Sprint
  {
    s.(epics := Some(Merge(GetOr(s.epics, []), epicIds)),
       stories := Some(Merge(GetOr(s.stories, []), storyIds)),
       issues := Some(Merge(GetOr(s.issues, []), issueIds)))
  }

  /** add_items_to_sprint: 404 for an unknown sprint; otherwise the three lists
    * exist and each gains the requested ids it lacked. */
  method AddItemsToSprint(st: Store, sprintId: int, epicIds: seq<int>, storyIds: seq<int>, issueIds: seq<int>)
    returns (r: Reply<Sprint>)
    modifies st
    ensures var k := SprintById(old(st.sprints), sprintId);
      && (r.Ok? <==> k.Some?)
      && (r.Fail? ==> r == Fail(404, "Sprint not found") && st.Snapshot() == old(st.Snapshot()))
      && (r.Ok? ==> r.value == AddItems(old(st.sprints)[k.value], epicIds, storyIds, issueIds)
                    && st.Snapshot() == old(st.Snapshot()).(sprints := old(st.sprints)[k.value := r.value]))
  {
    var k := SprintById(st.sprints, sprintId);
    if k.None? {
      return Fail(404, "Sprint not found");
    }
    var sprint := st.sprints[k.value];
    var epics := AppendMissing(GetOr(sprint.epics, []), epicIds);
    var stories := AppendMissing(GetOr(sprint.stories, []), storyIds);
    var issues := AppendMissing(GetOr(sprint.issues, []), issueIds);
    sprint := sprint.(epics := Some(epics), stories := Some(stories), issues := Some(issues));
    st.sprints := st.sprints[k.value := sprint];
    r := Ok(sprint);
  }

  /** After adding items, every requested id is a member of its list and nothing was lost. */
  lemma AddItemsCovers(s: Sprint, epicIds: seq<int>, storyIds: seq<int>, issueIds: seq<int>)
    ensures var t := AddItems(s, epicIds, storyIds, issueIds);
      && (forall x :: x in epicIds ==> x in t.epics.value)
      && (forall x :: x in storyIds ==> x in t.stories.value)
      && (forall x :: x in issueIds ==> x in t.issues.value)
      && (forall x :: x in GetOr(s.epics, []) ==> x in t.epics.value)
      && (forall x :: x in GetOr(s.issues, []) ==> x in t.issues.value)
  {
    MergeProperties(GetOr(s.epics, []), epicIds);
    MergeProperties(GetOr(s.stories, []), storyIds);
    MergeProperties(GetOr(s.issues, []), issueIds);
  }

  /** The list a remove_item_from_sprint request names, and the sprint without one occurrence of the item. */
  function RemoveItem(s: Sprint, kind: string, itemId: int): Sprint
  {
    if kind == "epic" && s.epics.Some? && itemId in s.epics.value then s.(epics := Some(RemoveFirst(s.epics.value, itemId)))
    else if kind == "story" && s.stories.Some? && itemId in s.stories.value then s.(stories := Some(RemoveFirst(s.stories.value, itemId)))
    else if kind == "issue" && s.issues.Some? && itemId in s.issues.value then s.(issues := Some(RemoveFirst(s.issues.value, itemId)))
    else s
  }

  /** Removing touches only the list of the named kind, shortens it by one when
    * the item was there, and is a no-op for an unknown kind or an absent item. */
  lemma RemoveItemEffect(s: Sprint, kind: string, itemId: int)
    ensures var t := RemoveItem(s, kind, itemId);
      && t.(epics := s.epics, stories := s.stories, issues := s.issues) == s
      && (kind != "epic" ==> t.epics == s.epics)
      && (kind != "story" ==> t.stories == s.stories)
      && (kind != "issue" ==> t.issues == s.issues)
      && (kind == "issue" && s.issues.Some? && itemId in s.issues.value ==>
            |t.issues.value| == |s.issues.value| - 1
            && multiset(t.issues.value) == multiset(s.issues.value) - multiset{itemId})
      && (kind !in {"epic", "story", "issue"} ==> t == s)
  {
  }

  /** remove_item_from_sprint: 404 for an unknown sprint, otherwise success. */
  method RemoveItemFromSprint(st: Store, sprintId: int, kind: string, itemId: int) returns (r: Reply<Sprint>)
    modifies st
    ensures var k := SprintById(old(st.sprints), sprintId);
      && (r.Ok? <==> k.Some?)
      && (r.Fail? ==> r == Fail(404, "Sprint not found") && st.Snapshot() == old(st.Snapshot()))
      && (r.Ok? ==> r.value == RemoveItem(old(st.sprints)[k.value], kind, itemId)
                    && st.Snapshot() == old(st.Snapshot()).(sprints := old(st.sprints)[k.value := r.value]))
  {
    var k := SprintById(st.sprints, sprintId);
    if k.None? {
      return Fail(404, "Sprint not found");
    }
    var sprint := RemoveItem(st.sprints[k.value], kind, itemId);
    st.sprints := st.sprints[k.value := sprint];
    r := Ok(sprint);
  }

  datatype SprintChanges = SprintChanges(
    name: Option<string>,
    goal: Option<string>,
    storyPoints: Option<int>,
    startDate: Option<string>,
    endDate: Option<string>)

  function Edited(s: Sprint, c: SprintChanges, now: string, actor: string): Sprint
  {
    s.(name := GetOr(c.name, s.name),
       goal := if c.goal.Some? then c.goal else s.goal,
       storyPoints := if c.storyPoints.Some? then c.storyPoints else s.storyPoints,
       startDate := if c.startDate.Some? then c.startDate else s.startDate,
       endDate := if c.endDate.Some? then c.endDate else s.endDate,
       stamps := s.stamps["updated_at" := now]["updated_by" := actor])
  }

  /** An edit keeps the sprint's id, project, status and item lists; a field the
    * request leaves out keeps its value. */
  lemma EditedKeeps(s: Sprint, c: SprintChanges, now: string, actor: string)
    ensures var t := Edited(s, c, now, actor);
      && t.id == s.id && t.projectId == s.projectId && t.status == s.status
      && t.issues == s.issues && t.epics == s.epics && t.stories == s.stories && t.items == s.items
      && (c.name.None? ==> t.name == s.name) && (c.name.Some? ==> t.name == c.name.value)
      && (c.startDate.None? ==> t.startDate == s.startDate)
      && t.stamps["updated_by"] == actor
  {
  }

  /** update_sprint: 404 for an unknown sprint, otherwise the given fields change. */
  method UpdateSprint(st: Store, sprintId: int, c: SprintChanges, now: string, actor: string) returns (r: Reply<Sprint>)
    modifies st
    ensures var k := SprintById(old(st.sprints), sprintId);
      && (r.Ok? <==> k.Some?)
      && (r.Fail? ==> r == Fail(404, "Sprint not found") && st.Snapshot() == old(st.Snapshot()))
      && (r.Ok? ==> r.value == Edited(old(st.sprints)[k.value], c, now, actor)
                    && st.Snapshot() == old(st.Snapshot()).(sprints := old(st.sprints)[k.value := r.value]))
  {
    var k := SprintById(st.sprints, sprintId);
    if k.None? {
      return Fail(404, "Sprint not found");
    }
    var sprint := Edited(st.sprints[k.value], c, now, actor);
    st.sprints := st.sprints[k.value := sprint];
    r := Ok(sprint);
  }

  // ------------------------------------------------------------ deletion

  function StripIds(ids: Option<seq<int>>, sprintId: int): Option<seq<int>>
  {
    if ids.Some? && sprintId in ids.value then Some(RemoveFirst(ids.value, sprintId)) else ids
  }

  function StripEpic(sprintId: int): Epic -> Epic
  {
    (e: Epic) => e.(sprintIds := StripIds(e.sprintIds, sprintId))
  }

  function StripStory(sprintId: int): Story -> Story
  {
    (s: Story) => s.(sprintIds := StripIds(s.sprintIds, sprintId))
  }

  function StripCard(sprintId: int): Card -> Card
  {
    (c: Card) => c.(sprintIds := StripIds(c.sprintIds, sprintId))
  }

  /** One pass over a list that rewrites every element in place. */
  method MapAll<T>(items: seq<T>, f: T -> T) returns (r: seq<T>)
    ensures |r| == |items|
    ensures forall i :: 0 <= i < |items| ==> r[i] == f(items[i])
  {
    r := [];
    var i := 0;
    while i < |items|
      invariant 0 <= i <= |items|
      invariant |r| == i
      invariant forall j :: 0 <= j < i ==> r[j] == f(items[j])
    {
      r := r + [f(items[i])];
      i := i + 1;
    }
  }

  /** Stripping a sprint id from a list without duplicates leaves no reference to it
    * and keeps every other id. */
  lemma StripIdsRemovesReference(ids: Option<seq<int>>, sprintId: int)
    requires ids.Some? ==> NoDuplicates(ids.value)
    ensures StripIds(ids, sprintId).Some? <==> ids.Some?
    ensures ids.Some? ==> sprintId !in StripIds(ids, sprintId).value
    ensures ids.Some? ==> forall x :: x != sprintId ==> (x in StripIds(ids, sprintId).value <==> x in ids.value)
  {
    if ids.Some? {
      RemoveFirstAll(ids.value, sprintId);
    }
  }

  /** delete_sprint: refused for an unknown or an active sprint; otherwise every
    * sprint with that id is dropped and the id is struck once from every
    * epic, story and card `sprint_ids` list that holds it. */
  method DeleteSprint(st: Store, sprintId: int) returns (r: Reply<string>)
    modifies st
    ensures var k := SprintById(old(st.sprints), sprintId);
      && (r.Ok? <==> k.Some? && old(st.sprints)[k.value].status != Some("active"))
      && (r.Fail? ==> st.Snapshot() == old(st.Snapshot()))
      && (r.Ok? ==>
            && st.sprints == Filter(old(st.sprints), (s: Sprint) => s.id != sprintId)
            && |st.epics| == |old(st.epics)| && |st.stories| == |old(st.stories)| && |st.cards| == |old(st.cards)|
            && (forall i :: 0 <= i < |st.epics| ==> st.epics[i] == StripEpic(sprintId)(old(st.epics)[i]))
            && (forall i :: 0 <= i < |st.stories| ==> st.stories[i] == StripStory(sprintId)(old(st.stories)[i]))
            && (forall i :: 0 <= i < |st.cards| ==> st.cards[i] == StripCard(sprintId)(old(st.cards)[i]))
            && st.users == old(st.users) && st.projects == old(st.projects)
            && st.comments == old(st.comments) && st.notifications == old(st.notifications))
      && (r.Ok? ==> forall s :: s in st.sprints ==> s.id != sprintId)
  {
    var k := SprintById(st.sprints, sprintId);
    if k.None? {
      return Fail(200, "Sprint not found");
    }
    var sprint := st.sprints[k.value];
    if sprint.status == Some("active") {
      return Fail(200, "Cannot delete an active sprint. Please complete or stop the sprint first.");
    }
    var sprints := Filter(st.sprints, (s: Sprint) => s.id != sprintId);
    var epics := MapAll(st.epics, StripEpic(sprintId));
    var stories := MapAll(st.stories, StripStory(sprintId));
    var cards := MapAll(st.cards, StripCard(sprintId));
    st.sprints, st.epics, st.stories, st.cards := sprints, epics, stories, cards;
    r := Ok("Sprint \"" + sprint.name + "\" has been deleted successfully");
  }

  // ------------------------------------------------------------ reading

  datatype SprintContents = SprintContents(sprint: Sprint, epics: seq<Epic>, stories: seq<Story>, issues: seq<Card>)

  /** get_sprint_items: the epics, stories and cards whose ids the sprint lists,
    * in the data set's order; a list the sprint lacks gives nothing. */
  function GetSprintItems(d: Data, sprintId: int): (r: Reply<SprintContents>)
    ensures SprintById(d.sprints, sprintId).None? <==> r.Fail?
    ensures r.Ok? ==> forall c :: c in r.value.issues <==>
                        c in d.cards && r.value.sprint.issues.Some? && c.id in r.value.sprint.issues.value
    ensures r.Ok? ==> forall e :: e in r.value.epics <==>
                        e in d.epics && r.value.sprint.epics.Some? && e.id in r.value.sprint.epics.value
    ensures r.Ok? ==> forall s :: s in r.value.stories <==>
                        s in d.stories && r.value.sprint.stories.Some? && s.id in r.value.sprint.stories.value
  {
    match SprintById(d.sprints, sprintId)
    case None => Fail(404, "Sprint not found")
    case Some(k) =>
      var s := d.sprints[k];
      Ok(SprintContents(
        s,
        if s.epics.Some? then Filter(d.epics, (e: Epic) => e.id in s.epics.value) else [],
        if s.stories.Some? then Filter(d.stories, (t: Story) => t.id in s.stories.value) else [],
        if s.issues.Some? then Filter(d.cards, (c: Card) => c.id in s.issues.value) else []))
  }
}
