/** The sprint blueprint (app/routes/sprints.py): a second set of sprint
  * handlers, keyed on a sprint's `items` list of (type, id) entries, that allows
  * one active sprint per project. */
module SprintRoutes {
  import opened Common
  import opened Records
  import AppSprints

  /** `str.title()` on ASCII text: upper-case the first letter of each run of letters. */
  function TitleCase(s: string): string
  {
    TitleFrom(s, false)
  }

  function TitleFrom(s: string, afterLetter: bool): string
  {
    if s == [] then []
    else
      var c := s[0];
      var isLetter := ('a' <= c <= 'z') || ('A' <= c <= 'Z');
      var out := if !isLetter then c
                 else if afterLetter then LowerChar(c)
                 else if 'a' <= c <= 'z' then (c as int - 32) as char
                 else c;
      [out] + TitleFrom(s[1..], isLetter)
  }

  datatype NewSprintRequest = NewSprintRequest(
    name: Option<string>,
    description: Option<string>,
    projectId: Option<int>,
    startDate: Option<string>,
    endDate: Option<string>)

  /** create_sprint: refused without a truthy name and project id; the new sprint
    * is planned, holds no items and gets an id above every existing one. */
  method CreateSprint(st: Store, req: NewSprintRequest, now: string, actor: string) returns (r: Reply<Sprint>)
    modifies st
    ensures r.Ok? <==> TruthyStr(req.name) && TruthyInt(req.projectId)
    ensures r.Fail? ==> r.error == "Name and project are required" && st.Snapshot() == old(st.Snapshot())
    ensures r.Ok? ==> r.value.status == Some("planning") && r.value.items == Some([])
                      && r.value.name == req.name.value && r.value.projectId == req.projectId
    ensures r.Ok? ==> r.value == Sprint(r.value.id, req.name.value, req.projectId, req.startDate, req.endDate, None,
                                        Some(GetOr(req.description, "")), None, Some("planning"), None, None, None, Some([]),
                                        map["created_by" := actor, "created_at" := now])
    ensures r.Ok? ==> forall s :: s in old(st.sprints) ==> s.id < r.value.id
    ensures r.Ok? ==> st.Snapshot() == old(st.Snapshot()).(sprints := old(st.sprints) + [r.value])
  {
    if !TruthyStr(req.name) || !TruthyInt(req.projectId) {
      return Fail(200, "Name and project are required");
    }
    var id := NextId(st.sprints, (s: Sprint) => s.id);
    var sprint := Sprint(id, req.name.value, req.projectId, req.startDate, req.endDate, None,
                         Some(GetOr(req.description, "")), None, Some("planning"), None, None, None, Some([]),
                         map["created_by" := actor, "created_at" := now]);
    st.sprints := st.sprints + [sprint];
    r := Ok(sprint);
  }

  predicate IsActive(s: Sprint)
  {
    s.status == Some("active")
  }

  /** No two active sprints share a project. */
  predicate OneActivePerProject(sprints: seq<Sprint>)
  {
    forall i, j :: 0 <= i < j < |sprints| && IsActive(sprints[i]) && IsActive(sprints[j]) ==>
      sprints[i].projectId != sprints[j].projectId
  }

  /** The guard of start_sprint: the sprint is not active and no sprint of its project is. */
  predicate MayStart(sprints: seq<Sprint>, k: nat)
    requires k < |sprints|
  {
    !IsActive(sprints[k])
    && forall j :: 0 <= j < |sprints| && IsActive(sprints[j]) ==> sprints[j].projectId != sprints[k].projectId
  }

  /** Starting a sprint under that guard keeps at most one active sprint per project. */
  lemma StartKeepsOneActive(sprints: seq<Sprint>, k: nat, now: string, actor: string)
    requires k < |sprints| && OneActivePerProject(sprints) && MayStart(sprints, k)
    ensures OneActivePerProject(sprints[k := AppSprints.Started(sprints[k], now, actor)])
  {
    var t := sprints[k := AppSprints.Started(sprints[k], now, actor)];
    forall i, j | 0 <= i < j < |t| && IsActive(t[i]) && IsActive(t[j])
      ensures t[i].projectId != t[j].projectId
    {
      if i == k {
        assert IsActive(sprints[j]);
      } else if j == k {
        assert IsActive(sprints[i]);
      }
    }
  }

  /** Completing a sprint never breaks the invariant either. */
  lemma CompleteKeepsOneActive(sprints: seq<Sprint>, k: nat, now: string, actor: string)
    requires k < |sprints| && OneActivePerProject(sprints)
    ensures OneActivePerProject(sprints[k := AppSprints.Completed(sprints[k], now, actor)])
  {
    var t := sprints[k := AppSprints.Completed(sprints[k], now, actor)];
    forall i, j | 0 <= i < j < |t| && IsActive(t[i]) && IsActive(t[j])
      ensures t[i].projectId != t[j].projectId
    {
      assert i != k && j != k;
      assert IsActive(sprints[i]) && IsActive(sprints[j]);
    }
  }

  /** start_sprint: refused for an unknown sprint, an active one, or when its
    * project already has an active sprint; any other status (also 'completed') may start. */
  method StartSprint(st: Store, sprintId: int, now: string, actor: string) returns (r: Reply<string>)
    modifies st
    ensures var k := SprintById(old(st.sprints), sprintId);
      && (r.Ok? <==> k.Some? && MayStart(old(st.sprints), k.value))
      && (k.None? ==> r.error == "Sprint not found")
      && (r.Fail? ==> st.Snapshot() == old(st.Snapshot()))
      && (r.Ok? ==> st.Snapshot() == old(st.Snapshot()).(sprints := old(st.sprints)[k.value := AppSprints.Started(old(st.sprints)[k.value], now, actor)]))
    ensures OneActivePerProject(old(st.sprints)) ==> OneActivePerProject(st.sprints)
  {
    var k := SprintById(st.sprints, sprintId);
    if k.None? {
      return Fail(200, "Sprint not found");
    }
    var sprint := st.sprints[k.value];
    if IsActive(sprint) {
      return Fail(200, "Sprint is already active");
    }
    var other := FindFirst(st.sprints, (s: Sprint) => s.projectId == sprint.projectId && IsActive(s));
    if other.Some? {
      return Fail(200, "There is already an active sprint for this project");
    }
    if OneActivePerProject(st.sprints) {
      StartKeepsOneActive(st.sprints, k.value, now, actor);
    }
    st.sprints := st.sprints[k.value := AppSprints.Started(sprint, now, actor)];
    r := Ok("Sprint started successfully");
  }

  /** complete_sprint: only an active sprint can be completed. */
  method CompleteSprint(st: Store, sprintId: int, now: string, actor: string) returns (r: Reply<string>)
    modifies st
    ensures var k := SprintById(old(st.sprints), sprintId);
      && (r.Ok? <==> k.Some? && IsActive(old(st.sprints)[k.value]))
      && (r.Fail? ==> st.Snapshot() == old(st.Snapshot()))
      && (r.Ok? ==> st.Snapshot() == old(st.Snapshot()).(sprints := old(st.sprints)[k.value := AppSprints.Completed(old(st.sprints)[k.value], now, actor)]))
    ensures OneActivePerProject(old(st.sprints)) ==> OneActivePerProject(st.sprints)
  {
    var k := SprintById(st.sprints, sprintId);
    if k.None? {
      return Fail(200, "Sprint not found");
    }
    var sprint := st.sprints[k.value];
    if !IsActive(sprint) {
      return Fail(200, "Only active sprints can be completed");
    }
    if OneActivePerProject(st.sprints) {
      CompleteKeepsOneActive(st.sprints, k.value, now, actor);
    }
    st.sprints := st.sprints[k.value := AppSprints.Completed(sprint, now, actor)];
    r := Ok("Sprint completed successfully");
  }

  // ------------------------------------------------------------ items

  datatype Entry = EpicEntry(epic: Epic) | StoryEntry(story: Story) | CardEntry(card: Card)

  /** The record an item names, if its type is known and the record exists. */
  function Resolve(d: Data, item: SprintItem): Option<Entry>
  {
    if item.kind == "epic" then
      match EpicById(d.epics, item.id) case Some(k) => Some(EpicEntry(d.epics[k])) case None => None
    else if item.kind == "story" then
      match StoryById(d.stories, item.id) case Some(k) => Some(StoryEntry(d.stories[k])) case None => None
    else if item.kind == "card" then
      match CardById(d.cards, item.id) case Some(k) => Some(CardEntry(d.cards[k])) case None => None
    else None
  }

  /** What an item adds to the list: its record, if it resolves. */
  function Resolved(d: Data, item: SprintItem): seq<Entry>
  {
    match Resolve(d, item) case Some(e) => [e] case None => []
  }

  /** The items, in order, with every dangling or unknown-type item dropped. */
  function Enrich(d: Data, items: seq<SprintItem>): seq<Entry>
  {
    if items == [] then [] else Enrich(d, items[..|items| - 1]) + Resolved(d, items[|items| - 1])
  }

  /** Resolved items, exactly: every entry comes from an item whose record
    * exists and whose type is known, every such item is present, and there
    * are never more entries than items. */
  lemma {:induction false} EnrichSpec(d: Data, items: seq<SprintItem>)
    ensures |Enrich(d, items)| <= |items|
    ensures forall e :: e in Enrich(d, items) ==> exists i :: 0 <= i < |items| && Resolve(d, items[i]) == Some(e)
    ensures forall i :: 0 <= i < |items| && Resolve(d, items[i]).Some? ==> Resolve(d, items[i]).value in Enrich(d, items)
  {
    if items != [] {
      var init := items[..|items| - 1];
      EnrichSpec(d, init);
      assert forall i :: 0 <= i < |init| ==> init[i] == items[i];
      EnrichStep(d, items, Enrich(d, init));
    }
  }

  /** One more item: what held for the items before it holds with its record added. */
  lemma EnrichStep(d: Data, items: seq<SprintItem>, rest: seq<Entry>)
    requires items != []
    requires |rest| <= |items| - 1
    requires forall e :: e in rest ==> exists i :: 0 <= i < |items| - 1 && Resolve(d, items[i]) == Some(e)
    requires forall i :: 0 <= i < |items| - 1 && Resolve(d, items[i]).Some? ==> Resolve(d, items[i]).value in rest
    ensures var r := rest + Resolved(d, items[|items| - 1]);
      && |r| <= |items|
      && (forall e :: e in r ==> exists i :: 0 <= i < |items| && Resolve(d, items[i]) == Some(e))
      && (forall i :: 0 <= i < |items| && Resolve(d, items[i]).Some? ==> Resolve(d, items[i]).value in r)
  {
    var last := |items| - 1;
    var r := rest + Resolved(d, items[last]);
    forall e | e in r ensures exists i :: 0 <= i < |items| && Resolve(d, items[i]) == Some(e) {
      if e !in rest {
        assert Resolve(d, items[last]) == Some(e);
      }
    }
  }

  /** get_sprint_items: the sprint's items resolved in order; an error for an unknown sprint. */
  method GetSprintItems(d: Data, sprintId: int) returns (r: Reply<seq<Entry>>)
    ensures SprintById(d.sprints, sprintId).None? <==> r.Fail?
    ensures r.Ok? ==> r.value == Enrich(d, GetOr(d.sprints[SprintById(d.sprints, sprintId).value].items, []))
  {
    var k := SprintById(d.sprints, sprintId);
    if k.None? {
      return Fail(200, "Sprint not found");
    }
    var items := GetOr(d.sprints[k.value].items, []);
    var enriched: seq<Entry> := [];
    var i := 0;
    while i < |items|
      invariant 0 <= i <= |items|
      invariant enriched == Enrich(d, items[..i])
    {
      assert items[..i + 1][..i] == items[..i];
      var e := Resolve(d, items[i]);
      if e.Some? {
        enriched := enriched + [e.value];
      }
      i := i + 1;
    }
    assert items[..|items|] == items;
    r := Ok(enriched);
  }

  /** Whether an item of that type and id is already in the list. */
  predicate HasItem(items: seq<SprintItem>, kind: string, id: int)
  {
    exists i :: 0 <= i < |items| && items[i].kind == kind && items[i].id == id
  }

  /** No (type, id) pair occurs twice. */
  predicate UniqueItems(items: seq<SprintItem>)
  {
    forall i, j :: 0 <= i < j < |items| ==> !(items[i].kind == items[j].kind && items[i].id == items[j].id)
  }

  /** Appending a pair that is absent keeps the pairs unique. */
  lemma AppendKeepsUnique(items: seq<SprintItem>, item: SprintItem)
    requires UniqueItems(items) && !HasItem(items, item.kind, item.id)
    ensures UniqueItems(items + [item])
  {
    var t := items + [item];
    forall i, j | 0 <= i < j < |t| ensures !(t[i].kind == t[j].kind && t[i].id == t[j].id) {
      if j == |items| {
        assert t[i] == items[i];
      }
    }
  }

  /** add_sprint_item: refused for an unknown sprint, a falsy type or id, an item
    * that does not exist (or of an unknown type) and a (type, id) pair already
    * present; otherwise exactly one entry is appended. */
  method AddSprintItem(st: Store, sprintId: int, kind: Option<string>, itemId: Option<int>, now: string, actor: string)
    returns (r: Reply<string>)
    modifies st
    ensures var k := SprintById(old(st.sprints), sprintId);
      && (r.Ok? <==> k.Some? && TruthyStr(kind) && TruthyInt(itemId)
                     && Resolve(old(st.Snapshot()), SprintItem(kind.value, itemId.value, map[])).Some?
                     && !HasItem(GetOr(old(st.sprints)[k.value].items, []), kind.value, itemId.value))
      && (r.Fail? ==> st.Snapshot() == old(st.Snapshot()))
      && (r.Ok? ==>
            var items := GetOr(old(st.sprints)[k.value].items, []);
            var item := SprintItem(kind.value, itemId.value, map["added_at" := now, "added_by" := actor]);
            st.Snapshot() == old(st.Snapshot()).(sprints := old(st.sprints)[k.value := old(st.sprints)[k.value].(items := Some(items + [item]))])
            && (UniqueItems(items) ==> UniqueItems(items + [item])))
  {
    var k := SprintById(st.sprints, sprintId);
    if k.None? {
      return Fail(200, "Sprint not found");
    }
    if !TruthyStr(kind) || !TruthyInt(itemId) {
      return Fail(200, "Type and ID are required");
    }
    if Resolve(st.Snapshot(), SprintItem(kind.value, itemId.value, map[])).None? {
      return Fail(200, TitleCase(kind.value) + " not found");
    }
    var sprint := st.sprints[k.value];
    var items := GetOr(sprint.items, []);
    if HasItem(items, kind.value, itemId.value) {
      return Fail(200, TitleCase(kind.value) + " already in sprint");
    }
    var item := SprintItem(kind.value, itemId.value, map["added_at" := now, "added_by" := actor]);
    if UniqueItems(items) {
      AppendKeepsUnique(items, item);
    }
    st.sprints := st.sprints[k.value := sprint.(items := Some(items + [item]))];
    r := Ok(TitleCase(kind.value) + " added to sprint");
  }
}
