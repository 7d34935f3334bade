/** The card handlers and queries of the monolithic Flask application (app.py):
  * creating a card under its parents, deleting a card with its comments,
  * the search filter chain and the project hierarchy view. */
module AppCards {
  import opened Common
  import opened Numerals
  import opened Records

  // ------------------------------------------------------------ add_card

  datatype CardRequest = CardRequest(
    projectId: Option<int>,
    epicId: Option<int>,
    storyId: Option<int>,
    title: Option<string>,
    description: Option<string>,
    status: Option<string>,
    assignee: Option<string>,
    priority: Option<string>,
    dueDate: Option<string>,
    storyPoints: Option<int>,
    labels: Option<seq<string>>)

  /** The (project_id, epic_id) a new card is filed under: an existing story
    * decides both, otherwise an existing epic decides the project, otherwise
    * the request's own values stand. */
  function DeriveParents(d: Data, projectId: Option<int>, epicId: Option<int>, storyId: Option<int>)
    : (r: (Option<int>, Option<int>))
    ensures TruthyInt(storyId) && StoryById(d.stories, storyId.value).Some? ==>
      var s := d.stories[StoryById(d.stories, storyId.value).value];
      r == (Some(s.projectId), Some(s.epicId))
    ensures !TruthyInt(storyId) && TruthyInt(epicId) && EpicById(d.epics, epicId.value).Some? ==>
      r == (Some(d.epics[EpicById(d.epics, epicId.value).value].projectId), epicId)
    ensures (TruthyInt(storyId) && StoryById(d.stories, storyId.value).None?)
            || (!TruthyInt(storyId) && (!TruthyInt(epicId) || EpicById(d.epics, epicId.value).None?))
            ==> r == (projectId, epicId)
  {
    if TruthyInt(storyId) then
      match StoryById(d.stories, storyId.value)
      case Some(k) => (Some(d.stories[k].projectId), Some(d.stories[k].epicId))
      case None => (projectId, epicId)
    else if TruthyInt(epicId) then
      match EpicById(d.epics, epicId.value)
      case Some(k) => (Some(d.epics[k].projectId), epicId)
      case None => (projectId, epicId)
    else (projectId, epicId)
  }

  /** add_card: the title key is required (its absence is an unhandled KeyError);
    * the card is filed under the derived parents with an id above every card id. */
  method AddCard(st: Store, req: CardRequest, now: string) returns (r: Reply<Card>)
    modifies st
    ensures r.Ok? <==> req.title.Some?
    ensures r.Fail? ==> st.Snapshot() == old(st.Snapshot())
    ensures r.Ok? ==>
      && (r.value.projectId, r.value.epicId) == DeriveParents(old(st.Snapshot()), req.projectId, req.epicId, req.storyId)
      && r.value.storyId == req.storyId && r.value.title == req.title.value
      && r.value.status == GetOr(req.status, "todo") && r.value.priority == GetOr(req.priority, "Medium")
      && r.value.description == Some(GetOr(req.description, "")) && r.value.assignee == Some(GetOr(req.assignee, ""))
      && r.value.dueDate == Some(GetOr(req.dueDate, "")) && r.value.labels == Some(GetOr(req.labels, []))
      && r.value.storyPoints == req.storyPoints && r.value.sprintIds.None?
      && r.value.stamps == map["created_at" := now]
      && (forall c :: c in old(st.cards) ==> c.id < r.value.id)
      && (old(st.cards) == [] ==> r.value.id == 1)
      && st.Snapshot() == old(st.Snapshot()).(cards := old(st.cards) + [r.value])
  {
    if req.title.None? {
      return Fail(500, "'title'");
    }
    var parents := DeriveParents(st.Snapshot(), req.projectId, req.epicId, req.storyId);
    var id := NextId(st.cards, (c: Card) => c.id);
    var card := Card(id, parents.0, parents.1, req.storyId, req.title.value, Some(GetOr(req.description, "")),
                     GetOr(req.status, "todo"), GetOr(req.priority, "Medium"), Some(GetOr(req.assignee, "")),
                     Some(GetOr(req.dueDate, "")), Some(GetOr(req.labels, [])), req.storyPoints, None,
                     map["created_at" := now]);
    st.cards := st.cards + [card];
    r := Ok(card);
  }

  // ------------------------------------------------------------ delete_card

  /** delete_card: 404 exactly when no card has the id; otherwise every card
    * with the id and every comment on it is gone, and nothing else changes. */
  method DeleteCard(st: Store, cardId: int) returns (r: Reply<string>)
    modifies st
    ensures r.Fail? <==> forall i :: 0 <= i < |old(st.cards)| ==> old(st.cards)[i].id != cardId
    ensures r.Fail? ==> r.code == 404 && st.Snapshot() == old(st.Snapshot())
    ensures r.Ok? ==> st.Snapshot() == old(st.Snapshot()).(
      cards := Filter(old(st.cards), (c: Card) => c.id != cardId),
      comments := Filter(old(st.comments), (m: Comment) => m.cardId != cardId))
    ensures r.Ok? ==> (forall i :: 0 <= i < |st.cards| ==> st.cards[i].id != cardId)
                      && (forall i :: 0 <= i < |st.comments| ==> st.comments[i].cardId != cardId)
  {
    var kept := Filter(st.cards, (c: Card) => c.id != cardId);
    FilterKeepsAll(st.cards, (c: Card) => c.id != cardId);
    if |kept| == |st.cards| {
      return Fail(404, "Card not found");
    }
    st.cards := kept;
    st.comments := Filter(st.comments, (m: Comment) => m.cardId != cardId);
    r := Ok("deleted");
  }

  /** Deleting removes exactly the comments on that card: any other comment is kept. */
  lemma DeleteKeepsOtherComments(comments: seq<Comment>, cardId: int, m: Comment)
    requires m in comments && m.cardId != cardId
    ensures m in Filter(comments, (x: Comment) => x.cardId != cardId)
  {
    var i :| 0 <= i < |comments| && comments[i] == m;
  }

  // ------------------------------------------------------------ search

  /** The query-string arguments of /api/search; an empty string means "no filter". */
  datatype SearchArgs = SearchArgs(q: string, status: string, priority: string, assignee: string,
                                   projectId: string, labelName: string)

  function ProjectIs(pid: int): Card -> bool { (c: Card) => c.projectId == Some(pid) }
  function StatusIs(v: string): Card -> bool { (c: Card) => c.status == v }
  function PriorityIs(v: string): Card -> bool { (c: Card) => c.priority == v }
  function AssigneeIs(v: string): Card -> bool { (c: Card) => Lower(GetOr(c.assignee, "")) == Lower(v) }
  function LabelIs(v: string): Card -> bool { (c: Card) => v in GetOr(c.labels, []) }
  function TextHas(q: string): Card -> bool
  {
    (c: Card) => IsSubstring(q, Lower(c.title)) || IsSubstring(q, Lower(GetOr(c.description, "")))
  }

  /** search_cards: the filters in the handler's order. The project filter is
    * the first comprehension and calls `int()` once per card, so a project_id
    * that `int()` rejects is an unhandled ValueError exactly when there is a card. */
  function SearchCards(cards: seq<Card>, a: SearchArgs): (r: Reply<seq<Card>>)
    ensures r.Fail? <==> a.projectId != "" && ParseInt(a.projectId).None? && cards != []
    ensures r.Ok? ==> |r.value| <= |cards|
  {
    var pid := ParseInt(a.projectId);
    if a.projectId != "" && pid.None? && cards != [] then Fail(500, "invalid literal for int()")
    else
      var q := Lower(a.q);
      var s1 := Narrow(cards, a.projectId != "", ProjectIs(GetOr(pid, 0)));
      var s2 := Narrow(s1, a.status != "", StatusIs(a.status));
      var s3 := Narrow(s2, a.priority != "", PriorityIs(a.priority));
      var s4 := Narrow(s3, a.assignee != "", AssigneeIs(a.assignee));
      var s5 := Narrow(s4, a.labelName != "", LabelIs(a.labelName));
      Ok(Narrow(s5, q != "", TextHas(q)))
  }

  /** Whether the n-th filter of the chain (1 = project ... 6 = text) is switched on. */
  function On(a: SearchArgs, n: nat): bool
  {
    if n == 1 then a.projectId != ""
    else if n == 2 then a.status != ""
    else if n == 3 then a.priority != ""
    else if n == 4 then a.assignee != ""
    else if n == 5 then a.labelName != ""
    else Lower(a.q) != ""
  }

  /** The test of the n-th filter. */
  function Test(a: SearchArgs, pid: int, n: nat): Card -> bool
  {
    if n == 1 then ProjectIs(pid)
    else if n == 2 then StatusIs(a.status)
    else if n == 3 then PriorityIs(a.priority)
    else if n == 4 then AssigneeIs(a.assignee)
    else if n == 5 then LabelIs(a.labelName)
    else TextHas(Lower(a.q))
  }

  /** The n-th filter, passed by every card when its argument is empty. */
  predicate Check(a: SearchArgs, pid: int, n: nat, c: Card)
  {
    !On(a, n) || Test(a, pid, n)(c)
  }

  /** The card passes the first n filters. */
  predicate Upto(a: SearchArgs, pid: int, n: nat, c: Card)
  {
    n == 0 || (Upto(a, pid, n - 1, c) && Check(a, pid, n, c))
  }

  /** What a card must satisfy to be found: every non-empty argument's test. */
  predicate Matches(a: SearchArgs, pid: int, c: Card)
  {
    (a.projectId == "" || c.projectId == Some(pid))
    && (a.status == "" || c.status == a.status)
    && (a.priority == "" || c.priority == a.priority)
    && (a.assignee == "" || Lower(GetOr(c.assignee, "")) == Lower(a.assignee))
    && (a.labelName == "" || a.labelName in GetOr(c.labels, []))
    && (a.q == "" || IsSubstring(Lower(a.q), Lower(c.title)) || IsSubstring(Lower(a.q), Lower(GetOr(c.description, ""))))
  }

  function UptoTest(a: SearchArgs, pid: int, n: nat): Card -> bool
  {
    (c: Card) => Upto(a, pid, n, c)
  }

  function MatchTest(a: SearchArgs, pid: int): Card -> bool
  {
    (c: Card) => Matches(a, pid, c)
  }

  /** Applying filter n to the cards that passed the first n - 1. */
  lemma NarrowStep(cards: seq<Card>, a: SearchArgs, pid: int, n: nat)
    requires 1 <= n
    ensures Narrow(Filter(cards, UptoTest(a, pid, n - 1)), On(a, n), Test(a, pid, n)) == Filter(cards, UptoTest(a, pid, n))
  {
    NarrowAsFilter(Filter(cards, UptoTest(a, pid, n - 1)), On(a, n), Test(a, pid, n));
    FilterFilter(cards, UptoTest(a, pid, n - 1), Relaxed(On(a, n), Test(a, pid, n)), UptoTest(a, pid, n));
  }

  /** The chain finds exactly the subsequence of cards that satisfy every
    * non-empty filter, in their stored order. */
  lemma SearchIsOneFilter(cards: seq<Card>, a: SearchArgs)
    requires SearchCards(cards, a).Ok?
    ensures SearchCards(cards, a).value == Filter(cards, MatchTest(a, GetOr(ParseInt(a.projectId), 0)))
  {
    var pid := GetOr(ParseInt(a.projectId), 0);
    SearchStages(cards, a);
    assert Filter(cards, UptoTest(a, pid, 6)) == Filter(cards, MatchTest(a, pid)) by {
      forall i | 0 <= i < |cards| ensures UptoTest(a, pid, 6)(cards[i]) == MatchTest(a, pid)(cards[i]) {
        PassingAllIsMatching(a, pid, cards[i]);
      }
      FilterSame(cards, UptoTest(a, pid, 6), MatchTest(a, pid));
    }
  }

  /** The chain's result is the cards passing all six tests. */
  lemma SearchStages(cards: seq<Card>, a: SearchArgs)
    requires SearchCards(cards, a).Ok?
    ensures SearchCards(cards, a).value == Filter(cards, UptoTest(a, GetOr(ParseInt(a.projectId), 0), 6))
  {
    var pid := GetOr(ParseInt(a.projectId), 0);
    var s3 := FirstStages(cards, a, pid);
    var s6 := LastStages(cards, a, pid);
  }

  /** The project, status and priority filters leave the cards passing the first three tests. */
  lemma FirstStages(cards: seq<Card>, a: SearchArgs, pid: int) returns (s3: seq<Card>)
    ensures s3 == Narrow(Narrow(Narrow(cards, a.projectId != "", ProjectIs(pid)), a.status != "", StatusIs(a.status)),
                         a.priority != "", PriorityIs(a.priority))
    ensures s3 == Filter(cards, UptoTest(a, pid, 3))
  {
    FilterTrue(cards, UptoTest(a, pid, 0));
    Stage1(cards, a, pid);
    Stage2(cards, a, pid);
    Stage3(cards, a, pid);
    s3 := Filter(cards, UptoTest(a, pid, 3));
  }

  /** The assignee, label and text filters take the cards passing three tests to those passing all six. */
  lemma LastStages(cards: seq<Card>, a: SearchArgs, pid: int) returns (s6: seq<Card>)
    ensures s6 == Narrow(Narrow(Narrow(Filter(cards, UptoTest(a, pid, 3)), a.assignee != "", AssigneeIs(a.assignee)),
                                a.labelName != "", LabelIs(a.labelName)), Lower(a.q) != "", TextHas(Lower(a.q)))
    ensures s6 == Filter(cards, UptoTest(a, pid, 6))
  {
    Stage4(cards, a, pid);
    Stage5(cards, a, pid);
    Stage6(cards, a, pid);
    s6 := Filter(cards, UptoTest(a, pid, 6));
  }

  /** The project filter takes the cards passing 0 tests to those passing 1. */
  lemma Stage1(cards: seq<Card>, a: SearchArgs, pid: int)
    ensures Narrow(Filter(cards, UptoTest(a, pid, 0)), a.projectId != "", ProjectIs(pid)) == Filter(cards, UptoTest(a, pid, 1))
  {
    NarrowStep(cards, a, pid, 1);
  }

  /** The status filter takes the cards passing 1 tests to those passing 2. */
  lemma Stage2(cards: seq<Card>, a: SearchArgs, pid: int)
    ensures Narrow(Filter(cards, UptoTest(a, pid, 1)), a.status != "", StatusIs(a.status)) == Filter(cards, UptoTest(a, pid, 2))
  {
    NarrowStep(cards, a, pid, 2);
  }

  /** The priority filter takes the cards passing 2 tests to those passing 3. */
  lemma Stage3(cards: seq<Card>, a: SearchArgs, pid: int)
    ensures Narrow(Filter(cards, UptoTest(a, pid, 2)), a.priority != "", PriorityIs(a.priority)) == Filter(cards, UptoTest(a, pid, 3))
  {
    NarrowStep(cards, a, pid, 3);
  }

  /** The assignee filter takes the cards passing 3 tests to those passing 4. */
  lemma Stage4(cards: seq<Card>, a: SearchArgs, pid: int)
    ensures Narrow(Filter(cards, UptoTest(a, pid, 3)), a.assignee != "", AssigneeIs(a.assignee)) == Filter(cards, UptoTest(a, pid, 4))
  {
    NarrowStep(cards, a, pid, 4);
  }

  /** The label filter takes the cards passing 4 tests to those passing 5. */
  lemma Stage5(cards: seq<Card>, a: SearchArgs, pid: int)
    ensures Narrow(Filter(cards, UptoTest(a, pid, 4)), a.labelName != "", LabelIs(a.labelName)) == Filter(cards, UptoTest(a, pid, 5))
  {
    NarrowStep(cards, a, pid, 5);
  }

  /** The text filter takes the cards passing 5 tests to those passing 6. */
  lemma Stage6(cards: seq<Card>, a: SearchArgs, pid: int)
    ensures Narrow(Filter(cards, UptoTest(a, pid, 5)), Lower(a.q) != "", TextHas(Lower(a.q))) == Filter(cards, UptoTest(a, pid, 6))
  {
    NarrowStep(cards, a, pid, 6);
  }

  lemma PassingAllIsMatching(a: SearchArgs, pid: int, c: Card)
    ensures Upto(a, pid, 6, c) == Matches(a, pid, c)
  {
    assert (Lower(a.q) == "") == (a.q == "") by { assert |Lower(a.q)| == |a.q|; }
    assert Upto(a, pid, 6, c) == (Upto(a, pid, 5, c) && Check(a, pid, 6, c));
    assert Upto(a, pid, 5, c) == (Upto(a, pid, 4, c) && Check(a, pid, 5, c));
    assert Upto(a, pid, 4, c) == (Upto(a, pid, 3, c) && Check(a, pid, 4, c));
    assert Upto(a, pid, 3, c) == (Upto(a, pid, 2, c) && Check(a, pid, 3, c));
    assert Upto(a, pid, 2, c) == (Upto(a, pid, 1, c) && Check(a, pid, 2, c));
    assert Upto(a, pid, 1, c) == Check(a, pid, 1, c);
  }

  // ------------------------------------------------------------ hierarchy

  datatype StoryNode = StoryNode(story: Story, issues: seq<Card>)
  datatype EpicNode = EpicNode(epic: Epic, stories: seq<StoryNode>)
  datatype Hierarchy = Hierarchy(epics: seq<EpicNode>, orphanedStories: seq<Story>, orphanedIssues: seq<Card>)

  predicate HasEpic(epics: seq<Epic>, id: int)
  {
    exists i :: 0 <= i < |epics| && epics[i].id == id
  }

  predicate HasStory(stories: seq<Story>, id: Option<int>)
  {
    exists i :: 0 <= i < |stories| && Some(stories[i].id) == id
  }

  function StoryNodes(d: Data, stories: seq<Story>): (r: seq<StoryNode>)
    ensures |r| == |stories|
    ensures forall i :: 0 <= i < |r| ==>
      r[i].story == stories[i] && r[i].issues == Filter(d.cards, (c: Card) => c.storyId == Some(stories[i].id))
  {
    if stories == [] then []
    else [StoryNode(stories[0], Filter(d.cards, (c: Card) => c.storyId == Some(stories[0].id)))]
         + StoryNodes(d, stories[1..])
  }

  function EpicNodes(d: Data, epics: seq<Epic>): (r: seq<EpicNode>)
    ensures |r| == |epics|
    ensures forall i :: 0 <= i < |r| ==>
      r[i].epic == epics[i] && r[i].stories == StoryNodes(d, Filter(d.stories, (s: Story) => s.epicId == epics[i].id))
  {
    if epics == [] then []
    else [EpicNode(epics[0], StoryNodes(d, Filter(d.stories, (s: Story) => s.epicId == epics[0].id)))]
         + EpicNodes(d, epics[1..])
  }

  /** Some node of the list is the epic's. */
  predicate Lists(nodes: seq<EpicNode>, e: Epic)
  {
    exists i :: 0 <= i < |nodes| && nodes[i].epic == e
  }

  /** Every epic given is the epic of one of the nodes. */
  lemma EpicNodesList(d: Data, epics: seq<Epic>)
    ensures forall e :: e in epics ==> Lists(EpicNodes(d, epics), e)
  {
    forall e | e in epics ensures Lists(EpicNodes(d, epics), e) {
      var i :| 0 <= i < |epics| && epics[i] == e;
      assert EpicNodes(d, epics)[i].epic == e;
    }
  }

  /** get_project_hierarchy: the project's epics with their stories and those
    * stories' cards, plus the stories whose epic is not one of the project's
    * epics and the project's cards whose story does not exist. */
  function ProjectHierarchy(d: Data, projectId: int): (r: Hierarchy)
    ensures forall i :: 0 <= i < |r.epics| ==> r.epics[i].epic in d.epics && r.epics[i].epic.projectId == projectId
    ensures forall e :: e in d.epics && e.projectId == projectId ==> Lists(r.epics, e)
    ensures forall s :: s in r.orphanedStories <==>
      s in d.stories && s.projectId == projectId
      && !HasEpic(Filter(d.epics, (e: Epic) => e.projectId == projectId), s.epicId)
    ensures forall c :: c in r.orphanedIssues <==>
      c in d.cards && c.projectId == Some(projectId) && !HasStory(d.stories, c.storyId)
  {
    var epics := Filter(d.epics, (e: Epic) => e.projectId == projectId);
    var orphanStories := Filter(d.stories, (s: Story) => s.projectId == projectId && !HasEpic(epics, s.epicId));
    var orphanIssues := Filter(d.cards, (c: Card) => c.projectId == Some(projectId) && !HasStory(d.stories, c.storyId));
    FilterMembers(d.stories, (s: Story) => s.projectId == projectId && !HasEpic(epics, s.epicId));
    FilterMembers(d.cards, (c: Card) => c.projectId == Some(projectId) && !HasStory(d.stories, c.storyId));
    FilterMembers(d.epics, (e: Epic) => e.projectId == projectId);
    EpicNodesList(d, epics);
    Hierarchy(EpicNodes(d, epics), orphanStories, orphanIssues)
  }

  /** Nothing of the project is lost: each of its stories is either listed under
    * one of its epics or reported as orphaned. */
  lemma HierarchyCoversStories(d: Data, projectId: int, s: Story)
    requires s in d.stories && s.projectId == projectId
    ensures var h := ProjectHierarchy(d, projectId);
      s in h.orphanedStories
      || exists i, j :: 0 <= i < |h.epics| && 0 <= j < |h.epics[i].stories| && h.epics[i].stories[j].story == s
  {
    var h := ProjectHierarchy(d, projectId);
    var epics := Filter(d.epics, (e: Epic) => e.projectId == projectId);
    if s !in h.orphanedStories {
      var i :| 0 <= i < |epics| && epics[i].id == s.epicId;
      var under := Filter(d.stories, (t: Story) => t.epicId == epics[i].id);
      var k :| 0 <= k < |d.stories| && d.stories[k] == s;
      assert s in under;
      var j :| 0 <= j < |under| && under[j] == s;
      assert h.epics[i].stories[j].story == s;
    }
  }
}
