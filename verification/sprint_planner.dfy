/** The sprint planner of testing_env/static/js/sprints.js: the three selection
  * lists the planner toggles, the lookup of a selected id in the loaded
  * project hierarchy, the capacity indicator, the date check before a sprint
  * is created, and the reset. The page's globals are the fields of one
  * object; requests to the server, rendering and notifications are left out,
  * and what a request returns is a parameter. */
module SprintPlanner {
  import opened Common
  import opened Dates

  // ------------------------------------------------------------ the loaded hierarchy

  /** An epic, story or issue as the hierarchy lists it; only the id and the points matter here. */
  datatype Item = Item(id: int, storyPoints: Option<int>)
  datatype StoryNode = StoryNode(item: Item, issues: Option<seq<Item>>)
  datatype EpicNode = EpicNode(item: Item, stories: Option<seq<StoryNode>>)

  /** The hierarchy object: `epics` is missing in the empty object `{}` the
    * page starts with and resets to. */
  datatype Hierarchy = Hierarchy(epics: Option<seq<EpicNode>>, orphanedStories: Option<seq<StoryNode>>,
                                 orphanedIssues: Option<seq<Item>>)

  const Empty := Hierarchy(None, None, None)

  /** What findItemById gives: an item, nothing, or the TypeError thrown when
    * `epics` is missing. */
  datatype Lookup = Found(item: Item) | Absent | Throws

  /** `items.find(i => i.id === id)`. */
  function FindIn(items: seq<Item>, id: int): (r: Option<Item>)
    ensures r.Some? ==> r.value in items && r.value.id == id
    ensures r.None? <==> forall i :: 0 <= i < |items| ==> items[i].id != id
  {
    if items == [] then None
    else if items[0].id == id then Some(items[0])
    else FindIn(items[1..], id)
  }

  /** `items?.find(...)` on a list that may be missing. */
  function FindInOpt(items: Option<seq<Item>>, id: int): Option<Item>
  {
    if items.None? then None else FindIn(items.value, id)
  }

  function StoryItems(stories: seq<StoryNode>): (r: seq<Item>)
    ensures |r| == |stories| && forall i :: 0 <= i < |r| ==> r[i] == stories[i].item
  {
    seq(|stories|, i requires 0 <= i < |stories| => stories[i].item)
  }

  /** The first story with the id over the epics' story lists, in order. */
  function StoryUnder(epics: seq<EpicNode>, id: int): Option<Item>
  {
    if epics == [] then None
    else
      var here := if epics[0].stories.None? then None else FindIn(StoryItems(epics[0].stories.value), id);
      if here.Some? then here else StoryUnder(epics[1..], id)
  }

  /** The first issue with the id over the issue lists of the given stories. */
  function IssueUnderStories(stories: seq<StoryNode>, id: int): Option<Item>
  {
    if stories == [] then None
    else
      var here := FindInOpt(stories[0].issues, id);
      if here.Some? then here else IssueUnderStories(stories[1..], id)
  }

  /** The first issue with the id over every epic's stories (`epic.stories || []`). */
  function IssueUnder(epics: seq<EpicNode>, id: int): Option<Item>
  {
    if epics == [] then None
    else
      var here := IssueUnderStories(GetOr(epics[0].stories, []), id);
      if here.Some? then here else IssueUnder(epics[1..], id)
  }

  function OrLookup(o: Option<Item>): Lookup { if o.Some? then Found(o.value) else Absent }

  /** findItemById: epics by id; a story under an epic, else an orphaned one; an
    * issue under a story, else an orphaned one; nothing for any other type. */
  function FindItemById(h: Hierarchy, id: int, kind: string): Lookup
  {
    if kind != "epic" && kind != "story" && kind != "issue" then Absent
    else if h.epics.None? then Throws
    else if kind == "epic" then OrLookup(FindIn(EpicItems(h.epics.value), id))
    else if kind == "story" then
      (var s := StoryUnder(h.epics.value, id);
       if s.Some? then Found(s.value)
       else OrLookup(if h.orphanedStories.None? then None else FindIn(StoryItems(h.orphanedStories.value), id)))
    else
      (var i := IssueUnder(h.epics.value, id);
       if i.Some? then Found(i.value) else OrLookup(FindInOpt(h.orphanedIssues, id)))
  }

  function EpicItems(epics: seq<EpicNode>): (r: seq<Item>)
    ensures |r| == |epics| && forall i :: 0 <= i < |r| ==> r[i] == epics[i].item
  {
    seq(|epics|, i requires 0 <= i < |epics| => epics[i].item)
  }

  /** A found item has the id and comes from the list of its type: the epics;
    * an epic's stories or the orphaned stories; a story's issues or the
    * orphaned issues. Nothing is found for another type, and only a hierarchy
    * without epics throws. */
  lemma FindItemSound(h: Hierarchy, id: int, kind: string)
    ensures FindItemById(h, id, kind).Found? ==> FindItemById(h, id, kind).item.id == id
    ensures FindItemById(h, id, kind).Found? && kind == "epic" ==>
      exists e :: e in h.epics.value && e.item == FindItemById(h, id, kind).item
    ensures FindItemById(h, id, kind).Found? && kind == "story" ==>
      InStories(h, FindItemById(h, id, kind).item)
    ensures FindItemById(h, id, kind).Found? && kind == "issue" ==>
      InIssues(h, FindItemById(h, id, kind).item)
    ensures FindItemById(h, id, kind).Throws? <==> h.epics.None? && kind in {"epic", "story", "issue"}
    ensures kind !in {"epic", "story", "issue"} ==> FindItemById(h, id, kind) == Absent
  {
    if h.epics.Some? {
      var epics := h.epics.value;
      if kind == "epic" {
        var r := FindIn(EpicItems(epics), id);
        if r.Some? {
          var i :| 0 <= i < |epics| && EpicItems(epics)[i] == r.value;
          assert epics[i] in epics;
        }
      } else if kind == "story" {
        StoryUnderSound(epics, id);
        if StoryUnder(epics, id).None? && h.orphanedStories.Some? {
          var r := FindIn(StoryItems(h.orphanedStories.value), id);
          if r.Some? {
            var i :| 0 <= i < |h.orphanedStories.value| && StoryItems(h.orphanedStories.value)[i] == r.value;
            assert h.orphanedStories.value[i] in h.orphanedStories.value;
          }
        }
      } else if kind == "issue" {
        IssueUnderSound(epics, id);
      }
    }
  }

  /** The item is a story of some epic or an orphaned story. */
  predicate InStories(h: Hierarchy, it: Item)
  {
    (h.epics.Some? && exists e, s :: e in h.epics.value && e.stories.Some? && s in e.stories.value && s.item == it)
    || (h.orphanedStories.Some? && exists s :: s in h.orphanedStories.value && s.item == it)
  }

  /** The item is an issue of some epic's story or an orphaned issue. */
  predicate InIssues(h: Hierarchy, it: Item)
  {
    (h.epics.Some? && exists e, s :: e in h.epics.value && e.stories.Some? && s in e.stories.value
                                     && s.issues.Some? && it in s.issues.value)
    || (h.orphanedIssues.Some? && it in h.orphanedIssues.value)
  }

  lemma {:induction false} StoryUnderSound(epics: seq<EpicNode>, id: int)
    ensures StoryUnder(epics, id).Some? ==>
              && StoryUnder(epics, id).value.id == id
              && exists e, s :: e in epics && e.stories.Some? && s in e.stories.value && s.item == StoryUnder(epics, id).value
  {
    if epics != [] {
      var e := epics[0];
      if e.stories.Some? && FindIn(StoryItems(e.stories.value), id).Some? {
        var r := FindIn(StoryItems(e.stories.value), id).value;
        var i :| 0 <= i < |e.stories.value| && StoryItems(e.stories.value)[i] == r;
        assert e.stories.value[i] in e.stories.value;
      } else {
        StoryUnderSound(epics[1..], id);
        if StoryUnder(epics[1..], id).Some? {
          var e', s :| e' in epics[1..] && e'.stories.Some? && s in e'.stories.value && s.item == StoryUnder(epics, id).value;
          assert e' in epics;
        }
      }
    }
  }

  lemma {:induction false} IssueUnderStoriesSound(stories: seq<StoryNode>, id: int)
    ensures IssueUnderStories(stories, id).Some? ==>
              && IssueUnderStories(stories, id).value.id == id
              && exists s :: s in stories && s.issues.Some? && IssueUnderStories(stories, id).value in s.issues.value
  {
    if stories != [] {
      if FindInOpt(stories[0].issues, id).Some? {
        assert stories[0] in stories;
      } else {
        IssueUnderStoriesSound(stories[1..], id);
        if IssueUnderStories(stories[1..], id).Some? {
          var s :| s in stories[1..] && s.issues.Some? && IssueUnderStories(stories, id).value in s.issues.value;
          assert s in stories;
        }
      }
    }
  }

  lemma {:induction false} IssueUnderSound(epics: seq<EpicNode>, id: int)
    ensures IssueUnder(epics, id).Some? ==>
              && IssueUnder(epics, id).value.id == id
              && exists e, s :: e in epics && e.stories.Some? && s in e.stories.value
                                && s.issues.Some? && IssueUnder(epics, id).value in s.issues.value
  {
    if epics != [] {
      var e := epics[0];
      IssueUnderStoriesSound(GetOr(e.stories, []), id);
      if IssueUnderStories(GetOr(e.stories, []), id).Some? {
        assert e in epics;
      } else {
        IssueUnderSound(epics[1..], id);
        if IssueUnder(epics[1..], id).Some? {
          var e', s :| e' in epics[1..] && e'.stories.Some? && s in e'.stories.value
                       && s.issues.Some? && IssueUnder(epics, id).value in s.issues.value;
          assert e' in epics;
        }
      }
    }
  }

  // ------------------------------------------------------------ selection lists

  /** `xs.indexOf(x)`: the first index holding x, or -1. */
  function IndexOf(xs: seq<int>, x: int): (r: int)
    ensures -1 <= r < |xs|
    ensures r >= 0 ==> xs[r] == x && forall j :: 0 <= j < r ==> xs[j] != x
    ensures r == -1 <==> x !in xs
  {
    if xs == [] then -1
    else if xs[0] == x then 0
    else
      var k := IndexOf(xs[1..], x);
      if k == -1 then -1 else k + 1
  }

  /** The list after toggling an id: the first occurrence is spliced out, or
    * the id is pushed. */
  function Toggled(xs: seq<int>, x: int): seq<int>
  {
    if x in xs then RemoveFirst(xs, x) else xs + [x]
  }

  /** Splicing out at indexOf is removing the first occurrence. */
  lemma {:induction false} SpliceIsRemoveFirst(xs: seq<int>, x: int, k: int)
    requires x in xs && k == IndexOf(xs, x)
    ensures 0 <= k < |xs| && xs[..k] + xs[k + 1..] == RemoveFirst(xs, x)
  {
    if xs[0] == x {
      assert k == 0;
    } else {
      var tail := xs[1..];
      assert x in tail by {
        var j :| 0 <= j < |xs| && xs[j] == x;
        assert tail[j - 1] == x;
      }
      SpliceIsRemoveFirst(tail, x, k - 1);
      SpliceCons(xs, k);
    }
  }

  /** Splicing past the head splices the tail. */
  lemma SpliceCons(xs: seq<int>, k: int)
    requires 1 <= k < |xs|
    ensures xs[..k] + xs[k + 1..] == [xs[0]] + (xs[1..][..k - 1] + xs[1..][k..])
  {
    assert xs[..k] == [xs[0]] + xs[1..][..k - 1];
  }

  /** Removing the first occurrence keeps a list free of duplicates. */
  lemma {:induction false} RemoveFirstNoDuplicates(xs: seq<int>, x: int)
    requires NoDuplicates(xs)
    ensures NoDuplicates(RemoveFirst(xs, x))
  {
    if xs != [] {
      var tail := xs[1..];
      assert NoDuplicates(tail) by {
        forall i, j | 0 <= i < j < |tail| ensures tail[i] != tail[j] {
          assert tail[i] == xs[i + 1] && tail[j] == xs[j + 1];
        }
      }
      if xs[0] != x {
        RemoveFirstNoDuplicates(tail, x);
        RemoveFirstAll(tail, x);
        assert xs[0] !in tail by {
          forall k | 0 <= k < |tail| ensures tail[k] != xs[0] {
            assert tail[k] == xs[k + 1];
          }
        }
        var r := RemoveFirst(tail, x);
        forall i, j | 0 <= i < j < |[xs[0]] + r| ensures ([xs[0]] + r)[i] != ([xs[0]] + r)[j] {
          if i == 0 {
            assert ([xs[0]] + r)[j] == r[j - 1] && r[j - 1] in r;
          } else {
            assert ([xs[0]] + r)[i] == r[i - 1] && ([xs[0]] + r)[j] == r[j - 1];
          }
        }
      }
    }
  }

  /** Toggling puts the id in exactly when it was out, leaves every other id as
    * it was, and never makes a duplicate. */
  lemma ToggledSpec(xs: seq<int>, x: int)
    requires NoDuplicates(xs)
    ensures x in Toggled(xs, x) <==> x !in xs
    ensures forall y :: y != x ==> (y in Toggled(xs, x) <==> y in xs)
    ensures NoDuplicates(Toggled(xs, x))
  {
    if x in xs {
      RemoveFirstAll(xs, x);
      RemoveFirstNoDuplicates(xs, x);
    } else {
      var r := xs + [x];
      forall i, j | 0 <= i < j < |r| ensures r[i] != r[j] {
        if j == |xs| {
          assert r[i] == xs[i] && xs[i] in xs;
        } else {
          assert r[i] == xs[i] && r[j] == xs[j];
        }
      }
    }
  }

  /** Toggling twice selects the same ids as before; from an unselected id it
    * gives back the very same list. */
  lemma ToggleTwice(xs: seq<int>, x: int)
    requires NoDuplicates(xs)
    ensures forall y :: y in Toggled(Toggled(xs, x), x) <==> y in xs
    ensures x !in xs ==> Toggled(Toggled(xs, x), x) == xs
  {
    ToggledSpec(xs, x);
    ToggledSpec(Toggled(xs, x), x);
    if x !in xs {
      RemoveFirstAppend(xs, x);
    }
  }

  lemma {:induction false} RemoveFirstAppend(xs: seq<int>, x: int)
    requires x !in xs
    ensures RemoveFirst(xs + [x], x) == xs
  {
    if xs != [] {
      assert (xs + [x])[1..] == xs[1..] + [x];
      RemoveFirstAppend(xs[1..], x);
    }
  }

  // ------------------------------------------------------------ capacity

  /** The points an item adds: its story_points when truthy, else nothing. */
  function ItemPoints(it: Item): int
  {
    if it.storyPoints.Some? && it.storyPoints.value != 0 then it.storyPoints.value else 0
  }

  /** The total over the selected ids of one type; None once a lookup throws. */
  function Points(h: Hierarchy, ids: seq<int>, kind: string): Option<int>
    decreases |ids|
  {
    if ids == [] then Some(0)
    else
      match Points(h, ids[..|ids| - 1], kind)
      case None => None
      case Some(t) =>
        match FindItemById(h, ids[|ids| - 1], kind)
        case Throws => None
        case Absent => Some(t)
        case Found(it) => Some(t + ItemPoints(it))
  }

  /** The progress bar width in percent, as the exact fraction num / den. */
  datatype Width = Width(num: int, den: int)

  /** The indicator: the total, the capacity, the bar and whether the warning shows. */
  datatype Capacity = Capacity(total: int, capacity: int, width: Width, warning: bool)

  /** `capacity > 0 ? Math.min(total / capacity * 100, 100) : 0` */
  function Bar(total: int, capacity: int): Width
  {
    if capacity > 0 then (if total >= capacity then Width(100, 1) else Width(100 * total, capacity)) else Width(0, 1)
  }

  function Indicator(total: int, capacity: int): Capacity
  {
    Capacity(total, capacity, Bar(total, capacity), total > capacity && capacity > 0)
  }

  /** The bar never passes 100% and is empty without capacity; the warning
    * shows exactly when the total passes a positive capacity, and then the bar is full. */
  lemma IndicatorSpec(total: int, capacity: int)
    ensures Bar(total, capacity).den > 0 && Bar(total, capacity).num <= 100 * Bar(total, capacity).den
    ensures capacity <= 0 ==> Bar(total, capacity).num == 0
    ensures total >= 0 ==> Bar(total, capacity).num >= 0
    ensures Indicator(total, capacity).warning <==> total > capacity > 0
    ensures Indicator(total, capacity).warning ==> Bar(total, capacity) == Width(100, 1)
  {
  }

  /** Adding an id to a selection adds its item's points to the total, or
    * nothing when it is not found; removing the id again takes them off. */
  lemma {:induction false} PointsAppend(h: Hierarchy, ids: seq<int>, x: int, kind: string)
    requires h.epics.Some? || kind !in {"epic", "story", "issue"}
    ensures Points(h, ids, kind).Some?
    ensures Points(h, ids + [x], kind).Some?
    ensures Points(h, ids + [x], kind).value == Points(h, ids, kind).value
              + (if FindItemById(h, x, kind).Found? then ItemPoints(FindItemById(h, x, kind).item) else 0)
    decreases |ids|
  {
    FindItemSound(h, x, kind);
    if ids != [] {
      PointsAppend(h, ids[..|ids| - 1], ids[|ids| - 1], kind);
    }
    assert (ids + [x])[..|ids|] == ids;
  }

  // ------------------------------------------------------------ the page state

  class Planner {
    var currentSprintId: Option<int>
    var selectedEpics: seq<int>
    var selectedStories: seq<int>
    var selectedIssues: seq<int>
    var projectHierarchy: Hierarchy

    constructor ()
      ensures currentSprintId.None? && selectedEpics == [] && selectedStories == [] && selectedIssues == []
      ensures projectHierarchy == Empty
    {
      currentSprintId := None;
      selectedEpics, selectedStories, selectedIssues := [], [], [];
      projectHierarchy := Empty;
    }

    /** populateEditModal: the sprint's items become the selection. */
    method PopulateSelection(sprintId: int, epicIds: seq<int>, storyIds: seq<int>, issueIds: seq<int>)
      modifies this
      ensures currentSprintId == Some(sprintId)
      ensures selectedEpics == epicIds && selectedStories == storyIds && selectedIssues == issueIds
      ensures projectHierarchy == old(projectHierarchy)
    {
      currentSprintId := Some(sprintId);
      selectedEpics, selectedStories, selectedIssues := epicIds, storyIds, issueIds;
    }

    /** loadProjectHierarchy, when the server answers with success. */
    method HierarchyLoaded(h: Hierarchy)
      modifies this
      ensures projectHierarchy == h
      ensures currentSprintId == old(currentSprintId) && selectedEpics == old(selectedEpics)
      ensures selectedStories == old(selectedStories) && selectedIssues == old(selectedIssues)
    {
      projectHierarchy := h;
    }

    /** toggleItemSelection: the list of the item's type is toggled, the others
      * stay; an unknown type changes nothing. */
    method ToggleItemSelection(id: int, kind: string)
      modifies this
      ensures selectedEpics == if kind == "epic" then Toggled(old(selectedEpics), id) else old(selectedEpics)
      ensures selectedStories == if kind == "story" then Toggled(old(selectedStories), id) else old(selectedStories)
      ensures selectedIssues == if kind == "issue" then Toggled(old(selectedIssues), id) else old(selectedIssues)
      ensures currentSprintId == old(currentSprintId) && projectHierarchy == old(projectHierarchy)
    {
      if kind == "epic" {
        selectedEpics := Toggle(selectedEpics, id);
      } else if kind == "story" {
        selectedStories := Toggle(selectedStories, id);
      } else if kind == "issue" {
        selectedIssues := Toggle(selectedIssues, id);
      }
    }

    /** updateCapacityIndicator with the capacity field read as a number (0
      * when unreadable); None when a lookup throws. */
    method UpdateCapacityIndicator(capacity: int) returns (r: Option<Capacity>)
      ensures r.Some? <==> Points(projectHierarchy, selectedEpics, "epic").Some?
                           && Points(projectHierarchy, selectedStories, "story").Some?
                           && Points(projectHierarchy, selectedIssues, "issue").Some?
      ensures r.Some? ==> r.value == Indicator(Points(projectHierarchy, selectedEpics, "epic").value
                                               + Points(projectHierarchy, selectedStories, "story").value
                                               + Points(projectHierarchy, selectedIssues, "issue").value, capacity)
    {
      var epics := SumPoints(projectHierarchy, selectedEpics, "epic");
      if epics.None? {
        return None;
      }
      var stories := SumPoints(projectHierarchy, selectedStories, "story");
      if stories.None? {
        return None;
      }
      var issues := SumPoints(projectHierarchy, selectedIssues, "issue");
      if issues.None? {
        return None;
      }
      r := Some(Indicator(epics.value + stories.value + issues.value, capacity));
    }

    /** resetSprintPlanning: no sprint, nothing selected, no hierarchy. */
    method ResetSprintPlanning()
      modifies this
      ensures currentSprintId.None? && selectedEpics == [] && selectedStories == [] && selectedIssues == []
      ensures projectHierarchy == Empty
    {
      currentSprintId := None;
      selectedEpics, selectedStories, selectedIssues := [], [], [];
      projectHierarchy := Empty;
    }
  }

  /** indexOf, then splice or push. */
  method Toggle(xs: seq<int>, x: int) returns (r: seq<int>)
    ensures r == Toggled(xs, x)
  {
    var k := IndexOf(xs, x);
    if k > -1 {
      SpliceIsRemoveFirst(xs, x, k);
      r := xs[..k] + xs[k + 1..];
    } else {
      r := xs + [x];
    }
  }

  /** One forEach of updateCapacityIndicator: the truthy points of every found item. */
  method SumPoints(h: Hierarchy, ids: seq<int>, kind: string) returns (r: Option<int>)
    ensures r == Points(h, ids, kind)
  {
    var total := 0;
    var i := 0;
    while i < |ids|
      invariant 0 <= i <= |ids| && Points(h, ids[..i], kind) == Some(total)
    {
      assert ids[..i + 1][..i] == ids[..i];
      var found := FindItemById(h, ids[i], kind);
      if found.Throws? {
        PointsStayNone(h, ids, i + 1, kind);
        return None;
      }
      if found.Found? {
        total := total + ItemPoints(found.item);
      }
      i := i + 1;
    }
    assert ids[..i] == ids;
    r := Some(total);
  }

  /** Once a prefix has thrown, every longer prefix has. */
  lemma {:induction false} PointsStayNone(h: Hierarchy, ids: seq<int>, n: nat, kind: string)
    requires n <= |ids| && Points(h, ids[..n], kind).None?
    ensures Points(h, ids, kind).None?
    decreases |ids| - n
  {
    if n < |ids| {
      assert ids[..n + 1][..n] == ids[..n];
      PointsStayNone(h, ids, n + 1, kind);
    } else {
      assert ids[..n] == ids;
    }
  }

  // ------------------------------------------------------------ createSprint

  /** The date check of createSprint on the two dates as the browser reads
    * them (None for an unreadable one, whose comparisons are all false):
    * the form is refused when the start is not before the end. */
  function RefusesDates(start: Option<Date>, end: Option<Date>): bool
  {
    start.Some? && end.Some? && !Before(start.value, end.value)
  }

  /** Two readable dates pass exactly when the end is a later day; the same
    * day twice is refused, and an unreadable date is never refused. */
  lemma RefusesDatesSpec(start: Date, end: Date)
    requires ValidDate(start) && ValidDate(end)
    ensures !RefusesDates(Some(start), Some(end)) <==> DayNumber(start) < DayNumber(end)
    ensures RefusesDates(Some(start), Some(start))
    ensures !RefusesDates(None, Some(end)) && !RefusesDates(Some(start), None)
  {
    OrderAgrees(start, end);
  }
}
