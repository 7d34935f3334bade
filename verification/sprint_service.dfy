/** `SprintService` (app_modules/services/sprint_service.py): sprint operations
  * over the list kept in the sprints file. Every operation reads the whole
  * file, changes the list and writes it back; the file's contents are the
  * `sprints` field here. */
module SprintService {
  import opened Common
  import opened Dates
  import opened IsoTimes
  import opened SprintModel

  /** A date argument of `update_sprint`: a date object, or text for
    * `datetime.fromisoformat(...).date()`. */
  datatype DateArg = Given(day: Day) | Text(text: string)

  /** One keyword argument of `update_sprint`; `Other` names a key the sprint has no attribute for. */
  datatype Change =
    | SetId(id: int)
    | SetName(name: string)
    | SetProjectId(projectId: int)
    | SetStartDate(start: DateArg)
    | SetEndDate(end: DateArg)
    | SetGoal(goal: string)
    | SetStatus(status: string)
    | SetStoryPoints(points: int)
    | SetCreatedAt(createdAt: CreatedAt)
    | SetIssues(issues: seq<int>)
    | Other(key: string)

  function DateOf(a: DateArg): (r: Option<Day>)
    ensures a.Given? ==> r == Some(a.day)
  {
    match a
    case Given(day) => Some(day)
    case Text(t) => DayOf(t)
  }

  /** One `setattr`; None where `fromisoformat` raises. */
  function ApplyChange(s: Sprint, c: Change): Option<Sprint>
  {
    match c
    case SetId(v) => Some(s.(id := v))
    case SetName(v) => Some(s.(name := v))
    case SetProjectId(v) => Some(s.(projectId := v))
    case SetStartDate(a) => (match DateOf(a) case Some(day) => Some(s.(startDate := day)) case None => None)
    case SetEndDate(a) => (match DateOf(a) case Some(day) => Some(s.(endDate := day)) case None => None)
    case SetGoal(v) => Some(s.(goal := v))
    case SetStatus(v) => Some(s.(status := v))
    case SetStoryPoints(v) => Some(s.(storyPoints := v))
    case SetCreatedAt(v) => Some(s.(createdAt := v))
    case SetIssues(v) => Some(s.(issues := v))
    case Other(_) => Some(s)
  }

  /** The keyword arguments applied in order; None as soon as one raises. */
  function ApplyChanges(s: Sprint, cs: seq<Change>): Option<Sprint>
    decreases |cs|
  {
    if cs == [] then Some(s)
    else match ApplyChange(s, cs[0])
      case None => None
      case Some(t) => ApplyChanges(t, cs[1..])
  }

  /** Keys the sprint has no attribute for change nothing. */
  lemma {:induction false} OnlyExistingAttributes(s: Sprint, cs: seq<Change>)
    requires forall i :: 0 <= i < |cs| ==> cs[i].Other?
    ensures ApplyChanges(s, cs) == Some(s)
    decreases |cs|
  {
    if cs != [] {
      OnlyExistingAttributes(s, cs[1..]);
    }
  }

  /** An update that names neither `id` nor `issues` keeps both. */
  lemma {:induction false} UpdateKeepsIdAndIssues(s: Sprint, cs: seq<Change>)
    requires forall i :: 0 <= i < |cs| ==> !cs[i].SetId? && !cs[i].SetIssues?
    requires ApplyChanges(s, cs).Some?
    ensures ApplyChanges(s, cs).value.id == s.id && ApplyChanges(s, cs).value.issues == s.issues
    decreases |cs|
  {
    if cs != [] {
      var t := ApplyChange(s, cs[0]).value;
      assert t.id == s.id && t.issues == s.issues;
      UpdateKeepsIdAndIssues(t, cs[1..]);
    }
  }

  /** Date text that `fromisoformat` rejects makes the whole update fail. */
  lemma BadDateFails(s: Sprint, text: string, rest: seq<Change>)
    requires FromIsoFormat(text).None?
    ensures ApplyChanges(s, [SetStartDate(Text(text))] + rest).None?
    ensures ApplyChanges(s, [SetEndDate(Text(text))] + rest).None?
  {
  }

  /** Date text that `fromisoformat` reads sets the date to its day, whatever
    * time of day follows it. */
  lemma DateTextSetsDay(s: Sprint, text: string)
    requires FromIsoFormat(text).Some?
    ensures ApplyChanges(s, [SetStartDate(Text(text))]) == Some(s.(startDate := FromIsoFormat(text).value.date))
    ensures ApplyChanges(s, [SetEndDate(Text(text))]) == Some(s.(endDate := FromIsoFormat(text).value.date))
  {
    assert [SetStartDate(Text(text))][1..] == [];
    assert [SetEndDate(Text(text))][1..] == [];
  }

  /** A date and time such as "2024-01-05T09:00" sets the start date to 5 January 2024. */
  lemma DateTimeTextAccepted(s: Sprint)
    ensures ApplyChanges(s, [SetStartDate(Text("2024-01-05T09:00"))]) == Some(s.(startDate := Date(2024, 1, 5)))
  {
    IsoAccepts();
    DateTextSetsDay(s, "2024-01-05T09:00");
  }

  function Position(sprints: seq<Sprint>, id: int): Option<nat>
  {
    FindFirst(sprints, (s: Sprint) => s.id == id)
  }

  /** What `update_sprint` returns: the updated sprint, None, or the ValueError it raises. */
  datatype Outcome = Updated(sprint: Sprint) | NoSprint | BadDate

  class Service {
    /** The contents of the sprints file. */
    var sprints: seq<Sprint>

    constructor (contents: seq<Sprint>)
      ensures sprints == contents
    {
      sprints := contents;
    }

    /** `get_sprint_by_id` */
    function SprintById(id: int): (r: Option<Sprint>)
      reads this
      ensures r.Some? <==> exists i :: 0 <= i < |sprints| && sprints[i].id == id
      ensures r.Some? ==> r.value.id == id && r.value in sprints
    {
      match Position(sprints, id) case Some(k) => Some(sprints[k]) case None => None
    }

    /** `get_sprints_by_project` */
    function SprintsByProject(projectId: int): (r: seq<Sprint>)
      reads this
      ensures forall i :: 0 <= i < |r| ==> r[i].projectId == projectId && r[i] in sprints
      ensures forall i :: 0 <= i < |sprints| && sprints[i].projectId == projectId ==> sprints[i] in r
    {
      Filter(sprints, (s: Sprint) => s.projectId == projectId)
    }

    /** `get_active_sprints`, with today as a parameter. */
    function ActiveSprints(today: Day): (r: seq<Sprint>)
      reads this
      ensures forall i :: 0 <= i < |r| ==> IsActive(r[i], today) && r[i] in sprints
      ensures forall i :: 0 <= i < |sprints| && IsActive(sprints[i], today) ==> sprints[i] in r
    {
      Filter(sprints, (s: Sprint) => IsActive(s, today))
    }

    /** `create_sprint`: one sprint appended, planned, with no issues and an id above all others. */
    method CreateSprint(name: string, projectId: int, startDate: Day, endDate: Day,
                        goal: string, storyPoints: int, now: Stamp) returns (s: Sprint)
      modifies this
      ensures sprints == old(sprints) + [s]
      ensures s.status == "planning" && s.issues == []
      ensures s.name == name && s.projectId == projectId && s.startDate == startDate && s.endDate == endDate
      ensures s.goal == goal && s.storyPoints == storyPoints && s.createdAt == At(now)
      ensures forall t :: t in old(sprints) ==> t.id < s.id
      ensures old(sprints) == [] ==> s.id == 1
    {
      var id := NextId(sprints, (t: Sprint) => t.id);
      s := Create(id, name, projectId, startDate, endDate, goal, "planning", storyPoints, now);
      sprints := sprints + [s];
    }

    /** `update_sprint`: the keyword arguments applied in order to the first
      * sprint with the id; the file is written only when all of them succeed. */
    method UpdateSprint(id: int, changes: seq<Change>) returns (r: Outcome)
      modifies this
      ensures var k := Position(old(sprints), id);
        && (r == NoSprint <==> k.None?)
        && (r == BadDate <==> k.Some? && ApplyChanges(old(sprints)[k.value], changes).None?)
        && (r.Updated? ==> k.Some? && ApplyChanges(old(sprints)[k.value], changes) == Some(r.sprint)
                           && sprints == old(sprints)[k.value := r.sprint])
        && (!r.Updated? ==> sprints == old(sprints))
    {
      var k := Position(sprints, id);
      if k.None? {
        return NoSprint;
      }
      var s := sprints[k.value];
      var i := 0;
      while i < |changes|
        invariant 0 <= i <= |changes|
        invariant ApplyChanges(sprints[k.value], changes) == ApplyChanges(s, changes[i..])
      {
        assert changes[i..][1..] == changes[i + 1..];
        var next := ApplyChange(s, changes[i]);
        if next.None? {
          return BadDate;
        }
        s := next.value;
        i := i + 1;
      }
      sprints := sprints[k.value := s];
      r := Updated(s);
    }

    /** `start_sprint`: sets the status with no transition guard; false iff the sprint is unknown. */
    method StartSprint(id: int) returns (ok: bool)
      modifies this
      ensures var k := Position(old(sprints), id);
        && (ok <==> k.Some?)
        && (ok ==> sprints == old(sprints)[k.value := old(sprints)[k.value].(status := "active")])
        && (!ok ==> sprints == old(sprints))
    {
      var r := UpdateSprint(id, [SetStatus("active")]);
      ok := r.Updated?;
    }

    /** `complete_sprint`: likewise, to 'completed', from any status. */
    method CompleteSprint(id: int) returns (ok: bool)
      modifies this
      ensures var k := Position(old(sprints), id);
        && (ok <==> k.Some?)
        && (ok ==> sprints == old(sprints)[k.value := old(sprints)[k.value].(status := "completed")])
        && (!ok ==> sprints == old(sprints))
    {
      var r := UpdateSprint(id, [SetStatus("completed")]);
      ok := r.Updated?;
    }

    /** `delete_sprint`: true iff some sprint had the id; afterwards none has it. */
    method DeleteSprint(id: int) returns (ok: bool)
      modifies this
      ensures ok <==> exists i :: 0 <= i < |old(sprints)| && old(sprints)[i].id == id
      ensures sprints == Filter(old(sprints), (s: Sprint) => s.id != id)
      ensures forall i :: 0 <= i < |sprints| ==> sprints[i].id != id
    {
      var kept := Filter(sprints, (s: Sprint) => s.id != id);
      FilterKeepsAll(sprints, (s: Sprint) => s.id != id);
      if |kept| < |sprints| {
        sprints := kept;
        return true;
      }
      FilterTrue(sprints, (s: Sprint) => s.id != id);
      ok := false;
    }

    /** The write-back loop: the first sprint with the id is replaced. */
    method ReplaceFirst(id: int, s: Sprint)
      modifies this
      ensures Position(old(sprints), id).Some? ==> sprints == old(sprints)[Position(old(sprints), id).value := s]
      ensures Position(old(sprints), id).None? ==> sprints == old(sprints)
    {
      var i := 0;
      while i < |sprints|
        invariant 0 <= i <= |sprints| && sprints == old(sprints)
        invariant forall j :: 0 <= j < i ==> sprints[j].id != id
      {
        if sprints[i].id == id {
          assert Position(sprints, id) == Some(i);
          sprints := sprints[i := s];
          return;
        }
        i := i + 1;
      }
    }

    /** `assign_issue_to_sprint`: true iff the sprint exists and the issue is not yet in it. */
    method AssignIssue(sprintId: int, issueId: int) returns (ok: bool)
      modifies this
      ensures var k := Position(old(sprints), sprintId);
        && (ok <==> k.Some? && issueId !in old(sprints)[k.value].issues)
        && (ok ==> sprints == old(sprints)[k.value := old(sprints)[k.value].(issues := old(sprints)[k.value].issues + [issueId])])
        && (!ok ==> sprints == old(sprints))
    {
      var k := Position(sprints, sprintId);
      if k.Some? && issueId !in sprints[k.value].issues {
        var s := sprints[k.value];
        ReplaceFirst(sprintId, s.(issues := s.issues + [issueId]));
        return true;
      }
      ok := false;
    }

    /** `remove_issue_from_sprint`: true iff the issue is in the sprint; one occurrence goes. */
    method RemoveIssue(sprintId: int, issueId: int) returns (ok: bool)
      modifies this
      ensures var k := Position(old(sprints), sprintId);
        && (ok <==> k.Some? && issueId in old(sprints)[k.value].issues)
        && (ok ==> sprints == old(sprints)[k.value := old(sprints)[k.value].(issues := RemoveFirst(old(sprints)[k.value].issues, issueId))])
        && (!ok ==> sprints == old(sprints))
    {
      var k := Position(sprints, sprintId);
      if k.Some? && issueId in sprints[k.value].issues {
        var s := sprints[k.value];
        ReplaceFirst(sprintId, s.(issues := RemoveFirst(s.issues, issueId)));
        return true;
      }
      ok := false;
    }
  }

  /** Assigning only absent issues keeps every sprint's issue list free of duplicates. */
  lemma AssignKeepsDistinct(issues: seq<int>, issueId: int)
    requires NoDuplicates(issues) && issueId !in issues
    ensures NoDuplicates(issues + [issueId])
  {
    var t := issues + [issueId];
    forall i, j | 0 <= i < j < |t| ensures t[i] != t[j] {
      if j == |issues| {
        assert t[i] == issues[i];
      }
    }
  }

  /** Removing an issue from a duplicate-free list removes it entirely and keeps the rest. */
  lemma RemoveLeavesNone(issues: seq<int>, issueId: int)
    requires NoDuplicates(issues)
    ensures issueId !in RemoveFirst(issues, issueId)
    ensures forall x :: x in RemoveFirst(issues, issueId) <==> x in issues && x != issueId
  {
    RemoveFirstAll(issues, issueId);
  }
}
