/** The board and Gantt pages of app/routes/projects.py. */
module Projects {
  import opened Common
  import opened Records
  import Dashboard

  datatype Board = Board(project: Project, todo: seq<Card>, inProgress: seq<Card>, done: seq<Card>,
                         epics: seq<Epic>, stories: seq<Story>)

  /** kanban_board: 404 for an unknown project; otherwise the project's cards
    * split by status. */
  function KanbanBoard(d: Data, projectId: int): (r: Reply<Board>)
    ensures r.Fail? <==> ProjectById(d.projects, projectId).None?
    ensures r.Fail? ==> r.code == 404
    ensures r.Ok? ==> r.value.project.id == projectId
  {
    match ProjectById(d.projects, projectId)
    case None => Fail(404, "Project not found")
    case Some(k) =>
      var cards := Filter(d.cards, Dashboard.CardInProject(projectId));
      Ok(Board(d.projects[k],
               Filter(cards, Dashboard.StatusIs("todo")),
               Filter(cards, Dashboard.StatusIs("in_progress")),
               Filter(cards, Dashboard.StatusIs("done")),
               Filter(d.epics, Dashboard.EpicInProject(projectId)),
               Filter(d.stories, Dashboard.StoryInProject(projectId))))
  }

  /** The three columns hold only cards of the project, in the column of their
    * status, so no card is in two columns; every card of the project with one
    * of the three statuses is shown. */
  lemma BoardColumns(d: Data, projectId: int)
    requires KanbanBoard(d, projectId).Ok?
    ensures var b := KanbanBoard(d, projectId).value;
      && (forall c :: c in b.todo ==> c in d.cards && c.projectId == Some(projectId) && c.status == "todo")
      && (forall c :: c in b.inProgress ==> c in d.cards && c.projectId == Some(projectId) && c.status == "in_progress")
      && (forall c :: c in b.done ==> c in d.cards && c.projectId == Some(projectId) && c.status == "done")
      && (forall c :: c in d.cards && c.projectId == Some(projectId) && c.status in {"todo", "in_progress", "done"} ==>
            c in b.todo + b.inProgress + b.done)
  {
    var cards := Filter(d.cards, Dashboard.CardInProject(projectId));
    var b := KanbanBoard(d, projectId).value;
    forall c | c in d.cards && c.projectId == Some(projectId) && c.status in {"todo", "in_progress", "done"}
      ensures c in b.todo + b.inProgress + b.done
    {
      var i :| 0 <= i < |d.cards| && d.cards[i] == c;
      assert c in cards;
      var j :| 0 <= j < |cards| && cards[j] == c;
    }
  }

  function CardOf(pid: int): Card -> bool { (c: Card) => c.projectId == Some(pid) }
  function IsDone(): Card -> bool { (c: Card) => c.status == "done" }

  /** `get_project_progress` as the exact fraction done/total; the page shows
    * 0 for a project without cards and otherwise 100 * done / total. */
  function ProjectProgress(cards: seq<Card>, pid: int): (p: Progress)
    ensures p.done <= p.total
    ensures p.total == 0 <==> forall i :: 0 <= i < |cards| ==> cards[i].projectId != Some(pid)
  {
    var mine := Filter(cards, CardOf(pid));
    Progress(Count(mine, IsDone()), |mine|)
  }

  /** Percentages compared by cross-multiplication: `100 * done / total >= percent`. */
  predicate AtLeast(p: Progress, percent: int)
  {
    p.total > 0 && 100 * p.done >= percent * p.total
  }

  /** The progress lies between 0 and 100 percent, and is 100 percent exactly
    * when the project has cards and every one of them is done. */
  lemma ProgressFacts(cards: seq<Card>, pid: int)
    ensures var p := ProjectProgress(cards, pid);
      && 0 <= 100 * p.done <= 100 * p.total
      && (AtLeast(p, 100) <==> p.total > 0 && forall i :: 0 <= i < |cards| && cards[i].projectId == Some(pid) ==> cards[i].status == "done")
  {
    var mine := Filter(cards, CardOf(pid));
    var p := ProjectProgress(cards, pid);
    FilterKeepsAll(mine, IsDone());
    if p.total > 0 && forall i :: 0 <= i < |cards| && cards[i].projectId == Some(pid) ==> cards[i].status == "done" {
      assert forall i :: 0 <= i < |mine| ==> IsDone()(mine[i]);
    }
    if AtLeast(p, 100) {
      assert p.done == p.total;
      forall i | 0 <= i < |cards| && cards[i].projectId == Some(pid) ensures cards[i].status == "done" {
        assert cards[i] in mine;
        var j :| 0 <= j < |mine| && mine[j] == cards[i];
        assert IsDone()(mine[j]);
      }
    }
  }

  /** gantt: the non-archived projects, each given its progress by the loop. */
  method Gantt(d: Data) returns (projects: seq<Project>)
    ensures |projects| == |Dashboard.ActiveProjects(d.projects)|
    ensures forall i :: 0 <= i < |projects| ==>
      projects[i] == Dashboard.ActiveProjects(d.projects)[i].(progress := Some(ProjectProgress(d.cards, projects[i].id)))
    ensures forall i :: 0 <= i < |projects| ==> !IsArchived(projects[i])
  {
    projects := Dashboard.ActiveProjects(d.projects);
    ghost var listed := projects;
    var i := 0;
    while i < |projects|
      invariant 0 <= i <= |projects| == |listed|
      invariant forall j :: 0 <= j < i ==> projects[j] == listed[j].(progress := Some(ProjectProgress(d.cards, listed[j].id)))
      invariant forall j :: i <= j < |projects| ==> projects[j] == listed[j]
    {
      var p := projects[i];
      projects := projects[i := p.(progress := Some(ProjectProgress(d.cards, p.id)))];
      i := i + 1;
    }
  }
}
