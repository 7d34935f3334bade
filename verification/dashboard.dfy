/** The read-only pages of app/routes/dashboard.py: the dashboard counts, the
  * active and archived project lists, and the issue, story, epic and backlog
  * lists. */
module Dashboard {
  import opened Common
  import opened Records

  function NotArchived(): Project -> bool { (p: Project) => !IsArchived(p) }
  function Archived(): Project -> bool { (p: Project) => IsArchived(p) }

  /** `[p for p in projects if not p.get('archived', False)]` */
  function ActiveProjects(projects: seq<Project>): (r: seq<Project>)
    ensures forall i :: 0 <= i < |r| ==> r[i] in projects && !IsArchived(r[i])
    ensures forall i :: 0 <= i < |projects| && !IsArchived(projects[i]) ==> projects[i] in r
  {
    Filter(projects, NotArchived())
  }

  /** The archive page's list. */
  function ArchivedProjects(projects: seq<Project>): (r: seq<Project>)
    ensures forall i :: 0 <= i < |r| ==> r[i] in projects && IsArchived(r[i])
    ensures forall i :: 0 <= i < |projects| && IsArchived(projects[i]) ==> projects[i] in r
  {
    Filter(projects, Archived())
  }

  /** The dashboard and the archive page split the projects between them:
    * together they list as many projects as there are, and no project is on both. */
  lemma ActiveArchivedPartition(projects: seq<Project>)
    ensures |ActiveProjects(projects)| + |ArchivedProjects(projects)| == |projects|
    ensures forall p :: p in ActiveProjects(projects) ==> p !in ArchivedProjects(projects)
  {
    CountExclusive(projects, NotArchived(), Archived(), (p: Project) => true);
    FilterTrue(projects, (p: Project) => true);
  }

  function StatusIs(v: string): Card -> bool { (c: Card) => c.status == v }

  function TodoOrProgress(): Card -> bool { (c: Card) => c.status == "todo" || c.status == "in_progress" }

  datatype Stats = Stats(todo: nat, inProgress: nat, done: nat, total: nat)

  /** The dashboard counts; a card in any other state is counted only in the total. */
  function DashboardStats(cards: seq<Card>): (s: Stats)
    ensures s.todo + s.inProgress + s.done <= s.total == |cards|
  {
    CountExclusive(cards, StatusIs("todo"), StatusIs("in_progress"), TodoOrProgress());
    CountExclusive(cards, TodoOrProgress(), StatusIs("done"), (c: Card) => c.status in {"todo", "in_progress", "done"});
    Stats(Count(cards, StatusIs("todo")), Count(cards, StatusIs("in_progress")), Count(cards, StatusIs("done")), |cards|)
  }

  function CardInProject(pid: int): Card -> bool { (c: Card) => c.projectId == Some(pid) }
  function EpicInProject(pid: int): Epic -> bool { (e: Epic) => e.projectId == pid }
  function StoryInProject(pid: int): Story -> bool { (s: Story) => s.projectId == pid }

  datatype IssuesPage = IssuesPage(cards: seq<Card>, project: Option<Project>, epics: seq<Epic>,
                                   stories: seq<Story>, projects: seq<Project>)

  /** issues_list: with a (truthy) project_id, only that project's cards, epics
    * and stories; without one, everything. The project list never shows an
    * archived project. */
  function IssuesList(d: Data, projectId: Option<int>): (r: IssuesPage)
    ensures TruthyInt(projectId) ==>
      && (forall i :: 0 <= i < |r.cards| ==> r.cards[i] in d.cards && r.cards[i].projectId == projectId)
      && (forall i :: 0 <= i < |d.cards| && d.cards[i].projectId == projectId ==> d.cards[i] in r.cards)
      && (forall i :: 0 <= i < |r.epics| ==> r.epics[i] in d.epics && Some(r.epics[i].projectId) == projectId)
      && (forall i :: 0 <= i < |r.stories| ==> r.stories[i] in d.stories && Some(r.stories[i].projectId) == projectId)
      && (r.project.Some? ==> r.project.value in d.projects && Some(r.project.value.id) == projectId)
    ensures !TruthyInt(projectId) ==>
      r.cards == d.cards && r.epics == d.epics && r.stories == d.stories && r.project.None?
    ensures forall i :: 0 <= i < |r.projects| ==> !IsArchived(r.projects[i])
  {
    var active := ActiveProjects(d.projects);
    if TruthyInt(projectId) then
      var pid := projectId.value;
      var k := ProjectById(d.projects, pid);
      IssuesPage(Filter(d.cards, CardInProject(pid)), if k.Some? then Some(d.projects[k.value]) else None,
                 Filter(d.epics, EpicInProject(pid)), Filter(d.stories, StoryInProject(pid)), active)
    else
      IssuesPage(d.cards, None, d.epics, d.stories, active)
  }

  datatype StoriesPage = StoriesPage(stories: seq<Story>, epics: seq<Epic>, project: Option<Project>, projects: seq<Project>)

  /** The stories page: the same project filter for stories and epics. */
  function Stories(d: Data, projectId: Option<int>): (r: StoriesPage)
    ensures TruthyInt(projectId) ==>
      && (forall i :: 0 <= i < |r.stories| ==> r.stories[i] in d.stories && Some(r.stories[i].projectId) == projectId)
      && (forall i :: 0 <= i < |d.stories| && Some(d.stories[i].projectId) == projectId ==> d.stories[i] in r.stories)
    ensures !TruthyInt(projectId) ==> r.stories == d.stories && r.epics == d.epics && r.project.None?
  {
    var page := IssuesList(d, projectId);
    StoriesPage(page.stories, page.epics, page.project, page.projects)
  }

  /** The epics page. */
  function Epics(d: Data, projectId: Option<int>): (r: seq<Epic>)
    ensures TruthyInt(projectId) ==>
      && (forall i :: 0 <= i < |r| ==> r[i] in d.epics && Some(r[i].projectId) == projectId)
      && (forall i :: 0 <= i < |d.epics| && Some(d.epics[i].projectId) == projectId ==> d.epics[i] in r)
    ensures !TruthyInt(projectId) ==> r == d.epics
  {
    IssuesList(d, projectId).epics
  }

  /** backlog: exactly the cards still to do, in stored order. */
  function Backlog(d: Data): (r: seq<Card>)
    ensures forall i :: 0 <= i < |r| ==> r[i] in d.cards && r[i].status == "todo"
    ensures forall i :: 0 <= i < |d.cards| && d.cards[i].status == "todo" ==> d.cards[i] in r
  {
    Filter(d.cards, StatusIs("todo"))
  }
}
