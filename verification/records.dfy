/** The records the application keeps, one datatype per kind of dictionary it
  * stores, and the loaded data set that the request handlers change in place.
  * A key that a record may lack is an `Option`; the audit keys (`created_at`,
  * `updated_by`, `archived_at`, ...) are kept together in `stamps`. */
module Records {
  import opened Common

  type Stamps = map<string, string>

  datatype User = User(
    id: int,
    username: string,
    passwordHash: string,
    email: Option<string>,
    displayName: Option<string>,
    role: Option<string>,
    status: Option<string>,
    emailNotifications: Option<bool>,
    stamps: Stamps)

  /** A project's progress as last computed by the Gantt view: `done` of `total` cards. */
  datatype Progress = Progress(done: nat, total: nat)

  datatype MapNode = MapNode(id: int, x: int, y: int, kind: string, text: string)
  datatype MapLink = MapLink(from: int, to: int)

  datatype Project = Project(
    id: int,
    name: string,
    description: Option<string>,
    archived: Option<bool>,
    progress: Option<Progress>,
    mindmapNodes: Option<seq<MapNode>>,
    mindmapConnections: Option<seq<MapLink>>,
    stamps: Stamps)

  datatype Epic = Epic(
    id: int,
    projectId: int,
    name: Option<string>,
    title: Option<string>,
    description: Option<string>,
    status: Option<string>,
    sprintIds: Option<seq<int>>,
    stamps: Stamps)

  datatype Story = Story(
    id: int,
    epicId: int,
    projectId: int,
    name: Option<string>,
    title: Option<string>,
    description: Option<string>,
    status: Option<string>,
    sprintIds: Option<seq<int>>,
    stamps: Stamps)

  datatype Card = Card(
    id: int,
    projectId: Option<int>,
    epicId: Option<int>,
    storyId: Option<int>,
    title: string,
    description: Option<string>,
    status: string,
    priority: string,
    assignee: Option<string>,
    dueDate: Option<string>,
    labels: Option<seq<string>>,
    storyPoints: Option<int>,
    sprintIds: Option<seq<int>>,
    stamps: Stamps)

  datatype Comment = Comment(id: int, cardId: int, author: string, content: string, stamps: Stamps)

  datatype Notification = Notification(
    id: int,
    userId: int,
    kind: string,
    message: string,
    cardId: int,
    read: bool,
    stamps: Stamps)

  datatype SprintItem = SprintItem(kind: string, id: int, stamps: Stamps)

  /** A sprint as the Flask handlers store it (the service layer has its own form). */
  datatype Sprint = Sprint(
    id: int,
    name: string,
    projectId: Option<int>,
    startDate: Option<string>,
    endDate: Option<string>,
    goal: Option<string>,
    description: Option<string>,
    storyPoints: Option<int>,
    status: Option<string>,
    issues: Option<seq<int>>,
    epics: Option<seq<int>>,
    stories: Option<seq<int>>,
    items: Option<seq<SprintItem>>,
    stamps: Stamps)

  /** The dictionary `load_data` returns. */
  datatype Data = Data(
    users: seq<User>,
    projects: seq<Project>,
    epics: seq<Epic>,
    stories: seq<Story>,
    cards: seq<Card>,
    comments: seq<Comment>,
    notifications: seq<Notification>,
    sprints: seq<Sprint>)

  /** A JSON reply: `Ok` carries the payload, `Fail` the HTTP status and the error text. */
  datatype Reply<T> = Ok(value: T) | Fail(code: int, error: string)

  /** The loaded data set a request handler works on and then saves. */
  class Store {
    var users: seq<User>
    var projects: seq<Project>
    var epics: seq<Epic>
    var stories: seq<Story>
    var cards: seq<Card>
    var comments: seq<Comment>
    var notifications: seq<Notification>
    var sprints: seq<Sprint>

    function Snapshot(): Data
      reads this
    {
      Data(users, projects, epics, stories, cards, comments, notifications, sprints)
    }

    constructor (d: Data)
      ensures Snapshot() == d
    {
      users, projects, epics, stories := d.users, d.projects, d.epics, d.stories;
      cards, comments, notifications, sprints := d.cards, d.comments, d.notifications, d.sprints;
    }
  }

  // Lookups by id: the first record whose id matches, as `next(...)` and `for ... break` find it.

  function UserById(users: seq<User>, id: int): Option<nat>
  {
    FindFirst(users, (u: User) => u.id == id)
  }

  function UserByName(users: seq<User>, name: string): Option<nat>
  {
    FindFirst(users, (u: User) => u.username == name)
  }

  function ProjectById(projects: seq<Project>, id: int): Option<nat>
  {
    FindFirst(projects, (p: Project) => p.id == id)
  }

  function EpicById(epics: seq<Epic>, id: int): Option<nat>
  {
    FindFirst(epics, (e: Epic) => e.id == id)
  }

  function StoryById(stories: seq<Story>, id: int): Option<nat>
  {
    FindFirst(stories, (s: Story) => s.id == id)
  }

  function CardById(cards: seq<Card>, id: int): Option<nat>
  {
    FindFirst(cards, (c: Card) => c.id == id)
  }

  function SprintById(sprints: seq<Sprint>, id: int): Option<nat>
  {
    FindFirst(sprints, (s: Sprint) => s.id == id)
  }

  function NotificationById(notifications: seq<Notification>, id: int): Option<nat>
  {
    FindFirst(notifications, (n: Notification) => n.id == id)
  }

  /** The test `user['id'] == user_id`: the user holds the looked-up id; an absent id (None) matches no user. */
  function HasId(userId: Option<int>): User -> bool { (u: User) => Some(u.id) == userId }

  /** The loop over the users that stops at the first one holding the id. */
  method FindUser(users: seq<User>, userId: Option<int>) returns (k: Option<nat>)
    ensures k == FindFirst(users, HasId(userId))
  {
    var i := 0;
    while i < |users|
      invariant 0 <= i <= |users|
      invariant forall j :: 0 <= j < i ==> Some(users[j].id) != userId
    {
      if Some(users[i].id) == userId {
        return Some(i);
      }
      i := i + 1;
    }
    return None;
  }

  /** The first user with the id takes the new value; without one, nothing changes. */
  function SetFirst(users: seq<User>, userId: Option<int>, f: User -> User): (r: seq<User>)
  {
    match FindFirst(users, HasId(userId))
    case None => users
    case Some(k) => users[k := f(users[k])]
  }

  /** Only the first user with the id changes; users before it and after it keep their records. */
  lemma SetFirstEffect(users: seq<User>, userId: Option<int>, f: User -> User)
    ensures |SetFirst(users, userId, f)| == |users|
    ensures forall i :: 0 <= i < |users| ==>
      SetFirst(users, userId, f)[i] ==
        if FindFirst(users, HasId(userId)) == Some(i) then f(users[i]) else users[i]
    ensures (forall i :: 0 <= i < |users| ==> Some(users[i].id) != userId) ==> SetFirst(users, userId, f) == users
  {
  }

  /** `project.get('archived', False)` */
  predicate IsArchived(p: Project)
  {
    p.archived == Some(true)
  }
}
