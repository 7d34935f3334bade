/** load_data and save_data of app/services/data_service.py. The document
  * database is a `DocStore`: its documents in stream order, each under its path
  * `users/{u}`, `projects/{p}`, `projects/{p}/epics/{e}`,
  * `.../stories/{s}`, `.../issues/{i}`, `.../comments/{c}` or `sprints/{s}`.
  * A stored body is the record with the id keys the saver pops blanked (0 or
  * None); the loader puts them back from the path. */
module DataService {
  import opened Common
  import opened Numerals
  import opened Records

  datatype Entry =
    | UserDoc(name: string, user: User)
    | ProjectDoc(project: string, proj: Project)
    | EpicDoc(project: string, epic: string, ep: Epic)
    | StoryDoc(project: string, epic: string, story: string, st: Story)
    | IssueDoc(project: string, epic: string, story: string, issue: string, card: Card)
    | CommentDoc(project: string, epic: string, story: string, issue: string, name: string, comment: Comment)
    | SprintDoc(name: string, sprint: Sprint)

  /** A document path, segment by segment after the collection names. */
  datatype DocPath =
    | UserAt(string)
    | ProjectAt(string)
    | EpicAt(string, string)
    | StoryAt(string, string, string)
    | IssueAt(string, string, string, string)
    | CommentAt(string, string, string, string, string)
    | SprintAt(string)

  function PathOf(e: Entry): DocPath
  {
    match e
    case UserDoc(n, _) => UserAt(n)
    case ProjectDoc(p, _) => ProjectAt(p)
    case EpicDoc(p, ep, _) => EpicAt(p, ep)
    case StoryDoc(p, ep, s, _) => StoryAt(p, ep, s)
    case IssueDoc(p, ep, s, i, _) => IssueAt(p, ep, s, i)
    case CommentDoc(p, ep, s, i, c, _) => CommentAt(p, ep, s, i, c)
    case SprintDoc(n, _) => SprintAt(n)
  }

  /** `document(path).set(body)`: the first document at the path is replaced;
    * a new path is added last. */
  function Put(docs: seq<Entry>, e: Entry): (r: seq<Entry>)
    ensures e in r
    ensures |r| == |docs| || r == docs + [e]
  {
    if docs == [] then [e]
    else if PathOf(docs[0]) == PathOf(e) then [e] + docs[1..]
    else [docs[0]] + Put(docs[1..], e)
  }

  /** Only the document at the written path changes. */
  lemma {:induction false} PutOthers(docs: seq<Entry>, e: Entry)
    ensures forall x :: x in Put(docs, e) ==> x == e || x in docs
    ensures forall x :: x in docs && PathOf(x) != PathOf(e) ==> x in Put(docs, e)
  {
    if docs != [] && PathOf(docs[0]) != PathOf(e) {
      PutOthers(docs[1..], e);
      assert docs == [docs[0]] + docs[1..];
    }
  }

  /** The writes, one after the other. */
  function PutAll(docs: seq<Entry>, ws: seq<Entry>): seq<Entry>
  {
    if ws == [] then docs else Put(PutAll(docs, ws[..|ws| - 1]), ws[|ws| - 1])
  }

  /** The Firestore client: documents in stream order. */
  class DocStore {
    var docs: seq<Entry>

    constructor ()
      ensures docs == []
    {
      docs := [];
    }

    method Set(e: Entry)
      modifies this
      ensures docs == Put(old(docs), e)
    {
      docs := Put(docs, e);
    }
  }

  // ------------------------------------------------------------ saving

  /** `str(x)` of an id key that may be null. */
  function IdText(o: Option<int>): string
  {
    match o
    case None => "None"
    case Some(n) => IntToString(n)
  }

  function UserEntry(u: User): Entry { UserDoc(IntToString(u.id), u.(id := 0)) }
  function ProjectEntry(p: Project): Entry { ProjectDoc(IntToString(p.id), p.(id := 0)) }
  function EpicEntry(e: Epic): Entry
  {
    EpicDoc(IntToString(e.projectId), IntToString(e.id), e.(id := 0, projectId := 0))
  }
  function StoryEntry(s: Story): Entry
  {
    StoryDoc(IntToString(s.projectId), IntToString(s.epicId), IntToString(s.id), s.(id := 0, epicId := 0, projectId := 0))
  }
  function CardEntry(c: Card): Entry
  {
    IssueDoc(IdText(c.projectId), IdText(c.epicId), IdText(c.storyId), IntToString(c.id),
             c.(id := 0, storyId := None, epicId := None, projectId := None))
  }
  function SprintEntry(s: Sprint): Entry { SprintDoc(IntToString(s.id), s.(id := 0)) }

  function CardIdIs(id: int): Card -> bool { (c: Card) => c.id == id }

  /** A comment goes under the first card with its card_id; without one it is not written. */
  function CommentWrite(m: Comment, cards: seq<Card>): (r: seq<Entry>)
    ensures r == [] <==> forall k :: 0 <= k < |cards| ==> cards[k].id != m.cardId
    ensures |r| <= 1
  {
    match FindFirst(cards, CardIdIs(m.cardId))
    case None => []
    case Some(k) =>
      [CommentDoc(IdText(cards[k].projectId), IdText(cards[k].epicId), IdText(cards[k].storyId),
                  IntToString(m.cardId), IntToString(m.id), m.(id := 0, cardId := 0))]
  }

  function CommentWrites(comments: seq<Comment>, cards: seq<Card>): seq<Entry>
  {
    if comments == [] then []
    else CommentWrites(comments[..|comments| - 1], cards) + CommentWrite(comments[|comments| - 1], cards)
  }

  function UserWrites(us: seq<User>): (r: seq<Entry>)
    ensures |r| == |us| && forall i :: 0 <= i < |us| ==> r[i] == UserEntry(us[i])
  {
    seq(|us|, i requires 0 <= i < |us| => UserEntry(us[i]))
  }
  function ProjectWrites(ps: seq<Project>): (r: seq<Entry>)
    ensures |r| == |ps| && forall i :: 0 <= i < |ps| ==> r[i] == ProjectEntry(ps[i])
  {
    seq(|ps|, i requires 0 <= i < |ps| => ProjectEntry(ps[i]))
  }
  function EpicWrites(es: seq<Epic>): (r: seq<Entry>)
    ensures |r| == |es| && forall i :: 0 <= i < |es| ==> r[i] == EpicEntry(es[i])
  {
    seq(|es|, i requires 0 <= i < |es| => EpicEntry(es[i]))
  }
  function StoryWrites(ss: seq<Story>): (r: seq<Entry>)
    ensures |r| == |ss| && forall i :: 0 <= i < |ss| ==> r[i] == StoryEntry(ss[i])
  {
    seq(|ss|, i requires 0 <= i < |ss| => StoryEntry(ss[i]))
  }
  function CardWrites(cs: seq<Card>): (r: seq<Entry>)
    ensures |r| == |cs| && forall i :: 0 <= i < |cs| ==> r[i] == CardEntry(cs[i])
  {
    seq(|cs|, i requires 0 <= i < |cs| => CardEntry(cs[i]))
  }
  function SprintWrites(ss: seq<Sprint>): (r: seq<Entry>)
    ensures |r| == |ss| && forall i :: 0 <= i < |ss| ==> r[i] == SprintEntry(ss[i])
  {
    seq(|ss|, i requires 0 <= i < |ss| => SprintEntry(ss[i]))
  }

  /** The writes before the cards, and those after them. */
  function FrontWrites(d: Data): seq<Entry>
  {
    UserWrites(d.users) + ProjectWrites(d.projects) + EpicWrites(d.epics) + StoryWrites(d.stories)
  }
  function BackWrites(d: Data): seq<Entry>
  {
    SprintWrites(d.sprints) + CommentWrites(d.comments, d.cards)
  }

  /** Every document save_data writes, in its order. */
  function Writes(d: Data): seq<Entry>
  {
    FrontWrites(d) + CardWrites(d.cards) + BackWrites(d)
  }

  /** Writes the documents one by one. */
  method StoreAll(db: DocStore, ws: seq<Entry>)
    modifies db
    ensures db.docs == PutAll(old(db.docs), ws)
  {
    var i := 0;
    while i < |ws|
      invariant 0 <= i <= |ws|
      invariant db.docs == PutAll(old(db.docs), ws[..i])
    {
      assert ws[..i + 1][..i] == ws[..i];
      db.Set(ws[i]);
      i := i + 1;
    }
    assert ws[..i] == ws;
  }

  /** The comment loop of save_data: each comment is placed under its card's path. */
  method PlaceComments(comments: seq<Comment>, cards: seq<Card>) returns (ws: seq<Entry>)
    ensures ws == CommentWrites(comments, cards)
  {
    ws := [];
    var i := 0;
    while i < |comments|
      invariant 0 <= i <= |comments|
      invariant ws == CommentWrites(comments[..i], cards)
    {
      assert comments[..i + 1][..i] == comments[..i];
      ws := ws + CommentWrite(comments[i], cards);
      i := i + 1;
    }
    assert comments[..i] == comments;
  }

  /** save_data with a store: users, projects, epics, stories, cards, sprints,
    * then the comments whose card exists. Without a store only the local
    * backup is written, which is not part of this model. */
  method SaveData(data: Data, db: DocStore?)
    modifies db
    ensures db != null ==> db.docs == PutAll(old(db.docs), Writes(data))
  {
    if db == null {
      return;
    }
    var commentWrites := PlaceComments(data.comments, data.cards);
    var back := SprintWrites(data.sprints) + commentWrites;
    assert back == BackWrites(data);
    StoreAll(db, FrontWrites(data) + CardWrites(data.cards) + back);
  }

  /** One more write is one more Put. */
  lemma PutAllSnoc(docs: seq<Entry>, ws: seq<Entry>, w: Entry)
    ensures PutAll(docs, ws + [w]) == Put(PutAll(docs, ws), w)
  {
    assert (ws + [w])[..|ws|] == ws;
  }

  lemma {:induction false} PutAllAppend(docs: seq<Entry>, a: seq<Entry>, b: seq<Entry>)
    ensures PutAll(PutAll(docs, a), b) == PutAll(docs, a + b)
    decreases |b|
  {
    if b == [] {
      assert a + b == a;
    } else {
      var init, last := b[..|b| - 1], b[|b| - 1];
      assert b == init + [last];
      assert a + b == (a + init) + [last];
      PutAllAppend(docs, a, init);
      PutAllSnoc(docs, a + init, last);
      PutAllSnoc(PutAll(docs, a), init, last);
    }
  }

  // ------------------------------------------------------------ what saving keeps

  predicate HasPath(docs: seq<Entry>, path: DocPath)
  {
    exists y :: y in docs && PathOf(y) == path
  }

  /** Saving never removes a document: every path stored before, and every path
    * written, is stored afterwards; every stored document was there before or
    * was written. */
  lemma {:induction false} PutAllPaths(docs: seq<Entry>, ws: seq<Entry>)
    ensures forall x :: x in docs ==> HasPath(PutAll(docs, ws), PathOf(x))
    ensures forall w :: w in ws ==> HasPath(PutAll(docs, ws), PathOf(w))
    ensures forall y :: y in PutAll(docs, ws) ==> y in docs || y in ws
    decreases |ws|
  {
    if ws != [] {
      var init := ws[..|ws| - 1];
      var last := ws[|ws| - 1];
      var mid := PutAll(docs, init);
      PutAllPaths(docs, init);
      PutOthers(mid, last);
      forall p | HasPath(mid, p) ensures HasPath(Put(mid, last), p) {
        var y :| y in mid && PathOf(y) == p;
        if PathOf(y) == PathOf(last) {
          assert last in Put(mid, last);
        } else {
          assert y in Put(mid, last);
        }
      }
      assert last in Put(mid, last);
      forall w | w in ws ensures HasPath(PutAll(docs, ws), PathOf(w)) {
        if w != last {
          assert w in init;
        }
      }
    }
  }

  /** A document whose path no write touches stays as it was. */
  lemma {:induction false} PutAllKeeps(docs: seq<Entry>, ws: seq<Entry>, x: Entry)
    requires x in docs && forall w :: w in ws ==> PathOf(w) != PathOf(x)
    ensures x in PutAll(docs, ws)
    decreases |ws|
  {
    if ws != [] {
      PutAllKeeps(docs, ws[..|ws| - 1], x);
      assert ws[|ws| - 1] in ws;
      PutOthers(PutAll(docs, ws[..|ws| - 1]), ws[|ws| - 1]);
    }
  }

  /** A write lands: when every write to its path is that same document, the
    * document is in the store afterwards. */
  lemma {:induction false} PutAllLands(docs: seq<Entry>, ws: seq<Entry>, w: Entry)
    requires w in ws && forall v :: v in ws && PathOf(v) == PathOf(w) ==> v == w
    ensures w in PutAll(docs, ws)
    decreases |ws|
  {
    var init, last := ws[..|ws| - 1], ws[|ws| - 1];
    assert ws == init + [last];
    if last != w {
      assert w in init;
      PutAllLands(docs, init, w);
      PutOthers(PutAll(docs, init), last);
    }
  }

  // ------------------------------------------------------------ loading

  /** What load_data appends, one record at a time, whatever its list. */
  datatype Part =
    | UserPart(user: User)
    | ProjectPart(proj: Project)
    | EpicPart(ep: Epic)
    | StoryPart(st: Story)
    | SprintPart(sprint: Sprint)
    | CardPart(card: Card)
    | CommentPart(comment: Comment)

  /** The records one `for ... in ....stream()` loop appended, and whether it
    * ran to the end or stopped at an exception. */
  datatype Run<T> = Run(items: seq<T>, complete: bool)

  /** What one document adds: `Take` the records, or `Stop` after appending
    * the records (an `int()` on a name that is not a number raised). */
  datatype Step<T> = Take(items: seq<T>) | Stop(items: seq<T>)

  /** The records of one document followed by those of its sub-collection loop. */
  function Then<T>(first: seq<T>, inner: Run<T>): Step<T>
  {
    if inner.complete then Take(first + inner.items) else Stop(first + inner.items)
  }

  /** One loop over the documents in stream order. */
  function Collect<T>(docs: seq<Entry>, f: Entry -> Step<T>): Run<T>
    decreases |docs|
  {
    if docs == [] then Run([], true)
    else
      var prev := Collect(docs[..|docs| - 1], f);
      if !prev.complete then prev
      else
        match f(docs[|docs| - 1])
        case Take(xs) => Run(prev.items + xs, true)
        case Stop(xs) => Run(prev.items + xs, false)
  }

  /** The loop, with the list it appends to. */
  method Stream<T>(docs: seq<Entry>, f: Entry -> Step<T>) returns (r: Run<T>)
    ensures r == Collect(docs, f)
  {
    var items := [];
    var i := 0;
    while i < |docs|
      invariant 0 <= i <= |docs|
      invariant Collect(docs[..i], f) == Run(items, true)
    {
      assert docs[..i + 1][..i] == docs[..i];
      match f(docs[i]) {
        case Take(xs) =>
          items := items + xs;
        case Stop(xs) =>
          CollectStopped(docs, f, i + 1);
          return Run(items + xs, false);
      }
      i := i + 1;
    }
    assert docs[..i] == docs;
    r := Run(items, true);
  }

  /** Once an exception is raised, no later document is read. */
  lemma {:induction false} CollectStopped<T>(docs: seq<Entry>, f: Entry -> Step<T>, j: int)
    requires 0 <= j <= |docs| && !Collect(docs[..j], f).complete
    ensures Collect(docs, f) == Collect(docs[..j], f)
    decreases |docs|
  {
    if j < |docs| {
      var init := docs[..|docs| - 1];
      assert init[..j] == docs[..j];
      CollectStopped(init, f, j);
    } else {
      assert docs[..j] == docs;
    }
  }

  /** A loop that completed took every document without an exception. */
  lemma {:induction false} CollectTakes<T>(docs: seq<Entry>, f: Entry -> Step<T>, i: int)
    requires Collect(docs, f).complete && 0 <= i < |docs|
    ensures f(docs[i]).Take?
    decreases |docs|
  {
    var init := docs[..|docs| - 1];
    assert Collect(init, f).complete;
    if i < |docs| - 1 {
      assert docs[i] == init[i];
      CollectTakes(init, f, i);
    }
  }

  /** A completed loop holds every record any document contributed. */
  lemma {:induction false} CollectHas<T>(docs: seq<Entry>, f: Entry -> Step<T>, i: int, x: T)
    requires Collect(docs, f).complete && 0 <= i < |docs| && x in f(docs[i]).items
    ensures x in Collect(docs, f).items
    decreases |docs|
  {
    var init := docs[..|docs| - 1];
    assert Collect(init, f).complete;
    if i < |docs| - 1 {
      assert docs[i] == init[i];
      CollectHas(init, f, i, x);
    }
  }

  /** A loop in which no document raises completes. */
  lemma {:induction false} CollectCompletes<T>(docs: seq<Entry>, f: Entry -> Step<T>)
    requires forall i :: 0 <= i < |docs| ==> f(docs[i]).Take?
    ensures Collect(docs, f).complete
    decreases |docs|
  {
    if docs != [] {
      var init := docs[..|docs| - 1];
      assert forall i :: 0 <= i < |init| ==> init[i] == docs[i];
      CollectCompletes(init, f);
    }
  }

  /** Two loops that read every document alike append alike. */
  lemma {:induction false} CollectAlike<T>(docs: seq<Entry>, f: Entry -> Step<T>, g: Entry -> Step<T>)
    requires forall i :: 0 <= i < |docs| ==> f(docs[i]) == g(docs[i])
    ensures Collect(docs, f) == Collect(docs, g)
    decreases |docs|
  {
    if docs != [] {
      var init := docs[..|docs| - 1];
      assert forall i :: 0 <= i < |init| ==> init[i] == docs[i];
      CollectAlike(init, f, g);
    }
  }

  /** A document that adds nothing can be left out of the loop. */
  lemma CollectSkips<T>(docs: seq<Entry>, f: Entry -> Step<T>, e: Entry)
    requires f(e) == Take([])
    ensures Collect(docs + [e], f) == Collect(docs, f)
  {
    assert (docs + [e])[..|docs|] == docs;
    assert Collect(docs, f).items + [] == Collect(docs, f).items;
  }

  // the loops of load_data, outermost first

  function ReadUser(): Entry -> Step<Part>
  {
    (e: Entry) =>
      if !e.UserDoc? then Take([])
      else match ParseInt(e.name)
        case None => Stop([])
        case Some(n) => Take([UserPart(e.user.(id := n))])
  }

  /** A project document whose name is not a number is skipped. */
  function ReadProject(): Entry -> Step<Part>
  {
    (e: Entry) =>
      if !e.ProjectDoc? then Take([])
      else match ParseInt(e.project)
        case None => Take([])
        case Some(n) => Take([ProjectPart(e.proj.(id := n))])
  }

  function ReadSprint(): Entry -> Step<Part>
  {
    (e: Entry) =>
      if !e.SprintDoc? then Take([])
      else match ParseInt(e.name)
        case None => Stop([])
        case Some(n) => Take([SprintPart(e.sprint.(id := n))])
  }

  /** Epics, each followed by its stories. */
  function ReadProjectEpics(docs: seq<Entry>): Entry -> Step<Part>
  {
    (e: Entry) =>
      if !e.ProjectDoc? then Take([])
      else match ParseInt(e.project)
        case None => Take([])
        case Some(pid) => Then([], Collect(docs, ReadEpic(docs, e.project, pid)))
  }

  function ReadEpic(docs: seq<Entry>, p: string, pid: int): Entry -> Step<Part>
  {
    (e: Entry) =>
      if !(e.EpicDoc? && e.project == p) then Take([])
      else match ParseInt(e.epic)
        case None => Stop([])
        case Some(eid) =>
          Then([EpicPart(e.ep.(id := eid, projectId := pid))], Collect(docs, ReadStory(p, e.epic, pid, eid)))
  }

  function ReadStory(p: string, ep: string, pid: int, eid: int): Entry -> Step<Part>
  {
    (e: Entry) =>
      if !(e.StoryDoc? && e.project == p && e.epic == ep) then Take([])
      else match ParseInt(e.story)
        case None => Stop([])
        case Some(sid) => Take([StoryPart(e.st.(id := sid, epicId := eid, projectId := pid))])
  }

  /** Cards, each followed by its comments. */
  function ReadProjectCards(docs: seq<Entry>): Entry -> Step<Part>
  {
    (e: Entry) =>
      if !e.ProjectDoc? then Take([])
      else match ParseInt(e.project)
        case None => Take([])
        case Some(pid) => Then([], Collect(docs, ReadEpicCards(docs, e.project, pid)))
  }

  function ReadEpicCards(docs: seq<Entry>, p: string, pid: int): Entry -> Step<Part>
  {
    (e: Entry) =>
      if !(e.EpicDoc? && e.project == p) then Take([])
      else match ParseInt(e.epic)
        case None => Stop([])
        case Some(eid) => Then([], Collect(docs, ReadStoryCards(docs, p, e.epic, pid, eid)))
  }

  function ReadStoryCards(docs: seq<Entry>, p: string, ep: string, pid: int, eid: int): Entry -> Step<Part>
  {
    (e: Entry) =>
      if !(e.StoryDoc? && e.project == p && e.epic == ep) then Take([])
      else match ParseInt(e.story)
        case None => Stop([])
        case Some(sid) => Then([], Collect(docs, ReadIssue(docs, p, ep, e.story, pid, eid, sid)))
  }

  function ReadIssue(docs: seq<Entry>, p: string, ep: string, s: string, pid: int, eid: int, sid: int): Entry -> Step<Part>
  {
    (e: Entry) =>
      if !(e.IssueDoc? && e.project == p && e.epic == ep && e.story == s) then Take([])
      else match ParseInt(e.issue)
        case None => Stop([])
        case Some(n) =>
          Then([CardPart(e.card.(id := n, storyId := Some(sid), epicId := Some(eid), projectId := Some(pid)))],
               Collect(docs, ReadComment(p, ep, s, e.issue, n)))
  }

  function ReadComment(p: string, ep: string, s: string, i: string, iid: int): Entry -> Step<Part>
  {
    (e: Entry) =>
      if !(e.CommentDoc? && e.project == p && e.epic == ep && e.story == s && e.issue == i) then Take([])
      else match ParseInt(e.name)
        case None => Stop([])
        case Some(n) => Take([CommentPart(e.comment.(id := n, cardId := iid))])
  }

  /** Each record into its list, in the order appended. */
  function Distribute(parts: seq<Part>): (r: Data)
    ensures r.notifications == []
    decreases |parts|
  {
    if parts == [] then Data([], [], [], [], [], [], [], [])
    else
      var d := Distribute(parts[..|parts| - 1]);
      match parts[|parts| - 1]
      case UserPart(u) => d.(users := d.users + [u])
      case ProjectPart(q) => d.(projects := d.projects + [q])
      case EpicPart(e) => d.(epics := d.epics + [e])
      case StoryPart(s) => d.(stories := d.stories + [s])
      case SprintPart(s) => d.(sprints := d.sprints + [s])
      case CardPart(c) => d.(cards := d.cards + [c])
      case CommentPart(m) => d.(comments := d.comments + [m])
  }

  /** The five loops in order; an exception ends the load, keeping what was appended. */
  function Appended(docs: seq<Entry>): seq<Part>
  {
    var users := Collect(docs, ReadUser());
    var projects := Collect(docs, ReadProject());
    var epics := Collect(docs, ReadProjectEpics(docs));
    var sprints := Collect(docs, ReadSprint());
    var cards := Collect(docs, ReadProjectCards(docs));
    if !users.complete then users.items
    else if !projects.complete then users.items + projects.items
    else if !epics.complete then users.items + projects.items + epics.items
    else if !sprints.complete then users.items + projects.items + epics.items + sprints.items
    else users.items + projects.items + epics.items + sprints.items + cards.items
  }

  /** The Firestore branch of load_data. Notifications are never read from the store. */
  function LoadFirebase(docs: seq<Entry>): Data
  {
    Distribute(Appended(docs))
  }

  /** The Firestore branch as the loops run it. */
  method LoadFromStore(db: DocStore) returns (r: Data)
    ensures r == LoadFirebase(db.docs)
  {
    var docs := db.docs;
    var users := Stream(docs, ReadUser());
    if !users.complete {
      return Distribute(users.items);
    }
    var projects := Stream(docs, ReadProject());
    if !projects.complete {
      return Distribute(users.items + projects.items);
    }
    var epics := Stream(docs, ReadProjectEpics(docs));
    if !epics.complete {
      return Distribute(users.items + projects.items + epics.items);
    }
    var sprints := Stream(docs, ReadSprint());
    if !sprints.complete {
      return Distribute(users.items + projects.items + epics.items + sprints.items);
    }
    var cards := Stream(docs, ReadProjectCards(docs));
    r := Distribute(users.items + projects.items + epics.items + sprints.items + cards.items);
  }

  lemma {:induction false} DistributeCard(parts: seq<Part>, c: Card)
    requires CardPart(c) in parts
    ensures c in Distribute(parts).cards
    decreases |parts|
  {
    var init := parts[..|parts| - 1];
    assert parts == init + [parts[|parts| - 1]];
    if parts[|parts| - 1] != CardPart(c) {
      DistributeCard(init, c);
    }
  }

  // ------------------------------------------------------------ round trip

  /** Every document's own name is a number (a project's may not be: it is skipped). */
  predicate NameIsNumber(e: Entry)
  {
    match e
    case UserDoc(n, _) => ParseInt(n).Some?
    case ProjectDoc(_, _) => true
    case EpicDoc(_, ep, _) => ParseInt(ep).Some?
    case StoryDoc(_, _, s, _) => ParseInt(s).Some?
    case IssueDoc(_, _, _, i, _) => ParseInt(i).Some?
    case CommentDoc(_, _, _, _, n, _) => ParseInt(n).Some?
    case SprintDoc(n, _) => ParseInt(n).Some?
  }

  predicate Numbered(docs: seq<Entry>)
  {
    forall i :: 0 <= i < |docs| ==> NameIsNumber(docs[i])
  }

  /** No loop of load_data raises on a numbered store. */
  predicate Readable(docs: seq<Entry>)
  {
    Collect(docs, ReadUser()).complete && Collect(docs, ReadProject()).complete
    && Collect(docs, ReadProjectEpics(docs)).complete && Collect(docs, ReadSprint()).complete
    && Collect(docs, ReadProjectCards(docs)).complete
  }

  lemma NumberedReadable(docs: seq<Entry>)
    requires Numbered(docs)
    ensures Readable(docs)
  {
    CollectCompletes(docs, ReadUser());
    CollectCompletes(docs, ReadProject());
    CollectCompletes(docs, ReadSprint());
    forall i, j | 0 <= i < |docs| && 0 <= j < |docs| && docs[i].ProjectDoc? && docs[j].EpicDoc?
                  && docs[j].project == docs[i].project && ParseInt(docs[i].project).Some?
      ensures ReadEpic(docs, docs[i].project, ParseInt(docs[i].project).value)(docs[j]).Take?
    {
      CollectCompletes(docs, ReadStory(docs[j].project, docs[j].epic, ParseInt(docs[i].project).value,
                                       ParseInt(docs[j].epic).value));
    }
    forall i | 0 <= i < |docs| && docs[i].ProjectDoc? && ParseInt(docs[i].project).Some?
      ensures Collect(docs, ReadEpic(docs, docs[i].project, ParseInt(docs[i].project).value)).complete
    {
      CollectCompletes(docs, ReadEpic(docs, docs[i].project, ParseInt(docs[i].project).value));
    }
    CollectCompletes(docs, ReadProjectEpics(docs));
    NumberedCardsReadable(docs);
  }

  lemma NumberedCardsReadable(docs: seq<Entry>)
    requires Numbered(docs)
    ensures Collect(docs, ReadProjectCards(docs)).complete
  {
    forall p, ep, s, pid, eid, sid
      ensures forall k :: 0 <= k < |docs| ==> ReadIssue(docs, p, ep, s, pid, eid, sid)(docs[k]).Take?
    {
      forall k | 0 <= k < |docs| ensures ReadIssue(docs, p, ep, s, pid, eid, sid)(docs[k]).Take? {
        if docs[k].IssueDoc? {
          CollectCompletes(docs, ReadComment(p, ep, s, docs[k].issue, ParseInt(docs[k].issue).value));
        }
      }
    }
    forall p, ep, pid, eid
      ensures forall k :: 0 <= k < |docs| ==> ReadStoryCards(docs, p, ep, pid, eid)(docs[k]).Take?
    {
      forall k | 0 <= k < |docs| ensures ReadStoryCards(docs, p, ep, pid, eid)(docs[k]).Take? {
        if docs[k].StoryDoc? {
          CollectCompletes(docs, ReadIssue(docs, p, ep, docs[k].story, pid, eid, ParseInt(docs[k].story).value));
        }
      }
    }
    forall p, pid
      ensures forall k :: 0 <= k < |docs| ==> ReadEpicCards(docs, p, pid)(docs[k]).Take?
    {
      forall k | 0 <= k < |docs| ensures ReadEpicCards(docs, p, pid)(docs[k]).Take? {
        if docs[k].EpicDoc? {
          CollectCompletes(docs, ReadStoryCards(docs, p, docs[k].epic, pid, ParseInt(docs[k].epic).value));
        }
      }
    }
    forall k | 0 <= k < |docs| ensures ReadProjectCards(docs)(docs[k]).Take? {
      if docs[k].ProjectDoc? && ParseInt(docs[k].project).Some? {
        CollectCompletes(docs, ReadEpicCards(docs, docs[k].project, ParseInt(docs[k].project).value));
      }
    }
    CollectCompletes(docs, ReadProjectCards(docs));
  }

  /** A card document under existing project, epic and story documents, all
    * named by numbers, is loaded with its four ids read from the path. */
  lemma CardLoaded(docs: seq<Entry>, p: string, ep: string, s: string, i: string, body: Card)
    requires ParseInt(p).Some? && ParseInt(ep).Some? && ParseInt(s).Some? && ParseInt(i).Some?
    requires HasPath(docs, ProjectAt(p)) && HasPath(docs, EpicAt(p, ep)) && HasPath(docs, StoryAt(p, ep, s))
    requires IssueDoc(p, ep, s, i, body) in docs
    requires Collect(docs, ReadProjectCards(docs)).complete
    ensures CardPart(body.(id := ParseInt(i).value, storyId := Some(ParseInt(s).value),
                           epicId := Some(ParseInt(ep).value), projectId := Some(ParseInt(p).value)))
            in Collect(docs, ReadProjectCards(docs)).items
  {
    var pid, eid, sid := ParseInt(p).value, ParseInt(ep).value, ParseInt(s).value;
    var card := CardPart(body.(id := ParseInt(i).value, storyId := Some(sid), epicId := Some(eid), projectId := Some(pid)));
    var yp :| yp in docs && PathOf(yp) == ProjectAt(p);
    var ye :| ye in docs && PathOf(ye) == EpicAt(p, ep);
    var ys :| ys in docs && PathOf(ys) == StoryAt(p, ep, s);
    var kp :| 0 <= kp < |docs| && docs[kp] == yp;
    var ke :| 0 <= ke < |docs| && docs[ke] == ye;
    var ks :| 0 <= ks < |docs| && docs[ks] == ys;
    var ki :| 0 <= ki < |docs| && docs[ki] == IssueDoc(p, ep, s, i, body);
    ProjectLevel(docs, kp, p, pid, card);
    EpicLevel(docs, ke, p, ep, pid, eid, card);
    StoryLevel(docs, ks, p, ep, s, pid, eid, sid, card);
    IssueLevel(docs, ki, p, ep, s, i, body, pid, eid, sid);
  }

  /** A numbered project document runs the epic loop under it to the end;
    * what that loop appends, the card loop appends. */
  lemma ProjectLevel(docs: seq<Entry>, k: int, p: string, pid: int, x: Part)
    requires 0 <= k < |docs| && docs[k].ProjectDoc? && docs[k].project == p && ParseInt(p) == Some(pid)
    requires Collect(docs, ReadProjectCards(docs)).complete
    ensures Collect(docs, ReadEpicCards(docs, p, pid)).complete
    ensures x in Collect(docs, ReadEpicCards(docs, p, pid)).items ==> x in Collect(docs, ReadProjectCards(docs)).items
  {
    CollectTakes(docs, ReadProjectCards(docs), k);
    if x in Collect(docs, ReadEpicCards(docs, p, pid)).items {
      assert x in ReadProjectCards(docs)(docs[k]).items;
      CollectHas(docs, ReadProjectCards(docs), k, x);
    }
  }

  lemma EpicLevel(docs: seq<Entry>, k: int, p: string, ep: string, pid: int, eid: int, x: Part)
    requires 0 <= k < |docs| && docs[k].EpicDoc? && docs[k].project == p && docs[k].epic == ep
    requires ParseInt(ep) == Some(eid) && Collect(docs, ReadEpicCards(docs, p, pid)).complete
    ensures Collect(docs, ReadStoryCards(docs, p, ep, pid, eid)).complete
    ensures x in Collect(docs, ReadStoryCards(docs, p, ep, pid, eid)).items ==> x in Collect(docs, ReadEpicCards(docs, p, pid)).items
  {
    CollectTakes(docs, ReadEpicCards(docs, p, pid), k);
    if x in Collect(docs, ReadStoryCards(docs, p, ep, pid, eid)).items {
      assert x in ReadEpicCards(docs, p, pid)(docs[k]).items;
      CollectHas(docs, ReadEpicCards(docs, p, pid), k, x);
    }
  }

  lemma StoryLevel(docs: seq<Entry>, k: int, p: string, ep: string, s: string, pid: int, eid: int, sid: int, x: Part)
    requires 0 <= k < |docs| && docs[k].StoryDoc? && docs[k].project == p && docs[k].epic == ep && docs[k].story == s
    requires ParseInt(s) == Some(sid) && Collect(docs, ReadStoryCards(docs, p, ep, pid, eid)).complete
    ensures Collect(docs, ReadIssue(docs, p, ep, s, pid, eid, sid)).complete
    ensures x in Collect(docs, ReadIssue(docs, p, ep, s, pid, eid, sid)).items ==> x in Collect(docs, ReadStoryCards(docs, p, ep, pid, eid)).items
  {
    CollectTakes(docs, ReadStoryCards(docs, p, ep, pid, eid), k);
    if x in Collect(docs, ReadIssue(docs, p, ep, s, pid, eid, sid)).items {
      assert x in ReadStoryCards(docs, p, ep, pid, eid)(docs[k]).items;
      CollectHas(docs, ReadStoryCards(docs, p, ep, pid, eid), k, x);
    }
  }

  lemma IssueLevel(docs: seq<Entry>, k: int, p: string, ep: string, s: string, i: string, body: Card, pid: int, eid: int, sid: int)
    requires 0 <= k < |docs| && docs[k] == IssueDoc(p, ep, s, i, body) && ParseInt(i).Some?
    requires Collect(docs, ReadIssue(docs, p, ep, s, pid, eid, sid)).complete
    ensures CardPart(body.(id := ParseInt(i).value, storyId := Some(sid), epicId := Some(eid), projectId := Some(pid)))
            in Collect(docs, ReadIssue(docs, p, ep, s, pid, eid, sid)).items
  {
    var card := CardPart(body.(id := ParseInt(i).value, storyId := Some(sid), epicId := Some(eid), projectId := Some(pid)));
    CollectTakes(docs, ReadIssue(docs, p, ep, s, pid, eid, sid), k);
    assert card in ReadIssue(docs, p, ep, s, pid, eid, sid)(docs[k]).items;
    CollectHas(docs, ReadIssue(docs, p, ep, s, pid, eid, sid), k, card);
  }

  /** On a readable store every card the loops append ends up in `cards`. */
  lemma ReadableCards(docs: seq<Entry>, c: Card)
    requires Readable(docs) && CardPart(c) in Collect(docs, ReadProjectCards(docs)).items
    ensures c in LoadFirebase(docs).cards
  {
    var u, q, e, sp, cs := Collect(docs, ReadUser()), Collect(docs, ReadProject()),
      Collect(docs, ReadProjectEpics(docs)), Collect(docs, ReadSprint()), Collect(docs, ReadProjectCards(docs));
    assert Appended(docs) == u.items + q.items + e.items + sp.items + cs.items;
    DistributeCard(Appended(docs), c);
  }

  function HasCard(cards: seq<Card>): Comment -> bool
  {
    (m: Comment) => FindFirst(cards, CardIdIs(m.cardId)).Some?
  }

  /** One comment document per comment whose card exists; the others are not written. */
  lemma {:induction false} CommentWritesCount(ms: seq<Comment>, cards: seq<Card>)
    ensures |CommentWrites(ms, cards)| == Count(ms, HasCard(cards))
    decreases |ms|
  {
    if ms != [] {
      CommentWritesCount(ms[..|ms| - 1], cards);
      CountLast(ms, HasCard(cards));
      CommentWriteCount(ms[|ms| - 1], cards);
    }
  }

  lemma CommentWriteCount(m: Comment, cards: seq<Card>)
    ensures |CommentWrite(m, cards)| == if HasCard(cards)(m) then 1 else 0
  {
  }

  /** Each comment document sits under its card's issue path and is named by the comment's id. */
  lemma {:induction false} CommentWritesShape(ms: seq<Comment>, cards: seq<Card>)
    ensures forall v :: v in CommentWrites(ms, cards) ==>
      v.CommentDoc? && exists m :: m in ms && HasCard(cards)(m) && v.issue == IntToString(m.cardId)
                                   && v.name == IntToString(m.id) && v.comment == m.(id := 0, cardId := 0)
    decreases |ms|
  {
    if ms != [] {
      var init, m := ms[..|ms| - 1], ms[|ms| - 1];
      CommentWritesShape(init, cards);
      forall v | v in CommentWrites(ms, cards)
        ensures v.CommentDoc? && exists m :: m in ms && HasCard(cards)(m) && v.issue == IntToString(m.cardId)
                                            && v.name == IntToString(m.id) && v.comment == m.(id := 0, cardId := 0)
      {
        if v in CommentWrites(init, cards) {
          var m' :| m' in init && HasCard(cards)(m') && v.issue == IntToString(m'.cardId)
                    && v.name == IntToString(m'.id) && v.comment == m'.(id := 0, cardId := 0);
          assert m' in ms;
        } else {
          assert v in CommentWrite(m, cards);
          assert m in ms;
        }
      }
    }
  }

  /** The documents before the cards are users, projects, epics and stories;
    * those after them sprints and comments. */
  lemma WriteKinds(d: Data)
    ensures forall v :: v in FrontWrites(d) ==> v.UserDoc? || v.ProjectDoc? || v.EpicDoc? || v.StoryDoc?
    ensures forall v :: v in BackWrites(d) ==> v.SprintDoc? || v.CommentDoc?
  {
    CommentWritesShape(d.comments, d.cards);
    forall v | v in FrontWrites(d) ensures v.UserDoc? || v.ProjectDoc? || v.EpicDoc? || v.StoryDoc? {
      if v in UserWrites(d.users) {
        var k :| 0 <= k < |d.users| && v == UserWrites(d.users)[k];
      } else if v in ProjectWrites(d.projects) {
        var k :| 0 <= k < |d.projects| && v == ProjectWrites(d.projects)[k];
      } else if v in EpicWrites(d.epics) {
        var k :| 0 <= k < |d.epics| && v == EpicWrites(d.epics)[k];
      } else {
        assert v in StoryWrites(d.stories);
        var k :| 0 <= k < |d.stories| && v == StoryWrites(d.stories)[k];
      }
    }
    forall v | v in SprintWrites(d.sprints) ensures v.SprintDoc? {
      var k :| 0 <= k < |d.sprints| && v == SprintWrites(d.sprints)[k];
    }
  }

  lemma NumberedAppend(a: seq<Entry>, b: seq<Entry>)
    requires Numbered(a) && Numbered(b)
    ensures Numbered(a + b)
  {
    forall i | 0 <= i < |a + b| ensures NameIsNumber((a + b)[i]) {
      if i >= |a| {
        assert (a + b)[i] == b[i - |a|];
      }
    }
  }

  /** Each kind of write names its document by the record's id. */
  lemma KindsNumbered(d: Data)
    ensures Numbered(UserWrites(d.users)) && Numbered(ProjectWrites(d.projects))
    ensures Numbered(EpicWrites(d.epics)) && Numbered(StoryWrites(d.stories))
    ensures Numbered(CardWrites(d.cards)) && Numbered(SprintWrites(d.sprints))
  {
    forall i | 0 <= i < |d.users| ensures NameIsNumber(UserWrites(d.users)[i]) {
      IntRoundTrip(d.users[i].id);
    }
    forall i | 0 <= i < |d.epics| ensures NameIsNumber(EpicWrites(d.epics)[i]) {
      IntRoundTrip(d.epics[i].id);
    }
    forall i | 0 <= i < |d.stories| ensures NameIsNumber(StoryWrites(d.stories)[i]) {
      IntRoundTrip(d.stories[i].id);
    }
    forall i | 0 <= i < |d.cards| ensures NameIsNumber(CardWrites(d.cards)[i]) {
      IntRoundTrip(d.cards[i].id);
    }
    forall i | 0 <= i < |d.sprints| ensures NameIsNumber(SprintWrites(d.sprints)[i]) {
      IntRoundTrip(d.sprints[i].id);
    }
  }

  lemma CommentsNumbered(ms: seq<Comment>, cards: seq<Card>)
    ensures Numbered(CommentWrites(ms, cards))
  {
    CommentWritesShape(ms, cards);
    var ws := CommentWrites(ms, cards);
    forall i | 0 <= i < |ws| ensures NameIsNumber(ws[i]) {
      assert ws[i] in ws;
      var m :| m in ms && ws[i].name == IntToString(m.id);
      IntRoundTrip(m.id);
    }
  }

  /** save_data names every document by a number. */
  lemma WritesNumbered(d: Data)
    ensures Numbered(Writes(d))
  {
    KindsNumbered(d);
    CommentsNumbered(d.comments, d.cards);
    NumberedAppend(UserWrites(d.users), ProjectWrites(d.projects));
    NumberedAppend(UserWrites(d.users) + ProjectWrites(d.projects), EpicWrites(d.epics));
    NumberedAppend(UserWrites(d.users) + ProjectWrites(d.projects) + EpicWrites(d.epics), StoryWrites(d.stories));
    NumberedAppend(FrontWrites(d), CardWrites(d.cards));
    NumberedAppend(SprintWrites(d.sprints), CommentWrites(d.comments, d.cards));
    NumberedAppend(FrontWrites(d) + CardWrites(d.cards), BackWrites(d));
  }

  lemma PutAllNumbered(docs: seq<Entry>, ws: seq<Entry>)
    requires Numbered(docs) && Numbered(ws)
    ensures Numbered(PutAll(docs, ws))
  {
    PutAllPaths(docs, ws);
    forall k | 0 <= k < |PutAll(docs, ws)| ensures NameIsNumber(PutAll(docs, ws)[k]) {
      assert PutAll(docs, ws)[k] in PutAll(docs, ws);
    }
  }

  /** Only the card's own write goes to its path when card ids are distinct. */
  lemma CardPathOwned(d: Data, c: Card)
    requires c in d.cards && forall c2 :: c2 in d.cards && c2.id == c.id ==> c2 == c
    ensures forall v :: v in Writes(d) && PathOf(v) == PathOf(CardEntry(c)) ==> v == CardEntry(c)
  {
    forall v | v in Writes(d) && PathOf(v) == PathOf(CardEntry(c)) ensures v == CardEntry(c) {
      var x := WriterAt(d, v, c);
    }
  }

  /** The write at a card's path is the write of a card with the same id. */
  lemma WriterAt(d: Data, v: Entry, c: Card) returns (x: Card)
    requires v in Writes(d) && PathOf(v) == PathOf(CardEntry(c))
    ensures x in d.cards && v == CardEntry(x) && x.id == c.id
  {
    WriteKinds(d);
    assert v.IssueDoc?;
    assert v in CardWrites(d.cards);
    var k :| 0 <= k < |d.cards| && v == CardWrites(d.cards)[k];
    x := d.cards[k];
    SameIssuePath(x, c);
  }

  /** Two cards written at the same path have the same id. */
  lemma SameIssuePath(a: Card, b: Card)
    requires PathOf(CardEntry(a)) == PathOf(CardEntry(b))
    ensures a.id == b.id
  {
    assert IntToString(a.id) == IntToString(b.id);
    IntToStringInjective(a.id, b.id);
  }

  /** Save then load: a card whose project, epic and story are saved too comes
    * back whole, its id, story_id, epic_id and project_id rebuilt from the path. */
  lemma SaveLoadCard(docs: seq<Entry>, d: Data, c: Card)
    requires Numbered(docs)
    requires c in d.cards && c.projectId.Some? && c.epicId.Some? && c.storyId.Some?
    requires forall c2 :: c2 in d.cards && c2.id == c.id ==> c2 == c
    requires exists q :: q in d.projects && q.id == c.projectId.value
    requires exists e :: e in d.epics && e.projectId == c.projectId.value && e.id == c.epicId.value
    requires exists s :: s in d.stories && s.projectId == c.projectId.value && s.epicId == c.epicId.value
                         && s.id == c.storyId.value
    ensures c in LoadFirebase(PutAll(docs, Writes(d))).cards
  {
    var after := PutAll(docs, Writes(d));
    var wp, we, ws := CardOwners(d, c);
    WritesNumbered(d);
    PutAllNumbered(docs, Writes(d));
    PutAllPaths(docs, Writes(d));
    assert HasPath(after, PathOf(wp)) && HasPath(after, PathOf(we)) && HasPath(after, PathOf(ws));
    CardPathOwned(d, c);
    PutAllLands(docs, Writes(d), CardEntry(c));
    StoredCardLoads(after, c);
  }

  /** The documents save_data writes for a card and for the project, epic and story above it. */
  lemma CardOwners(d: Data, c: Card) returns (wp: Entry, we: Entry, ws: Entry)
    requires c in d.cards && c.projectId.Some? && c.epicId.Some? && c.storyId.Some?
    requires exists q :: q in d.projects && q.id == c.projectId.value
    requires exists e :: e in d.epics && e.projectId == c.projectId.value && e.id == c.epicId.value
    requires exists s :: s in d.stories && s.projectId == c.projectId.value && s.epicId == c.epicId.value
                         && s.id == c.storyId.value
    ensures CardEntry(c) in Writes(d)
    ensures wp in Writes(d) && PathOf(wp) == ProjectAt(IdText(c.projectId))
    ensures we in Writes(d) && PathOf(we) == EpicAt(IdText(c.projectId), IdText(c.epicId))
    ensures ws in Writes(d) && PathOf(ws) == StoryAt(IdText(c.projectId), IdText(c.epicId), IdText(c.storyId))
  {
    var n :| 0 <= n < |d.cards| && d.cards[n] == c;
    assert CardWrites(d.cards)[n] == CardEntry(c);
    InWrites(d, CardEntry(c));
    wp := ProjectOwner(d, c.projectId.value);
    we := EpicOwner(d, c.projectId.value, c.epicId.value);
    ws := StoryOwner(d, c.projectId.value, c.epicId.value, c.storyId.value);
  }

  lemma ProjectOwner(d: Data, p: int) returns (w: Entry)
    requires exists q :: q in d.projects && q.id == p
    ensures w in Writes(d) && PathOf(w) == ProjectAt(IntToString(p))
  {
    var i :| 0 <= i < |d.projects| && d.projects[i].id == p;
    var q := d.projects[i];
    w := ProjectWrites(d.projects)[i];
    assert w == ProjectEntry(q);
    InWrites(d, w);
  }

  lemma EpicOwner(d: Data, p: int, ep: int) returns (w: Entry)
    requires exists e :: e in d.epics && e.projectId == p && e.id == ep
    ensures w in Writes(d) && PathOf(w) == EpicAt(IntToString(p), IntToString(ep))
  {
    var i :| 0 <= i < |d.epics| && d.epics[i].projectId == p && d.epics[i].id == ep;
    var e := d.epics[i];
    w := EpicWrites(d.epics)[i];
    assert w == EpicEntry(e);
    InWrites(d, w);
  }

  lemma StoryOwner(d: Data, p: int, ep: int, s: int) returns (w: Entry)
    requires exists t :: t in d.stories && t.projectId == p && t.epicId == ep && t.id == s
    ensures w in Writes(d) && PathOf(w) == StoryAt(IntToString(p), IntToString(ep), IntToString(s))
  {
    var i :| 0 <= i < |d.stories| && d.stories[i].projectId == p && d.stories[i].epicId == ep && d.stories[i].id == s;
    var t := d.stories[i];
    w := StoryWrites(d.stories)[i];
    assert w == StoryEntry(t);
    assert PathOf(w) == StoryAt(IntToString(t.projectId), IntToString(t.epicId), IntToString(t.id));
    InWrites(d, w);
  }

  lemma InWrites(d: Data, w: Entry)
    requires w in ProjectWrites(d.projects) || w in EpicWrites(d.epics) || w in StoryWrites(d.stories)
             || w in CardWrites(d.cards)
    ensures w in Writes(d)
  {
  }

  /** A card document in a numbered store, under stored project, epic and
    * story documents, loads as the card it was written from. */
  lemma StoredCardLoads(after: seq<Entry>, c: Card)
    requires Numbered(after) && c.projectId.Some? && c.epicId.Some? && c.storyId.Some?
    requires HasPath(after, ProjectAt(IdText(c.projectId)))
    requires HasPath(after, EpicAt(IdText(c.projectId), IdText(c.epicId)))
    requires HasPath(after, StoryAt(IdText(c.projectId), IdText(c.epicId), IdText(c.storyId)))
    requires CardEntry(c) in after
    ensures c in LoadFirebase(after).cards
  {
    NumberedReadable(after);
    IntRoundTrip(c.projectId.value);
    IntRoundTrip(c.epicId.value);
    IntRoundTrip(c.storyId.value);
    IntRoundTrip(c.id);
    var P, E, S, I := IntToString(c.projectId.value), IntToString(c.epicId.value), IntToString(c.storyId.value),
      IntToString(c.id);
    CardLoaded(after, P, E, S, I, CardEntry(c).card);
    assert CardEntry(c).card.(id := c.id, storyId := c.storyId, epicId := c.epicId, projectId := c.projectId) == c;
    ReadableCards(after, c);
  }

  // ------------------------------------------------------------ skipped projects

  /** The sub-collection loops never read a project document. */
  lemma IssueLevelSkips(docs: seq<Entry>, e: Entry, p: string, ep: string, s: string, pid: int, eid: int, sid: int)
    requires e.ProjectDoc?
    ensures Collect(docs + [e], ReadIssue(docs + [e], p, ep, s, pid, eid, sid))
         == Collect(docs, ReadIssue(docs, p, ep, s, pid, eid, sid))
  {
    forall x ensures ReadIssue(docs + [e], p, ep, s, pid, eid, sid)(x) == ReadIssue(docs, p, ep, s, pid, eid, sid)(x) {
      if x.IssueDoc? && ParseInt(x.issue).Some? {
        CollectSkips(docs, ReadComment(p, ep, s, x.issue, ParseInt(x.issue).value), e);
      }
    }
    CollectSkips(docs, ReadIssue(docs + [e], p, ep, s, pid, eid, sid), e);
    CollectAlike(docs, ReadIssue(docs + [e], p, ep, s, pid, eid, sid), ReadIssue(docs, p, ep, s, pid, eid, sid));
  }

  lemma StoryLevelSkips(docs: seq<Entry>, e: Entry, p: string, ep: string, pid: int, eid: int)
    requires e.ProjectDoc?
    ensures Collect(docs + [e], ReadStoryCards(docs + [e], p, ep, pid, eid))
         == Collect(docs, ReadStoryCards(docs, p, ep, pid, eid))
  {
    forall x ensures ReadStoryCards(docs + [e], p, ep, pid, eid)(x) == ReadStoryCards(docs, p, ep, pid, eid)(x) {
      if x.StoryDoc? && ParseInt(x.story).Some? {
        IssueLevelSkips(docs, e, p, ep, x.story, pid, eid, ParseInt(x.story).value);
      }
    }
    CollectSkips(docs, ReadStoryCards(docs + [e], p, ep, pid, eid), e);
    CollectAlike(docs, ReadStoryCards(docs + [e], p, ep, pid, eid), ReadStoryCards(docs, p, ep, pid, eid));
  }

  lemma EpicLevelSkips(docs: seq<Entry>, e: Entry, p: string, pid: int)
    requires e.ProjectDoc?
    ensures Collect(docs + [e], ReadEpicCards(docs + [e], p, pid)) == Collect(docs, ReadEpicCards(docs, p, pid))
    ensures Collect(docs + [e], ReadEpic(docs + [e], p, pid)) == Collect(docs, ReadEpic(docs, p, pid))
  {
    forall x ensures ReadEpicCards(docs + [e], p, pid)(x) == ReadEpicCards(docs, p, pid)(x) {
      if x.EpicDoc? && ParseInt(x.epic).Some? {
        StoryLevelSkips(docs, e, p, x.epic, pid, ParseInt(x.epic).value);
      }
    }
    CollectSkips(docs, ReadEpicCards(docs + [e], p, pid), e);
    CollectAlike(docs, ReadEpicCards(docs + [e], p, pid), ReadEpicCards(docs, p, pid));
    forall x ensures ReadEpic(docs + [e], p, pid)(x) == ReadEpic(docs, p, pid)(x) {
      if x.EpicDoc? && ParseInt(x.epic).Some? {
        CollectSkips(docs, ReadStory(p, x.epic, pid, ParseInt(x.epic).value), e);
      }
    }
    CollectSkips(docs, ReadEpic(docs + [e], p, pid), e);
    CollectAlike(docs, ReadEpic(docs + [e], p, pid), ReadEpic(docs, p, pid));
  }

  /** A project document whose name is not a number changes nothing load_data
    * returns: neither the project list nor anything under it. */
  lemma NonNumericProjectSkipped(docs: seq<Entry>, name: string, body: Project)
    requires ParseInt(name).None?
    ensures LoadFirebase(docs + [ProjectDoc(name, body)]) == LoadFirebase(docs)
  {
    var e := ProjectDoc(name, body);
    CollectSkips(docs, ReadUser(), e);
    CollectSkips(docs, ReadProject(), e);
    CollectSkips(docs, ReadSprint(), e);
    forall x ensures ReadProjectEpics(docs + [e])(x) == ReadProjectEpics(docs)(x)
                  && ReadProjectCards(docs + [e])(x) == ReadProjectCards(docs)(x) {
      if x.ProjectDoc? && ParseInt(x.project).Some? {
        EpicLevelSkips(docs, e, x.project, ParseInt(x.project).value);
      }
    }
    CollectSkips(docs, ReadProjectEpics(docs + [e]), e);
    CollectAlike(docs, ReadProjectEpics(docs + [e]), ReadProjectEpics(docs));
    CollectSkips(docs, ReadProjectCards(docs + [e]), e);
    CollectAlike(docs, ReadProjectCards(docs + [e]), ReadProjectCards(docs));
  }

  // ------------------------------------------------------------ deletions

  /** Some issue document of the store is named by the number. */
  predicate IssueNamed(docs: seq<Entry>, n: int)
  {
    exists k :: 0 <= k < |docs| && docs[k].IssueDoc? && ParseInt(docs[k].issue) == Some(n)
  }

  /** A part that is a card carries the number of an issue document of the store. */
  function FromIssue(docs: seq<Entry>): Part -> bool
  {
    (x: Part) => x.CardPart? ==> IssueNamed(docs, x.card.id)
  }

  /** What every document contributes, the whole loop appends. */
  lemma {:induction false} CollectFrom<T>(docs: seq<Entry>, f: Entry -> Step<T>, P: T -> bool)
    requires forall i :: 0 <= i < |docs| ==> forall x :: x in f(docs[i]).items ==> P(x)
    ensures forall x :: x in Collect(docs, f).items ==> P(x)
    decreases |docs|
  {
    if docs != [] {
      var init := docs[..|docs| - 1];
      assert forall i :: 0 <= i < |init| ==> init[i] == docs[i];
      CollectFrom(init, f, P);
    }
  }

  lemma CommentsFromIssues(docs: seq<Entry>, p: string, ep: string, s: string, i: string, iid: int)
    ensures forall x :: x in Collect(docs, ReadComment(p, ep, s, i, iid)).items ==> FromIssue(docs)(x)
  {
    CollectFrom(docs, ReadComment(p, ep, s, i, iid), FromIssue(docs));
  }

  lemma IssuesFromIssues(docs: seq<Entry>, p: string, ep: string, s: string, pid: int, eid: int, sid: int)
    ensures forall x :: x in Collect(docs, ReadIssue(docs, p, ep, s, pid, eid, sid)).items ==> FromIssue(docs)(x)
  {
    var f := ReadIssue(docs, p, ep, s, pid, eid, sid);
    forall k, x | 0 <= k < |docs| && x in f(docs[k]).items ensures FromIssue(docs)(x) {
      var e := docs[k];
      if e.IssueDoc? && e.project == p && e.epic == ep && e.story == s && ParseInt(e.issue).Some? {
        var n := ParseInt(e.issue).value;
        CommentsFromIssues(docs, p, ep, s, e.issue, n);
        assert IssueNamed(docs, n);
      }
    }
    CollectFrom(docs, f, FromIssue(docs));
  }

  lemma StoryCardsFromIssues(docs: seq<Entry>, p: string, ep: string, pid: int, eid: int)
    ensures forall x :: x in Collect(docs, ReadStoryCards(docs, p, ep, pid, eid)).items ==> FromIssue(docs)(x)
  {
    var f := ReadStoryCards(docs, p, ep, pid, eid);
    forall k, x | 0 <= k < |docs| && x in f(docs[k]).items ensures FromIssue(docs)(x) {
      var e := docs[k];
      if e.StoryDoc? && e.project == p && e.epic == ep && ParseInt(e.story).Some? {
        IssuesFromIssues(docs, p, ep, e.story, pid, eid, ParseInt(e.story).value);
      }
    }
    CollectFrom(docs, f, FromIssue(docs));
  }

  lemma EpicCardsFromIssues(docs: seq<Entry>, p: string, pid: int)
    ensures forall x :: x in Collect(docs, ReadEpicCards(docs, p, pid)).items ==> FromIssue(docs)(x)
  {
    var f := ReadEpicCards(docs, p, pid);
    forall k, x | 0 <= k < |docs| && x in f(docs[k]).items ensures FromIssue(docs)(x) {
      var e := docs[k];
      if e.EpicDoc? && e.project == p && ParseInt(e.epic).Some? {
        StoryCardsFromIssues(docs, p, e.epic, pid, ParseInt(e.epic).value);
      }
    }
    CollectFrom(docs, f, FromIssue(docs));
  }

  lemma ProjectCardsFromIssues(docs: seq<Entry>)
    ensures forall x :: x in Collect(docs, ReadProjectCards(docs)).items ==> FromIssue(docs)(x)
  {
    var f := ReadProjectCards(docs);
    forall k, x | 0 <= k < |docs| && x in f(docs[k]).items ensures FromIssue(docs)(x) {
      var e := docs[k];
      if e.ProjectDoc? && ParseInt(e.project).Some? {
        EpicCardsFromIssues(docs, e.project, ParseInt(e.project).value);
      }
    }
    CollectFrom(docs, f, FromIssue(docs));
  }

  /** The user, project, epic and sprint loops append no card. */
  lemma OtherLoopsNoCards(docs: seq<Entry>)
    ensures forall x :: x in Collect(docs, ReadUser()).items ==> !x.CardPart?
    ensures forall x :: x in Collect(docs, ReadProject()).items ==> !x.CardPart?
    ensures forall x :: x in Collect(docs, ReadSprint()).items ==> !x.CardPart?
    ensures forall x :: x in Collect(docs, ReadProjectEpics(docs)).items ==> !x.CardPart?
  {
    var noCard := (x: Part) => !x.CardPart?;
    CollectFrom(docs, ReadUser(), noCard);
    CollectFrom(docs, ReadProject(), noCard);
    CollectFrom(docs, ReadSprint(), noCard);
    forall k, x | 0 <= k < |docs| && x in ReadProjectEpics(docs)(docs[k]).items ensures noCard(x) {
      var e := docs[k];
      if e.ProjectDoc? && ParseInt(e.project).Some? {
        var pid := ParseInt(e.project).value;
        forall j, y | 0 <= j < |docs| && y in ReadEpic(docs, e.project, pid)(docs[j]).items ensures noCard(y) {
          var g := docs[j];
          if g.EpicDoc? && g.project == e.project && ParseInt(g.epic).Some? {
            CollectFrom(docs, ReadStory(e.project, g.epic, pid, ParseInt(g.epic).value), noCard);
          }
        }
        CollectFrom(docs, ReadEpic(docs, e.project, pid), noCard);
      }
    }
    CollectFrom(docs, ReadProjectEpics(docs), noCard);
  }

  /** A card of the distributed data was appended as a card. */
  lemma {:induction false} DistributedCardFrom(parts: seq<Part>, c: Card)
    requires c in Distribute(parts).cards
    ensures CardPart(c) in parts
    decreases |parts|
  {
    var init := parts[..|parts| - 1];
    assert parts == init + [parts[|parts| - 1]];
    if parts[|parts| - 1] != CardPart(c) {
      DistributedCardFrom(init, c);
    }
  }

  /** Every card load_data returns is numbered like an issue document of the store. */
  lemma LoadedCardsNamed(docs: seq<Entry>)
    ensures forall c :: c in LoadFirebase(docs).cards ==> IssueNamed(docs, c.id)
  {
    OtherLoopsNoCards(docs);
    ProjectCardsFromIssues(docs);
    forall c | c in LoadFirebase(docs).cards ensures IssueNamed(docs, c.id) {
      DistributedCardFrom(Appended(docs), c);
      assert FromIssue(docs)(CardPart(c));
    }
  }

  /** As written: save_data only sets documents, so a card deleted from the
    * data, whose issue document is stored under stored project, epic and story
    * documents, is read back by the next load. */
  lemma DeletedCardReturns(docs: seq<Entry>, d: Data, c: Card)
    requires Numbered(docs) && c.projectId.Some? && c.epicId.Some? && c.storyId.Some?
    requires CardEntry(c) in docs
    requires HasPath(docs, ProjectAt(IdText(c.projectId)))
    requires HasPath(docs, EpicAt(IdText(c.projectId), IdText(c.epicId)))
    requires HasPath(docs, StoryAt(IdText(c.projectId), IdText(c.epicId), IdText(c.storyId)))
    requires forall x :: x in d.cards ==> x.id != c.id
    ensures c in LoadFirebase(PutAll(docs, Writes(d))).cards
  {
    var after := PutAll(docs, Writes(d));
    NoWriteAt(d, c);
    PutAllKeeps(docs, Writes(d), CardEntry(c));
    WritesNumbered(d);
    PutAllNumbered(docs, Writes(d));
    PathStays(docs, Writes(d), ProjectAt(IdText(c.projectId)));
    PathStays(docs, Writes(d), EpicAt(IdText(c.projectId), IdText(c.epicId)));
    PathStays(docs, Writes(d), StoryAt(IdText(c.projectId), IdText(c.epicId), IdText(c.storyId)));
    StoredCardLoads(after, c);
  }

  /** No write of the data goes to the document of a card the data lacks. */
  lemma NoWriteAt(d: Data, c: Card)
    requires forall x :: x in d.cards ==> x.id != c.id
    ensures forall w :: w in Writes(d) ==> PathOf(w) != PathOf(CardEntry(c))
  {
    forall w | w in Writes(d) ensures PathOf(w) != PathOf(CardEntry(c)) {
      NotAtCard(d, c, w);
    }
  }

  lemma NotAtCard(d: Data, c: Card, w: Entry)
    requires w in Writes(d) && forall x :: x in d.cards ==> x.id != c.id
    ensures PathOf(w) != PathOf(CardEntry(c))
  {
    PathIssue(w, CardEntry(c));
    if w.IssueDoc? {
      var x := IssueWriter(d, w);
      SameIssueName(x, c);
    }
  }

  /** A document at an issue document's path is an issue document of the same name. */
  lemma PathIssue(w: Entry, v: Entry)
    requires v.IssueDoc?
    ensures PathOf(w) == PathOf(v) ==> w.IssueDoc? && w.issue == v.issue
  {
  }

  /** A stored path stays stored through the writes. */
  lemma PathStays(docs: seq<Entry>, ws: seq<Entry>, path: DocPath)
    requires HasPath(docs, path)
    ensures HasPath(PutAll(docs, ws), path)
  {
    PutAllPaths(docs, ws);
    var y :| y in docs && PathOf(y) == path;
    assert HasPath(PutAll(docs, ws), PathOf(y));
  }

  /** An issue document save_data writes is the document of one of the data's cards. */
  lemma IssueWriter(d: Data, w: Entry) returns (x: Card)
    requires w in Writes(d) && w.IssueDoc?
    ensures x in d.cards && w == CardEntry(x) && w.issue == IntToString(x.id)
  {
    WriteKinds(d);
    assert w in CardWrites(d.cards);
    var k :| 0 <= k < |d.cards| && w == CardWrites(d.cards)[k];
    x := d.cards[k];
  }

  /** Two cards whose documents have the same name have the same id. */
  lemma SameIssueName(a: Card, b: Card)
    ensures CardEntry(a).issue == CardEntry(b).issue ==> a.id == b.id
  {
    if CardEntry(a).issue == CardEntry(b).issue {
      IntToStringInjective(a.id, b.id);
    }
  }

  /** The stored documents at a path some write uses. */
  function Kept(docs: seq<Entry>, ws: seq<Entry>): seq<Entry>
  {
    Filter(docs, (y: Entry) => HasPath(ws, PathOf(y)))
  }

  /** save_data as evidently intended: the document of a record no longer in
    * the data is deleted, and every record is then set as before. */
  function SyncedSave(docs: seq<Entry>, d: Data): seq<Entry>
  {
    PutAll(Kept(docs, Writes(d)), Writes(d))
  }

  /** After the intended save, every issue document is numbered like a card of the data. */
  lemma SyncedIssues(docs: seq<Entry>, d: Data)
    ensures forall k :: 0 <= k < |SyncedSave(docs, d)| && SyncedSave(docs, d)[k].IssueDoc? ==>
      exists x :: x in d.cards && ParseInt(SyncedSave(docs, d)[k].issue) == Some(x.id)
  {
    forall k | 0 <= k < |SyncedSave(docs, d)| && SyncedSave(docs, d)[k].IssueDoc?
      ensures exists x :: x in d.cards && ParseInt(SyncedSave(docs, d)[k].issue) == Some(x.id)
    {
      var x := SyncedIssue(docs, d, SyncedSave(docs, d)[k]);
    }
  }

  /** One issue document after the intended save, and the card it was written for. */
  lemma SyncedIssue(docs: seq<Entry>, d: Data, y: Entry) returns (x: Card)
    requires y in SyncedSave(docs, d) && y.IssueDoc?
    ensures x in d.cards && ParseInt(y.issue) == Some(x.id)
  {
    var w := WriteAtPath(docs, Writes(d), y);
    PathIssue(w, y);
    x := IssueWriter(d, w);
    IntRoundTrip(x.id);
  }

  /** A document after the intended save shares its path with one of the writes. */
  lemma WriteAtPath(docs: seq<Entry>, ws: seq<Entry>, y: Entry) returns (w: Entry)
    requires y in PutAll(Kept(docs, ws), ws)
    ensures w in ws && PathOf(w) == PathOf(y)
  {
    PutAllPaths(Kept(docs, ws), ws);
    if y in ws {
      w := y;
    } else {
      FilterMembers(docs, (v: Entry) => HasPath(ws, PathOf(v)));
      w :| w in ws && PathOf(w) == PathOf(y);
    }
  }

  /** Intended: a card deleted from the data is not read back by the next load. */
  lemma DeletedCardGone(docs: seq<Entry>, d: Data, c: Card)
    requires forall x :: x in d.cards ==> x.id != c.id
    ensures c !in LoadFirebase(SyncedSave(docs, d)).cards
  {
    LoadedCardsNamed(SyncedSave(docs, d));
    SyncedIssues(docs, d);
  }

  /** Intended: a card still in the data is read back, as with save_data. */
  lemma SyncedKeepsCard(docs: seq<Entry>, d: Data, c: Card)
    requires Numbered(docs)
    requires c in d.cards && c.projectId.Some? && c.epicId.Some? && c.storyId.Some?
    requires forall c2 :: c2 in d.cards && c2.id == c.id ==> c2 == c
    requires exists q :: q in d.projects && q.id == c.projectId.value
    requires exists e :: e in d.epics && e.projectId == c.projectId.value && e.id == c.epicId.value
    requires exists s :: s in d.stories && s.projectId == c.projectId.value && s.epicId == c.epicId.value
                         && s.id == c.storyId.value
    ensures c in LoadFirebase(SyncedSave(docs, d)).cards
  {
    var kept := Kept(docs, Writes(d));
    FilterMembers(docs, (y: Entry) => HasPath(Writes(d), PathOf(y)));
    forall k | 0 <= k < |kept| ensures NameIsNumber(kept[k]) {
      assert kept[k] in docs;
    }
    SaveLoadCard(kept, d, c);
  }

  // ------------------------------------------------------------ fallback and seeding

  /** What DataManager.load_data gave: an exception, or a data set. */
  datatype LocalRead = LocalFailed | LocalLoaded(data: Data)

  function Empty(): Data { Data([], [], [], [], [], [], [], []) }

  /** Without a store: the local data when it has users, else data.json when
    * it has users, else the eight empty lists; nothing is seeded. */
  function NoStore(local: LocalRead, file: Option<Data>): (r: Data)
    ensures r.users == [] ==> r == Empty()
    ensures local.LocalLoaded? && local.data.users != [] ==> r == local.data
    ensures (local.LocalFailed? || local.data.users == []) && file.Some? && file.value.users != [] ==> r == file.value
  {
    if local.LocalLoaded? && local.data.users != [] then local.data
    else if file.Some? && file.value.users != [] then file.value
    else Empty()
  }

  /** With a store that gave no users: the local data when it has users; when
    * DataManager raised, whatever data.json holds, users or not. */
  function Fallback(fire: Data, local: LocalRead, file: Option<Data>): (r: Data)
    ensures fire.users != [] ==> r == fire
    ensures r.users == [] ==> r == fire || (local.LocalFailed? && file == Some(r))
  {
    if fire.users != [] then fire
    else match local
      case LocalLoaded(d) => if d.users != [] then d else fire
      case LocalFailed => if file.Some? then file.value else fire
  }

  /** The default administrator, stored as document `users/1`. */
  function Admin(passwordHash: string, now: string): User
  {
    User(1, "admin", passwordHash, Some("admin@example.com"), Some("Administrator"), Some("admin"), Some("active"),
         None, map["created_at" := now])
  }

  /** The default project, stored as document `projects/1`. */
  function DefaultProject(now: string): Project
  {
    Project(1, "Sample Project", Some("Your first project"), None, None, None, None, map["created_at" := now])
  }

  /** The documents the seeding writes. */
  function SeedWrites(d: Data, passwordHash: string, now: string): seq<Entry>
  {
    (if d.users == [] then [UserDoc("1", Admin(passwordHash, now).(id := 0))] else [])
    + (if d.projects == [] then [ProjectDoc("1", DefaultProject(now).(id := 0))] else [])
  }

  /** An empty user list gets the administrator, an empty project list the
    * default project; the rest is kept. */
  function Seeded(d: Data, passwordHash: string, now: string): (r: Data)
    ensures r.users != [] && r.projects != []
    ensures d.users != [] ==> r.users == d.users
    ensures d.projects != [] ==> r.projects == d.projects
    ensures r.(users := d.users, projects := d.projects) == d
  {
    var withAdmin := if d.users == [] then d.(users := [Admin(passwordHash, now)]) else d;
    if withAdmin.projects == [] then withAdmin.(projects := [DefaultProject(now)]) else withAdmin
  }

  /** load_data. With a store: the store's data, the fallback when it gave no
    * users, then the seeding, whose documents are written to the store. */
  method LoadData(db: DocStore?, local: LocalRead, file: Option<Data>, passwordHash: string, now: string)
    returns (r: Data)
    modifies db
    ensures db == null ==> r == NoStore(local, file)
    ensures db != null ==>
      r == Seeded(Fallback(LoadFirebase(old(db.docs)), local, file), passwordHash, now)
      && db.docs == PutAll(old(db.docs), SeedWrites(Fallback(LoadFirebase(old(db.docs)), local, file), passwordHash, now))
  {
    if db == null {
      return NoStore(local, file);
    }
    var fire := LoadFromStore(db);
    var data := Fallback(fire, local, file);
    ghost var start := db.docs;
    ghost var loaded := data;
    if data.users == [] {
      db.Set(UserDoc("1", Admin(passwordHash, now).(id := 0)));
      data := data.(users := [Admin(passwordHash, now)]);
    }
    if data.projects == [] {
      db.Set(ProjectDoc("1", DefaultProject(now).(id := 0)));
      data := data.(projects := [DefaultProject(now)]);
    }
    r := data;
    PutAllAppend(start, if loaded.users == [] then [UserDoc("1", Admin(passwordHash, now).(id := 0))] else [],
                 if loaded.projects == [] then [ProjectDoc("1", DefaultProject(now).(id := 0))] else []);
  }

  /** With a store, load_data always returns a user and a project, and the
    * seeded ones are in the store afterwards. */
  lemma StoreAlwaysSeeded(docs: seq<Entry>, local: LocalRead, file: Option<Data>, passwordHash: string, now: string)
    ensures Seeded(Fallback(LoadFirebase(docs), local, file), passwordHash, now).users != []
    ensures Seeded(Fallback(LoadFirebase(docs), local, file), passwordHash, now).projects != []
    ensures Fallback(LoadFirebase(docs), local, file).users == [] ==>
      HasPath(PutAll(docs, SeedWrites(Fallback(LoadFirebase(docs), local, file), passwordHash, now)), UserAt("1"))
    ensures Fallback(LoadFirebase(docs), local, file).projects == [] ==>
      HasPath(PutAll(docs, SeedWrites(Fallback(LoadFirebase(docs), local, file), passwordHash, now)), ProjectAt("1"))
  {
    var d := Fallback(LoadFirebase(docs), local, file);
    PutAllPaths(docs, SeedWrites(d, passwordHash, now));
    if d.users == [] {
      assert UserDoc("1", Admin(passwordHash, now).(id := 0)) in SeedWrites(d, passwordHash, now);
    }
    if d.projects == [] {
      assert ProjectDoc("1", DefaultProject(now).(id := 0)) in SeedWrites(d, passwordHash, now);
    }
  }

  // ------------------------------------------------------------ an exception ends the load

  /** Only users were appended: every other list is empty. */
  lemma {:induction false} DistributeUsers(parts: seq<Part>)
    requires forall k :: 0 <= k < |parts| ==> parts[k].UserPart?
    ensures Distribute(parts) == Empty().(users := Distribute(parts).users)
    ensures |Distribute(parts).users| == |parts|
    decreases |parts|
  {
    if parts != [] {
      DistributeUsers(parts[..|parts| - 1]);
    }
  }

  lemma ReadUserParts(docs: seq<Entry>)
    ensures forall k :: 0 <= k < |Collect(docs, ReadUser()).items| ==> Collect(docs, ReadUser()).items[k].UserPart?
    decreases |docs|
  {
    if docs != [] {
      ReadUserParts(docs[..|docs| - 1]);
    }
  }

  /** A user document whose name is not a number raises: the load keeps the
    * users read before it and nothing else. */
  lemma BadUserEndsLoad(docs: seq<Entry>, j: int)
    requires 0 <= j < |docs| && docs[j].UserDoc? && ParseInt(docs[j].name).None?
    ensures LoadFirebase(docs) == Empty().(users := LoadFirebase(docs).users)
    ensures |LoadFirebase(docs).users| <= j
  {
    var u := Collect(docs, ReadUser());
    if u.complete {
      CollectTakes(docs, ReadUser(), j);
      assert false;
    }
    ReadUserParts(docs);
    DistributeUsers(u.items);
    UsersBefore(docs, j);
  }

  /** At most one user per document up to the first that raises. */
  lemma {:induction false} UsersBefore(docs: seq<Entry>, j: int)
    requires 0 <= j < |docs| && docs[j].UserDoc? && ParseInt(docs[j].name).None?
    ensures |Collect(docs, ReadUser()).items| <= j
    decreases |docs|
  {
    var init := docs[..|docs| - 1];
    if j < |docs| - 1 {
      assert init[j] == docs[j];
      if Collect(init, ReadUser()).complete {
        CollectTakes(init, ReadUser(), j);
        assert false;
      }
      UsersBefore(init, j);
    } else {
      AtMostOneUserEach(init);
    }
  }

  lemma {:induction false} AtMostOneUserEach(docs: seq<Entry>)
    ensures |Collect(docs, ReadUser()).items| <= |docs|
    decreases |docs|
  {
    if docs != [] {
      AtMostOneUserEach(docs[..|docs| - 1]);
    }
  }
}
