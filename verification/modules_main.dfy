/** The pages of app_modules/routes/main.py and `load_firebase_data`, which
  * reads projects and cards from the document store and rewrites their
  * 'PROJ-n' / 'CARD-n' ids to integers. The document store's answer is a
  * parameter; when it is absent, or a rewrite raises, the JSON file is used. */
module ModulesMain {
  import opened Common
  import opened Numerals
  import Records
  import ModuleUsers

  /** An id field as the document store returns it: a number, a string, or no key. */
  datatype Value = Int(i: int) | Str(s: string) | Missing

  datatype StoredProject = StoredProject(id: Value, name: string)
  datatype StoredCard = StoredCard(id: Value, projectId: Value, title: string, status: string,
                                   assignee: Option<string>, dueDate: Option<string>)

  /** The collections the pages read. */
  datatype Loaded = Loaded(projects: seq<StoredProject>, cards: seq<StoredCard>)

  predicate StartsWith(s: string, prefix: string)
  {
    |prefix| <= |s| && s[..|prefix|] == prefix
  }

  /** The text before the first `c`, or all of `s`. */
  function UpTo(s: string, c: char): (r: string)
    ensures |r| <= |s| && r == s[..|r|]
    ensures forall i :: 0 <= i < |r| ==> r[i] != c
    ensures |r| < |s| ==> s[|r|] == c
  {
    if s == [] || s[0] == c then [] else [s[0]] + UpTo(s[1..], c)
  }

  /** `int(s.split('-')[1])` for a string starting with a prefix such as 'PROJ-'
    * whose only '-' is its last character: the field after the prefix. */
  function PrefixedNumber(s: string, prefix: string): Option<int>
    requires StartsWith(s, prefix)
  {
    ParseInt(UpTo(s[|prefix|..], '-'))
  }

  /** A project id after the rewrite; None when `int()` raises. */
  function ProjectIdOf(v: Value): Option<Value>
  {
    if v.Str? && StartsWith(v.s, "PROJ-") then
      match PrefixedNumber(v.s, "PROJ-")
      case None => None
      case Some(n) => Some(Int(n))
    else Some(v)
  }

  function CardIdOf(v: Value): Option<Value>
  {
    if v.Str? && StartsWith(v.s, "CARD-") then
      match PrefixedNumber(v.s, "CARD-")
      case None => None
      case Some(n) => Some(Int(n))
    else Some(v)
  }

  /** A card's project id: a 'PROJ-n' string gives n, any other string is parsed whole. */
  function CardProjectIdOf(v: Value): Option<Value>
  {
    if v.Str? then
      if StartsWith(v.s, "PROJ-") then
        match PrefixedNumber(v.s, "PROJ-")
        case None => None
        case Some(n) => Some(Int(n))
      else
        match ParseInt(v.s)
        case None => None
        case Some(n) => Some(Int(n))
    else Some(v)
  }

  function ProjectOf(p: StoredProject): Option<StoredProject>
  {
    match ProjectIdOf(p.id)
    case None => None
    case Some(id) => Some(p.(id := id))
  }

  function CardOf(c: StoredCard): Option<StoredCard>
  {
    match CardIdOf(c.id)
    case None => None
    case Some(id) =>
      match CardProjectIdOf(c.projectId)
      case None => None
      case Some(pid) => Some(c.(id := id, projectId := pid))
  }

  /** The rewritten list, or None when some rewrite raises. */
  function AllOf<T>(s: seq<T>, f: T -> Option<T>): (r: Option<seq<T>>)
    ensures r.Some? ==> |r.value| == |s| && forall i :: 0 <= i < |s| ==> f(s[i]) == Some(r.value[i])
    ensures r.None? <==> exists i :: 0 <= i < |s| && f(s[i]).None?
  {
    if s == [] then Some([])
    else
      match AllOf(s[..|s| - 1], f)
      case None => None
      case Some(init) =>
        match f(s[|s| - 1])
        case None => None
        case Some(x) => Some(init + [x])
  }

  /** The two rewrite loops of `load_firebase_data`, in place on the lists. */
  method Rewrite<T>(s: seq<T>, f: T -> Option<T>) returns (r: Option<seq<T>>)
    ensures r == AllOf(s, f)
  {
    var out := s;
    var i := 0;
    while i < |s|
      invariant 0 <= i <= |s| && |out| == |s|
      invariant AllOf(s[..i], f) == Some(out[..i])
      invariant out[i..] == s[i..]
    {
      AllOfStep(s, i, f);
      var x := f(s[i]);
      if x.None? {
        FailureSpreads(s, i + 1, f);
        return None;
      }
      out := out[i := x.value];
      assert out[..i + 1] == out[..i] + [x.value];
      i := i + 1;
    }
    assert s[..i] == s && out[..i] == out;
    return Some(out);
  }

  /** The rewrite of one more element. */
  lemma AllOfStep<T>(s: seq<T>, i: nat, f: T -> Option<T>)
    requires i < |s|
    ensures AllOf(s[..i + 1], f) ==
      match AllOf(s[..i], f)
      case None => None
      case Some(init) => if f(s[i]).None? then None else Some(init + [f(s[i]).value])
  {
    assert s[..i + 1][..i] == s[..i];
  }

  /** Once a prefix fails to rewrite, the whole list does. */
  lemma FailureSpreads<T>(s: seq<T>, n: nat, f: T -> Option<T>)
    requires n <= |s| && AllOf(s[..n], f).None?
    ensures AllOf(s, f).None?
  {
    var i :| 0 <= i < n && f(s[..n][i]).None?;
    assert s[i] == s[..n][i];
  }

  /** The collections loaded from the JSON file (the fallback); a card without a
    * project id has no project key. */
  function FromFile(f: ModuleUsers.DataFile): Loaded
  {
    Loaded(
      seq(|GetOr(f.projects, [])|, i requires 0 <= i < |GetOr(f.projects, [])| =>
        StoredProject(Int(GetOr(f.projects, [])[i].id), GetOr(f.projects, [])[i].name)),
      seq(|GetOr(f.cards, [])|, i requires 0 <= i < |GetOr(f.cards, [])| =>
        var c := GetOr(f.cards, [])[i];
        StoredCard(Int(c.id), if c.projectId.Some? then Int(c.projectId.value) else Missing, c.title, c.status,
                   c.assignee, c.dueDate)))
  }

  /** load_firebase_data: the store's rewritten projects and cards, or the JSON
    * file's when there is no store or a rewrite raises. */
  method LoadFirebaseData(store: Option<Loaded>, file: Option<ModuleUsers.DataFile>, adminHash: string)
    returns (r: Loaded)
    ensures store.Some? && AllOf(store.value.projects, ProjectOf).Some? && AllOf(store.value.cards, CardOf).Some? ==>
      r == Loaded(AllOf(store.value.projects, ProjectOf).value, AllOf(store.value.cards, CardOf).value)
    ensures store.None? || AllOf(store.value.projects, ProjectOf).None? || AllOf(store.value.cards, CardOf).None? ==>
      r == FromFile(ModuleUsers.LoadData(file, adminHash))
  {
    if store.Some? {
      var projects := Rewrite(store.value.projects, ProjectOf);
      if projects.Some? {
        var cards := Rewrite(store.value.cards, CardOf);
        if cards.Some? {
          return Loaded(projects.value, cards.value);
        }
      }
    }
    r := FromFile(ModuleUsers.LoadData(file, adminHash));
  }

  /** A 'PROJ-' or 'CARD-' id becomes the number between its first and second
    * '-', whatever follows the second '-'. */
  lemma PrefixedIdsBecomeNumbers(digits: string, rest: string)
    requires |digits| >= 1 && AllDigits(digits)
    requires rest == [] || rest[0] == '-'
    ensures ProjectIdOf(Str("PROJ-" + (digits + rest))) == Some(Int(DigitsValue(digits)))
    ensures CardIdOf(Str("CARD-" + (digits + rest))) == Some(Int(DigitsValue(digits)))
    ensures CardProjectIdOf(Str("PROJ-" + (digits + rest))) == Some(Int(DigitsValue(digits)))
  {
    FieldAfterPrefix("PROJ-", digits, rest);
    FieldAfterPrefix("CARD-", digits, rest);
  }

  /** A card's project id given as a plain digit string is read whole. */
  lemma PlainProjectIdParsed(digits: string)
    requires |digits| >= 1 && AllDigits(digits)
    ensures CardProjectIdOf(Str(digits)) == Some(Int(DigitsValue(digits)))
  {
    ParseDigits(digits);
    assert !StartsWith(digits, "PROJ-") by {
      assert IsDigit(digits[0]);
      if |digits| >= 5 {
        assert digits[..5][0] == digits[0];
      }
    }
  }

  /** The number after a prefix is the digits up to the next '-'. */
  lemma FieldAfterPrefix(prefix: string, digits: string, rest: string)
    requires |digits| >= 1 && AllDigits(digits)
    requires rest == [] || rest[0] == '-'
    ensures StartsWith(prefix + (digits + rest), prefix)
    ensures PrefixedNumber(prefix + (digits + rest), prefix) == Some(DigitsValue(digits))
  {
    SplitAfter(prefix, digits + rest);
    UpToStops(digits, rest);
    ParseDigits(digits);
  }

  lemma SplitAfter(prefix: string, x: string)
    ensures StartsWith(prefix + x, prefix) && (prefix + x)[|prefix|..] == x
  {
  }

  /** `digits + rest` up to the first '-' is `digits` when `rest` starts with one. */
  lemma {:induction false} UpToStops(digits: string, rest: string)
    requires AllDigits(digits)
    requires rest == [] || rest[0] == '-'
    ensures UpTo(digits + rest, '-') == digits
  {
    if digits != [] {
      assert (digits + rest)[1..] == digits[1..] + rest;
      UpToStops(digits[1..], rest);
    }
  }

  /** Numbers, missing keys and strings without the prefix keep their value. */
  lemma OtherIdsUnchanged(v: Value)
    ensures !v.Str? ==> ProjectIdOf(v) == Some(v) && CardIdOf(v) == Some(v) && CardProjectIdOf(v) == Some(v)
    ensures v.Str? && !StartsWith(v.s, "PROJ-") ==> ProjectIdOf(v) == Some(v)
    ensures v.Str? && !StartsWith(v.s, "CARD-") ==> CardIdOf(v) == Some(v)
  {
  }

  // ------------------------------------------------------------ pages

  function StatusIs(v: string): StoredCard -> bool { (c: StoredCard) => c.status == v }
  function TodoOrProgress(): StoredCard -> bool { (c: StoredCard) => c.status == "todo" || c.status == "in_progress" }
  function InProject(pid: int): StoredCard -> bool { (c: StoredCard) => c.projectId == Int(pid) }
  function TodoIn(pid: int): StoredCard -> bool { (c: StoredCard) => c.projectId == Int(pid) && c.status == "todo" }

  datatype Stats = Stats(todo: nat, inProgress: nat, done: nat, total: nat)

  /** dashboard: a card in any other state is counted only in the total. */
  function DashboardStats(cards: seq<StoredCard>): (s: Stats)
    ensures s.todo + s.inProgress + s.done <= s.total == |cards|
  {
    CountExclusive(cards, StatusIs("todo"), StatusIs("in_progress"), TodoOrProgress());
    CountExclusive(cards, TodoOrProgress(), StatusIs("done"), (c: StoredCard) => c.status in {"todo", "in_progress", "done"});
    Stats(Count(cards, StatusIs("todo")), Count(cards, StatusIs("in_progress")), Count(cards, StatusIs("done")), |cards|)
  }

  /** `next((p for p in projects if p['id'] == project_id), None)` */
  function ProjectNamed(projects: seq<StoredProject>, pid: int): (r: Option<StoredProject>)
    ensures r.Some? ==> r.value in projects && r.value.id == Int(pid)
    ensures r.None? <==> forall i :: 0 <= i < |projects| ==> projects[i].id != Int(pid)
  {
    match FindFirst(projects, (p: StoredProject) => p.id == Int(pid))
    case None => None
    case Some(k) => Some(projects[k])
  }

  datatype IssuesPage = IssuesPage(cards: seq<StoredCard>, project: Option<StoredProject>)

  /** issues_list: with a (truthy) project id, that project's cards; otherwise all. */
  function IssuesList(d: Loaded, projectId: Option<int>): (r: IssuesPage)
    ensures TruthyInt(projectId) ==>
      && (forall i :: 0 <= i < |r.cards| ==> r.cards[i] in d.cards && r.cards[i].projectId == Int(projectId.value))
      && (forall i :: 0 <= i < |d.cards| && d.cards[i].projectId == Int(projectId.value) ==> d.cards[i] in r.cards)
      && r.project == ProjectNamed(d.projects, projectId.value)
    ensures !TruthyInt(projectId) ==> r == IssuesPage(d.cards, None)
  {
    if TruthyInt(projectId) then IssuesPage(Filter(d.cards, InProject(projectId.value)), ProjectNamed(d.projects, projectId.value))
    else IssuesPage(d.cards, None)
  }

  datatype Board = Board(project: StoredProject, todo: seq<StoredCard>, inProgress: seq<StoredCard>, done: seq<StoredCard>)

  /** kanban_board */
  function KanbanBoard(d: Loaded, pid: int): (r: Records.Reply<Board>)
    ensures r.Fail? <==> ProjectNamed(d.projects, pid).None?
    ensures r.Fail? ==> r.code == 404
    ensures r.Ok? ==> r.value.project.id == Int(pid)
  {
    match ProjectNamed(d.projects, pid)
    case None => Records.Fail(404, "Project not found")
    case Some(p) =>
      var cards := Filter(d.cards, InProject(pid));
      Records.Ok(Board(p, Filter(cards, StatusIs("todo")), Filter(cards, StatusIs("in_progress")), Filter(cards, StatusIs("done"))))
  }

  /** The three columns hold cards of the project only, each in the column of its
    * status, so the columns are disjoint. */
  lemma BoardColumns(d: Loaded, pid: int)
    requires KanbanBoard(d, pid).Ok?
    ensures var b := KanbanBoard(d, pid).value;
      && (forall c :: c in b.todo ==> c in d.cards && c.projectId == Int(pid) && c.status == "todo")
      && (forall c :: c in b.inProgress ==> c in d.cards && c.projectId == Int(pid) && c.status == "in_progress")
      && (forall c :: c in b.done ==> c in d.cards && c.projectId == Int(pid) && c.status == "done")
      && (forall c :: c in d.cards && c.projectId == Int(pid) && c.status == "todo" ==> c in b.todo)
      && (forall c :: c in d.cards && c.projectId == Int(pid) && c.status == "in_progress" ==> c in b.inProgress)
      && (forall c :: c in d.cards && c.projectId == Int(pid) && c.status == "done" ==> c in b.done)
  {
    var cards := Filter(d.cards, InProject(pid));
    var b := KanbanBoard(d, pid).value;
    forall c | c in d.cards && c.projectId == Int(pid)
      ensures c in cards
    {
      var i :| 0 <= i < |d.cards| && d.cards[i] == c;
    }
    forall c | c in cards && c.status in {"todo", "in_progress", "done"}
      ensures c in b.todo || c in b.inProgress || c in b.done
    {
      var j :| 0 <= j < |cards| && cards[j] == c;
    }
  }

  /** backlog: the cards to do, of the given project when one is given. */
  function Backlog(d: Loaded, projectId: Option<int>): (r: IssuesPage)
    ensures forall i :: 0 <= i < |r.cards| ==> r.cards[i] in d.cards && r.cards[i].status == "todo"
    ensures TruthyInt(projectId) ==>
      && (forall i :: 0 <= i < |r.cards| ==> r.cards[i].projectId == Int(projectId.value))
      && (forall i :: 0 <= i < |d.cards| && d.cards[i].projectId == Int(projectId.value) && d.cards[i].status == "todo"
            ==> d.cards[i] in r.cards)
    ensures !TruthyInt(projectId) ==>
      r.project.None? && forall i :: 0 <= i < |d.cards| && d.cards[i].status == "todo" ==> d.cards[i] in r.cards
  {
    if TruthyInt(projectId) then IssuesPage(Filter(d.cards, TodoIn(projectId.value)), ProjectNamed(d.projects, projectId.value))
    else IssuesPage(Filter(d.cards, StatusIs("todo")), None)
  }
}
