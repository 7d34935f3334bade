/** `AnalyticsService` of app/services/analytics_service.py over the projects
  * and cards `load_firebase_data` yields: the overdue test, project health,
  * per-assignee workload and the three reports built on them. The clock
  * reading is a parameter; percentages are compared by cross-multiplication. */
module Analytics {
  import opened Common
  import opened Dates
  import opened ModulesMain

  /** `datetime.now()`: a date and the microseconds elapsed since its midnight. */
  datatype Moment = Moment(date: Date, sinceMidnight: nat)

  /** `_is_overdue`: a due date that parses, whose midnight is before now, on a
    * card not done. An empty, missing or unparseable due date is never overdue. */
  predicate IsOverdue(c: StoredCard, now: Moment)
  {
    && c.dueDate.Some? && c.dueDate.value != ""
    && ParseDate(c.dueDate.value).Some?
    && (Before(ParseDate(c.dueDate.value).value, now.date)
        || (ParseDate(c.dueDate.value).value == now.date && now.sinceMidnight > 0))
    && c.status != "done"
  }

  /** Exactly the cases the service names: a done card, a missing or empty due
    * date and an unparseable one are not overdue; otherwise the comparison decides. */
  lemma OverdueCases(c: StoredCard, now: Moment)
    ensures c.status == "done" ==> !IsOverdue(c, now)
    ensures c.dueDate.None? || c.dueDate == Some("") ==> !IsOverdue(c, now)
    ensures c.dueDate.Some? && ParseDate(c.dueDate.value).None? ==> !IsOverdue(c, now)
    ensures c.status != "done" && c.dueDate.Some? && ParseDate(c.dueDate.value).Some? ==>
      (IsOverdue(c, now) <==> Before(ParseDate(c.dueDate.value).value, now.date)
                              || (ParseDate(c.dueDate.value).value == now.date && now.sinceMidnight > 0))
  {
    if c.dueDate == Some("") {
      assert ParseDate("").None?;
    }
  }

  function Overdue(now: Moment): StoredCard -> bool { (c: StoredCard) => IsOverdue(c, now) }
  function IsDone(): StoredCard -> bool { (c: StoredCard) => c.status == "done" }
  function OfProject(id: Value): StoredCard -> bool { (c: StoredCard) => c.projectId == id }

  // ------------------------------------------------------------ project health

  datatype Health = Health(id: Value, name: string, status: string, done: nat, total: nat, overdue: nat)

  /** The status precedence: overdue, then under 30 percent done, then 100 percent, then on track. */
  function HealthStatus(done: nat, total: nat, overdue: nat): string
  {
    if overdue > 0 then "overdue"
    else if 100 * done < 30 * total then "at-risk"
    else if 100 * done >= 100 * total then "completed"
    else "on-track"
  }

  /** One project's entry; None for a project without cards, which the service skips. */
  function HealthOf(p: StoredProject, cards: seq<StoredCard>, now: Moment): Option<Health>
  {
    var mine := Filter(cards, OfProject(p.id));
    if mine == [] then
      None
    else
      Some(Health(p.id, p.name, HealthStatus(Count(mine, IsDone()), |mine|, Count(mine, Overdue(now))),
                  Count(mine, IsDone()), |mine|, Count(mine, Overdue(now))))
  }

  /** A project has an entry exactly when it has a card; the entry carries the
    * project's id and name, and its three numbers count the project's cards,
    * its done cards and its overdue cards. */
  lemma HealthOfSpec(p: StoredProject, cards: seq<StoredCard>, now: Moment)
    ensures var r := HealthOf(p, cards, now);
      r.None? <==> forall i :: 0 <= i < |cards| ==> cards[i].projectId != p.id
    ensures var r := HealthOf(p, cards, now);
      r.Some? ==>
      && r.value.id == p.id && r.value.name == p.name
      && r.value.total == Count(cards, OfProject(p.id)) > 0
      && r.value.done == Count(Filter(cards, OfProject(p.id)), IsDone()) <= r.value.total
      && r.value.overdue == Count(Filter(cards, OfProject(p.id)), Overdue(now)) <= r.value.total
      && r.value.status == HealthStatus(r.value.done, r.value.total, r.value.overdue)
  {
    var mine := Filter(cards, OfProject(p.id));
    if mine != [] {
      assert mine[0] in cards && OfProject(p.id)(mine[0]);
    }
  }

  /** Read against the project's own cards: the project is overdue exactly when
    * one of its cards is overdue, completed exactly when every one of its cards
    * is done, and at risk exactly when none is overdue and under 30 percent of
    * them are done. */
  lemma HealthPrecedence(p: StoredProject, cards: seq<StoredCard>, now: Moment)
    ensures var r := HealthOf(p, cards, now);
      r.Some? ==> (r.value.status == "overdue" <==>
                   exists i :: 0 <= i < |cards| && cards[i].projectId == p.id && IsOverdue(cards[i], now))
    ensures var r := HealthOf(p, cards, now);
      r.Some? ==> (r.value.status == "completed" <==>
                   forall i :: 0 <= i < |cards| && cards[i].projectId == p.id ==> cards[i].status == "done")
    ensures var r := HealthOf(p, cards, now);
      r.Some? ==> (r.value.status == "at-risk" <==>
                   (forall i :: 0 <= i < |cards| && cards[i].projectId == p.id ==> !IsOverdue(cards[i], now))
                   && 100 * r.value.done < 30 * r.value.total)
  {
    var r := HealthOf(p, cards, now);
    HealthOfSpec(p, cards, now);
    if r.Some? {
      var mine := Filter(cards, OfProject(p.id));
      FilterMembers(cards, OfProject(p.id));
      StatusCases(r.value.done, r.value.total, r.value.overdue);
      OverdueInProject(cards, mine, p.id, now);
      DoneInProject(cards, mine, p.id);
    }
  }

  /** The project has an overdue card exactly when its filtered list does. */
  lemma OverdueInProject(cards: seq<StoredCard>, mine: seq<StoredCard>, id: Value, now: Moment)
    requires forall x :: x in mine <==> x in cards && OfProject(id)(x)
    ensures Count(mine, Overdue(now)) > 0 <==>
            exists i :: 0 <= i < |cards| && cards[i].projectId == id && IsOverdue(cards[i], now)
  {
    CountPositive(mine, Overdue(now));
    if exists i :: 0 <= i < |cards| && cards[i].projectId == id && IsOverdue(cards[i], now) {
      var i :| 0 <= i < |cards| && cards[i].projectId == id && IsOverdue(cards[i], now);
      assert cards[i] in mine;
      var j :| 0 <= j < |mine| && mine[j] == cards[i];
      assert Overdue(now)(mine[j]);
    }
    if exists j :: 0 <= j < |mine| && Overdue(now)(mine[j]) {
      var j :| 0 <= j < |mine| && Overdue(now)(mine[j]);
      assert mine[j] in cards;
      var i :| 0 <= i < |cards| && cards[i] == mine[j];
    }
  }

  /** Every card of the project is done exactly when every card of its filtered list is. */
  lemma DoneInProject(cards: seq<StoredCard>, mine: seq<StoredCard>, id: Value)
    requires forall x :: x in mine <==> x in cards && OfProject(id)(x)
    ensures Count(mine, IsDone()) == |mine| <==>
            forall i :: 0 <= i < |cards| && cards[i].projectId == id ==> cards[i].status == "done"
  {
    FilterKeepsAll(mine, IsDone());
    if forall i :: 0 <= i < |cards| && cards[i].projectId == id ==> cards[i].status == "done" {
      forall j | 0 <= j < |mine| ensures IsDone()(mine[j]) {
        assert mine[j] in cards;
        var i :| 0 <= i < |cards| && cards[i] == mine[j];
      }
    }
    if forall j :: 0 <= j < |mine| ==> IsDone()(mine[j]) {
      forall i | 0 <= i < |cards| && cards[i].projectId == id ensures cards[i].status == "done" {
        assert cards[i] in mine;
        var j :| 0 <= j < |mine| && mine[j] == cards[i];
        assert IsDone()(mine[j]);
      }
    }
  }

  /** get_project_health_data: one entry per project with cards, in project order. */
  function ProjectHealth(d: Loaded, now: Moment): (r: seq<Health>)
    ensures |r| <= |d.projects|
    ensures forall i :: 0 <= i < |r| ==>
      && 0 < r[i].total && r[i].done <= r[i].total && r[i].overdue <= r[i].total
      && r[i].status == HealthStatus(r[i].done, r[i].total, r[i].overdue)
    decreases |d.projects|
  {
    if d.projects == [] then []
    else
      var init := ProjectHealth(d.(projects := d.projects[..|d.projects| - 1]), now);
      HealthOfSpec(d.projects[|d.projects| - 1], d.cards, now);
      match HealthOf(d.projects[|d.projects| - 1], d.cards, now)
      case None => init
      case Some(h) => init + [h]
  }

  /** Each project's optional entry, in project order. */
  function Healths(ps: seq<StoredProject>, cards: seq<StoredCard>, now: Moment): seq<Option<Health>>
  {
    seq(|ps|, i requires 0 <= i < |ps| => HealthOf(ps[i], cards, now))
  }

  /** The report is the present entries of the projects, in order. */
  lemma {:induction false} ProjectHealthSomes(d: Loaded, now: Moment)
    ensures ProjectHealth(d, now) == Somes(Healths(d.projects, d.cards, now))
    decreases |d.projects|
  {
    if d.projects != [] {
      var n := |d.projects| - 1;
      ProjectHealthSomes(d.(projects := d.projects[..n]), now);
      HealthsPrefix(d.projects, d.cards, now);
      ProjectHealthLast(d, now);
      SomesLast(Healths(d.projects, d.cards, now));
    }
  }

  /** The last project adds its entry, if any, at the end. */
  lemma ProjectHealthLast(d: Loaded, now: Moment)
    requires d.projects != []
    ensures var n := |d.projects| - 1;
      var h := HealthOf(d.projects[n], d.cards, now);
      ProjectHealth(d, now)
      == if h.None? then ProjectHealth(d.(projects := d.projects[..n]), now)
         else ProjectHealth(d.(projects := d.projects[..n]), now) + [h.value]
  {
  }

  /** Dropping the last project drops its entry. */
  lemma HealthsPrefix(ps: seq<StoredProject>, cards: seq<StoredCard>, now: Moment)
    requires ps != []
    ensures Healths(ps, cards, now)[..|ps| - 1] == Healths(ps[..|ps| - 1], cards, now)
    ensures Healths(ps, cards, now)[|ps| - 1] == HealthOf(ps[|ps| - 1], cards, now)
  {
  }

  /** The report lists the projects that have cards (HealthOf gives Some
    * exactly for those), each once and in project order: entry k is the health
    * of project idx[k], the indices increase, and a project's index is among
    * them exactly when it has a card. */
  lemma ProjectHealthSpec(d: Loaded, now: Moment) returns (idx: seq<nat>)
    ensures |idx| == |ProjectHealth(d, now)|
    ensures forall k :: 0 <= k < |idx| ==>
      idx[k] < |d.projects| && HealthOf(d.projects[idx[k]], d.cards, now) == Some(ProjectHealth(d, now)[k])
    ensures forall k, l :: 0 <= k < l < |idx| ==> idx[k] < idx[l]
    ensures forall i :: 0 <= i < |d.projects| ==> (HealthOf(d.projects[i], d.cards, now).Some? <==> i in idx)
  {
    ProjectHealthSomes(d, now);
    idx := SomesSpec(Healths(d.projects, d.cards, now));
  }

  /** The status chain yields exactly one of the four statuses, with overdue
    * first, then under 30 percent, then 100 percent, then on track. */
  lemma StatusCases(done: nat, total: nat, overdue: nat)
    requires 0 < total && done <= total
    ensures HealthStatus(done, total, overdue) in {"overdue", "at-risk", "completed", "on-track"}
    ensures HealthStatus(done, total, overdue) == "overdue" <==> overdue > 0
    ensures HealthStatus(done, total, overdue) == "completed" <==> overdue == 0 && done == total && 30 * total <= 100 * done
    ensures HealthStatus(done, total, overdue) == "at-risk" <==> overdue == 0 && 100 * done < 30 * total
    ensures HealthStatus(done, total, overdue) == "on-track" <==> overdue == 0 && 30 * total <= 100 * done && done < total
  {
  }

  function HealthIs(v: string): Health -> bool { (h: Health) => h.status == v }
  function HealthIn2(a: string, b: string): Health -> bool { (h: Health) => h.status == a || h.status == b }
  function HealthIn3(a: string, b: string, c: string): Health -> bool
  {
    (h: Health) => h.status == a || h.status == b || h.status == c
  }

  datatype HealthSummary = HealthSummary(total: nat, onTrack: nat, atRisk: nat, overdue: nat, completed: nat)

  /** generate_project_health_report's summary. */
  function HealthReport(d: Loaded, now: Moment): HealthSummary
  {
    var hs := ProjectHealth(d, now);
    HealthSummary(|hs|, Count(hs, HealthIs("on-track")), Count(hs, HealthIs("at-risk")),
                  Count(hs, HealthIs("overdue")), Count(hs, HealthIs("completed")))
  }

  /** The four status counts add up to the number of projects reported. */
  lemma HealthReportAddsUp(d: Loaded, now: Moment)
    ensures var s := HealthReport(d, now);
      s.onTrack + s.atRisk + s.overdue + s.completed == s.total
  {
    var hs := ProjectHealth(d, now);
    forall i | 0 <= i < |hs| ensures hs[i].status in {"overdue", "at-risk", "completed", "on-track"} {
      StatusCases(hs[i].done, hs[i].total, hs[i].overdue);
    }
    CountExclusive(hs, HealthIs("on-track"), HealthIs("at-risk"), HealthIn2("on-track", "at-risk"));
    CountExclusive(hs, HealthIn2("on-track", "at-risk"), HealthIs("overdue"), HealthIn3("on-track", "at-risk", "overdue"));
    CountExclusive(hs, HealthIn3("on-track", "at-risk", "overdue"), HealthIs("completed"), (h: Health) => true);
    FilterTrue(hs, (h: Health) => true);
  }

  // ------------------------------------------------------------ resource utilisation

  datatype Workload = Workload(name: string, total: nat, completed: nat, inProgress: nat, overdue: nat)

  /** `card.get('assignee', 'Unassigned')` is a real name: present, non-empty, not 'Unassigned'. */
  predicate Counted(c: StoredCard)
  {
    c.assignee.Some? && c.assignee.value != "" && c.assignee.value != "Unassigned"
  }

  function NameIs(n: string): Workload -> bool { (w: Workload) => w.name == n }

  /** The counters one card adds to its assignee's workload. */
  function Bump(w: Workload, c: StoredCard, now: Moment): Workload
  {
    Workload(w.name, w.total + 1,
             if c.status == "done" then w.completed + 1 else w.completed,
             if c.status != "done" && c.status == "in_progress" then w.inProgress + 1 else w.inProgress,
             if IsOverdue(c, now) then w.overdue + 1 else w.overdue)
  }

  /** One turn of the tally loop: the assignee's entry is bumped, created first if new. */
  function Tally(ws: seq<Workload>, c: StoredCard, now: Moment): seq<Workload>
  {
    if !Counted(c) then ws
    else
      match FindFirst(ws, NameIs(c.assignee.value))
      case None => ws + [Bump(Workload(c.assignee.value, 0, 0, 0, 0), c, now)]
      case Some(k) => ws[k := Bump(ws[k], c, now)]
  }

  /** `assignee_workload` after the loop, in insertion order. */
  function Workloads(cards: seq<StoredCard>, now: Moment): seq<Workload>
  {
    if cards == [] then [] else Tally(Workloads(cards[..|cards| - 1], now), cards[|cards| - 1], now)
  }

  datatype Resource = Resource(name: string, utilization: int, capacity: int, total: nat, completed: nat,
                               inProgress: nat, overdue: nat)

  /** `min(100, total_tasks * 10)`, with the fixed capacity of 40. */
  function ResourceOf(w: Workload): Resource
  {
    Resource(w.name, if 10 * w.total < 100 then 10 * w.total else 100, 40, w.total, w.completed, w.inProgress, w.overdue)
  }

  function Resources(ws: seq<Workload>): (r: seq<Resource>)
    ensures |r| == |ws| && forall i :: 0 <= i < |ws| ==> r[i] == ResourceOf(ws[i])
  {
    seq(|ws|, i requires 0 <= i < |ws| => ResourceOf(ws[i]))
  }

  /** get_resource_utilization_data: the tally loop over the cards, then one
    * resource per assignee in the order first seen. */
  method ResourceUtilization(cards: seq<StoredCard>, now: Moment) returns (r: seq<Resource>)
    ensures r == Resources(Workloads(cards, now))
  {
    var ws: seq<Workload> := [];
    var i := 0;
    while i < |cards|
      invariant 0 <= i <= |cards|
      invariant ws == Workloads(cards[..i], now)
    {
      assert cards[..i + 1][..i] == cards[..i];
      var c := cards[i];
      if Counted(c) {
        var k := 0;
        while k < |ws| && ws[k].name != c.assignee.value
          invariant 0 <= k <= |ws|
          invariant forall j :: 0 <= j < k ==> ws[j].name != c.assignee.value
        {
          k := k + 1;
        }
        if k == |ws| {
          ws := ws + [Bump(Workload(c.assignee.value, 0, 0, 0, 0), c, now)];
        } else {
          assert FindFirst(ws, NameIs(c.assignee.value)) == Some(k);
          ws := ws[k := Bump(ws[k], c, now)];
        }
      }
      i := i + 1;
    }
    assert cards[..i] == cards;
    r := [];
    var j := 0;
    while j < |ws|
      invariant 0 <= j <= |ws|
      invariant r == Resources(ws[..j])
    {
      assert ws[..j + 1] == ws[..j] + [ws[j]];
      r := r + [ResourceOf(ws[j])];
      j := j + 1;
    }
    assert ws[..j] == ws;
  }

  function AssignedTo(n: string): StoredCard -> bool { (c: StoredCard) => c.assignee == Some(n) }

  /** Some entry carries the name. */
  predicate Listed(ws: seq<Workload>, n: string)
  {
    exists i :: 0 <= i < |ws| && ws[i].name == n
  }

  /** What every tally keeps: distinct names, each a real assignee, at least
    * one task each, and completed plus in-progress and overdue within the total. */
  predicate Sound(ws: seq<Workload>)
  {
    && (forall i, j :: 0 <= i < j < |ws| ==> ws[i].name != ws[j].name)
    && (forall i :: 0 <= i < |ws| ==>
          && ws[i].name != "" && ws[i].name != "Unassigned" && ws[i].total >= 1
          && ws[i].completed + ws[i].inProgress <= ws[i].total && ws[i].overdue <= ws[i].total)
  }

  /** One tally turn keeps the entries it had, in place and under their names,
    * adds one to the entry of the card's assignee, and appends an entry of one
    * task when the assignee is new. */
  lemma TallyEffect(ws: seq<Workload>, c: StoredCard, now: Moment)
    requires Sound(ws)
    ensures var t := Tally(ws, c, now);
      && |ws| <= |t| <= |ws| + 1
      && (forall i :: 0 <= i < |ws| ==>
            t[i].name == ws[i].name && t[i].total == ws[i].total + (if c.assignee == Some(ws[i].name) then 1 else 0))
      && (|t| == |ws| + 1 ==> Counted(c) && t[|ws|].name == c.assignee.value && t[|ws|].total == 1
                              && !Listed(ws, c.assignee.value))
      && (Counted(c) ==> Listed(t, c.assignee.value))
      && Sound(t)
  {
    if Counted(c) {
      var k := FindFirst(ws, NameIs(c.assignee.value));
      if k.Some? {
        var t := Tally(ws, c, now);
        assert t[k.value].name == c.assignee.value;
      } else {
        var t := Tally(ws, c, now);
        assert t[|ws|].name == c.assignee.value;
      }
    }
  }

  lemma {:induction false} WorkloadsSound(cards: seq<StoredCard>, now: Moment)
    ensures Sound(Workloads(cards, now))
  {
    if cards != [] {
      WorkloadsSound(cards[..|cards| - 1], now);
      TallyEffect(Workloads(cards[..|cards| - 1], now), cards[|cards| - 1], now);
    }
  }

  /** Every card with a real assignee has that assignee's entry. */
  lemma {:induction false} WorkloadsListAll(cards: seq<StoredCard>, now: Moment)
    ensures forall j :: 0 <= j < |cards| && Counted(cards[j]) ==> Listed(Workloads(cards, now), cards[j].assignee.value)
  {
    if cards != [] {
      var init := cards[..|cards| - 1];
      var before := Workloads(init, now);
      var ws := Workloads(cards, now);
      WorkloadsListAll(init, now);
      WorkloadsSound(init, now);
      TallyEffect(before, cards[|cards| - 1], now);
      forall j | 0 <= j < |init| && Counted(cards[j]) ensures Listed(ws, cards[j].assignee.value) {
        assert init[j] == cards[j];
        var i :| 0 <= i < |before| && before[i].name == cards[j].assignee.value;
        assert ws[i].name == before[i].name;
      }
    }
  }

  /** Each entry's total is the number of cards assigned to its name. */
  lemma {:induction false} WorkloadsCount(cards: seq<StoredCard>, now: Moment)
    ensures forall i :: 0 <= i < |Workloads(cards, now)| ==>
      Workloads(cards, now)[i].total == Count(cards, AssignedTo(Workloads(cards, now)[i].name))
  {
    if cards != [] {
      var init := cards[..|cards| - 1];
      var c := cards[|cards| - 1];
      var before := Workloads(init, now);
      var ws := Workloads(cards, now);
      WorkloadsCount(init, now);
      WorkloadsSound(init, now);
      TallyEffect(before, c, now);
      assert cards == init + [c];
      forall i | 0 <= i < |ws| ensures ws[i].total == Count(cards, AssignedTo(ws[i].name)) {
        FilterAppend(init, [c], AssignedTo(ws[i].name));
        var n := ws[i].name;
        assert Count(cards, AssignedTo(n)) == Count(init, AssignedTo(n)) + (if c.assignee == Some(n) then 1 else 0);
        if i == |before| {
          WorkloadsListAll(init, now);
          NewNameUnused(init, before, n);
        }
      }
    }
  }

  /** The workloads: one entry per distinct real assignee, each counting exactly
    * that assignee's cards, with completed plus in-progress and overdue within
    * the total, and no real assignee missing. */
  lemma WorkloadFacts(cards: seq<StoredCard>, now: Moment)
    ensures var ws := Workloads(cards, now);
      && Sound(ws)
      && (forall i :: 0 <= i < |ws| ==> ws[i].total == Count(cards, AssignedTo(ws[i].name)))
      && (forall j :: 0 <= j < |cards| && Counted(cards[j]) ==> Listed(ws, cards[j].assignee.value))
  {
    WorkloadsSound(cards, now);
    WorkloadsCount(cards, now);
    WorkloadsListAll(cards, now);
  }

  /** A name no entry carries belongs to no card counted so far. */
  lemma NewNameUnused(init: seq<StoredCard>, before: seq<Workload>, n: string)
    requires forall j :: 0 <= j < |init| && Counted(init[j]) ==> Listed(before, init[j].assignee.value)
    requires !Listed(before, n) && n != "" && n != "Unassigned"
    ensures Count(init, AssignedTo(n)) == 0
  {
    forall j | 0 <= j < |init| ensures !AssignedTo(n)(init[j]) {
      if init[j].assignee == Some(n) {
        assert Counted(init[j]);
      }
    }
    FilterNone(init, AssignedTo(n));
  }

  /** Every resource has at least one task, so its utilisation lies between 10 and 100. */
  lemma UtilizationBounds(cards: seq<StoredCard>, now: Moment)
    ensures forall r :: r in Resources(Workloads(cards, now)) ==> 10 <= r.utilization <= 100 && r.capacity == 40
  {
    WorkloadsSound(cards, now);
  }

  datatype ResourceSummary = ResourceSummary(total: nat, over: nat, high: nat, normal: nat)

  function Over(): Resource -> bool { (r: Resource) => r.utilization > 90 }
  function High(): Resource -> bool { (r: Resource) => 80 < r.utilization <= 90 }
  function Normal(): Resource -> bool { (r: Resource) => r.utilization <= 80 }
  function AboveNormal(): Resource -> bool { (r: Resource) => r.utilization > 80 }

  /** generate_resource_utilization_report's summary. */
  function ResourceReport(rs: seq<Resource>): ResourceSummary
  {
    ResourceSummary(|rs|, Count(rs, Over()), Count(rs, High()), Count(rs, Normal()))
  }

  /** The three buckets split the resources: every resource is in exactly one. */
  lemma ResourceBucketsPartition(rs: seq<Resource>)
    ensures var s := ResourceReport(rs); s.over + s.high + s.normal == s.total
  {
    CountExclusive(rs, Over(), High(), AboveNormal());
    CountExclusive(rs, AboveNormal(), Normal(), (r: Resource) => true);
    FilterTrue(rs, (r: Resource) => true);
  }

  // ------------------------------------------------------------ risk assessment

  datatype Risk = Risk(kind: string, severity: string, subject: string)

  /** The risk one project raises: high when overdue, medium when at risk. */
  function ProjectRisk(h: Health): seq<Risk>
  {
    if h.status == "overdue" then [Risk("project", "high", h.name)]
    else if h.status == "at-risk" then [Risk("project", "medium", h.name)]
    else []
  }

  /** The project risks, in project order. */
  function ProjectRisks(hs: seq<Health>): seq<Risk>
  {
    if hs == [] then [] else ProjectRisks(hs[..|hs| - 1]) + ProjectRisk(hs[|hs| - 1])
  }

  lemma OneProjectRisk(h: Health)
    ensures Count(ProjectRisk(h), SeverityIs("high")) == Count([h], HealthIs("overdue"))
    ensures Count(ProjectRisk(h), SeverityIs("medium")) == Count([h], HealthIs("at-risk"))
    ensures Count(ProjectRisk(h), SeverityIs("low")) == 0
    ensures |ProjectRisk(h)| == Count([h], HealthIs("overdue")) + Count([h], HealthIs("at-risk"))
  {
    assert [h][1..] == [];
  }

  function ResourceRisks(rs: seq<Resource>): seq<Risk>
  {
    if rs == [] then []
    else
      var r := rs[|rs| - 1];
      ResourceRisks(rs[..|rs| - 1]) + (if r.utilization > 90 then [Risk("resource", "high", r.name)] else [])
  }

  /** The mock spending of a project: `int(progress * 1000)`, in exact arithmetic. */
  function Spent(h: Health): int
  {
    if h.total > 0 then h.done * 100000 / h.total else 0
  }

  function TotalSpent(hs: seq<Health>): int
  {
    if hs == [] then 0 else TotalSpent(hs[..|hs| - 1]) + Spent(hs[|hs| - 1])
  }

  /** `budget_variance > 10`, the budget being 100000 per project. */
  predicate BudgetOverrun(hs: seq<Health>)
  {
    hs != [] && (TotalSpent(hs) - 100000 * |hs|) * 100 > 10 * (100000 * |hs|)
  }

  function Risks(hs: seq<Health>, rs: seq<Resource>): seq<Risk>
  {
    ProjectRisks(hs) + ResourceRisks(rs) + (if BudgetOverrun(hs) then [Risk("budget", "high", "")] else [])
  }

  datatype RiskSummary = RiskSummary(total: nat, high: nat, medium: nat, low: nat)

  function SeverityIs(v: string): Risk -> bool { (r: Risk) => r.severity == v }

  /** generate_risk_assessment_report, without the description texts and the score. */
  function RiskReport(d: Loaded, now: Moment): (r: (seq<Risk>, RiskSummary))
  {
    var risks := Risks(ProjectHealth(d, now), Resources(Workloads(d.cards, now)));
    (risks, RiskSummary(|risks|, Count(risks, SeverityIs("high")), Count(risks, SeverityIs("medium")),
                        Count(risks, SeverityIs("low"))))
  }

  /** No project spends more than its budget, so the budget risk never appears. */
  lemma {:induction false} NoBudgetOverrun(hs: seq<Health>)
    requires forall i :: 0 <= i < |hs| ==> hs[i].done <= hs[i].total
    ensures TotalSpent(hs) <= 100000 * |hs|
    ensures !BudgetOverrun(hs)
  {
    if hs != [] {
      NoBudgetOverrun(hs[..|hs| - 1]);
      var h := hs[|hs| - 1];
      if h.total > 0 {
        assert h.done * 100000 <= h.total * 100000;
        DivBound(h.done * 100000, h.total, 100000);
      }
    }
  }

  lemma DivBound(a: int, b: int, c: int)
    requires b > 0 && 0 <= a <= b * c
    ensures a / b <= c
  {
  }

  /** Project risks: one high per overdue project, one medium per project at risk, nothing else. */
  lemma {:induction false} ProjectRiskCounts(hs: seq<Health>)
    ensures Count(ProjectRisks(hs), SeverityIs("high")) == Count(hs, HealthIs("overdue"))
    ensures Count(ProjectRisks(hs), SeverityIs("medium")) == Count(hs, HealthIs("at-risk"))
    ensures Count(ProjectRisks(hs), SeverityIs("low")) == 0
    ensures |ProjectRisks(hs)| == Count(hs, HealthIs("overdue")) + Count(hs, HealthIs("at-risk"))
  {
    if hs != [] {
      var init := hs[..|hs| - 1];
      var h := hs[|hs| - 1];
      ProjectRiskCounts(init);
      CountLast(hs, HealthIs("overdue"));
      CountLast(hs, HealthIs("at-risk"));
      OneProjectRisk(h);
      FilterAppend(ProjectRisks(init), ProjectRisk(h), SeverityIs("high"));
      FilterAppend(ProjectRisks(init), ProjectRisk(h), SeverityIs("medium"));
      FilterAppend(ProjectRisks(init), ProjectRisk(h), SeverityIs("low"));
    }
  }

  /** Resource risks: one high per resource above 90 percent. */
  lemma {:induction false} ResourceRiskCounts(rs: seq<Resource>)
    ensures Count(ResourceRisks(rs), SeverityIs("high")) == |ResourceRisks(rs)| == Count(rs, Over())
    ensures Count(ResourceRisks(rs), SeverityIs("medium")) == 0 && Count(ResourceRisks(rs), SeverityIs("low")) == 0
  {
    if rs != [] {
      var init := rs[..|rs| - 1];
      var r := rs[|rs| - 1];
      ResourceRiskCounts(init);
      assert rs == init + [r];
      FilterAppend(init, [r], Over());
      var tail := if r.utilization > 90 then [Risk("resource", "high", r.name)] else [];
      FilterAppend(ResourceRisks(init), tail, SeverityIs("high"));
      FilterAppend(ResourceRisks(init), tail, SeverityIs("medium"));
      FilterAppend(ResourceRisks(init), tail, SeverityIs("low"));
    }
  }

  /** The risk report: one high risk per overdue project and per over-utilised
    * resource, one medium risk per project at risk, and no low risk. */
  lemma RiskReportCounts(d: Loaded, now: Moment)
    ensures var hs := ProjectHealth(d, now);
      var rs := Resources(Workloads(d.cards, now));
      var s := RiskReport(d, now).1;
      && s.high == Count(hs, HealthIs("overdue")) + Count(rs, Over())
      && s.medium == Count(hs, HealthIs("at-risk"))
      && s.low == 0
      && s.total == s.high + s.medium
  {
    var hs := ProjectHealth(d, now);
    var rs := Resources(Workloads(d.cards, now));
    NoBudgetOverrun(hs);
    ProjectRiskCounts(hs);
    ResourceRiskCounts(rs);
    var risks := Risks(hs, rs);
    assert risks == ProjectRisks(hs) + ResourceRisks(rs) + [];
    assert risks == ProjectRisks(hs) + ResourceRisks(rs);
    FilterAppend(ProjectRisks(hs), ResourceRisks(rs), SeverityIs("high"));
    FilterAppend(ProjectRisks(hs), ResourceRisks(rs), SeverityIs("medium"));
    FilterAppend(ProjectRisks(hs), ResourceRisks(rs), SeverityIs("low"));
  }
}
