/** The analytics page script (testing_env/static/js/gantt_analytics.js): the
  * project health counts, the colours of the resource chart and of the
  * report badges. What the page draws and fetches is left out; the loaded
  * data is a value. */
module GanttAnalytics {
  import opened Common

  datatype ProjectRow = ProjectRow(name: string, status: string)
  datatype Resource = Resource(name: string, utilization: real)

  /** `this.data`: each list may be missing from what the server sent. */
  datatype Data = Data(projects: Option<seq<ProjectRow>>, resources: Option<seq<Resource>>)

  // ------------------------------------------------------------ health counts

  function HasStatus(status: string): ProjectRow -> bool { (p: ProjectRow) => p.status == status }

  datatype Health = Health(onTrack: nat, atRisk: nat, overdue: nat, completed: nat)

  /** updateHealthMetrics: the projects of each of the four statuses. */
  function HealthCounts(data: Data): Health
  {
    var projects := GetOr(data.projects, []);
    Health(Count(projects, HasStatus("on-track")), Count(projects, HasStatus("at-risk")),
           Count(projects, HasStatus("overdue")), Count(projects, HasStatus("completed")))
  }

  /** The status is one of the first n of on-track, at-risk, overdue, completed. */
  function AmongFirst(n: nat): ProjectRow -> bool
  {
    (p: ProjectRow) => (n >= 1 && p.status == "on-track") || (n >= 2 && p.status == "at-risk")
                       || (n >= 3 && p.status == "overdue") || (n >= 4 && p.status == "completed")
  }

  /** No project is counted twice: the four counts add up to the projects
    * with one of the four statuses, so never to more than all projects, and
    * to all of them exactly when every project has one of the four. */
  lemma HealthCountsSum(data: Data)
    ensures var h := HealthCounts(data);
            h.onTrack + h.atRisk + h.overdue + h.completed == Count(GetOr(data.projects, []), AmongFirst(4))
    ensures var h := HealthCounts(data);
            h.onTrack + h.atRisk + h.overdue + h.completed <= |GetOr(data.projects, [])|
    ensures var h := HealthCounts(data);
            h.onTrack + h.atRisk + h.overdue + h.completed == |GetOr(data.projects, [])|
            <==> forall i :: 0 <= i < |GetOr(data.projects, [])| ==> AmongFirst(4)(GetOr(data.projects, [])[i])
    ensures data.projects.None? ==> HealthCounts(data) == Health(0, 0, 0, 0)
  {
    var s := GetOr(data.projects, []);
    CountExclusive(s, HasStatus("on-track"), HasStatus("at-risk"), AmongFirst(2));
    CountExclusive(s, AmongFirst(2), HasStatus("overdue"), AmongFirst(3));
    CountExclusive(s, AmongFirst(3), HasStatus("completed"), AmongFirst(4));
    assert Count(s, HasStatus("on-track")) == Count(s, AmongFirst(1)) by {
      FilterSame(s, HasStatus("on-track"), AmongFirst(1));
    }
    FilterKeepsAll(s, AmongFirst(4));
  }

  // ------------------------------------------------------------ utilisation

  /** The three bands of utilisation the page tells apart. */
  datatype Band = Over | High | Normal

  function BandOf(utilization: real): Band
  {
    if utilization > 90.0 then Over else if utilization > 80.0 then High else Normal
  }

  /** getUtilizationColor. */
  function UtilizationColor(utilization: real): string
  {
    if utilization > 90.0 then "danger" else if utilization > 80.0 then "warning" else "success"
  }

  /** getUtilizationStatus. */
  function UtilizationStatus(utilization: real): string
  {
    if utilization > 90.0 then "Over-utilized" else if utilization > 80.0 then "High" else "Normal"
  }

  /** The bar colour of one resource in the resource chart. */
  function BarColor(utilization: real): string
  {
    if utilization > 90.0 then "#dc3545" else if utilization > 80.0 then "#ffc107" else "#28a745"
  }

  /** The colours of the resource chart, one per resource. */
  function BarColors(data: Data): (r: seq<string>)
    ensures |r| == |GetOr(data.resources, [])|
  {
    var resources := GetOr(data.resources, []);
    seq(|resources|, i requires 0 <= i < |resources| => BarColor(resources[i].utilization))
  }

  /** Badge colour, badge text and chart bar all follow one banding: above 90
    * is danger / Over-utilized / red, above 80 warning / High / amber, and
    * anything else success / Normal / green. */
  lemma UtilizationAgrees(utilization: real)
    ensures UtilizationColor(utilization) == "danger" <==> BandOf(utilization) == Over
    ensures UtilizationColor(utilization) == "warning" <==> BandOf(utilization) == High
    ensures UtilizationColor(utilization) == "success" <==> BandOf(utilization) == Normal
    ensures UtilizationStatus(utilization) == "Over-utilized" <==> BandOf(utilization) == Over
    ensures UtilizationStatus(utilization) == "High" <==> BandOf(utilization) == High
    ensures UtilizationStatus(utilization) == "Normal" <==> BandOf(utilization) == Normal
    ensures BarColor(utilization) == "#dc3545" <==> BandOf(utilization) == Over
    ensures BarColor(utilization) == "#ffc107" <==> BandOf(utilization) == High
    ensures BarColor(utilization) == "#28a745" <==> BandOf(utilization) == Normal
    ensures BandOf(utilization) == Over <==> utilization > 90.0
    ensures BandOf(utilization) == Normal <==> utilization <= 80.0
  {
  }

  function Severity(b: Band): nat
  {
    match b
    case Normal => 0
    case High => 1
    case Over => 2
  }

  /** More utilisation never gives a milder band. */
  lemma BandMonotone(u: real, v: real)
    requires u <= v
    ensures Severity(BandOf(u)) <= Severity(BandOf(v))
  {
  }

  /** The i-th bar of the resource chart has the colour of the i-th resource's
    * row in the utilisation report. */
  lemma BarMatchesReport(data: Data, i: int)
    requires 0 <= i < |GetOr(data.resources, [])|
    ensures BarColors(data)[i] == "#dc3545" <==> UtilizationColor(GetOr(data.resources, [])[i].utilization) == "danger"
    ensures BarColors(data)[i] == "#ffc107" <==> UtilizationColor(GetOr(data.resources, [])[i].utilization) == "warning"
    ensures BarColors(data)[i] == "#28a745" <==> UtilizationColor(GetOr(data.resources, [])[i].utilization) == "success"
  {
    UtilizationAgrees(GetOr(data.resources, [])[i].utilization);
  }

  // ------------------------------------------------------------ status badges

  /** The badge colours of the four known project statuses. */
  const StatusColors: map<string, string> :=
    map["on-track" := "success", "at-risk" := "warning", "overdue" := "danger", "completed" := "info"]

  /** getStatusColor: the colour of a known status, else 'secondary'. */
  function StatusColor(status: string): string
  {
    if status in StatusColors then StatusColors[status] else "secondary"
  }

  /** Each known status has its own colour, every other status is 'secondary',
    * and the four statuses the health counts use are the known ones. */
  lemma StatusColorSpec(status: string)
    ensures status == "on-track" <==> StatusColor(status) == "success"
    ensures status == "at-risk" <==> StatusColor(status) == "warning"
    ensures status == "overdue" <==> StatusColor(status) == "danger"
    ensures status == "completed" <==> StatusColor(status) == "info"
    ensures StatusColor(status) == "secondary" <==> !AmongFirst(4)(ProjectRow("", status))
  {
  }
}
