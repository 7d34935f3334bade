/** The service layer's sprint object (app_modules/models/sprint.py) and the
  * JSON dictionary it is written to and read back from. */
module SprintModel {
  import opened Common
  import opened Dates
  import opened IsoTimes

  /** A calendar date that `datetime.date` can hold. */
  type Day = d: Date | ValidDate(d) witness Date(1, 1, 1)

  /** The `created_at` attribute: the `datetime` the constructor or
    * `from_dict` sets, or whatever value `update_sprint` assigns, which
    * `to_dict` writes out unchanged when it is not a `datetime`. */
  datatype CreatedAt = At(stamp: Stamp) | Raw(text: string)

  /** `to_dict`'s `created_at` entry. */
  function CreatedText(c: CreatedAt): string
  {
    match c
    case At(t) => IsoFormatStamp(t)
    case Raw(text) => text
  }

  /** A sprint object. */
  datatype Sprint = Sprint(
    id: int,
    name: string,
    projectId: int,
    startDate: Day,
    endDate: Day,
    goal: string,
    status: string,
    storyPoints: int,
    createdAt: CreatedAt,
    issues: seq<int>)

  /** `Sprint(...)`: a new object always starts with an empty issue list. */
  function Create(id: int, name: string, projectId: int, startDate: Day, endDate: Day,
                  goal: string, status: string, storyPoints: int, now: Stamp): (s: Sprint)
    ensures s.issues == [] && s.createdAt == At(now)
  {
    Sprint(id, name, projectId, startDate, endDate, goal, status, storyPoints, At(now), [])
  }

  /** The dictionary `to_dict` produces and `from_dict` reads; keys read with
    * `.get(key, default)` may be missing. */
  datatype SprintDict = SprintDict(
    id: int,
    name: string,
    projectId: int,
    startDate: string,
    endDate: string,
    goal: Option<string>,
    status: Option<string>,
    storyPoints: Option<int>,
    createdAt: string,
    issues: Option<seq<int>>)

  /** Every key is present. */
  predicate Complete(d: SprintDict)
  {
    d.goal.Some? && d.status.Some? && d.storyPoints.Some? && d.issues.Some?
  }

  /** `to_dict`: dates written in ISO form, and the creation time too when it is a `datetime`. */
  function ToDict(s: Sprint): (d: SprintDict)
    ensures Complete(d)
    ensures |d.startDate| == 10 && |d.endDate| == 10
  {
    SprintDict(s.id, s.name, s.projectId, IsoFormat(s.startDate), IsoFormat(s.endDate),
               Some(s.goal), Some(s.status), Some(s.storyPoints), CreatedText(s.createdAt), Some(s.issues))
  }

  /** The day `datetime.fromisoformat(text).date()` gives, if it parses. */
  function DayOf(text: string): (r: Option<Day>)
    ensures r.Some? <==> FromIsoFormat(text).Some?
    ensures r.Some? ==> r.value == FromIsoFormat(text).value.date
  {
    match FromIsoFormat(text)
    case None => None
    case Some(t) => var day: Day := t.date; Some(day)
  }

  /** `from_dict`: None where `datetime.fromisoformat` raises on either date or
    * on `created_at`; missing optional keys take the constructor's defaults. */
  function FromDict(d: SprintDict): (r: Option<Sprint>)
    ensures r.Some? <==> && FromIsoFormat(d.startDate).Some? && FromIsoFormat(d.endDate).Some?
                         && FromIsoFormat(d.createdAt).Some?
    ensures r.Some? ==> && r.value.id == d.id && r.value.name == d.name && r.value.projectId == d.projectId
                        && r.value.startDate == FromIsoFormat(d.startDate).value.date
                        && r.value.endDate == FromIsoFormat(d.endDate).value.date
                        && r.value.createdAt == At(FromIsoFormat(d.createdAt).value)
    ensures r.Some? ==> r.value.goal == GetOr(d.goal, "") && r.value.status == GetOr(d.status, "planning")
                        && r.value.storyPoints == GetOr(d.storyPoints, 0) && r.value.issues == GetOr(d.issues, [])
  {
    match (DayOf(d.startDate), DayOf(d.endDate), FromIsoFormat(d.createdAt))
    case (Some(start), Some(end), Some(created)) =>
      Some(Sprint(d.id, d.name, d.projectId, start, end, GetOr(d.goal, ""), GetOr(d.status, "planning"),
                  GetOr(d.storyPoints, 0), At(created), GetOr(d.issues, [])))
    case _ => None
  }

  /** Reading back what `to_dict` wrote gives the same sprint; a creation time
    * held as text comes back as the `datetime` it parses to, or the read raises. */
  lemma FromToDict(s: Sprint)
    ensures s.createdAt.At? ==> FromDict(ToDict(s)) == Some(s)
    ensures s.createdAt.Raw? ==>
      FromDict(ToDict(s)) == (match FromIsoFormat(s.createdAt.text)
                              case Some(t) => Some(s.(createdAt := At(t)))
                              case None => None)
  {
    DateRoundTrip(s.startDate);
    DateRoundTrip(s.endDate);
    if s.createdAt.At? {
      IsoRoundTrip(s.createdAt.stamp);
    }
  }

  /** Writing out a sprint read from a dictionary with every key normalises
    * the three times to `isoformat()` text, and so gives that dictionary back
    * exactly when both dates are plain YYYY-MM-DD and `created_at` already has
    * the `isoformat()` layout. */
  lemma ToFromDict(d: SprintDict)
    requires Complete(d) && FromDict(d).Some?
    ensures ToDict(FromDict(d).value)
         == d.(startDate := IsoFormat(FromIsoFormat(d.startDate).value.date),
               endDate := IsoFormat(FromIsoFormat(d.endDate).value.date),
               createdAt := IsoFormatStamp(FromIsoFormat(d.createdAt).value))
    ensures ToDict(FromDict(d).value) == d <==> |d.startDate| == 10 && |d.endDate| == 10 && IsoLayout(d.createdAt)
  {
    DateCanonical(d.startDate);
    DateCanonical(d.endDate);
    IsoCanonical(d.createdAt);
  }

  /** The date part of a parsed text writes back as the text exactly when the text is the date alone. */
  lemma DateCanonical(text: string)
    requires FromIsoFormat(text).Some?
    ensures IsoFormat(FromIsoFormat(text).value.date) == text <==> |text| == 10
  {
    ParseIsoCanonical(text[..10]);
    if |text| == 10 {
      assert text[..10] == text;
    }
  }

  /** `get_duration_days`: both end points count. */
  function DurationDays(s: Sprint): int
  {
    DaysBetween(s.startDate, s.endDate) + 1
  }

  /** A sprint lasts one day iff it starts and ends on the same day, and lasts
    * at least a day iff it does not end before it starts. */
  lemma DurationFacts(s: Sprint)
    ensures DurationDays(s) == 1 <==> s.startDate == s.endDate
    ensures DurationDays(s) >= 1 <==> !Before(s.endDate, s.startDate)
  {
    OrderAgrees(s.endDate, s.startDate);
  }

  /** `is_active`, with today as a parameter. */
  predicate IsActive(s: Sprint, today: Day)
  {
    !Before(today, s.startDate) && !Before(s.endDate, today) && s.status == "active"
  }

  /** Active means: status 'active' and today within the sprint's days, both ends included. */
  lemma IsActiveMeans(s: Sprint, today: Day)
    ensures IsActive(s, today) <==>
      s.status == "active" && DayNumber(s.startDate) <= DayNumber(today) <= DayNumber(s.endDate)
  {
    OrderAgrees(today, s.startDate);
    OrderAgrees(s.endDate, today);
  }
}
