/** The card handlers of app/routes/issues.py: editing, comments, the backlog
  * move, deletion by position, notification marking and the activity feed. */
module Issues {
  import opened Common
  import opened Records
  import opened Sorting
  import Helpers
  import Notifications

  /** The first card whose id equals the request's `card_id` (which may be missing). */
  function CardFor(cards: seq<Card>, cardId: Option<int>): (k: Option<nat>)
    ensures k.Some? ==> k.value < |cards| && cardId == Some(cards[k.value].id)
    ensures k.None? <==> forall i :: 0 <= i < |cards| ==> cardId != Some(cards[i].id)
  {
    FindFirst(cards, (c: Card) => Some(c.id) == cardId)
  }

  // ------------------------------------------------------------ update_card

  /** The editable keys present in an update_card request. */
  datatype CardEdits = CardEdits(
    title: Option<string>,
    description: Option<string>,
    priority: Option<string>,
    assignee: Option<string>,
    labels: Option<seq<string>>)

  /** A key present in the request replaces the card's value; `updated_at` is set. */
  function Edited(c: Card, e: CardEdits, now: string): Card
  {
    c.(title := GetOr(e.title, c.title),
       description := if e.description.Some? then e.description else c.description,
       priority := GetOr(e.priority, c.priority),
       assignee := if e.assignee.Some? then e.assignee else c.assignee,
       labels := if e.labels.Some? then e.labels else c.labels,
       stamps := c.stamps["updated_at" := now])
  }

  /** Only title, description, priority, assignee, labels and updated_at can
    * change; status, ids and the rest stay; editing twice equals editing once. */
  lemma EditedKeeps(c: Card, e: CardEdits, now: string)
    ensures var n := Edited(c, e, now);
      && n.id == c.id && n.projectId == c.projectId && n.epicId == c.epicId && n.storyId == c.storyId
      && n.status == c.status && n.dueDate == c.dueDate && n.storyPoints == c.storyPoints
      && n.sprintIds == c.sprintIds
      && n.stamps == c.stamps["updated_at" := now]
      && (e.title.None? ==> n.title == c.title) && (e.title.Some? ==> n.title == e.title.value)
      && (e.priority.None? ==> n.priority == c.priority) && (e.priority.Some? ==> n.priority == e.priority.value)
      && (e.description.None? ==> n.description == c.description)
      && (e.assignee.None? ==> n.assignee == c.assignee)
      && (e.labels.None? ==> n.labels == c.labels)
    ensures Edited(Edited(c, e, now), e, now) == Edited(c, e, now)
  {
  }

  /** update_card: an error when no card matches; otherwise the first match is edited. */
  method UpdateCard(st: Store, cardId: Option<int>, e: CardEdits, now: string) returns (r: Reply<Card>)
    modifies st
    ensures var k := CardFor(old(st.cards), cardId);
      && (r.Fail? <==> k.None?)
      && (r.Fail? ==> r.error == "Card not found" && st.Snapshot() == old(st.Snapshot()))
      && (r.Ok? ==>
            r.value == Edited(old(st.cards)[k.value], e, now)
            && st.Snapshot() == old(st.Snapshot()).(cards := old(st.cards)[k.value := r.value]))
  {
    var k := CardFor(st.cards, cardId);
    if k.None? {
      return Fail(200, "Card not found");
    }
    var card := Edited(st.cards[k.value], e, now);
    st.cards := st.cards[k.value := card];
    r := Ok(card);
  }

  /** get_card_details */
  function CardDetails(d: Data, cardId: int): (r: Reply<Card>)
    ensures r.Ok? <==> exists i :: 0 <= i < |d.cards| && d.cards[i].id == cardId
    ensures r.Ok? ==> r.value in d.cards && r.value.id == cardId
  {
    match CardById(d.cards, cardId)
    case Some(k) => Ok(d.cards[k])
    case None => Fail(200, "Card not found")
  }

  // ------------------------------------------------------------ comments

  /** card_comments GET: the comments on the card, in stored order. */
  function CardComments(d: Data, cardId: int): (r: seq<Comment>)
    ensures forall i :: 0 <= i < |r| ==> r[i] in d.comments && r[i].cardId == cardId
    ensures forall i :: 0 <= i < |d.comments| && d.comments[i].cardId == cardId ==> d.comments[i] in r
  {
    Filter(d.comments, (m: Comment) => m.cardId == cardId)
  }

  /** card_comments POST: empty content is refused; otherwise one comment is
    * appended with a fresh id and the card id of the path (which need not name a card). */
  method AddComment(st: Store, cardId: int, content: Option<string>, author: string, now: string)
    returns (r: Reply<Comment>)
    modifies st
    ensures r.Fail? <==> !TruthyStr(content)
    ensures r.Fail? ==> r.error == "Comment content is required" && st.Snapshot() == old(st.Snapshot())
    ensures r.Ok? ==> r.value == Comment(r.value.id, cardId, author, content.value, map["created_at" := now])
    ensures r.Ok? ==> forall i :: 0 <= i < |old(st.comments)| ==> old(st.comments)[i].id < r.value.id
    ensures r.Ok? ==> st.Snapshot() == old(st.Snapshot()).(comments := old(st.comments) + [r.value])
  {
    if !TruthyStr(content) {
      return Fail(200, "Comment content is required");
    }
    var id := NextId(st.comments, (m: Comment) => m.id);
    var comment := Comment(id, cardId, author, content.value, map["created_at" := now]);
    var mentions := Helpers.ExtractMentions(content.value);
    if mentions != [] {
      // create_mention_notifications loads the stored data, appends its notifications
      // and saves it; save_data writes no notifications, so the stored ones are unchanged.
      var stored := st.notifications;
      Notifications.CreateMentionNotifications(st, mentions, cardId, author, now);
      st.notifications := stored;
    }
    st.comments := st.comments + [comment];
    r := Ok(comment);
  }

  /** add_comment as evidently intended: the mention notifications are kept
    * alongside the new comment. */
  method AddCommentNotifying(st: Store, cardId: int, content: Option<string>, author: string, now: string)
    returns (r: Reply<Comment>)
    modifies st
    ensures r.Fail? <==> !TruthyStr(content)
    ensures r.Fail? ==> r.error == "Comment content is required" && st.Snapshot() == old(st.Snapshot())
    ensures r.Ok? ==> r.value == Comment(r.value.id, cardId, author, content.value, map["created_at" := now])
    ensures r.Ok? ==> forall i :: 0 <= i < |old(st.comments)| ==> old(st.comments)[i].id < r.value.id
    ensures r.Ok? ==> st.Snapshot() == old(st.Snapshot()).(
      comments := old(st.comments) + [r.value],
      notifications := Notifications.Mentioned(old(st.notifications), old(st.users),
                                               Helpers.ExtractMentions(content.value), cardId, author, now))
  {
    if !TruthyStr(content) {
      return Fail(200, "Comment content is required");
    }
    var id := NextId(st.comments, (m: Comment) => m.id);
    var comment := Comment(id, cardId, author, content.value, map["created_at" := now]);
    Notifications.CreateMentionNotifications(st, Helpers.ExtractMentions(content.value), cardId, author, now);
    st.comments := st.comments + [comment];
    r := Ok(comment);
  }

  /** A comment "@admin" when a user 'admin' exists: the notification loop adds
    * one notification for 'admin', yet AddComment leaves the stored
    * notifications as they were. */
  lemma MentionLost(notes: seq<Notification>, users: seq<User>, cardId: int, author: string, now: string)
    requires UserByName(users, "admin").Some?
    ensures Helpers.ExtractMentions("@admin") == ["admin"]
    ensures |Notifications.Mentioned(notes, users, Helpers.ExtractMentions("@admin"), cardId, author, now)| == |notes| + 1
  {
    Helpers.MentionOfName("admin");
    assert "@" + "admin" == "@admin";
    Notifications.MentionedRecipients(notes, users, ["admin"], cardId, author, now);
    assert Filter(["admin"], Notifications.KnownName(users)) == ["admin"];
  }

  // ------------------------------------------------------------ due date and backlog

  /** update_card_due_date: the first matching card takes the given due date (possibly none). */
  method UpdateDueDate(st: Store, cardId: Option<int>, dueDate: Option<string>, now: string)
    returns (r: Reply<string>)
    modifies st
    ensures var k := CardFor(old(st.cards), cardId);
      && (r.Fail? <==> k.None?)
      && (r.Fail? ==> r.error == "Card not found" && st.Snapshot() == old(st.Snapshot()))
      && (r.Ok? ==> st.Snapshot() == old(st.Snapshot()).(cards := old(st.cards)[k.value :=
            old(st.cards)[k.value].(dueDate := dueDate, stamps := old(st.cards)[k.value].stamps["updated_at" := now])]))
  {
    var k := CardFor(st.cards, cardId);
    if k.None? {
      return Fail(200, "Card not found");
    }
    var c := st.cards[k.value];
    st.cards := st.cards[k.value := c.(dueDate := dueDate, stamps := c.stamps["updated_at" := now])];
    r := Ok("updated");
  }

  /** move_to_backlog: the first matching card goes back to 'todo'. */
  method MoveToBacklog(st: Store, cardId: Option<int>, now: string) returns (r: Reply<string>)
    modifies st
    ensures var k := CardFor(old(st.cards), cardId);
      && (r.Fail? <==> k.None?)
      && (r.Fail? ==> r.error == "Card not found" && st.Snapshot() == old(st.Snapshot()))
      && (r.Ok? ==> st.Snapshot() == old(st.Snapshot()).(cards := old(st.cards)[k.value :=
                 old(st.cards)[k.value].(status := "todo", stamps := old(st.cards)[k.value].stamps["updated_at" := now])]))
  {
    var k := CardFor(st.cards, cardId);
    if k.None? {
      return Fail(200, "Card not found");
    }
    var c := st.cards[k.value];
    st.cards := st.cards[k.value := c.(status := "todo", stamps := c.stamps["updated_at" := now])];
    r := Ok("moved");
  }

  // ------------------------------------------------------------ delete_card

  /** `s.pop(k)` */
  function Pop<T>(s: seq<T>, k: nat): seq<T>
    requires k < |s|
  {
    s[..k] + s[k + 1..]
  }

  /** Popping removes exactly one element, the one at k, and keeps the order of the rest. */
  lemma PopRemovesOne<T>(s: seq<T>, k: nat)
    requires k < |s|
    ensures |Pop(s, k)| == |s| - 1
    ensures multiset(Pop(s, k)) == multiset(s) - multiset{s[k]}
    ensures forall i :: 0 <= i < |Pop(s, k)| ==> Pop(s, k)[i] == (if i < k then s[i] else s[i + 1])
  {
    assert s == s[..k] + [s[k]] + s[k + 1..];
  }

  /** delete_card of the issues blueprint: only the first card with the id is
    * popped (a later card with the same id stays), and every comment on it goes. */
  method DeleteCard(st: Store, cardId: Option<int>) returns (r: Reply<string>)
    modifies st
    ensures var k := CardFor(old(st.cards), cardId);
      && (r.Fail? <==> k.None?)
      && (r.Fail? ==> r.error == "Card not found" && st.Snapshot() == old(st.Snapshot()))
      && (r.Ok? ==> st.Snapshot() == old(st.Snapshot()).(
            cards := Pop(old(st.cards), k.value),
            comments := Filter(old(st.comments), (m: Comment) => Some(m.cardId) != cardId)))
  {
    var k := CardFor(st.cards, cardId);
    if k.None? {
      return Fail(200, "Card not found");
    }
    st.cards := Pop(st.cards, k.value);
    st.comments := Filter(st.comments, (m: Comment) => Some(m.cardId) != cardId);
    r := Ok("deleted");
  }

  // ------------------------------------------------------------ notifications

  /** The first notification with the id that belongs to the caller. */
  function OwnNotification(ns: seq<Notification>, id: Option<int>, userId: int): (k: Option<nat>)
    ensures k.Some? ==> k.value < |ns| && Some(ns[k.value].id) == id && ns[k.value].userId == userId
    ensures k.None? <==> forall i :: 0 <= i < |ns| ==> !(Some(ns[i].id) == id && ns[i].userId == userId)
  {
    FindFirst(ns, (n: Notification) => Some(n.id) == id && n.userId == userId)
  }

  /** mark_notification_read: only a notification of the caller's own is marked;
    * another user's notification with that id is reported as not found. */
  method MarkNotificationRead(st: Store, notificationId: Option<int>, userId: int) returns (r: Reply<string>)
    modifies st
    ensures var k := OwnNotification(old(st.notifications), notificationId, userId);
      && (r.Fail? <==> k.None?)
      && (r.Fail? ==> r.error == "Notification not found" && st.Snapshot() == old(st.Snapshot()))
      && (r.Ok? ==> st.Snapshot() == old(st.Snapshot()).(notifications :=
            old(st.notifications)[k.value := old(st.notifications)[k.value].(read := true)]))
  {
    var k := OwnNotification(st.notifications, notificationId, userId);
    if k.None? {
      return Fail(200, "Notification not found");
    }
    st.notifications := st.notifications[k.value := st.notifications[k.value].(read := true)];
    r := Ok("marked");
  }

  // ------------------------------------------------------------ activity_feed

  datatype Activity = Activity(kind: string, cardId: int, title: string, user: string, timestamp: string, action: string)

  /** `d.get(key, default)` on the audit stamps. */
  function StampOr(s: Stamps, key: string, default: string): string
  {
    if key in s then s[key] else default
  }

  function CardTime(c: Card): string
  {
    StampOr(c.stamps, "updated_at", StampOr(c.stamps, "created_at", ""))
  }

  function CommentTime(m: Comment): string
  {
    StampOr(m.stamps, "created_at", "")
  }

  function ActivityTime(a: Activity): string
  {
    a.timestamp
  }

  /** `s[:n]` */
  function Prefix<T>(s: seq<T>, n: nat): (r: seq<T>)
    ensures |r| <= n && |r| <= |s| && r == s[..|r|]
    ensures |s| <= n ==> r == s
  {
    if |s| <= n then s else s[..n]
  }

  function CardActivity(c: Card): Activity
  {
    Activity("card_update", c.id, c.title,
             StampOr(c.stamps, "updated_by", StampOr(c.stamps, "created_by", "Unknown")),
             CardTime(c),
             if StampOr(c.stamps, "updated_at", "") != "" then "updated" else "created")
  }

  /** One entry per card, in order. */
  function CardActivities(cs: seq<Card>): (r: seq<Activity>)
    ensures |r| == |cs|
    ensures forall i :: 0 <= i < |r| ==> r[i] == CardActivity(cs[i])
  {
    if cs == [] then [] else CardActivities(cs[..|cs| - 1]) + [CardActivity(cs[|cs| - 1])]
  }

  /** One entry per comment whose card still exists; None where such a comment
    * has no `created_at` (the handler's `comment['created_at']` raises). */
  function CommentActivities(ms: seq<Comment>, cards: seq<Card>): (r: Option<seq<Activity>>)
    ensures r.Some? ==> |r.value| <= |ms|
    ensures r.Some? ==> forall i :: 0 <= i < |r.value| ==>
      r.value[i].kind == "comment" && CardById(cards, r.value[i].cardId).Some?
  {
    if ms == [] then Some([])
    else
      match CommentActivities(ms[..|ms| - 1], cards)
      case None => None
      case Some(acc) =>
        var m := ms[|ms| - 1];
        match CardById(cards, m.cardId)
        case None => Some(acc)
        case Some(k) =>
          if "created_at" in m.stamps then
            Some(acc + [Activity("comment", m.cardId, cards[k].title, m.author, m.stamps["created_at"], "commented")])
          else None
  }

  /** The ten most recently changed cards. */
  function RecentCards(d: Data): (r: seq<Card>)
    ensures |r| <= 10
  {
    Prefix(SortDesc(d.cards, CardTime), 10)
  }

  /** The five newest comments. */
  function RecentComments(d: Data): (r: seq<Comment>)
    ensures |r| <= 5
  {
    Prefix(SortDesc(d.comments, CommentTime), 5)
  }

  /** The feed: the entries of the recent cards and of the recent comments,
    * newest first, at most fifteen. */
  function Feed(d: Data): Reply<seq<Activity>>
  {
    match CommentActivities(RecentComments(d), d.cards)
    case None => Fail(200, "'created_at'")
    case Some(ca) => Ok(Prefix(SortDesc(CardActivities(RecentCards(d)) + ca, ActivityTime), 15))
  }

  predicate IsCardEntry(a: Activity) { a.kind == "card_update" }
  predicate IsCommentEntry(a: Activity) { a.kind == "comment" }

  /** Reordering card entries and comment entries keeps how many of each there are. */
  lemma EntryCounts(cs: seq<Activity>, ms: seq<Activity>, r: seq<Activity>)
    requires forall i :: 0 <= i < |cs| ==> IsCardEntry(cs[i])
    requires forall i :: 0 <= i < |ms| ==> IsCommentEntry(ms[i])
    requires multiset(r) == multiset(cs + ms)
    ensures Count(r, IsCardEntry) == |cs| && Count(r, IsCommentEntry) == |ms|
  {
    FilterPermutation(cs + ms, r, IsCardEntry);
    FilterPermutation(cs + ms, r, IsCommentEntry);
    FilterAppend(cs, ms, IsCardEntry);
    FilterAppend(cs, ms, IsCommentEntry);
    FilterTrue(cs, IsCardEntry);
    FilterTrue(ms, IsCommentEntry);
    FilterNone(ms, IsCardEntry);
    FilterNone(cs, IsCommentEntry);
  }

  /** The feed has at most fifteen entries, newest first, at most ten of them
    * about cards and at most five about comments, and every comment entry
    * names a card that exists. */
  lemma FeedProperties(d: Data)
    requires Feed(d).Ok?
    ensures var r := Feed(d).value;
      && |r| <= 15
      && Descending(r, ActivityTime)
      && Count(r, IsCardEntry) <= 10
      && Count(r, IsCommentEntry) <= 5
      && forall i :: 0 <= i < |r| && r[i].kind == "comment" ==> CardById(d.cards, r[i].cardId).Some?
  {
    var cs := CardActivities(RecentCards(d));
    var ca := CommentActivities(RecentComments(d), d.cards).value;
    var r := SortDesc(cs + ca, ActivityTime);
    assert Feed(d) == Ok(r);
    EntryCounts(cs, ca, r);
    CommentEntriesNameCards(cs, ca, r, d.cards);
  }

  lemma CommentEntriesNameCards(cs: seq<Activity>, ms: seq<Activity>, r: seq<Activity>, cards: seq<Card>)
    requires forall i :: 0 <= i < |cs| ==> IsCardEntry(cs[i])
    requires forall i :: 0 <= i < |ms| ==> CardById(cards, ms[i].cardId).Some?
    requires multiset(r) == multiset(cs + ms)
    ensures forall i :: 0 <= i < |r| && r[i].kind == "comment" ==> CardById(cards, r[i].cardId).Some?
  {
    forall i | 0 <= i < |r| && r[i].kind == "comment" ensures CardById(cards, r[i].cardId).Some? {
      assert r[i] in multiset(cs + ms);
      var j :| 0 <= j < |cs + ms| && (cs + ms)[j] == r[i];
      if j >= |cs| {
        assert (cs + ms)[j] == ms[j - |cs|];
      }
    }
  }

  /** activity_feed: builds the two lists with loops, then sorts and cuts. */
  method ActivityFeed(d: Data) returns (r: Reply<seq<Activity>>)
    ensures r == Feed(d)
  {
    var cardActs := CardLoop(RecentCards(d));
    var commentActs := CommentLoop(RecentComments(d), d.cards);
    if commentActs.None? {
      return Fail(200, "'created_at'");
    }
    r := Ok(Prefix(SortDesc(cardActs + commentActs.value, ActivityTime), 15));
  }

  /** The feed's loop over the recent cards. */
  method CardLoop(recentCards: seq<Card>) returns (cardActs: seq<Activity>)
    ensures cardActs == CardActivities(recentCards)
  {
    cardActs := [];
    var i := 0;
    while i < |recentCards|
      invariant 0 <= i <= |recentCards|
      invariant cardActs == CardActivities(recentCards[..i])
    {
      assert recentCards[..i + 1][..i] == recentCards[..i];
      cardActs := cardActs + [CardActivity(recentCards[i])];
      i := i + 1;
    }
    assert recentCards[..i] == recentCards;
  }

  /** The feed's loop over the recent comments; None where a comment whose
    * card exists has no `created_at`. */
  method CommentLoop(recentComments: seq<Comment>, cards: seq<Card>) returns (acts: Option<seq<Activity>>)
    ensures acts == CommentActivities(recentComments, cards)
  {
    var commentActs: seq<Activity> := [];
    var j := 0;
    while j < |recentComments|
      invariant 0 <= j <= |recentComments|
      invariant CommentActivities(recentComments[..j], cards) == Some(commentActs)
    {
      assert recentComments[..j + 1][..j] == recentComments[..j];
      var m := recentComments[j];
      var k := CardById(cards, m.cardId);
      if k.Some? {
        if "created_at" !in m.stamps {
          assert CommentActivities(recentComments[..j + 1], cards).None?;
          FailureSticks(recentComments, j + 1, cards);
          return None;
        }
        commentActs := commentActs + [Activity("comment", m.cardId, cards[k.value].title, m.author,
                                               m.stamps["created_at"], "commented")];
      }
      j := j + 1;
    }
    assert recentComments[..j] == recentComments;
    acts := Some(commentActs);
  }

  /** Once a comment has raised, the rest of the loop cannot undo it. */
  lemma {:induction false} FailureSticks(ms: seq<Comment>, n: nat, cards: seq<Card>)
    requires n <= |ms| && CommentActivities(ms[..n], cards).None?
    ensures CommentActivities(ms, cards).None?
    decreases |ms| - n
  {
    if n < |ms| {
      assert ms[..n + 1][..n] == ms[..n];
      FailureSticks(ms, n + 1, cards);
    } else {
      assert ms[..n] == ms;
    }
  }
}
