/** create_mention_notifications of app/services/notification_service.py: one
  * 'mention' notification per mentioned username that belongs to a user. The
  * loader and saver are the store the method changes; the clock reading is a
  * parameter. */
module Notifications {
  import opened Common
  import opened Records

  function NoteId(): Notification -> int { (n: Notification) => n.id }

  function MentionText(author: string): string { author + " mentioned you in a comment" }

  /** The notification the loop appends for one username, if some user has it. */
  function MentionNote(notes: seq<Notification>, users: seq<User>, username: string, cardId: int,
                       author: string, now: string): Option<Notification>
  {
    match UserByName(users, username)
    case None => None
    case Some(k) =>
      Some(Notification(NextId(notes, NoteId()), users[k].id, "mention", MentionText(author), cardId, false,
                        map["created_at" := now]))
  }

  /** The notifications after the loop has run over the usernames. */
  function Mentioned(notes: seq<Notification>, users: seq<User>, mentions: seq<string>, cardId: int,
                     author: string, now: string): seq<Notification>
    decreases |mentions|
  {
    if mentions == [] then notes
    else
      var prev := Mentioned(notes, users, mentions[..|mentions| - 1], cardId, author, now);
      match MentionNote(prev, users, mentions[|mentions| - 1], cardId, author, now)
      case None => prev
      case Some(n) => prev + [n]
  }

  method CreateMentionNotifications(st: Store, mentions: seq<string>, cardId: int, author: string, now: string)
    modifies st
    ensures st.Snapshot() == old(st.Snapshot()).(notifications := Mentioned(old(st.notifications), old(st.users),
                                                                             mentions, cardId, author, now))
  {
    var i := 0;
    while i < |mentions|
      invariant 0 <= i <= |mentions|
      invariant st.Snapshot() == old(st.Snapshot()).(notifications := Mentioned(old(st.notifications), old(st.users),
                                                                                  mentions[..i], cardId, author, now))
    {
      assert mentions[..i + 1][..i] == mentions[..i];
      match UserByName(st.users, mentions[i]) {
        case None =>
        case Some(k) =>
          var note := Notification(NextId(st.notifications, NoteId()), st.users[k].id, "mention", MentionText(author),
                                   cardId, false, map["created_at" := now]);
          st.notifications := st.notifications + [note];
      }
      i := i + 1;
    }
    assert mentions[..i] == mentions;
  }

  function KnownName(users: seq<User>): string -> bool { (m: string) => UserByName(users, m).Some? }

  /** The id of the first user with the name. */
  function RecipientOf(users: seq<User>, name: string): int
    requires UserByName(users, name).Some?
  {
    users[UserByName(users, name).value].id
  }

  /** Who is notified, in mention order: the first user of each username that has one. */
  function Recipients(users: seq<User>, mentions: seq<string>): (r: seq<int>)
    ensures |r| == Count(mentions, KnownName(users))
  {
    var known := Filter(mentions, KnownName(users));
    seq(|known|, i requires 0 <= i < |known| => RecipientOf(users, known[i]))
  }

  /** The old notifications stay in front, untouched; after them come exactly
    * one notification per known username, addressed in mention order. */
  lemma {:induction false} MentionedRecipients(notes: seq<Notification>, users: seq<User>, mentions: seq<string>,
                                               cardId: int, author: string, now: string)
    ensures |Mentioned(notes, users, mentions, cardId, author, now)| == |notes| + |Recipients(users, mentions)|
    ensures Mentioned(notes, users, mentions, cardId, author, now)[..|notes|] == notes
    ensures forall k :: 0 <= k < |Recipients(users, mentions)| ==>
      Mentioned(notes, users, mentions, cardId, author, now)[|notes| + k].userId == Recipients(users, mentions)[k]
    decreases |mentions|
  {
    if mentions != [] {
      var init := mentions[..|mentions| - 1];
      var m := mentions[|mentions| - 1];
      MentionedRecipients(notes, users, init, cardId, author, now);
      assert mentions == init + [m];
      FilterAppend(init, [m], KnownName(users));
      assert Filter([m], KnownName(users)) == if KnownName(users)(m) then [m] else [];
      var known, before := Filter(mentions, KnownName(users)), Filter(init, KnownName(users));
      var r := Mentioned(notes, users, mentions, cardId, author, now);
      var prev := Mentioned(notes, users, init, cardId, author, now);
      forall k | 0 <= k < |Recipients(users, mentions)| ensures r[|notes| + k].userId == Recipients(users, mentions)[k] {
        assert Recipients(users, mentions)[k] == RecipientOf(users, known[k]);
        if k < |before| {
          assert known[k] == before[k];
          assert Recipients(users, init)[k] == RecipientOf(users, before[k]);
          assert r[|notes| + k] == prev[|notes| + k];
        } else {
          assert known[k] == m && k == |before|;
          assert r == prev + [MentionNote(prev, users, m, cardId, author, now).value];
        }
      }
    }
  }

  /** Every added notification is a mention of this card, unread, with an id
    * above every id before it. */
  lemma {:induction false} MentionedFields(notes: seq<Notification>, users: seq<User>, mentions: seq<string>,
                                           cardId: int, author: string, now: string)
    ensures forall i :: |notes| <= i < |Mentioned(notes, users, mentions, cardId, author, now)| ==>
      var n := Mentioned(notes, users, mentions, cardId, author, now)[i];
      n.kind == "mention" && !n.read && n.cardId == cardId && n.message == MentionText(author)
      && n.stamps == map["created_at" := now]
    ensures forall i, j :: 0 <= j < i < |Mentioned(notes, users, mentions, cardId, author, now)| && |notes| <= i ==>
      Mentioned(notes, users, mentions, cardId, author, now)[j].id < Mentioned(notes, users, mentions, cardId, author, now)[i].id
    decreases |mentions|
  {
    if mentions != [] {
      var init := mentions[..|mentions| - 1];
      MentionedFields(notes, users, init, cardId, author, now);
      MentionedRecipients(notes, users, init, cardId, author, now);
    }
  }
}
