/** The duplicate/cooldown guard (server.py, check_duplicate): a first-match-wins
    chain over the replied and scanned tables, then a sliding 24-hour count of the
    author's replies. Timestamps are integer seconds; `now` is the call's clock. */
module Guard {
  import opened Memory

  /** The sliding window of the per-author count, in seconds (24 hours). */
  const Window := 24 * 3600
  /** Replies an author may receive inside the window before the cooldown applies. */
  const MaxRepliesPerAuthor := 2

  const AlreadyReplied := "Already replied to this tweet"
  const AlreadyScanned := "Already scanned this tweet"
  const UserCooldown := "User cooldown (max 2 replies per 24h)"

  /** `(should_skip, reason)` as `check_duplicate` returns it. */
  datatype Verdict = Verdict(skip: bool, reason: string)

  /** Ids of the replies to `user` stamped strictly after `cutoff`. */
  function RecentReplies(replied: RepliedTable, user: string, cutoff: int): (ids: set<string>)
    ensures ids <= replied.Keys
    ensures forall id :: id in ids <==> id in replied && replied[id].userHandle == user && replied[id].timestamp > cutoff
  {
    set id | id in replied && replied[id].userHandle == user && replied[id].timestamp > cutoff
  }

  /** `check_duplicate(tweet_id, user_handle)` evaluated at time `now`. */
  function CheckDuplicate(replied: RepliedTable, scanned: ScannedTable, tweetId: string,
                          userHandle: string, now: int): (v: Verdict)
    ensures tweetId in replied ==> v == Verdict(true, AlreadyReplied)
    ensures tweetId !in replied && tweetId in scanned ==> v == Verdict(true, AlreadyScanned)
    ensures tweetId !in replied && tweetId !in scanned ==>
      v == if |RecentReplies(replied, userHandle, now - Window)| >= MaxRepliesPerAuthor
           then Verdict(true, UserCooldown) else Verdict(false, "")
    ensures !v.skip <==> v.reason == ""
  {
    if tweetId in replied then Verdict(true, AlreadyReplied)
    else if tweetId in scanned then Verdict(true, AlreadyScanned)
    else if |RecentReplies(replied, userHandle, now - Window)| >= MaxRepliesPerAuthor then Verdict(true, UserCooldown)
    else Verdict(false, "")
  }

  /** Inserting a new reply adds one to its author's recent count when it is recent,
      and changes no other count. */
  lemma RecentRepliesAfterInsert(replied: RepliedTable, id: string, row: Reply, user: string, cutoff: int)
    requires id !in replied
    ensures |RecentReplies(replied[id := row], user, cutoff)|
         == |RecentReplies(replied, user, cutoff)| + (if row.userHandle == user && row.timestamp > cutoff then 1 else 0)
  {
    var before := RecentReplies(replied, user, cutoff);
    var after := RecentReplies(replied[id := row], user, cutoff);
    if row.userHandle == user && row.timestamp > cutoff {
      assert after == before + {id};
    } else {
      assert after == before;
    }
  }

  /** A tweet once logged as replied is refused for every author and at every time. */
  lemma LoggedReplyIsRefused(replied: RepliedTable, scanned: ScannedTable, tweetId: string, row: Reply,
                             userHandle: string, now: int)
    ensures CheckDuplicate(replied[tweetId := row], scanned, tweetId, userHandle, now) == Verdict(true, AlreadyReplied)
  {
  }

  /** An author with no recent reply stays eligible after one more recent reply. */
  lemma {:induction false} OneRecentReplyKeepsAuthorEligible(replied: RepliedTable, scanned: ScannedTable,
                                                             id: string, row: Reply, tweetId: string, now: int)
    requires id !in replied && tweetId != id && tweetId !in replied && tweetId !in scanned
    requires RecentReplies(replied, row.userHandle, now - Window) == {}
    ensures CheckDuplicate(replied[id := row], scanned, tweetId, row.userHandle, now) == Verdict(false, "")
  {
    RecentRepliesAfterInsert(replied, id, row, row.userHandle, now - Window);
  }

  /** An author with one recent reply is in cooldown once a second recent reply is logged. */
  lemma {:induction false} SecondRecentReplyStartsCooldown(replied: RepliedTable, scanned: ScannedTable,
                                                           id: string, row: Reply, tweetId: string, now: int)
    requires id !in replied && tweetId != id && tweetId !in replied && tweetId !in scanned
    requires |RecentReplies(replied, row.userHandle, now - Window)| == 1
    requires row.timestamp > now - Window
    ensures CheckDuplicate(replied[id := row], scanned, tweetId, row.userHandle, now) == Verdict(true, UserCooldown)
  {
    RecentRepliesAfterInsert(replied, id, row, row.userHandle, now - Window);
  }

  /** Replies older than the window never count towards the cooldown. */
  lemma {:induction false} StaleReplyDoesNotCount(replied: RepliedTable, id: string, row: Reply, user: string, now: int)
    requires id !in replied && row.timestamp <= now - Window
    ensures |RecentReplies(replied[id := row], user, now - Window)| == |RecentReplies(replied, user, now - Window)|
  {
    RecentRepliesAfterInsert(replied, id, row, user, now - Window);
  }

  // ---------------------------------------------------------------------------
  // The query as written

  /** The author's replies as the SQL query selects them: the stored stamp is
      compared as text with the `isoformat()` of the cutoff. */
  function RecentRepliesAsWritten(replied: RepliedTable, user: string, cutoff: int): (ids: set<string>)
    ensures ids <= replied.Keys
  {
    set id | id in replied && replied[id].userHandle == user && StoredAfter(replied[id].timestamp, cutoff)
  }

  /** `check_duplicate` with the query as written. */
  function CheckDuplicateAsWritten(replied: RepliedTable, scanned: ScannedTable, tweetId: string,
                                   userHandle: string, now: int): (v: Verdict)
    ensures tweetId in replied ==> v == Verdict(true, AlreadyReplied)
    ensures tweetId !in replied && tweetId in scanned ==> v == Verdict(true, AlreadyScanned)
  {
    if tweetId in replied then Verdict(true, AlreadyReplied)
    else if tweetId in scanned then Verdict(true, AlreadyScanned)
    else if |RecentRepliesAsWritten(replied, userHandle, now - Window)| >= MaxRepliesPerAuthor then Verdict(true, UserCooldown)
    else Verdict(false, "")
  }

  /** As written, the window is not the last 24 hours: it holds exactly the
      author's replies stamped on the current UTC day or later. */
  lemma AsWrittenWindowIsToday(replied: RepliedTable, user: string, now: int)
    ensures forall id :: id in RecentRepliesAsWritten(replied, user, now - Window) <==>
      id in replied && replied[id].userHandle == user && replied[id].timestamp / SecondsPerDay >= now / SecondsPerDay
  {
    forall id | id in replied {
      StoredAfterComparesDays(replied[id].timestamp, now - Window);
    }
  }

  /** Two replies to an author at 23:50 and 23:55 leave the author eligible at
      00:10 the next day as written, though both are within the last 24 hours
      and the intended check puts the author in cooldown. */
  lemma LateRepliesEscapeCooldown()
    ensures var replied := map["1" := Reply("fan", SecondsPerDay - 600, "Los Angeles", "en", "a"),
                               "2" := Reply("fan", SecondsPerDay - 300, "Los Angeles", "en", "b")];
      && CheckDuplicateAsWritten(replied, map[], "3", "fan", SecondsPerDay + 600) == Verdict(false, "")
      && CheckDuplicate(replied, map[], "3", "fan", SecondsPerDay + 600) == Verdict(true, UserCooldown)
  {
    var replied := map["1" := Reply("fan", SecondsPerDay - 600, "Los Angeles", "en", "a"),
                       "2" := Reply("fan", SecondsPerDay - 300, "Los Angeles", "en", "b")];
    var now := SecondsPerDay + 600;
    StoredAfterComparesDays(SecondsPerDay - 600, now - Window);
    StoredAfterComparesDays(SecondsPerDay - 300, now - Window);
    assert RecentRepliesAsWritten(replied, "fan", now - Window) == {};
    assert RecentReplies(replied, "fan", now - Window) == {"1", "2"};
  }
}
