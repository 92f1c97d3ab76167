/** Statistics and the health threshold (server.py, get_stats and the
    /check-health handler): counts over the replied table at time `now`. */
module Stats {
  import opened Memory

  /** Replies per day from which the health check warns. */
  const DailyWarningThreshold := 150
  const DailyWarning := "Daily limit approaching (150)"

  datatype Stats = Stats(totalReplies: nat, repliesToday: nat, uniqueUsers: nat, byLanguage: map<string, nat>)

  datatype Health = Health(status: string, warnings: seq<string>, stats: Stats)

  /** Midnight (UTC) of the day `now` falls in. */
  function DayStart(now: int): (d: int)
    ensures d <= now < d + SecondsPerDay && d % SecondsPerDay == 0
  {
    now - now % SecondsPerDay
  }

  lemma {:induction false} SubsetNoLarger<T>(a: set<T>, b: set<T>)
    requires a <= b
    ensures |a| <= |b|
    decreases b
  {
    if b != {} {
      var x :| x in b;
      SubsetNoLarger(a - {x}, b - {x});
    }
  }

  /** The authors of the replies in `ids`. */
  function Authors(replied: RepliedTable, ids: set<string>): set<string>
    requires ids <= replied.Keys
  {
    set id | id in ids :: replied[id].userHandle
  }

  /** There are never more authors than replies. */
  lemma {:induction false} AuthorsAtMostReplies(replied: RepliedTable, ids: set<string>)
    requires ids <= replied.Keys
    ensures |Authors(replied, ids)| <= |ids|
    ensures ids != {} ==> Authors(replied, ids) != {}
    decreases ids
  {
    if ids != {} {
      var id :| id in ids;
      var rest := ids - {id};
      AuthorsAtMostReplies(replied, rest);
      assert Authors(replied, ids) == Authors(replied, rest) + {replied[id].userHandle};
    }
  }

  /** The languages that occur in the replied table: the groups of `GROUP BY language`. */
  function Languages(replied: RepliedTable): set<string> {
    set id | id in replied :: replied[id].language
  }

  /** The ids of the replies in language `lang`. */
  function InLanguage(replied: RepliedTable, lang: string): set<string> {
    set id | id in replied && replied[id].language == lang
  }

  /** The ids of the replies stamped after midnight (UTC) of `now`'s day. */
  function RepliedToday(replied: RepliedTable, now: int): (ids: set<string>)
    ensures ids <= replied.Keys
  {
    set id | id in replied && replied[id].timestamp > DayStart(now)
  }

  /** `get_stats()` at time `now`. */
  function GetStats(replied: RepliedTable, now: int): (s: Stats)
    ensures s.totalReplies == |replied|
    ensures s.repliesToday == |RepliedToday(replied, now)| && s.repliesToday <= s.totalReplies
    ensures s.uniqueUsers == |Authors(replied, replied.Keys)|
    ensures s.uniqueUsers <= s.totalReplies && (s.uniqueUsers == 0 <==> s.totalReplies == 0)
    ensures s.byLanguage.Keys == Languages(replied)
    ensures forall lang :: lang in s.byLanguage ==> s.byLanguage[lang] == |InLanguage(replied, lang)|
    ensures forall lang :: lang in s.byLanguage ==> 1 <= s.byLanguage[lang] <= s.totalReplies
  {
    SubsetNoLarger(RepliedToday(replied, now), replied.Keys);
    AuthorsAtMostReplies(replied, replied.Keys);
    forall lang | lang in Languages(replied)
      ensures 1 <= |InLanguage(replied, lang)| <= |replied|
    {
      var id :| id in replied && replied[id].language == lang;
      assert id in InLanguage(replied, lang);
      SubsetNoLarger(InLanguage(replied, lang), replied.Keys);
    }
    Stats(|replied|,
          |RepliedToday(replied, now)|,
          |Authors(replied, replied.Keys)|,
          map lang | lang in Languages(replied) :: |InLanguage(replied, lang)|)
  }

  /** A reply logged after midnight adds one to the day's count and to the total. */
  lemma LoggedReplyCountsToday(replied: RepliedTable, id: string, row: Reply, now: int)
    requires id !in replied && row.timestamp > DayStart(now)
    ensures GetStats(replied[id := row], now).repliesToday == GetStats(replied, now).repliesToday + 1
    ensures GetStats(replied[id := row], now).totalReplies == GetStats(replied, now).totalReplies + 1
  {
    assert RepliedToday(replied[id := row], now) == RepliedToday(replied, now) + {id};
  }

  /** A reply stamped at or before midnight adds one to the total and leaves the
      day's count as it was. */
  lemma LoggedEarlierReplyKeepsToday(replied: RepliedTable, id: string, row: Reply, now: int)
    requires id !in replied && row.timestamp <= DayStart(now)
    ensures GetStats(replied[id := row], now).repliesToday == GetStats(replied, now).repliesToday
    ensures GetStats(replied[id := row], now).totalReplies == GetStats(replied, now).totalReplies + 1
  {
    assert RepliedToday(replied[id := row], now) == RepliedToday(replied, now);
  }

  /** A logged reply adds one unique user exactly when no earlier reply went to
      the same handle. */
  lemma LoggedReplyAddsAuthor(replied: RepliedTable, id: string, row: Reply, now: int)
    requires id !in replied
    ensures GetStats(replied[id := row], now).uniqueUsers == GetStats(replied, now).uniqueUsers +
      if exists k :: k in replied && replied[k].userHandle == row.userHandle then 0 else 1
  {
    var r := replied[id := row];
    var before, after := Authors(replied, replied.Keys), Authors(r, r.Keys);
    assert r[id].userHandle == row.userHandle;
    assert after == before + {row.userHandle} by {
      forall u | u in after ensures u in before + {row.userHandle} {
        var k :| k in r.Keys && r[k].userHandle == u;
        if k != id { assert replied[k] == r[k]; }
      }
      forall u | u in before ensures u in after {
        var k :| k in replied.Keys && replied[k].userHandle == u;
        assert r[k] == replied[k];
      }
    }
    if exists k :: k in replied && replied[k].userHandle == row.userHandle {
      var k :| k in replied && replied[k].userHandle == row.userHandle;
      assert row.userHandle in before;
    } else {
      assert row.userHandle !in before;
    }
  }

  /** A logged reply adds one to its language's group; a language not seen
      before opens a group of one. */
  lemma LoggedReplyJoinsLanguage(replied: RepliedTable, id: string, row: Reply, now: int)
    requires id !in replied
    ensures row.language in GetStats(replied[id := row], now).byLanguage
    ensures GetStats(replied[id := row], now).byLanguage[row.language] ==
      if row.language in Languages(replied) then GetStats(replied, now).byLanguage[row.language] + 1 else 1
  {
    assert replied[id := row][id].language == row.language;
    assert InLanguage(replied[id := row], row.language) == InLanguage(replied, row.language) + {id};
    if row.language !in Languages(replied) {
      assert InLanguage(replied, row.language) == {};
    }
  }

  /** The health answer for the given statistics: a warning, and status WARNING,
      exactly when the day's replies reach 150. */
  function HealthOf(stats: Stats): (h: Health)
    ensures h.stats == stats
    ensures h.warnings == (if stats.repliesToday >= DailyWarningThreshold then [DailyWarning] else [])
    ensures h.status == "WARNING" <==> stats.repliesToday >= DailyWarningThreshold
    ensures h.status == "HEALTHY" <==> stats.repliesToday < DailyWarningThreshold
  {
    var warnings := if stats.repliesToday >= DailyWarningThreshold then [DailyWarning] else [];
    Health(if warnings == [] then "HEALTHY" else "WARNING", warnings, stats)
  }

  /** `/check-health` at time `now`. */
  function CheckHealth(replied: RepliedTable, now: int): (h: Health)
    ensures h.stats == GetStats(replied, now)
    ensures h.status == "WARNING" <==> |RepliedToday(replied, now)| >= DailyWarningThreshold
  {
    HealthOf(GetStats(replied, now))
  }

  // ---------------------------------------------------------------------------
  // The query as written

  /** The day's count as the SQL query computes it: the stored stamps compared as
      text with the `isoformat()` of midnight. */
  function RepliesTodayAsWritten(replied: RepliedTable, now: int): (n: nat)
    ensures n <= |replied|
  {
    var ids := set id | id in replied && StoredAfter(replied[id].timestamp, DayStart(now));
    SubsetNoLarger(ids, replied.Keys);
    |ids|
  }

  /** `get_stats()` with the day's query as written. */
  function GetStatsAsWritten(replied: RepliedTable, now: int): (s: Stats)
    ensures s.totalReplies == |replied| && s.repliesToday <= s.totalReplies
  {
    GetStats(replied, now).(repliesToday := RepliesTodayAsWritten(replied, now))
  }

  /** As written, no reply stamped up to now is ever counted as today's, so
      `/check-health` answers HEALTHY however many replies the day has seen. */
  lemma {:induction false} HealthNeverWarnsAsWritten(replied: RepliedTable, now: int)
    requires forall id :: id in replied ==> replied[id].timestamp <= now
    ensures GetStatsAsWritten(replied, now).repliesToday == 0
    ensures HealthOf(GetStatsAsWritten(replied, now)).status == "HEALTHY"
  {
    var ids := set id | id in replied && StoredAfter(replied[id].timestamp, DayStart(now));
    forall id | id in replied ensures id !in ids {
      StoredAfterComparesDays(replied[id].timestamp, DayStart(now));
      assert replied[id].timestamp / SecondsPerDay <= now / SecondsPerDay;
    }
    assert ids == {};
  }
}
