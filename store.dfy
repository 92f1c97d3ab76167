/** The server's persistent store (server.py, init_database, log_reply,
    log_scanned, get_cached_trends, update_trend_cache): the three tables the
    core uses, as maps keyed by their primary key. The clock that fills
    `DEFAULT CURRENT_TIMESTAMP` columns is a parameter (seconds). */
module Memory {
  import opened Text

  /** A row of `replied_tweets`, keyed by tweet id. */
  datatype Reply = Reply(userHandle: string, timestamp: int, region: string, language: string, replyText: string)

  /** A row of `scanned_tweets`, keyed by tweet id; a NULL skip reason is `None`. */
  datatype Scan = Scan(scannedAt: int, skipReason: Option<string>)

  /** A row of `trend_cache`, keyed by region; `trends` is the decoded JSON list. */
  datatype TrendEntry = TrendEntry(trends: seq<string>, harvestedAt: int)

  type RepliedTable = map<string, Reply>
  type ScannedTable = map<string, Scan>
  type TrendTable = map<string, TrendEntry>

  /** The message SQLite raises when `log_reply` repeats a tweet id. */
  const DuplicateReplyError := "UNIQUE constraint failed: replied_tweets.tweet_id"

  // ---------------------------------------------------------------------------
  // Timestamps as text

  const SecondsPerDay := 86400

  /** A timestamp written out as text: the date, a separator, the time of day.
      SQLite's `CURRENT_TIMESTAMP` writes "YYYY-MM-DD HH:MM:SS" and Python's
      `isoformat()` writes "YYYY-MM-DDTHH:MM:SS.ffffff". Both write the date and
      the time at fixed width, so comparing two such texts compares the days,
      then the separators, then the times of day. */
  datatype StampText = StampText(day: int, separator: char, secondOfDay: int)

  const SqliteSeparator := ' '
  const IsoSeparator := 'T'

  /** The text of the time `t` (seconds since the epoch) with the given separator. */
  function AsText(t: int, separator: char): (x: StampText)
    ensures x.day * SecondsPerDay + x.secondOfDay == t && 0 <= x.secondOfDay < SecondsPerDay
    ensures x.separator == separator
  {
    StampText(t / SecondsPerDay, separator, t % SecondsPerDay)
  }

  /** The text comparison `a > b` of two written-out timestamps. */
  predicate TextAfter(a: StampText, b: StampText) {
    || a.day > b.day
    || (a.day == b.day && (a.separator > b.separator || (a.separator == b.separator && a.secondOfDay > b.secondOfDay)))
  }

  /** The SQL condition `timestamp > ?`: a stored `CURRENT_TIMESTAMP` compared with
      the text of an `isoformat()` cutoff. */
  function StoredAfter(stamp: int, cutoff: int): (b: bool)
    ensures b ==> stamp > cutoff
  {
    TextAfter(AsText(stamp, SqliteSeparator), AsText(cutoff, IsoSeparator))
  }

  /** The condition sees only the dates: ' ' sorts before 'T', so no stamp of the
      cutoff's own day is after the cutoff, however late in the day it is. */
  lemma StoredAfterComparesDays(stamp: int, cutoff: int)
    ensures StoredAfter(stamp, cutoff) <==> stamp / SecondsPerDay > cutoff / SecondsPerDay
  {
  }

  /** `INSERT OR IGNORE`: a key already present keeps its row. */
  function InsertOrIgnore<K, V>(t: map<K, V>, k: K, v: V): (r: map<K, V>)
    ensures k in r && r[k] == (if k in t then t[k] else v)
    ensures r.Keys == t.Keys + {k}
    ensures forall j :: j in t && j != k ==> r[j] == t[j]
  {
    if k in t then t else t[k := v]
  }

  /** A second `INSERT OR IGNORE` of the same key changes nothing, whatever its row. */
  lemma InsertOrIgnoreIdempotent<K, V>(t: map<K, V>, k: K, v: V, w: V)
    ensures InsertOrIgnore(InsertOrIgnore(t, k, v), k, w) == InsertOrIgnore(t, k, v)
  {
  }

  /** The SQLite database: the replied, scanned and trend-cache tables. */
  class Store {
    var replied: RepliedTable
    var scanned: ScannedTable
    var trendCache: TrendTable

    /** `init_database` on a fresh database file: every table empty. */
    constructor ()
      ensures replied == map[] && scanned == map[] && trendCache == map[]
    {
      replied, scanned, trendCache := map[], map[], map[];
    }

    /** `log_reply`: a plain INSERT under the tweet id. A repeated id violates the
        primary key, raises, and leaves the table as it was. */
    method LogReply(tweetId: string, userHandle: string, region: string, language: string,
                    replyText: string, now: int) returns (r: Outcome)
      modifies this
      ensures tweetId in old(replied) ==> r == Fail(DuplicateReplyError) && replied == old(replied)
      ensures tweetId !in old(replied) ==>
        r == Pass && replied == old(replied)[tweetId := Reply(userHandle, now, region, language, replyText)]
      ensures |replied| == |old(replied)| + (if r.Pass? then 1 else 0)
      ensures scanned == old(scanned) && trendCache == old(trendCache)
    {
      if tweetId in replied {
        r := Fail(DuplicateReplyError);
      } else {
        replied := replied[tweetId := Reply(userHandle, now, region, language, replyText)];
        r := Pass;
      }
    }

    /** `log_scanned`: `INSERT OR IGNORE`, so the first skip reason for an id is the one kept. */
    method LogScanned(tweetId: string, skipReason: Option<string>, now: int)
      modifies this
      ensures scanned == InsertOrIgnore(old(scanned), tweetId, Scan(now, skipReason))
      ensures tweetId in old(scanned) ==> scanned == old(scanned)
      ensures replied == old(replied) && trendCache == old(trendCache)
    {
      if tweetId !in scanned {
        scanned := scanned[tweetId := Scan(now, skipReason)];
      }
    }

    /** `get_cached_trends`: the list last stored for the region, or `[]`. */
    function CachedTrends(region: string): (ts: seq<string>)
      reads this
      ensures region in trendCache ==> ts == trendCache[region].trends
      ensures region !in trendCache ==> ts == []
    {
      if region in trendCache then trendCache[region].trends else []
    }

    /** `update_trend_cache`: `INSERT OR REPLACE`, so the last write for a region wins
        and other regions keep their entries. */
    method UpdateTrendCache(region: string, trends: seq<string>, now: int)
      modifies this
      ensures trendCache == old(trendCache)[region := TrendEntry(trends, now)]
      ensures CachedTrends(region) == trends
      ensures forall r :: r != region ==> CachedTrends(r) == old(CachedTrends(r))
      ensures replied == old(replied) && scanned == old(scanned)
    {
      trendCache := trendCache[region := TrendEntry(trends, now)];
    }
  }
}
