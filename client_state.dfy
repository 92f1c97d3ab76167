/** The userscript's `STATE` record and the handlers that update it
    (xbot_client.js): the location-switch steps, the trend harvest, the keyword
    rotation, the scan-and-reply gates and counters, and saving and loading the
    state across page loads. The page, the DOM texts, the server's replies and
    `Date.now()` (milliseconds) are parameters. */
module Bot {
  import opened Text
  import opened Filters
  import LocationMatch
  import Brain

  const ReplyCooldown := 75000
  const KeywordRotateInterval := 300000
  const TrendHarvestInterval := 1800000
  const LocationSwitchCooldown := 3600000
  const MaxRepliesPerHour := 6
  const SavedStateMaxAge := 300000
  const HourWindow := 3600000
  const MaxSavedTweets := 200

  /** `FALLBACK_KEYWORDS`. */
  const FallbackKeywords: seq<string> := [
    "\"where to watch\" free", "\"best free streaming\" site", "\"streaming site\" no ads"]

  datatype Phase = Idle | SwitchingLocation | HarvestingTrends | Searching | Scanning | Replying

  datatype Step = Navigate | Type | Select | Reload | Done

  /** `getCurrentPage()`. */
  datatype Page = LocationSettings | TrendingTab | ExplorePage | SearchPage | OtherPage

  /** A JSON value kept from the search service: `null`, a string or a number. */
  datatype Value = Null | StringValue(s: string) | NumberValue(n: int)

  /** JavaScript truthiness of a kept value. */
  predicate Truthy(v: Value) {
    match v
    case Null => false
    case StringValue(s) => s != ""
    case NumberValue(n) => n != 0
  }

  /** A `/smart-search` answer with a non-empty `search_term`. */
  datatype SearchData = SearchData(searchTerm: string, title: Value, year: Value, tmdbId: Value)

  /** The server's answer to `/select-location`: a JSON body with or without a
      numeric `index`, or a failed request (which throws). */
  datatype SelectionReply = Indexed(index: Option<int>) | SelectionFailed

  /** What `extractTweetData` reads from one article. */
  datatype TweetData = TweetData(tweetId: string, tweetText: string, userHandle: string)

  /** One tweet article on the page: its data (None when extraction fails) and the
      promoted and verified marks. */
  datatype Article = Article(data: Option<TweetData>, promoted: bool, verified: bool)

  /** The server's answer to `/analyze`: its `action` and `draft` (None when
      absent or not a string), or a failed request (which throws). */
  datatype AnalysisReply = Analysed(action: Option<string>, draft: Option<string>) | AnalysisFailed

  datatype SwitchOutcome = SwitchNavigating | Retry | SwitchThrew | SwitchSuccess | NoMatch | Unknown
  datatype HarvestOutcome = HarvestNavigating | HarvestThrew | HarvestSuccess | NoTrends
  datatype SearchOutcome = NavigatingTo(query: string) | Reloading | Ready
  datatype ScanOutcome = NoCandidates | LimitReached | Cooldown | Skip | DryRun | ScanThrew

  /** The fields of `STATE` that the schedule sets. */
  datatype TargetFields = TargetFields(currentRegion: Option<string>, currentLocation: Option<string>,
                                       currentLang: Option<string>, currentKeywords: seq<string>)

  /** The fields of `STATE` that the trend harvest sets. */
  datatype TrendFields = TrendFields(currentTrends: seq<string>, lastTrendHarvest: int)

  /** The fields of `STATE` that the location switch sets. */
  datatype SwitchFields = SwitchFields(locationSwitchStep: Step, lastLocationSwitchTime: int,
                                       lastLocationSwitchRegion: Option<string>)

  /** The fields of `STATE` that the search sets. */
  datatype SearchFields = SearchFields(currentKeywordIndex: nat, lastKeywordRotation: int, currentSearchTerm: string,
                                       currentMovieTitle: Value, currentMovieYear: Value, currentTMDBId: Value)

  /** The reply counters of `STATE`. */
  datatype ReplyFields = ReplyFields(repliesThisHour: nat, repliesToday: nat, lastReplyTime: int, hourStartTime: int)

  /** The value of `STATE`, its fields grouped by the handler that sets them. */
  datatype State = State(isRunning: bool, phase: Phase, target: TargetFields, trends: TrendFields,
                         locationSwitch: SwitchFields, search: SearchFields, replies: ReplyFields,
                         processedTweets: seq<string>)

  /** The record `saveState` writes. */
  datatype Snapshot = Snapshot(
    isRunning: bool, phase: Phase,
    currentRegion: Option<string>, currentLocation: Option<string>, currentLang: Option<string>,
    currentTrends: seq<string>, currentKeywordIndex: nat,
    lastLocationSwitchTime: int, lastLocationSwitchRegion: Option<string>,
    lastKeywordRotation: int, lastTrendHarvest: int,
    repliesThisHour: nat, repliesToday: nat, lastReplyTime: int, hourStartTime: int,
    currentSearchTerm: string, currentMovieTitle: Value, currentMovieYear: Value, currentTMDBId: Value,
    processedTweets: seq<string>, locationSwitchStep: Step, timestamp: int)

  /** What the stored key holds: nothing, text that does not parse, or a saved record. */
  datatype Stored = NothingStored | Unparsable | Saved(snapshot: Snapshot)

  // ---------------------------------------------------------------------------
  // Timer predicates

  /** `needsLocationSwitch()`: not needed only when the last switch was to the
      current region less than an hour ago. */
  function NeedsLocationSwitch(s: State, now: int): (b: bool)
    ensures s.locationSwitch.lastLocationSwitchRegion != s.target.currentRegion ==> b
    ensures now - s.locationSwitch.lastLocationSwitchTime >= LocationSwitchCooldown ==> b
  {
    !(s.locationSwitch.lastLocationSwitchRegion == s.target.currentRegion &&
      now - s.locationSwitch.lastLocationSwitchTime < LocationSwitchCooldown)
  }

  /** `needsTrendHarvest()`: no trends yet, or the last harvest is over 30 minutes old. */
  function NeedsTrendHarvest(s: State, now: int): (b: bool)
    ensures s.trends.currentTrends == [] ==> b
    ensures !b ==> now - s.trends.lastTrendHarvest <= TrendHarvestInterval
  {
    |s.trends.currentTrends| == 0 || now - s.trends.lastTrendHarvest > TrendHarvestInterval
  }

  /** Once a switch is needed, it stays needed while the state does not change. */
  lemma SwitchNeedPersists(s: State, now: int, later: int)
    requires NeedsLocationSwitch(s, now) && now <= later
    ensures NeedsLocationSwitch(s, later)
  {
  }

  /** Once a harvest is due, it stays due while the state does not change. */
  lemma HarvestNeedPersists(s: State, now: int, later: int)
    requires NeedsTrendHarvest(s, now) && now <= later
    ensures NeedsTrendHarvest(s, later)
  {
  }

  // ---------------------------------------------------------------------------
  // Location switch

  /** The step machine of `handleLocationSwitch()`: the new step and the outcome,
      given the step, whether the page is the location settings page, whether the
      search box appeared, whether a target location is known, how many location
      results the page shows and what the server answered about them. The type step
      falls through to the select step in the same call; typing reads
      `STATE.currentLocation.length`, which throws when the location is null. */
  function SwitchStep(step: Step, onSettingsPage: bool, inputFound: bool, hasLocation: bool,
                      resultCount: nat, reply: SelectionReply): (r: (Step, SwitchOutcome))
    // success is exactly the move into DONE
    ensures r.1 == SwitchSuccess <==> r.0 == Done && step != Done
    // otherwise the step stays, moves to TYPE while navigating, or moves from TYPE to SELECT
    ensures r.1 != SwitchSuccess ==>
      r.0 == step || (r.0 == Type && r.1 == SwitchNavigating) || (step == Type && r.0 == Select)
    ensures r.1 == SwitchNavigating <==> !onSettingsPage && step != Done
  {
    if !onSettingsPage && step != Done then (Type, SwitchNavigating)
    else if step == Type then
      if !inputFound then (step, Retry)
      else if !hasLocation then (step, SwitchThrew)
      else SelectStep(resultCount, reply)
    else if step == Select then SelectStep(resultCount, reply)
    else if step == Reload then (Done, SwitchSuccess)
    else (step, Unknown)
  }

  /** The select step: with no results the switch is retried; otherwise an index
      in range completes it and any other answer is NO_MATCH. */
  function SelectStep(resultCount: nat, reply: SelectionReply): (r: (Step, SwitchOutcome))
    ensures r.1 == SwitchSuccess <==> r.0 == Done
    ensures r.1 == SwitchSuccess <==>
      resultCount > 0 && reply.Indexed? && reply.index.Some? && 0 <= reply.index.value < resultCount
    ensures r.1 != SwitchSuccess ==> r.0 == Select
  {
    if resultCount == 0 then (Select, Retry)
    else match reply
      case SelectionFailed => (Select, SwitchThrew)
      case Indexed(index) =>
        if index.Some? && 0 <= index.value < resultCount then (Done, SwitchSuccess) else (Select, NoMatch)
  }

  /** `handleLocationSwitch()` on page `page`, with `inputFound` telling whether the
      search box appeared, `results` the location results the select step finds
      (`Filters.LocationResults` of the page's button texts) and `brain` the
      server's `/select-location` answer: the phase becomes SWITCHING_LOCATION, the
      step moves as `SwitchStep` says, and a success records the time and the
      current region as the last switch. */
  function LocationSwitch(s: State, page: Page, inputFound: bool, results: seq<string>,
                          brain: (Option<string>, seq<string>) -> SelectionReply, now: int): (r: (State, SwitchOutcome))
    ensures r.0.phase == SwitchingLocation
    ensures r.1 == SwitchSuccess <==>
      r.0.locationSwitch.locationSwitchStep == Done && s.locationSwitch.locationSwitchStep != Done
    ensures r.1 == SwitchNavigating <==> page != LocationSettings && s.locationSwitch.locationSwitchStep != Done
  {
    var (step, outcome) := SwitchStep(s.locationSwitch.locationSwitchStep, page == LocationSettings, inputFound,
                                      s.target.currentLocation.Some?, |results|,
                                      brain(s.target.currentLocation, SentOptions(results)));
    (s.(phase := SwitchingLocation,
        locationSwitch := if outcome == SwitchSuccess then SwitchFields(Done, now, s.target.currentRegion)
                          else s.locationSwitch.(locationSwitchStep := step)),
     outcome)
  }

  /** Off the settings page the switch starts by navigating there, moving to TYPE. */
  lemma NavigateMovesToType(step: Step, inputFound: bool, hasLocation: bool, resultCount: nat, reply: SelectionReply)
    requires step != Done
    ensures SwitchStep(step, false, inputFound, hasLocation, resultCount, reply) == (Type, SwitchNavigating)
  {
  }

  /** Once the search box is found and a location is known, TYPE never stays TYPE:
      it reaches SELECT, or DONE when the selection succeeds at once. */
  lemma TypeMovesToSelect(resultCount: nat, reply: SelectionReply)
    ensures var (step, outcome) := SwitchStep(Type, true, true, true, resultCount, reply);
      (step == Select && outcome != SwitchSuccess) || (step == Done && outcome == SwitchSuccess)
  {
  }

  /** In SELECT, with results on the page, an answer without an index in range is
      NO_MATCH and leaves the step at SELECT. */
  lemma OutOfRangeIndexIsNoMatch(resultCount: nat, index: Option<int>)
    requires resultCount > 0
    requires index.None? || index.value < 0 || index.value >= resultCount
    ensures SwitchStep(Select, true, true, true, resultCount, Indexed(index)) == (Select, NoMatch)
  {
  }

  /** The switch writes only the phase and the switch fields: a switch that does
      not succeed keeps the record of the last switch, and one that succeeds moves
      to DONE and records the current region at time `now`. */
  lemma SwitchRecordsOnlySuccess(s: State, page: Page, inputFound: bool, results: seq<string>,
                                 brain: (Option<string>, seq<string>) -> SelectionReply, now: int)
    ensures var (t, outcome) := LocationSwitch(s, page, inputFound, results, brain, now);
      && (outcome == SwitchSuccess ==>
            t.locationSwitch == SwitchFields(Done, now, s.target.currentRegion))
      && (outcome != SwitchSuccess ==>
            && t.locationSwitch.lastLocationSwitchTime == s.locationSwitch.lastLocationSwitchTime
            && t.locationSwitch.lastLocationSwitchRegion == s.locationSwitch.lastLocationSwitchRegion)
      && t == s.(phase := SwitchingLocation, locationSwitch := t.locationSwitch)
  {
  }

  /** The server as written: the index `select_location` computes when the request
      carries a target location (a null target fails the server's validation, and
      the error answer has no index). */
  function HonestBrain(location: Option<string>, options: seq<string>): (r: SelectionReply)
    ensures location.Some? ==> r == Indexed(Some(LocationMatch.Select(location.value, options).index))
    ensures location.None? ==> r == Indexed(None)
  {
    if location.Some? then Indexed(Some(LocationMatch.Select(location.value, options).index)) else Indexed(None)
  }

  /** When the options filter keeps every result, the server as written never
      leaves the switch at NO_MATCH: the client asks only when there are results,
      and the server's index is in range for a non-empty list. */
  lemma {:induction false} HonestIndexIsInRange(s: State, page: Page, inputFound: bool, results: seq<string>, now: int)
    requires s.target.currentLocation.Some? && SentOptions(results) == results
    ensures LocationSwitch(s, page, inputFound, results, HonestBrain, now).1 != NoMatch
  {
    var reply := HonestBrain(s.target.currentLocation, results);
    InRangeIsNeverNoMatch(s.locationSwitch.locationSwitchStep, page == LocationSettings, inputFound, |results|, reply);
  }

  /** An answer whose index is in range, or no results at all, never gives NO_MATCH. */
  lemma InRangeIsNeverNoMatch(step: Step, onSettingsPage: bool, inputFound: bool, resultCount: nat, reply: SelectionReply)
    requires resultCount == 0 || (reply.Indexed? && reply.index.Some? && 0 <= reply.index.value < resultCount)
    ensures SwitchStep(step, onSettingsPage, inputFound, true, resultCount, reply).1 != NoMatch
  {
  }

  /** Against the server as written, with a location set, the switch over the
      results of any page never answers NO_MATCH: the options filter drops none of
      the location results. */
  lemma {:induction false} HonestServerAlwaysMatches(s: State, page: Page, inputFound: bool, buttons: seq<string>,
                                                     now: int)
    requires s.target.currentLocation.Some?
    ensures LocationSwitch(s, page, inputFound, LocationResults(buttons), HonestBrain, now).1 != NoMatch
  {
    OptionsKeepEveryResult(buttons);
    HonestIndexIsInRange(s, page, inputFound, LocationResults(buttons), now);
  }

  /** After a successful switch no switch is needed for the next hour, as long as
      the current region stays the same. */
  lemma {:induction false} SuccessfulSwitchHolds(s: State, page: Page, inputFound: bool, results: seq<string>,
                                                brain: (Option<string>, seq<string>) -> SelectionReply, now: int, later: int)
    requires LocationSwitch(s, page, inputFound, results, brain, now).1 == SwitchSuccess
    requires now <= later < now + LocationSwitchCooldown
    ensures !NeedsLocationSwitch(LocationSwitch(s, page, inputFound, results, brain, now).0, later)
  {
    SwitchRecordsOnlySuccess(s, page, inputFound, results, brain, now);
  }

  // ---------------------------------------------------------------------------
  // Trend harvest

  /** `handleTrendHarvest()`: off the trending tab it navigates there; otherwise the
      first five distinct tags replace the trends and the harvest time is set,
      unless there are none. Sending them to the server may throw afterwards. */
  function TrendHarvest(s: State, page: Page, elements: seq<string>, sendFails: bool, now: int): (r: (State, HarvestOutcome))
    ensures r.0.phase == HarvestingTrends
    ensures r.1 == HarvestNavigating <==> page != TrendingTab
    ensures r.1 == HarvestSuccess || r.1 == HarvestThrew ==>
      r.0.trends.currentTrends != [] && r.0.trends.lastTrendHarvest == now
    ensures r.1 == HarvestNavigating || r.1 == NoTrends ==> r.0.trends == s.trends
  {
    var s := s.(phase := HarvestingTrends);
    if page != TrendingTab then (s, HarvestNavigating)
    else
      var unique := Harvest(elements);
      if unique == [] then (s, NoTrends)
      else (s.(trends := TrendFields(unique, now)), if sendFails then HarvestThrew else HarvestSuccess)
  }

  /** A harvest that found tags leaves at most five distinct hashtags, each a tag
      of the page, and no harvest due for the next 30 minutes; one that found none
      changes nothing but the phase. */
  lemma {:induction false} HarvestSatisfiesTimer(s: State, elements: seq<string>, sendFails: bool, now: int, later: int)
    requires now <= later <= now + TrendHarvestInterval
    ensures var (t, outcome) := TrendHarvest(s, TrendingTab, elements, sendFails, now);
      && (outcome != NoTrends ==>
            && 0 < |t.trends.currentTrends| <= MaxTrends && NoDuplicates(t.trends.currentTrends)
            && (forall tag :: tag in t.trends.currentTrends ==> tag in TrendCandidates(elements) && tag[0] == '#')
            && !NeedsTrendHarvest(t, later))
      && (outcome == NoTrends ==> t == s.(phase := HarvestingTrends))
  {
    var unique := Harvest(elements);
    assert forall tag :: tag in unique ==> tag != [] && tag[0] == '#';
  }

  // ---------------------------------------------------------------------------
  // Keyword rotation

  /** The fallback search keyword: `list[index % list.length]`, where the list is
      the schedule's keywords or, when there are none, `FALLBACK_KEYWORDS`. */
  function FallbackKeyword(keywords: seq<string>, index: nat): (k: string)
    ensures keywords != [] ==> k in keywords && k == keywords[index % |keywords|]
    ensures keywords == [] ==> k in FallbackKeywords
  {
    var list := if keywords == [] then FallbackKeywords else keywords;
    list[index % |list|]
  }

  /** `d * n` is at least `n` for a positive `d`. */
  lemma {:induction false} MulAtLeast(d: nat, n: nat)
    requires d >= 1
    ensures d * n >= n
  {
    if d > 1 {
      MulAtLeast(d - 1, n);
      assert d * n == (d - 1) * n + n;
    }
  }

  /** The remainder is determined by any quotient-remainder decomposition. */
  lemma ModUnique(a: int, n: int, q: int, r: int)
    requires n > 0 && 0 <= r < n && a == q * n + r
    ensures a % n == r
  {
    var q', r' := a / n, a % n;
    assert a == q' * n + r';
    if q > q' {
      MulAtLeast(q - q', n);
    } else if q < q' {
      MulAtLeast(q' - q, n);
    }
  }

  /** Among any `n` consecutive numbers from `start` there is one whose remainder is `k`. */
  lemma WindowIndex(start: nat, n: nat, k: nat) returns (j: nat)
    requires k < n
    ensures start <= j < start + n && j % n == k
  {
    var q, r := start / n, start % n;
    if k >= r {
      j := q * n + k;
      ModUnique(j, n, q, k);
    } else {
      j := (q + 1) * n + k;
      ModUnique(j, n, q + 1, k);
    }
  }

  /** The rotation is cyclic: advancing the index by the list's length gives the same keyword. */
  lemma FallbackIsPeriodic(keywords: seq<string>, index: nat)
    ensures var n := if keywords == [] then |FallbackKeywords| else |keywords|;
      FallbackKeyword(keywords, index + n) == FallbackKeyword(keywords, index)
  {
    var n := if keywords == [] then |FallbackKeywords| else |keywords|;
    ModUnique(index + n, n, index / n + 1, index % n);
  }

  /** Any `|keywords|` consecutive values of the index visit every keyword. */
  lemma FallbackVisitsEveryKeyword(keywords: seq<string>, start: nat, k: nat)
    requires k < |keywords|
    ensures exists j: nat :: start <= j < start + |keywords| && FallbackKeyword(keywords, j) == keywords[k]
  {
    var j := WindowIndex(start, |keywords|, k);
    assert FallbackKeyword(keywords, j) == keywords[k];
  }

  /** The search fields after taking a `/smart-search` answer. */
  function TakeSmart(f: SearchFields, d: SearchData): (g: SearchFields)
    ensures g.currentSearchTerm == d.searchTerm
    ensures g.currentKeywordIndex == f.currentKeywordIndex && g.lastKeywordRotation == f.lastKeywordRotation
  {
    f.(currentSearchTerm := d.searchTerm, currentMovieTitle := d.title, currentMovieYear := d.year,
       currentTMDBId := d.tmdbId)
  }

  /** `handleSearch()` with `smart` the `/smart-search` answer when it carries a
      search term. Off the search page it navigates to the smart term or the
      fallback keyword; on it, once five minutes have passed since the last
      rotation, it navigates to a new smart term or advances the keyword index and
      reloads. Only the search fields change. */
  function Search(s: State, page: Page, smart: Option<SearchData>, now: int): (r: (State, SearchOutcome))
    ensures r.0 == s.(search := r.0.search)
    ensures r.1 == Ready <==> page == SearchPage && now - s.search.lastKeywordRotation <= KeywordRotateInterval
    ensures r.1 == Ready ==> r.0 == s
  {
    if page != SearchPage then
      match smart
      case Some(d) => (s.(search := TakeSmart(s.search, d)), NavigatingTo(d.searchTerm))
      case None => (s, NavigatingTo(FallbackKeyword(s.target.currentKeywords, s.search.currentKeywordIndex)))
    else if now - s.search.lastKeywordRotation > KeywordRotateInterval then
      match smart
      case Some(d) => (s.(search := TakeSmart(s.search, d).(lastKeywordRotation := now)), NavigatingTo(d.searchTerm))
      case None =>
        (s.(search := s.search.(currentKeywordIndex := s.search.currentKeywordIndex + 1, lastKeywordRotation := now)),
         Reloading)
    else (s, Ready)
  }

  /** Without the search service, a rotation advances the keyword index and
      reloads. The reload re-runs the query already in the address, so the page is
      still the search page and, with the timer restarted, the old query is scanned
      again; the next keyword is searched only on the next navigation from another
      page. */
  lemma {:induction false} RotationAdvancesKeyword(s: State, now: int)
    requires now - s.search.lastKeywordRotation > KeywordRotateInterval
    ensures var (t, outcome) := Search(s, SearchPage, None, now);
      && outcome == Reloading
      && Search(t, OtherPage, None, now).1 ==
         NavigatingTo(FallbackKeyword(s.target.currentKeywords, s.search.currentKeywordIndex + 1))
      && Search(t, SearchPage, None, now) == (t, Ready)
  {
  }

  /** A search answer is followed wherever the bot is, and on the search page it
      also restarts the rotation timer. */
  lemma SmartTermIsSearched(s: State, page: Page, d: SearchData, now: int)
    requires page != SearchPage || now - s.search.lastKeywordRotation > KeywordRotateInterval
    ensures var (t, outcome) := Search(s, page, Some(d), now);
      && outcome == NavigatingTo(d.searchTerm) && t.search.currentSearchTerm == d.searchTerm
      && t.search.currentKeywordIndex == s.search.currentKeywordIndex
      && t.search.lastKeywordRotation == (if page == SearchPage then now else s.search.lastKeywordRotation)
      && t == s.(search := t.search)
  {
  }

  // ---------------------------------------------------------------------------
  // Scan and reply

  /** The articles the scan skips after recording their id. */
  predicate Filtered(a: Article)
    requires a.data.Some?
  {
    a.promoted || a.verified || IsBlockedAccount(a.data.value.userHandle) || ContainsIndiaContent(a.data.value.tweetText)
  }

  /** The processed ids and the candidates after screening the articles in order. */
  datatype Screening = Screening(processed: seq<string>, candidates: seq<TweetData>)

  /** One article of the screening loop: an article whose id is new is recorded
      as processed before the filters run, and becomes a candidate if no filter
      rejects it. The processed ids only grow, and stay free of repeats. */
  function ScreenStep(r: Screening, a: Article): (t: Screening)
    ensures r.processed <= t.processed
    ensures NoDuplicates(r.processed) ==> NoDuplicates(t.processed)
  {
    if a.data.None? || a.data.value.tweetId in r.processed then r
    else
      var seen := r.processed + [a.data.value.tweetId];
      if Filtered(a) then Screening(seen, r.candidates)
      else Screening(seen, r.candidates + [a.data.value])
  }

  /** The screening loop of `scanAndReply` over the articles in order. */
  function Screen(processed: seq<string>, articles: seq<Article>): (r: Screening)
    ensures processed <= r.processed
    ensures NoDuplicates(processed) ==> NoDuplicates(r.processed)
  {
    if articles == [] then Screening(processed, [])
    else ScreenStep(Screen(processed, articles[..|articles| - 1]), articles[|articles| - 1])
  }

  /** Screening one more article is one more step. */
  lemma ScreenOfOneMore(processed: seq<string>, articles: seq<Article>, i: nat)
    requires i < |articles|
    ensures Screen(processed, articles[..i + 1]) == ScreenStep(Screen(processed, articles[..i]), articles[i])
  {
    assert articles[..i + 1][..i] == articles[..i];
  }

  /** Every article with data has its id processed. */
  lemma {:induction false} ScreenProcessesEvery(processed: seq<string>, articles: seq<Article>)
    ensures forall a :: a in articles && a.data.Some? ==> a.data.value.tweetId in Screen(processed, articles).processed
  {
    if articles != [] {
      var init := articles[..|articles| - 1];
      ScreenProcessesEvery(processed, init);
      assert forall b :: b in articles <==> b in init || b == articles[|articles| - 1];
    }
  }

  /** Every candidate is an article with a new id that no filter rejects, and its
      id is processed. */
  lemma {:induction false} CandidatesPassFilters(processed: seq<string>, articles: seq<Article>)
    ensures var r := Screen(processed, articles);
      forall c :: c in r.candidates ==>
        && c.tweetId in r.processed && c.tweetId !in processed
        && exists a :: a in articles && a.data == Some(c) && !Filtered(a)
  {
    if articles != [] {
      var init := articles[..|articles| - 1];
      CandidatesPassFilters(processed, init);
      assert forall b :: b in init ==> b in articles;
    }
  }

  /** No two candidates share an id. */
  lemma {:induction false} CandidatesAreDistinct(processed: seq<string>, articles: seq<Article>)
    ensures var r := Screen(processed, articles);
      forall i, j :: 0 <= i < j < |r.candidates| ==> r.candidates[i].tweetId != r.candidates[j].tweetId
  {
    if articles != [] {
      var init := articles[..|articles| - 1];
      var a := articles[|articles| - 1];
      CandidatesAreDistinct(processed, init);
      CandidatesPassFilters(processed, init);
      var r0 := Screen(processed, init);
      if a.data.Some? && a.data.value.tweetId !in r0.processed && !Filtered(a) {
        var cs := r0.candidates + [a.data.value];
        assert forall k :: 0 <= k < |r0.candidates| ==> cs[k] == r0.candidates[k] && cs[k] in r0.candidates;
      }
    }
  }

  /** The screening loop of `scanAndReply`, over the articles in page order. */
  method ScreenArticles(processedTweets: seq<string>, articles: seq<Article>) returns (r: Screening)
    ensures r == Screen(processedTweets, articles)
  {
    var processed := processedTweets;
    var candidates: seq<TweetData> := [];
    for i := 0 to |articles|
      invariant Screen(processedTweets, articles[..i]) == Screening(processed, candidates)
    {
      ScreenOfOneMore(processedTweets, articles, i);
      var data := articles[i].data;
      if data.None? || data.value.tweetId in processed {
        continue;
      }
      processed := processed + [data.value.tweetId];
      if articles[i].promoted || articles[i].verified || IsBlockedAccount(data.value.userHandle)
         || ContainsIndiaContent(data.value.tweetText) {
        continue;
      }
      candidates := candidates + [data.value];
    }
    assert articles[..|articles|] == articles;
    r := Screening(processed, candidates);
  }

  /** The gates after screening, in order: no candidates, the hourly limit, the cooldown. */
  function Gate(candidates: seq<TweetData>, counters: ReplyFields, now: int): (g: Option<ScanOutcome>)
    ensures g == None <==>
      candidates != [] && counters.repliesThisHour < MaxRepliesPerHour && now - counters.lastReplyTime >= ReplyCooldown
    ensures candidates == [] ==> g == Some(NoCandidates)
    ensures candidates != [] && counters.repliesThisHour >= MaxRepliesPerHour ==> g == Some(LimitReached)
    ensures (candidates != [] && counters.repliesThisHour < MaxRepliesPerHour &&
             now - counters.lastReplyTime < ReplyCooldown) ==> g == Some(Cooldown)
  {
    if candidates == [] then Some(NoCandidates)
    else if counters.repliesThisHour >= MaxRepliesPerHour then Some(LimitReached)
    else if now - counters.lastReplyTime < ReplyCooldown then Some(Cooldown)
    else None
  }

  /** The answer leads to a (dry-run) reply: action "REPLY" and a non-empty draft. */
  predicate Approves(reply: AnalysisReply) {
    reply.Analysed? && reply.action == Some("REPLY") && reply.draft.Some? && reply.draft.value != ""
  }

  /** The counters after a reply at time `now`. */
  function Counted(counters: ReplyFields, now: int): (c: ReplyFields)
    ensures c.repliesThisHour == counters.repliesThisHour + 1 && c.repliesToday == counters.repliesToday + 1
    ensures c.lastReplyTime == now && c.hourStartTime == counters.hourStartTime
  {
    counters.(lastReplyTime := now, repliesThisHour := counters.repliesThisHour + 1,
              repliesToday := counters.repliesToday + 1)
  }

  /** `scanAndReply()` over the articles on the page, asking `analyze` about the
      first candidate. The posting branch is off (dry run): an approved reply only
      counts, and records its time. */
  function ScanAndReply(s: State, articles: seq<Article>, analyze: TweetData -> AnalysisReply, now: int): (r: (State, ScanOutcome))
    ensures r.0.phase == if r.1 == DryRun then Replying else Scanning
    ensures s.processedTweets <= r.0.processedTweets
    ensures r.1 == DryRun ==>
      s.replies.repliesThisHour < MaxRepliesPerHour && now - s.replies.lastReplyTime >= ReplyCooldown
  {
    var screening := Screen(s.processedTweets, articles);
    var s := s.(phase := Scanning, processedTweets := screening.processed);
    match Gate(screening.candidates, s.replies, now)
    case Some(outcome) => (s, outcome)
    case None =>
      var reply := analyze(screening.candidates[0]);
      if reply.AnalysisFailed? then (s, ScanThrew)
      else if !Approves(reply) then (s, Skip)
      else (s.(phase := Replying, replies := Counted(s.replies, now)), DryRun)
  }

  /** A scan changes the counters only on a dry-run reply, by exactly one each, and
      then records the reply time; the processed ids only grow, and nothing else changes. */
  lemma {:induction false} ScanCounters(s: State, articles: seq<Article>, analyze: TweetData -> AnalysisReply, now: int)
    ensures var (t, outcome) := ScanAndReply(s, articles, analyze, now);
      && s.processedTweets <= t.processedTweets
      && (outcome == DryRun ==>
            && t.replies.repliesThisHour == s.replies.repliesThisHour + 1
            && t.replies.repliesToday == s.replies.repliesToday + 1 && t.replies.lastReplyTime == now)
      && (outcome != DryRun ==> t.replies == s.replies)
      && t == s.(phase := t.phase, processedTweets := t.processedTweets, replies := t.replies)
  {
  }

  /** The hourly limit holds: a dry-run reply happens only below six, so the count
      never goes past six through scanning. */
  lemma {:induction false} HourlyLimitHolds(s: State, articles: seq<Article>, analyze: TweetData -> AnalysisReply, now: int)
    requires s.replies.repliesThisHour <= MaxRepliesPerHour
    ensures ScanAndReply(s, articles, analyze, now).0.replies.repliesThisHour <= MaxRepliesPerHour
  {
  }

  /** Right after a dry-run reply, every scan within 75 seconds on the same page
      load stops at no candidates, the hourly limit or the cooldown. */
  lemma {:induction false} CooldownFollowsReply(s: State, articles: seq<Article>, analyze: TweetData -> AnalysisReply,
                                                now: int, more: seq<Article>, later: int)
    requires ScanAndReply(s, articles, analyze, now).1 == DryRun
    requires now <= later < now + ReplyCooldown
    ensures var t := ScanAndReply(s, articles, analyze, now).0;
      ScanAndReply(t, more, analyze, later).1 in {NoCandidates, LimitReached, Cooldown}
  {
  }

  /** The cooldown does not survive a page load. `loadState()` never restores the
      last reply time, so after a reload it is the fresh script's zero. A scan on
      the reloaded page passes the cooldown gate once the clock reads 75 seconds or
      more, even while the reply is under 75 seconds old and the same page load
      would still stop at a gate. */
  lemma {:induction false} ReloadForgetsCooldown(s: State, articles: seq<Article>, analyze: TweetData -> AnalysisReply,
                                                 now: int, later: int, candidates: seq<TweetData>)
    requires ScanAndReply(s, articles, analyze, now).1 == DryRun
    requires now <= later <= now + SavedStateMaxAge && later >= ReplyCooldown && candidates != []
    ensures var t := ScanAndReply(s, articles, analyze, now).0;
      var u := Load(Initial(later), Saved(Save(t, now)), later).0;
      && u.replies.lastReplyTime == 0
      && (u.replies.repliesThisHour < MaxRepliesPerHour ==> Gate(candidates, u.replies, later) == None)
      && (later < now + ReplyCooldown ==> Gate(candidates, t.replies, later) != None)
  {
  }

  /** A tweet id already processed is never a candidate again. */
  lemma {:induction false} ProcessedIsNeverCandidate(s: State, articles: seq<Article>, id: string)
    requires id in s.processedTweets
    ensures forall c :: c in Screen(s.processedTweets, articles).candidates ==> c.tweetId != id
  {
    CandidatesPassFilters(s.processedTweets, articles);
  }

  // ---------------------------------------------------------------------------
  // Save and load

  /** `saveState()` at time `now`: every saved field, the last 200 processed ids, the time. */
  function Save(s: State, now: int): (snap: Snapshot)
    ensures snap.processedTweets == TakeLast(s.processedTweets, MaxSavedTweets)
    ensures |snap.processedTweets| <= MaxSavedTweets && snap.timestamp == now
  {
    Snapshot(s.isRunning, s.phase, s.target.currentRegion, s.target.currentLocation, s.target.currentLang,
             s.trends.currentTrends, s.search.currentKeywordIndex,
             s.locationSwitch.lastLocationSwitchTime, s.locationSwitch.lastLocationSwitchRegion,
             s.search.lastKeywordRotation, s.trends.lastTrendHarvest,
             s.replies.repliesThisHour, s.replies.repliesToday, s.replies.lastReplyTime, s.replies.hourStartTime,
             s.search.currentSearchTerm, s.search.currentMovieTitle, s.search.currentMovieYear, s.search.currentTMDBId,
             TakeLast(s.processedTweets, MaxSavedTweets), s.locationSwitch.locationSwitchStep, now)
  }

  /** JavaScript's `saved || current` for a kept value. */
  function OrElse(saved: Value, current: Value): (v: Value)
    ensures v == saved || v == current
    ensures Truthy(saved) ==> v == saved
  {
    if Truthy(saved) then saved else current
  }

  /** The search fields `loadState()` sets: a zero rotation time becomes `now`, and
      the term, title, year and id are taken only when truthy. */
  function LoadedSearch(f: SearchFields, d: Snapshot, now: int): (g: SearchFields)
    ensures g.currentKeywordIndex == d.currentKeywordIndex
    ensures g.lastKeywordRotation == if d.lastKeywordRotation == 0 then now else d.lastKeywordRotation
    ensures g.currentSearchTerm == if d.currentSearchTerm != "" then d.currentSearchTerm else f.currentSearchTerm
  {
    SearchFields(d.currentKeywordIndex, if d.lastKeywordRotation != 0 then d.lastKeywordRotation else now,
                 if d.currentSearchTerm != "" then d.currentSearchTerm else f.currentSearchTerm,
                 OrElse(d.currentMovieTitle, f.currentMovieTitle), OrElse(d.currentMovieYear, f.currentMovieYear),
                 OrElse(d.currentTMDBId, f.currentTMDBId))
  }

  /** The counters `loadState()` sets: the hourly count and window are taken only
      when the window is under an hour old; the day's count and the last reply
      time are never taken. */
  function LoadedReplies(f: ReplyFields, d: Snapshot, now: int): (g: ReplyFields)
    ensures g.repliesToday == f.repliesToday && g.lastReplyTime == f.lastReplyTime
    ensures now - d.hourStartTime < HourWindow ==>
      g.repliesThisHour == d.repliesThisHour && g.hourStartTime == d.hourStartTime
    ensures now - d.hourStartTime >= HourWindow ==> g == f
  {
    if now - d.hourStartTime < HourWindow then f.(repliesThisHour := d.repliesThisHour, hourStartTime := d.hourStartTime)
    else f
  }

  /** `loadState()` at time `now`: nothing is loaded when the key is empty, does
      not parse, or was saved more than five minutes ago. Otherwise the saved
      fields replace the current ones as `LoadedSearch` and `LoadedReplies` say,
      the processed ids are taken without repeats, and the keywords are kept. */
  function Load(s: State, stored: Stored, now: int): (r: (State, bool))
    ensures r.1 <==> stored.Saved? && now - stored.snapshot.timestamp <= SavedStateMaxAge
    ensures !r.1 ==> r.0 == s
    ensures r.1 ==> NoDuplicates(r.0.processedTweets) && r.0.target.currentKeywords == s.target.currentKeywords
  {
    if !stored.Saved? || now - stored.snapshot.timestamp > SavedStateMaxAge then (s, false)
    else
      var d := stored.snapshot;
      (State(d.isRunning, d.phase, s.target.(currentRegion := d.currentRegion, currentLocation := d.currentLocation,
                                              currentLang := d.currentLang),
             TrendFields(d.currentTrends, d.lastTrendHarvest),
             SwitchFields(d.locationSwitchStep, d.lastLocationSwitchTime, d.lastLocationSwitchRegion),
             LoadedSearch(s.search, d, now), LoadedReplies(s.replies, d, now), Distinct(d.processedTweets)),
       true)
  }

  /** The state of a freshly started script: `STATE`'s initial value. */
  function Initial(now: int): (s: State)
    ensures !s.isRunning && s.phase == Idle && s.locationSwitch.locationSwitchStep == Navigate
    ensures s.processedTweets == [] && s.replies == ReplyFields(0, 0, 0, now)
    ensures s.target.currentRegion == None && s.trends.currentTrends == []
  {
    State(false, Idle, TargetFields(None, None, None, []), TrendFields([], 0), SwitchFields(Navigate, 0, None),
          SearchFields(0, 0, "", Null, Null, Null), ReplyFields(0, 0, 0, now), [])
  }

  /** A freshly started script needs both a location switch and a trend harvest. */
  lemma StartNeedsSwitchAndHarvest(now: int, later: int)
    ensures NeedsLocationSwitch(Initial(now), later) <==> later >= LocationSwitchCooldown
    ensures NeedsTrendHarvest(Initial(now), later)
  {
  }

  /** A page load shortly after a save brings back what was saved: the region, the
      step, the trends, the keyword index, the last 200 processed ids in order, and
      the hourly count when its window is still open. The day's count restarts at zero. */
  lemma {:induction false} ReloadRestoresSavedState(s: State, savedAt: int, now: int)
    requires NoDuplicates(s.processedTweets)
    requires savedAt <= now <= savedAt + SavedStateMaxAge
    ensures var (t, loaded) := Load(Initial(now), Saved(Save(s, savedAt)), now);
      && loaded
      && t.isRunning == s.isRunning && t.phase == s.phase && t.locationSwitch == s.locationSwitch
      && t.target.currentRegion == s.target.currentRegion && t.target.currentLocation == s.target.currentLocation
      && t.target.currentLang == s.target.currentLang && t.trends == s.trends
      && t.search.currentKeywordIndex == s.search.currentKeywordIndex
      && t.processedTweets == TakeLast(s.processedTweets, MaxSavedTweets)
      && (s.search.lastKeywordRotation != 0 ==> t.search.lastKeywordRotation == s.search.lastKeywordRotation)
      && (now - s.replies.hourStartTime < HourWindow ==> t.replies.repliesThisHour == s.replies.repliesThisHour)
      && t.replies.repliesToday == 0 && t.target.currentKeywords == []
  {
    TakeLastKeepsDistinct(s.processedTweets, MaxSavedTweets);
    DistinctKeepsDistinct(TakeLast(s.processedTweets, MaxSavedTweets));
  }

  /** A suffix of a sequence without duplicates has none either. */
  lemma TakeLastKeepsDistinct(xs: seq<string>, n: nat)
    requires NoDuplicates(xs)
    ensures NoDuplicates(TakeLast(xs, n))
  {
    var ys := TakeLast(xs, n);
    var off := |xs| - |ys|;
    forall i, j | 0 <= i < j < |ys| ensures ys[i] != ys[j] {
      assert ys[i] == xs[off + i] && ys[j] == xs[off + j];
    }
  }

  /** The hourly count restarts only through a page load: a load that finds the
      saved window an hour old or older keeps the fresh script's zero count and
      its window starting now, while scanning never moves the window. */
  lemma {:induction false} StaleHourWindowRestartsCount(snap: Snapshot, now: int, s: State, articles: seq<Article>,
                                                         analyze: TweetData -> AnalysisReply)
    requires now - snap.timestamp <= SavedStateMaxAge && now - snap.hourStartTime >= HourWindow
    ensures var t := Load(Initial(now), Saved(snap), now).0;
      t.replies.repliesThisHour == 0 && t.replies.hourStartTime == now
    ensures ScanAndReply(s, articles, analyze, now).0.replies.hourStartTime == s.replies.hourStartTime
  {
  }

  /** A saved state older than five minutes is ignored. */
  lemma StaleSaveIsIgnored(s: State, snap: Snapshot, now: int)
    requires now - snap.timestamp > SavedStateMaxAge
    ensures Load(s, Saved(snap), now) == (s, false)
  {
  }

  // ---------------------------------------------------------------------------
  // Schedule and start/stop

  /** `getSchedule()` applied to the server's `/schedule` answer: the target is
      taken over, and the trends only when the server has some. */
  function ApplySchedule(s: State, sched: Brain.ScheduleResponse): (t: State)
    ensures t.target == TargetFields(Some(sched.region), Some(sched.location), Some(sched.langCode), sched.keywords)
    ensures t.trends.currentTrends == if sched.currentTrends != [] then sched.currentTrends else s.trends.currentTrends
    ensures t.trends.lastTrendHarvest == s.trends.lastTrendHarvest
  {
    s.(target := TargetFields(Some(sched.region), Some(sched.location), Some(sched.langCode), sched.keywords),
       trends := if |sched.currentTrends| > 0 then s.trends.(currentTrends := sched.currentTrends) else s.trends)
  }

  /** A new region from the schedule calls for a location switch whatever the timer says. */
  lemma NewRegionNeedsSwitch(s: State, sched: Brain.ScheduleResponse, now: int)
    requires s.locationSwitch.lastLocationSwitchRegion != Some(sched.region)
    ensures NeedsLocationSwitch(ApplySchedule(s, sched), now)
  {
  }

  /** `toggleBot()`: flips running; starting resets the location step to NAVIGATE. */
  function Toggle(s: State): (t: State)
    ensures t.isRunning == !s.isRunning
    ensures t.isRunning ==> t.locationSwitch.locationSwitchStep == Navigate
    ensures !t.isRunning ==> t == s.(isRunning := false)
  {
    if !s.isRunning then s.(isRunning := true, locationSwitch := s.locationSwitch.(locationSwitchStep := Navigate))
    else s.(isRunning := false)
  }

  /** Starting and then stopping leaves the state as it was, except that the
      location step is back at NAVIGATE. */
  lemma StartStop(s: State)
    requires !s.isRunning
    ensures Toggle(Toggle(s)) == s.(locationSwitch := s.locationSwitch.(locationSwitchStep := Navigate))
  {
  }

  // ---------------------------------------------------------------------------
  // The mutable record

  /** `STATE`, updated in place by the handlers; its fields are kept in groups,
      one per handler that sets them. */
  class BotState {
    var isRunning: bool
    var phase: Phase
    var target: TargetFields
    var trends: TrendFields
    var locationSwitch: SwitchFields
    var search: SearchFields
    var replies: ReplyFields
    var processedTweets: seq<string>

    /** The record's value. */
    function View(): State
      reads this
    {
      State(isRunning, phase, target, trends, locationSwitch, search, replies, processedTweets)
    }

    /** The processed ids form a set. */
    ghost predicate Valid()
      reads this
    {
      NoDuplicates(processedTweets)
    }

    /** The initial `STATE` of a script started at `now`. */
    constructor (now: int)
      ensures View() == Initial(now) && Valid()
    {
      isRunning, phase := false, Idle;
      target := TargetFields(None, None, None, []);
      trends := TrendFields([], 0);
      locationSwitch := SwitchFields(Navigate, 0, None);
      search := SearchFields(0, 0, "", Null, Null, Null);
      replies := ReplyFields(0, 0, 0, now);
      processedTweets := [];
    }

    /** `handleLocationSwitch()`, with `results` what `findLocationResults()` returns
        when the select step runs. */
    method HandleLocationSwitch(page: Page, inputFound: bool, results: seq<string>,
                                brain: (Option<string>, seq<string>) -> SelectionReply, now: int)
      returns (outcome: SwitchOutcome)
      requires Valid()
      modifies this
      ensures Valid()
      ensures (View(), outcome) == LocationSwitch(old(View()), page, inputFound, results, brain, now)
    {
      phase := SwitchingLocation;
      if page != LocationSettings && locationSwitch.locationSwitchStep != Done {
        locationSwitch := locationSwitch.(locationSwitchStep := Type);
        return SwitchNavigating;
      }
      if locationSwitch.locationSwitchStep == Type {
        if !inputFound {
          return Retry;
        }
        if target.currentLocation.None? {
          return SwitchThrew;
        }
        locationSwitch := locationSwitch.(locationSwitchStep := Select);
      }
      if locationSwitch.locationSwitchStep == Select {
        if |results| == 0 {
          return Retry;
        }
        var options := SentOptions(results);
        var selection := brain(target.currentLocation, options);
        if selection.SelectionFailed? {
          return SwitchThrew;
        }
        if selection.index.Some? && selection.index.value >= 0 && selection.index.value < |results| {
          locationSwitch := SwitchFields(Done, now, target.currentRegion);
          return SwitchSuccess;
        } else {
          return NoMatch;
        }
      }
      if locationSwitch.locationSwitchStep == Reload {
        locationSwitch := SwitchFields(Done, now, target.currentRegion);
        return SwitchSuccess;
      }
      return Unknown;
    }

    /** `handleTrendHarvest()`, with `sendFails` telling whether `/update-trends` fails. */
    method HandleTrendHarvest(page: Page, elements: seq<string>, sendFails: bool, now: int)
      returns (outcome: HarvestOutcome)
      requires Valid()
      modifies this
      ensures Valid()
      ensures (View(), outcome) == TrendHarvest(old(View()), page, elements, sendFails, now)
    {
      phase := HarvestingTrends;
      if page != TrendingTab {
        return HarvestNavigating;
      }
      var found := CollectTrends(elements);
      var unique := Take(Distinct(found), MaxTrends);
      if |unique| > 0 {
        trends := TrendFields(unique, now);
        return if sendFails then HarvestThrew else HarvestSuccess;
      }
      return NoTrends;
    }

    /** `handleSearch()`. */
    method HandleSearch(page: Page, smart: Option<SearchData>, now: int) returns (outcome: SearchOutcome)
      requires Valid()
      modifies this
      ensures Valid()
      ensures (View(), outcome) == Search(old(View()), page, smart, now)
    {
      if page != SearchPage {
        if smart.Some? {
          var d := smart.value;
          search := search.(currentSearchTerm := d.searchTerm, currentMovieTitle := d.title,
                            currentMovieYear := d.year, currentTMDBId := d.tmdbId);
          return NavigatingTo(d.searchTerm);
        }
        var keywordList := target.currentKeywords;
        if |keywordList| == 0 {
          keywordList := FallbackKeywords;
        }
        var keyword := keywordList[search.currentKeywordIndex % |keywordList|];
        return NavigatingTo(keyword);
      }
      if now - search.lastKeywordRotation > KeywordRotateInterval {
        if smart.Some? {
          var d := smart.value;
          search := search.(currentSearchTerm := d.searchTerm, currentMovieTitle := d.title,
                            currentMovieYear := d.year, currentTMDBId := d.tmdbId, lastKeywordRotation := now);
          return NavigatingTo(d.searchTerm);
        }
        search := search.(currentKeywordIndex := search.currentKeywordIndex + 1, lastKeywordRotation := now);
        return Reloading;
      }
      return Ready;
    }

    /** `scanAndReply()` over the articles on the page, with `analyze` the server's `/analyze` answer. */
    method ScanArticles(articles: seq<Article>, analyze: TweetData -> AnalysisReply, now: int)
      returns (outcome: ScanOutcome)
      requires Valid()
      modifies this
      ensures Valid()
      ensures (View(), outcome) == ScanAndReply(old(View()), articles, analyze, now)
    {
      ghost var before := View();
      phase := Scanning;
      var screening := ScreenArticles(processedTweets, articles);
      processedTweets := screening.processed;
      var candidates := screening.candidates;
      assert View() == before.(phase := Scanning, processedTweets := screening.processed);
      if |candidates| == 0 {
        return NoCandidates;
      }
      if replies.repliesThisHour >= MaxRepliesPerHour {
        return LimitReached;
      }
      if now - replies.lastReplyTime < ReplyCooldown {
        return Cooldown;
      }
      var analysis := analyze(candidates[0]);
      if analysis.AnalysisFailed? {
        return ScanThrew;
      }
      if analysis.action != Some("REPLY") || analysis.draft.None? || analysis.draft.value == "" {
        return Skip;
      }
      phase := Replying;
      replies := replies.(lastReplyTime := now, repliesThisHour := replies.repliesThisHour + 1,
                          repliesToday := replies.repliesToday + 1);
      return DryRun;
    }

    /** The record `saveState()` writes at time `now`. */
    function SaveState(now: int): (snap: Snapshot)
      reads this
      ensures snap == Save(View(), now)
      ensures |snap.processedTweets| <= MaxSavedTweets
    {
      Snapshot(isRunning, phase, target.currentRegion, target.currentLocation, target.currentLang,
               trends.currentTrends, search.currentKeywordIndex,
               locationSwitch.lastLocationSwitchTime, locationSwitch.lastLocationSwitchRegion,
               search.lastKeywordRotation, trends.lastTrendHarvest,
               replies.repliesThisHour, replies.repliesToday, replies.lastReplyTime, replies.hourStartTime,
               search.currentSearchTerm, search.currentMovieTitle, search.currentMovieYear, search.currentTMDBId,
               TakeLast(processedTweets, MaxSavedTweets), locationSwitch.locationSwitchStep, now)
    }

    /** `loadState()` at time `now`. */
    method LoadState(stored: Stored, now: int) returns (loaded: bool)
      requires Valid()
      modifies this
      ensures Valid()
      ensures (View(), loaded) == Load(old(View()), stored, now)
    {
      if !stored.Saved? {
        return false;
      }
      var data := stored.snapshot;
      if now - data.timestamp > SavedStateMaxAge {
        return false;
      }
      isRunning := data.isRunning;
      phase := data.phase;
      target := target.(currentRegion := data.currentRegion, currentLocation := data.currentLocation,
                        currentLang := data.currentLang);
      trends := TrendFields(data.currentTrends, data.lastTrendHarvest);
      locationSwitch := SwitchFields(data.locationSwitchStep, data.lastLocationSwitchTime, data.lastLocationSwitchRegion);
      search := SearchFields(
        data.currentKeywordIndex,
        if data.lastKeywordRotation != 0 then data.lastKeywordRotation else now,
        if data.currentSearchTerm != "" then data.currentSearchTerm else search.currentSearchTerm,
        OrElse(data.currentMovieTitle, search.currentMovieTitle),
        OrElse(data.currentMovieYear, search.currentMovieYear),
        OrElse(data.currentTMDBId, search.currentTMDBId));
      processedTweets := Distinct(data.processedTweets);
      if now - data.hourStartTime < HourWindow {
        replies := replies.(repliesThisHour := data.repliesThisHour, hourStartTime := data.hourStartTime);
      }
      return true;
    }

    /** `getSchedule()` with the server's `/schedule` answer. */
    method GetSchedule(sched: Brain.ScheduleResponse)
      requires Valid()
      modifies this
      ensures Valid()
      ensures View() == ApplySchedule(old(View()), sched)
    {
      target := TargetFields(Some(sched.region), Some(sched.location), Some(sched.langCode), sched.keywords);
      if |sched.currentTrends| > 0 {
        trends := trends.(currentTrends := sched.currentTrends);
      }
    }

    /** `toggleBot()`. */
    method ToggleBot()
      requires Valid()
      modifies this
      ensures Valid()
      ensures View() == Toggle(old(View()))
    {
      isRunning := !isRunning;
      if isRunning {
        locationSwitch := locationSwitch.(locationSwitchStep := Navigate);
      }
    }
  }
}
