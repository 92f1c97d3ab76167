/** The server's request handlers (server.py): `/schedule`, `/analyze`,
    `/log-reply` and `/update-trends` over the store, with the UTC clock in
    seconds as a parameter. `/stats` and `/check-health` are `Stats.GetStats`
    and `Stats.CheckHealth` over the replied table; `/select-location` is
    `LocationMatch.SelectLocation`. */
module Brain {
  import opened Text
  import opened Schedule
  import opened Memory
  import opened Guard
  import opened Llm

  /** The fields of a `/analyze` request. */
  datatype AnalysisRequest = AnalysisRequest(tweetId: string, tweetText: string, userHandle: string,
                                             parentText: Option<string>)

  /** The fields of a `/analyze` response. */
  datatype AnalysisResponse = AnalysisResponse(action: string, reason: string, draft: Option<string>,
                                               language: string, trendInjected: Option<string>)

  /** The fields of a `/schedule` response. */
  datatype ScheduleResponse = ScheduleResponse(region: string, location: string, language: string,
                                               langCode: string, keywords: seq<string>,
                                               currentTrends: seq<string>)

  const ActionKeyError := "KeyError: 'action'"
  const ReasonKeyError := "KeyError: 'reason'"
  const NotSubscriptable := "TypeError: the decision is not a JSON object"
  const InvalidResponse := "ValidationError: TweetAnalysisResponse"

  /** `datetime.utcnow().hour` for a clock reading in seconds since the epoch. */
  function UtcHour(now: int): (h: Hour)
    ensures h == (now % 86400) / 3600
  {
    (now / 3600) % 24
  }

  /** An optional response field read with `result.get(key)`: absent and `null`
      give None, a string gives itself, and any other value fails validation. */
  function OptionalField(f: Field): (r: Result<Option<string>>)
    ensures r.Err? <==> f.NonString?
    ensures f.Str? ==> r == Ok(Some(f.value))
    ensures (f.Missing? || f.Null?) ==> r == Ok(None)
  {
    match f
    case Missing => Ok(None)
    case Null => Ok(None)
    case Str(s) => Ok(Some(s))
    case NonString => Err(InvalidResponse)
  }

  /** The skip reason `log_scanned` receives when the decision's action is "SKIP":
      None when nothing is logged (the action differs, or reading the reason
      raises), `Some(None)` for a NULL reason. */
  function ScanReason(d: Decoded): (r: Option<Option<string>>)
    ensures r.Some? <==> d.Object? && d.decision.action == Str("SKIP") && !d.decision.reason.Missing?
    ensures r.Some? && d.decision.reason.Str? ==> r.value == Some(d.decision.reason.value)
  {
    if d.Object? && d.decision.action == Str("SKIP") && !d.decision.reason.Missing? then
      Some(if d.decision.reason.Str? then Some(d.decision.reason.value) else None)
    else None
  }

  /** The `/analyze` response built from the decision: `result["action"]` and
      `result["reason"]` must exist and, like `draft` and `trend`, pass validation. */
  function Respond(d: Decoded, language: string): (r: Result<AnalysisResponse>)
    ensures r.Ok? <==>
      && d.Object? && d.decision.action.Str? && d.decision.reason.Str?
      && !d.decision.draft.NonString? && !d.decision.trend.NonString?
    ensures r.Ok? ==>
      && r.value.action == d.decision.action.value
      && r.value.reason == d.decision.reason.value
      && r.value.language == language
      && (r.value.draft.Some? <==> d.decision.draft.Str?)
      && (r.value.trendInjected.Some? <==> d.decision.trend.Str?)
    ensures d.NotObject? ==> r == Err(NotSubscriptable)
    ensures d.Object? && d.decision.action.Missing? ==> r == Err(ActionKeyError)
  {
    match d
    case NotObject => Err(NotSubscriptable)
    case Object(dec) =>
      if dec.action.Missing? then Err(ActionKeyError)
      else if dec.reason.Missing? then Err(ReasonKeyError)
      else if !dec.action.Str? || !dec.reason.Str? then Err(InvalidResponse)
      else
        match (OptionalField(dec.draft), OptionalField(dec.trend))
        case (Ok(draft), Ok(trend)) =>
          Ok(AnalysisResponse(dec.action.value, dec.reason.value, draft, language, trend))
        case _ => Err(InvalidResponse)
  }

  /** The prompt `/analyze` hands the generator: the request's texts with the
      current slot's language, region and cached trends. */
  function PromptFor(req: AnalysisRequest, slot: Target, trends: seq<string>): (p: Prompt)
    ensures p.tweetText == req.tweetText && p.parentText == req.parentText
    ensures p.langCode == slot.langCode && p.region == slot.region && p.trends == trends
  {
    Prompt(req.tweetText, slot.langCode, slot.region, trends, req.parentText)
  }

  /** `get_schedule` (`/schedule`): the slot of the current hour and the trends cached for its region. */
  function GetSchedule(store: Store, now: int): (r: ScheduleResponse)
    reads store
    ensures var slot := DailySchedule[UtcHour(now)];
      r.region == slot.region && r.location == slot.location && r.langCode == slot.lang
    ensures r.langCode in LangNames && r.language == LangNames[r.langCode]
    ensures r.langCode in Keywords && r.keywords == Keywords[r.langCode] && r.keywords != []
    ensures r.currentTrends == store.CachedTrends(r.region)
  {
    var t := CurrentSchedule(UtcHour(now));
    ScheduleResponse(t.region, t.location, t.language, t.langCode, t.keywords, store.CachedTrends(t.region))
  }

  /** `analyze_tweet` (`/analyze`) at time `now`. A duplicate, an already scanned
      tweet or an author in cooldown is answered with SKIP and nothing is written.
      Otherwise the generator decides; a SKIP decision with a reason is recorded in
      `scanned_tweets`, and the decision becomes the response (or the handler
      raises, as `Err`). The replied table and the trend cache are never written. */
  method AnalyzeTweet(store: Store, req: AnalysisRequest, now: int, hasClient: bool,
                      llm: Prompt -> CallResult, parse: string -> Result<Decoded>)
    returns (r: Result<AnalysisResponse>)
    modifies store
    ensures store.replied == old(store.replied) && store.trendCache == old(store.trendCache)
    ensures var v := CheckDuplicate(old(store.replied), old(store.scanned), req.tweetId, req.userHandle, now);
      v.skip ==> r == Ok(AnalysisResponse("SKIP", v.reason, None, "", None)) && store.scanned == old(store.scanned)
    ensures var v := CheckDuplicate(old(store.replied), old(store.scanned), req.tweetId, req.userHandle, now);
      var slot := CurrentSchedule(UtcHour(now));
      var d := AnalyzeAndDraft(hasClient, PromptFor(req, slot, old(store.CachedTrends(slot.region))), llm, parse);
      !v.skip ==>
        && r == Respond(d, slot.language)
        && store.scanned == match ScanReason(d)
                            case Some(reason) => old(store.scanned)[req.tweetId := Scan(now, reason)]
                            case None => old(store.scanned)
  {
    var v := CheckDuplicate(store.replied, store.scanned, req.tweetId, req.userHandle, now);
    if v.skip {
      return Ok(AnalysisResponse("SKIP", v.reason, None, "", None));
    }
    var slot := CurrentSchedule(UtcHour(now));
    var trends := store.CachedTrends(slot.region);
    var d := AnalyzeAndDraft(hasClient, PromptFor(req, slot, trends), llm, parse);
    var reason := ScanReason(d);
    if reason.Some? {
      store.LogScanned(req.tweetId, reason.value, now);
    }
    r := Respond(d, slot.language);
  }

  /** `log_successful_reply` (`/log-reply`): the reply is stored under the current
      slot's region and language code; a repeated tweet id raises and stores nothing. */
  method LogSuccessfulReply(store: Store, tweetId: string, userHandle: string, replyText: string, now: int)
    returns (r: Outcome)
    modifies store
    ensures var slot := CurrentSchedule(UtcHour(now));
      tweetId !in old(store.replied) ==>
        r == Pass && store.replied == old(store.replied)[tweetId := Reply(userHandle, now, slot.region, slot.langCode, replyText)]
    ensures tweetId in old(store.replied) ==> r == Fail(DuplicateReplyError) && store.replied == old(store.replied)
    ensures store.scanned == old(store.scanned) && store.trendCache == old(store.trendCache)
  {
    var slot := CurrentSchedule(UtcHour(now));
    r := store.LogReply(tweetId, userHandle, slot.region, slot.langCode, replyText, now);
  }

  /** `update_trends` (`/update-trends`): the region's cached trends are replaced;
      the answer reports how many were stored. */
  method UpdateTrends(store: Store, region: string, trends: seq<string>, now: int) returns (count: nat)
    modifies store
    ensures count == |trends|
    ensures store.trendCache == old(store.trendCache)[region := TrendEntry(trends, now)]
    ensures store.replied == old(store.replied) && store.scanned == old(store.scanned)
  {
    store.UpdateTrendCache(region, trends, now);
    count := |trends|;
  }

  // ---------------------------------------------------------------------------
  // Properties across handlers

  /** A tweet whose analysis was recorded as a SKIP is refused by the next
      `/analyze` call at any later time, for every author. */
  lemma RecordedSkipIsRefused(replied: RepliedTable, scanned: ScannedTable, tweetId: string, row: Scan,
                              userHandle: string, now: int)
    ensures CheckDuplicate(replied, scanned[tweetId := row], tweetId, userHandle, now).skip
  {
  }

  /** After a reply to it is logged, a tweet is always answered with
      "Already replied to this tweet", whatever the generator would say. */
  lemma {:induction false} LoggedReplyIsNeverAnalysedAgain(replied: RepliedTable, scanned: ScannedTable,
                                                           tweetId: string, row: Reply, userHandle: string, now: int)
    ensures CheckDuplicate(replied[tweetId := row], scanned, tweetId, userHandle, now)
         == Verdict(true, AlreadyReplied)
  {
    LoggedReplyIsRefused(replied, scanned, tweetId, row, userHandle, now);
  }

  /** Without an API key, a fresh tweet is answered REPLY with the mock draft and the
      region's first cached trend, and nothing is recorded as scanned. */
  lemma MockRepliesWithFirstTrend(slot: Target, req: AnalysisRequest, trends: seq<string>,
                                  llm: Prompt -> CallResult, parse: string -> Result<Decoded>)
    ensures var d := AnalyzeAndDraft(false, PromptFor(req, slot, trends), llm, parse);
      && ScanReason(d) == None
      && Respond(d, slot.language).Ok?
      && Respond(d, slot.language).value.action == "REPLY"
      && Respond(d, slot.language).value.draft == Some(MockDraft)
      && Respond(d, slot.language).value.trendInjected == (if trends == [] then None else Some(trends[0]))
  {
  }

  /** With an API key, a failing generator call yields a SKIP response whose reason
      is the error, in the slot's language, and that reason is recorded as scanned. */
  lemma RaisedCallIsRecordedSkip(slot: Target, req: AnalysisRequest, trends: seq<string>,
                                 llm: Prompt -> CallResult, parse: string -> Result<Decoded>)
    requires llm(PromptFor(req, slot, trends)).Raised?
    ensures var msg := llm(PromptFor(req, slot, trends)).message;
      var d := AnalyzeAndDraft(true, PromptFor(req, slot, trends), llm, parse);
      && ScanReason(d) == Some(Some(ErrorPrefix + msg))
      && Respond(d, slot.language) == Ok(AnalysisResponse("SKIP", ErrorPrefix + msg, None, slot.language, None))
  {
  }

  /** A decoded SKIP whose reason is `null` is recorded (with a NULL reason) even
      though the handler then fails to build its response. */
  lemma NullReasonIsRecordedThenFails(d: Decoded, language: string)
    requires d.Object? && d.decision.action == Str("SKIP") && d.decision.reason == Null
    ensures ScanReason(d) == Some(None)
    ensures Respond(d, language).Err?
  {
  }
}
