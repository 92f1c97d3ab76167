# XBot core in Dafny

XBot is a reply bot in two parts:

- **The server** (`server.py`, the "brain") is a small HTTP service over SQLite. Its jobs:
  - It holds a 24-hour rotation of target regions and languages.
  - It refuses tweets it has already seen, and authors who have had two replies in the last 24 hours.
  - It asks a language model for a decision and a draft reply, and post-processes the answer defensively.
  - It logs replies, scans and harvested trends.
  - It reports statistics and a health status.
  - It scores the location options the client found against the target location.
- **The client** (`xbot_client.js`) is a userscript that runs in the browser. It keeps one `STATE` record and drives a handler for each phase:
  - switching the account's explore location (NAVIGATE → TYPE → SELECT → DONE);
  - harvesting trending hashtags;
  - rotating the search keyword;
  - screening the tweets on the page and gating a reply on an hourly limit and a cooldown.

  The record is saved to storage before every navigation and loaded back on the next page load.

The model has one module per concern. The server's pure logic is datatypes and functions. Its database is a `class` whose tables are `map` fields that the logging methods reassign. The client's `STATE` is a `class` (`Bot.BotState`) whose methods update its fields in place. Each method is proved equal to a function on the record's value (`View()`), and the properties are proved as lemmas about those functions.

| module | file | models |
|---|---|---|
| `Text` | text.dfy | lowering, substring search, Python and JavaScript whitespace, strip/trim, splitting, code fences |
| `Schedule` | schedule.dfy | the daily rotation table, the keyword and language-name tables, `get_current_schedule` |
| `Memory` | store.dfy | the replied, scanned and trend-cache tables and their writers; timestamps written out as text |
| `Guard` | guard.dfy | `check_duplicate`, both as intended and with its query as written |
| `Stats` | stats.dfy | `get_stats` and `/check-health` |
| `Llm` | llm.dfy | `analyze_and_draft`: the mock, fence removal, the fail-closed SKIP |
| `Brain` | brain.dfy | the `/schedule`, `/analyze`, `/log-reply` and `/update-trends` handlers |
| `LocationMatch` | location_match.dfy | `/select-location` scoring and the best-match loop |
| `Filters` | client_filters.dfy | blocked accounts, off-target keywords, location-result filter, trend-line normalisation, de-duplication |
| `Bot` | client_state.dfy | `STATE`, the phase handlers, scan-and-reply, save/load, schedule and start/stop |

Inputs that come from outside the code are parameters. These are:

- the clock: seconds on the server, milliseconds `Date.now()` on the client;
- the language-model call and `json.loads`;
- the texts read from the DOM;
- the page the browser is on;
- the server's answers as the client receives them.

## Model

| member | source | states |
|---|---|---|
| Text.Contains | server.py:645 | the search answers true exactly when the substring occurs somewhere in the string |
| Text.Lower | server.py:634 | lowering keeps the length and lowers each ASCII capital, leaving every other character as it is |
| Text.Strip | server.py:366 | `strip()` gives a text no longer than the input that neither starts nor ends with Python whitespace |
| Text.Trim | xbot_client.js:512 | `trim()` gives a text no longer than the input that neither starts nor ends with JavaScript whitespace |
| Text.Utf16Length | xbot_client.js:514-517 | JavaScript's `.length` lies between the number of characters and twice it |
| Text.Utf16LengthOfBmp | xbot_client.js:514-517 | a text within the Basic Multilingual Plane has one code unit per character |
| Text.Utf16LengthOfConcat | xbot_client.js:517 | code units add up over concatenation |
| Text.Words | server.py:635 | `split()` yields non-empty parts that contain no whitespace |
| Text.WordsAreSpaced | server.py:635 | every text is its `split()` parts, in order, with runs of whitespace around them and a non-empty run between two parts |
| Text.SpacedWords | server.py:635 | conversely, splitting non-empty whitespace-free words laid out with whitespace gives exactly those words back |
| Text.FirstWord | server.py:635 | after leading whitespace, the first part is the run up to the next whitespace |
| Text.NoWords | server.py:635 | a text of whitespace only has no parts |
| Text.TrimmedIsInnerSlice | xbot_client.js:512 | trimming removes only whitespace, and only at the two ends; the result is the inner slice and does not start with whitespace |
| Text.SplitOnJoin | xbot_client.js:510 | splitting at line feeds loses nothing: joining the parts with the separator gives the text back |
| Text.UpToFence | server.py:371 | the first element after `split("```")` is a prefix of the text that contains no fence, and it stops at the first fence |
| Schedule.TableIsWellFormed | server.py:44-154 | the rotation has 24 slots in hour order, and every slot's language has a name and a non-empty keyword list |
| Schedule.CurrentSchedule | server.py:391-404 | the slot of the hour with its region, location and language code; the "English" fallbacks never fire |
| Memory.Store.constructor | server.py:160-196 | a fresh database starts with every table empty |
| Memory.Store.LogReply | server.py:433-441 | a new tweet id is stored with its row and the table grows by one; a repeated id fails on the primary key and changes nothing; other tables are untouched |
| Memory.Store.LogScanned | server.py:443-451 | INSERT OR IGNORE: the first skip reason for an id is kept, and a second log changes nothing |
| Memory.Store.CachedTrends | server.py:453-461 | the list last stored for the region, or the empty list |
| Memory.Store.UpdateTrendCache | server.py:463-471 | INSERT OR REPLACE: the region's trends become the new list and every other region keeps its entry |
| Memory.InsertOrIgnore | server.py:448 | an existing key keeps its row; a new key gets the given row; other keys are unchanged |
| Memory.InsertOrIgnoreIdempotent | server.py:448 | inserting the same key a second time changes nothing, whatever the second row |
| Memory.AsText | server.py:170 | a timestamp written out as text decomposes into a day and a second of that day, with its separator |
| Memory.StoredAfter | server.py:422-425 | a stamp the text comparison keeps is later than the cutoff |
| Memory.StoredAfterComparesDays | server.py:422-425 | comparing a stored CURRENT_TIMESTAMP with an isoformat() cutoff as text sees only the dates |
| Guard.RecentReplies | server.py:421-427 | an id is counted exactly when it is a reply to the author stamped after the cutoff |
| Guard.CheckDuplicate | server.py:406-431 | first match wins: already replied, then already scanned, then cooldown at two recent replies; a skip always has a reason |
| Guard.RecentRepliesAfterInsert | server.py:421-427 | a new reply adds one to its author's recent count when it is recent, and changes no other count |
| Guard.LoggedReplyIsRefused | server.py:411-414 | a tweet once logged as replied is refused for every author and at every time |
| Guard.OneRecentReplyKeepsAuthorEligible | server.py:421-431 | an author with no recent reply is still eligible after one |
| Guard.SecondRecentReplyStartsCooldown | server.py:421-429 | an author with one recent reply is in cooldown after a second |
| Guard.StaleReplyDoesNotCount | server.py:421-427 | replies older than 24 hours never count towards the cooldown |
| Guard.RecentRepliesAsWritten | server.py:422-426 | the query as written selects only replies already logged |
| Guard.CheckDuplicateAsWritten | server.py:406-431 | with the query as written, the replied and scanned checks still come first |
| Guard.AsWrittenWindowIsToday | server.py:422-426 | as written, the window holds exactly the author's replies stamped on the current UTC day or later |
| Guard.LateRepliesEscapeCooldown | server.py:421-429 | two replies at 23:50 and 23:55 leave the author eligible at 00:10 as written; the intended check refuses the author |
| Stats.DayStart | server.py:483 | midnight of the day `now` falls in: a multiple of a day, at most `now`, less than a day before it |
| Stats.AuthorsAtMostReplies | server.py:488-489 | there are never more distinct authors than replies, and some reply means some author |
| Stats.RepliedToday | server.py:483-485 | the replies counted today are among the stored replies |
| Stats.GetStats | server.py:473-500 | the total is the table's size; the distinct authors are the handles of the stored replies, at most the total and none exactly when there are no replies; the day's count is the number of replies stamped after UTC midnight, at most the total; the language groups are exactly the languages seen, each counting the replies in that language, 1 to total |
| Stats.LoggedReplyCountsToday | server.py:479-485 | logging a reply after midnight adds one to the day's count and one to the total |
| Stats.LoggedEarlierReplyKeepsToday | server.py:479-485 | logging a reply stamped at or before midnight adds one to the total and leaves the day's count unchanged |
| Stats.LoggedReplyAddsAuthor | server.py:488-489 | a logged reply adds one distinct author exactly when no stored reply went to the same handle, and none otherwise |
| Stats.LoggedReplyJoinsLanguage | server.py:492-493 | logging a reply adds one to its language's group, or opens a group of one |
| Stats.HealthOf | server.py:616-625 | a warning, and status WARNING, exactly when the day's count reaches 150; HEALTHY otherwise |
| Stats.CheckHealth | server.py:610-625 | the health answer reports the statistics, and it warns exactly when 150 replies are stamped after midnight |
| Stats.RepliesTodayAsWritten | server.py:483-485 | the day's count as written is at most the total |
| Stats.GetStatsAsWritten | server.py:473-500 | `get_stats` with the day's query as written |
| Stats.HealthNeverWarnsAsWritten | server.py:483-485 | as written, no reply stamped up to now counts as today's, so the health check always answers HEALTHY |
| Llm.MockDecision | server.py:271-278 | without an API key the decision is REPLY with the mock draft and the first cached trend, or null when there are none |
| Llm.ErrorDecision | server.py:378-385 | any exception becomes a SKIP whose reason is "LLM error: " plus the message, with no draft and no trend |
| Llm.Unfenced | server.py:370-373 | text without a leading fence is decoded as it is; a fenced reply is cut to a shorter text that contains no fence |
| Llm.NoFenceInPrefix | server.py:371 | the part before the first fence contains no fence |
| Llm.UpToFenceStopsAtFence | server.py:371 | the cut stops exactly at the first fence after fence-free text |
| Llm.FencedBodyIsExtracted | server.py:370-375 | a fenced body, with or without a "json" tag, is extracted exactly, whatever follows the closing fence |
| Llm.AnalyzeAndDraft | server.py:366-385 | the mock without a client; otherwise the decoded JSON of the stripped, unfenced content; a raising call or decoding gives a SKIP without a draft |
| Brain.UtcHour | server.py:393-394 | the UTC hour is the second of the day divided by 3600 |
| Brain.OptionalField | server.py:576-578 | `result.get(key)` validates as absent or null → None, a string → itself, anything else → a validation error |
| Brain.ScanReason | server.py:570-571 | a scan is logged exactly when the decision is an object with action "SKIP" and a reason key; a string reason is logged as given |
| Brain.Respond | server.py:573-579 | the response builds exactly when action and reason are strings and draft and trend validate; it carries the decision's action and reason in the slot's language; a non-object or missing action raises |
| Brain.PromptFor | server.py:561-567 | the generator gets the request's texts, the slot's language code and region, and the cached trends |
| Brain.GetSchedule | server.py:526-539 | the slot of the UTC hour, its language name and keyword list, and the trends cached for its region |
| Brain.AnalyzeTweet | server.py:541-579 | a duplicate, an already scanned tweet or an author in cooldown gets SKIP with the reason and writes nothing; otherwise the decision becomes the response and a SKIP with a reason is logged as scanned; replies and trends are never written |
| Brain.LogSuccessfulReply | server.py:586-597 | the reply is stored under the current slot's region and language code; a repeated id fails and stores nothing |
| Brain.UpdateTrends | server.py:599-603 | the region's cached trends are replaced and the count reported is the list's length |
| Brain.RecordedSkipIsRefused | server.py:416-419 | a tweet recorded as scanned is refused by every later `/analyze` |
| Brain.LoggedReplyIsNeverAnalysedAgain | server.py:411-414 | after a reply to it is logged, a tweet is always answered "Already replied to this tweet" |
| Brain.MockRepliesWithFirstTrend | server.py:271-278 | without an API key a fresh tweet is answered REPLY with the mock draft and the first trend, and no scan is logged |
| Brain.RaisedCallIsRecordedSkip | server.py:378-385 | a failing generator call yields a SKIP response with the error as reason, and the error is logged as the scan's reason |
| Brain.NullReasonIsRecordedThenFails | server.py:570-579 | a SKIP with a null reason is logged as scanned and then the response fails validation |
| LocationMatch.PartsContained | server.py:649-651 | the number of parts that occur is at most the number of parts |
| LocationMatch.NoPartContained | server.py:649-651 | no part scores exactly when no part occurs in the option |
| LocationMatch.LengthBonus | server.py:653-655 | the bonus is between 0 and 10: 10 for options shorter than 5, 0 from 50 characters |
| LocationMatch.Score | server.py:641-655 | a score is 0 or at least 2, and at most 20 plus 2 per part |
| LocationMatch.ScoreMeaning | server.py:641-655 | an option scores 0 exactly when neither the target nor any part occurs in it; any match scores at least 2 plus the bonus, and a whole-target match at least 10 plus the bonus |
| LocationMatch.ScoresAt | server.py:640-655 | entry `j` of the score list is the score of option `j` |
| LocationMatch.BestMatchIsUnique | server.py:657-659 | at most one index is the lowest index of the greatest positive score |
| LocationMatch.BestOf | server.py:637-659 | the running best is -1 with score 0 when nothing scored; otherwise it is the lowest index of the greatest positive score, with that score |
| LocationMatch.BestOfOneMore | server.py:657-659 | a later option replaces the best only with a strictly greater score |
| LocationMatch.Select | server.py:661-672 | the index is never negative, and it is in range whenever there are options |
| LocationMatch.SelectPicksBestMatch | server.py:632-672 | when something scores, the answer is the best match, its text and its score; otherwise index 0, the first option or None, and confidence 0 |
| LocationMatch.PartPoints | server.py:649-651 | the inner loop gives 2 points per part that occurs |
| LocationMatch.ScoreOption | server.py:641-655 | the loop body computes the option's score |
| LocationMatch.SelectLocation | server.py:632-672 | the handler's loops compute the selection above |
| Filters.IsBlockedAccount | xbot_client.js:235-239 | a handle is blocked exactly when some blocked name occurs in it, in any case |
| Filters.ContainsIndiaContent | xbot_client.js:241-244 | a text is off-target exactly when some keyword occurs in it, in any case |
| Filters.HandleWithXIsBlocked | xbot_client.js:42-46 | because "x" is a blocked name, every handle containing x or X is blocked |
| Filters.BlockingIgnoresCase | xbot_client.js:235-239 | a handle is blocked exactly when its lowered form is: the test is case-insensitive |
| Filters.IsLocationText | xbot_client.js:338-367 | an accepted text has 3 to 50 characters, all within the Basic Multilingual Plane (so as many UTF-16 code units), and starts with a capital A-Z; every character is an ASCII letter, JavaScript whitespace, a comma, an apostrophe or a hyphen |
| Filters.LocationResults | xbot_client.js:330-380 | at most one result per button |
| Filters.ResultsAreAcceptedTexts | xbot_client.js:337-371 | the results are exactly the trimmed button texts that pass every filter |
| Filters.FindLocationResults | xbot_client.js:330-380 | the push loop computes the results in page order |
| Filters.SentOptions | xbot_client.js:438-440 | a text is sent exactly when it is a result of 1 to 99 UTF-16 code units, and no more options are sent than there are results |
| Filters.SentOptionsOfConcat | xbot_client.js:438-440 | the filter keeps the results' order: filtering a concatenation is concatenating the filtered parts |
| Filters.OptionsKeepEveryResult | xbot_client.js:438-447 | the options filter drops no result, so the server's index refers to the list the client clicks from |
| Filters.NonAsciiPlaceIsRejected | xbot_client.js:367 | the 04:00 slot's "São Paulo" is never accepted as a location result |
| Filters.SkipWordInsidePlaceIsRejected | xbot_client.js:359-363 | a place whose name contains a skip word, such as "Baltimore", is never accepted |
| Filters.TrendTag | xbot_client.js:512-517 | a tag is a hashtag of 2 to 51 UTF-16 code units |
| Filters.TrendTagMeaning | xbot_client.js:512-517 | which lines give a tag and which tag, lengths counted in UTF-16 code units: the trimmed line itself when it starts with '#', '#' before a single word of more than 2 units, and nothing for dropped lines |
| Filters.TwoEmojiWordBecomesTag | xbot_client.js:514-517 | a word of two emoji is four code units long and becomes a hashtag |
| Filters.LineTags | xbot_client.js:511-518 | one line gives at most one tag, and every tag starts with '#' |
| Filters.TrendCandidates | xbot_client.js:506-519 | every collected candidate starts with '#' |
| Filters.PushLineTags | xbot_client.js:509-519 | the callback appends the tags of the element's lines, in order |
| Filters.LineTagsOfOneMore | xbot_client.js:511-518 | one more line adds its tag, if it has one |
| Filters.CollectTrends | xbot_client.js:506-519 | the `forEach` collects the tags of every element, element by element |
| Filters.Distinct | xbot_client.js:521 | `[...new Set(xs)]` has the same values, with no repeats, and is no longer |
| Filters.DistinctKeepsDistinct | xbot_client.js:216 | a list without repeats comes back unchanged, in the same order |
| Filters.FirstIndex | xbot_client.js:521 | the position of a value's first occurrence |
| Filters.FirstIndexInPrefix | xbot_client.js:521 | a value's first occurrence is the same in any prefix that holds it |
| Filters.DistinctKeepsFirstOrder | xbot_client.js:521 | `[...new Set(xs)]` lists the values in the order of their first occurrence |
| Filters.DistinctStartsWithFirst | xbot_client.js:521 | the first value of a non-empty list leads its distinct values |
| Filters.TakeLast | xbot_client.js:183 | `slice(-200)` keeps the last 200 values, or all of them when there are fewer |
| Filters.Harvest | xbot_client.js:521 | a harvest keeps at most five distinct tags, each a tag found on the page |
| Filters.HarvestIsFirstFive | xbot_client.js:521 | the kept tags are in order of first occurrence, and a tag is left out only when five tags first seen before it were kept |
| Filters.HarvestKeepsFewTags | xbot_client.js:521 | every tag found is kept while there are at most five distinct ones |
| Bot.NeedsLocationSwitch | xbot_client.js:319-328 | a switch is needed whenever the last switch went to another region or is an hour old |
| Bot.NeedsTrendHarvest | xbot_client.js:487-491 | a harvest is due whenever there are no trends, and not due only within 30 minutes of the last one |
| Bot.SwitchNeedPersists | xbot_client.js:319-328 | once a location switch is needed, it stays needed while the record does not change |
| Bot.HarvestNeedPersists | xbot_client.js:487-491 | once a harvest is due, it stays due while the record does not change |
| Bot.SwitchStep | xbot_client.js:386-480 | success is exactly the move into DONE; otherwise the step stays, moves to TYPE while navigating, or moves from TYPE to SELECT; navigating happens exactly off the settings page before DONE |
| Bot.SelectStep | xbot_client.js:427-467 | the select step succeeds exactly when there are results and the answer's index is in range; otherwise it stays at SELECT |
| Bot.NavigateMovesToType | xbot_client.js:387-393 | off the settings page, before DONE, the switch navigates and moves to TYPE |
| Bot.TypeMovesToSelect | xbot_client.js:396-424 | once the input is found and a location is known, TYPE reaches SELECT or DONE |
| Bot.OutOfRangeIndexIsNoMatch | xbot_client.js:447-466 | with results on the page, an answer without an index in range is NO_MATCH at SELECT |
| Bot.LocationSwitch | xbot_client.js:382-481 | the handler sets the phase SWITCHING_LOCATION; it succeeds exactly when it moves the step into DONE, and navigates exactly when it is off the settings page with the step not yet DONE |
| Bot.SwitchRecordsOnlySuccess | xbot_client.js:382-481 | the switch writes only the phase and the switch fields; only a success records the time and region of the switch |
| Bot.HonestBrain | server.py:627-672 | the server answers with the index `select_location` computes, and a null target gets no index |
| Bot.HonestIndexIsInRange | xbot_client.js:430-466 | when the options keep every result, the server never leaves the switch at NO_MATCH |
| Bot.InRangeIsNeverNoMatch | xbot_client.js:432-466 | an index in range, or no results at all, never gives NO_MATCH |
| Bot.HonestServerAlwaysMatches | xbot_client.js:430-466 | with a location set, the real server never answers the switch with NO_MATCH, whatever buttons the page shows |
| Bot.SuccessfulSwitchHolds | xbot_client.js:319-328 | after a successful switch no switch is needed for an hour while the region stays the same |
| Bot.TrendHarvest | xbot_client.js:493-532 | the handler sets the phase HARVESTING_TRENDS and navigates exactly when off the trending tab; a success or a failed send stores a non-empty trend list stamped now; otherwise the trends stay |
| Bot.HarvestSatisfiesTimer | xbot_client.js:493-532 | a harvest that finds tags keeps 1 to 5 distinct page hashtags, and no harvest is due for 30 minutes; one that finds none changes only the phase |
| Bot.FallbackKeyword | xbot_client.js:561-567 | the fallback keyword comes from the schedule's keywords at the index modulo their number, or from the fallback list when there are none |
| Bot.FallbackIsPeriodic | xbot_client.js:567 | advancing the index by the list's length gives the same keyword |
| Bot.FallbackVisitsEveryKeyword | xbot_client.js:567 | any run of consecutive indices as long as the list visits every keyword |
| Bot.TakeSmart | xbot_client.js:544-548 | taking a search answer sets the search term and keeps the keyword index and the rotation time |
| Bot.Search | xbot_client.js:538-606 | the handler changes only the search fields, and it answers ready, changing nothing, exactly on the search page within five minutes of the last rotation |
| Bot.RotationAdvancesKeyword | xbot_client.js:575-602 | without the search service, a rotation advances the keyword index and answers RELOADING; the reload re-runs the current query, so on the search page the bot is READY again and the old query is scanned; the next keyword (cyclically) is searched only on the next navigation from another page |
| Bot.SmartTermIsSearched | xbot_client.js:538-592 | a search answer is followed wherever the bot is, and on the search page it also restarts the rotation timer; only the search fields change |
| Bot.ScreenStep | xbot_client.js:619-625 | one article only adds to the processed ids, and it adds no repeat |
| Bot.Screen | xbot_client.js:618-626 | screening only adds to the processed ids, and it adds no repeat |
| Bot.ScreenOfOneMore | xbot_client.js:618-626 | screening one more article is one more step |
| Bot.ScreenProcessesEvery | xbot_client.js:620-622 | every article whose data was read ends up among the processed ids |
| Bot.CandidatesPassFilters | xbot_client.js:620-625 | every candidate has a new, now processed id and comes from an article that no filter rejects |
| Bot.CandidatesAreDistinct | xbot_client.js:618-626 | no two candidates share an id |
| Bot.ScreenArticles | xbot_client.js:615-626 | the screening loop computes the screening above |
| Bot.Gate | xbot_client.js:629-632 | a reply goes ahead exactly when there are candidates, fewer than six replies this hour and 75 seconds since the last reply; otherwise the outcome is NO_CANDIDATES without candidates, else LIMIT_REACHED at six, else COOLDOWN |
| Bot.Counted | xbot_client.js:646-652 | a dry-run reply adds one to the hourly and daily counts, records its time and keeps the hour window |
| Bot.ScanAndReply | xbot_client.js:608-656 | the phase ends as REPLYING after a dry-run reply and as SCANNING otherwise; the processed ids only grow; a reply happens only below six replies this hour and 75 seconds after the last one |
| Bot.ScanCounters | xbot_client.js:608-656 | a scan changes the counters only on a dry-run reply, by one each; the processed ids only grow; nothing else changes |
| Bot.HourlyLimitHolds | xbot_client.js:631 | scanning never takes the hourly count past six |
| Bot.CooldownFollowsReply | xbot_client.js:632 | within 75 seconds of a dry-run reply, with no page load in between, every scan stops at a gate |
| Bot.ReloadForgetsCooldown | xbot_client.js:190-229 | after a dry-run reply, a save and a reload, the last reply time is zero, so a scan passes the cooldown gate (below the hourly limit) while the reply is under 75 seconds old and the same page load would stop at a gate |
| Bot.ProcessedIsNeverCandidate | xbot_client.js:620 | a processed tweet id is never a candidate again |
| Bot.Save | xbot_client.js:159-188 | the record keeps the last 200 processed ids and the save time |
| Bot.OrElse | xbot_client.js:211-214 | `saved` is taken when truthy; otherwise the current value is kept |
| Bot.LoadedSearch | xbot_client.js:204-214 | the keyword index is taken; a zero rotation time becomes now; the term is taken only when non-empty |
| Bot.LoadedReplies | xbot_client.js:219-222 | the hourly count and window are taken only when the window is under an hour old; the day's count and last reply time never are |
| Bot.Load | xbot_client.js:190-229 | a record loads exactly when one is stored, parses and is at most five minutes old; otherwise nothing changes; a loaded record has no repeated processed ids and keeps the current keywords |
| Bot.Initial | xbot_client.js:85-113 | a fresh script is stopped and idle, at NAVIGATE, with no processed ids, zero counters and an hour window starting now |
| Bot.StartNeedsSwitchAndHarvest | xbot_client.js:319-328 | a fresh script needs a trend harvest, and a location switch once the clock is past an hour |
| Bot.ReloadRestoresSavedState | xbot_client.js:159-229 | a page load within five minutes of a save brings back the saved fields and the last 200 processed ids in order; the day's count restarts at zero |
| Bot.TakeLastKeepsDistinct | xbot_client.js:183 | a suffix of a list without repeats has none |
| Bot.StaleHourWindowRestartsCount | xbot_client.js:219-222 | a load that finds the hour window stale keeps a zero count and a window starting now; scanning never moves the window |
| Bot.StaleSaveIsIgnored | xbot_client.js:196 | a save older than five minutes is ignored |
| Bot.ApplySchedule | xbot_client.js:277-285 | the target is taken from the schedule, and the trends only when the server has some |
| Bot.NewRegionNeedsSwitch | xbot_client.js:319-328 | a new region from the schedule calls for a location switch whatever the timer says |
| Bot.Toggle | xbot_client.js:770-777 | toggling flips running; starting resets the location step to NAVIGATE, and stopping changes nothing else |
| Bot.StartStop | xbot_client.js:770-777 | starting and then stopping leaves the record as it was, except that the step is back at NAVIGATE |
| Bot.BotState.constructor | xbot_client.js:85-113 | the record starts as `Initial(now)` |
| Bot.BotState.HandleLocationSwitch | xbot_client.js:382-481 | the handler updates the record as `LocationSwitch` says, and keeps the processed ids free of repeats |
| Bot.BotState.HandleTrendHarvest | xbot_client.js:493-532 | the handler updates the record as `TrendHarvest` says |
| Bot.BotState.HandleSearch | xbot_client.js:538-606 | the handler updates the record as `Search` says |
| Bot.BotState.ScanArticles | xbot_client.js:608-656 | the handler updates the record as `ScanAndReply` says, and keeps the processed ids free of repeats |
| Bot.BotState.SaveState | xbot_client.js:159-188 | the saved record is `Save` of the record's value, with at most 200 processed ids |
| Bot.BotState.LoadState | xbot_client.js:190-229 | the handler updates the record as `Load` says, and the processed ids stay free of repeats |
| Bot.BotState.GetSchedule | xbot_client.js:277-285 | the handler updates the record as `ApplySchedule` says |
| Bot.BotState.ToggleBot | xbot_client.js:770-777 | the handler updates the record as `Toggle` says |

## Left out

- Browser side effects are not modelled. This covers the DOM, storage (`GM_setValue`/`GM_getValue`), navigation, `sleep`, random delays, scrolling, React input events, clicking, and the UI panel (`createUI`, `updateUI`). The texts and marks read from the page are parameters.
- `mainLoop` and `init` are not modelled: the order of handlers, the timers between loops, and loading at start-up. Each handler is modelled on its own, and `needsLocationSwitch`/`needsTrendHarvest` are modelled as predicates.
- `isVerifiedAccount`, `isPromotedTweet` and `extractTweetData` read the DOM. An article carries their results as fields.
- `callBrain` (HTTP and JSON) is modelled as the answer the client receives, as a parameter. A request that throws becomes an outcome (`SwitchThrew`, `HarvestThrew`, `ScanThrew`) and leaves the record as the handler had left it.
- The `/smart-search` route is called by the client, but `server.py` does not define it. Its answer is a parameter. `SearchData` is present only when `search_term` is truthy; any other answer, including a failed request, takes the fallback rotation.
- Bot.ScanAndReply: the non-dry-run branch (`SUCCESS`) is not modelled, because `DRY_RUN` is the constant `true` and nothing is ever posted.
- Bot.State: `consecutiveErrors` is not modelled, because nothing reads or writes it. `MAX_REPLIES_PER_DAY` is not modelled, because nothing reads it. `STATE`'s repeated keys keep one value each, as JavaScript does.
- Bot.Load: a loaded record is taken to hold every field. The `|| default` fallbacks for missing fields are modelled only where they change a present value: a zero rotation time, and the search fields taken when truthy.
- Bot.LoadState: `repliesToday`, `lastReplyTime` and `currentKeywords` are not restored by `loadState`; they keep the values they had before the load, as in the source. A reload therefore clears the reply cooldown (`Bot.ReloadForgetsCooldown`). A stored value that does not parse, and a missing one, load nothing (`Unparsable`, `NothingStored`). The exception that `JSON.parse` raises is not modelled.
- Bot.HonestBrain: with a null target location the server refuses the request with a validation error, whose JSON body has no `index`. The client then compares `undefined` and gets NO_MATCH. The server's validation itself (FastAPI/pydantic) is not modelled.
- Brain.OptionalField: pydantic's validation is modelled as strict: a non-string value for a string field is refused, and no number is coerced to text.
- Brain.ScanReason: a reason that is neither a string nor null is logged as NULL. SQLite would store a number as given and refuse to bind a list or an object.
- LocationMatch.Score: case is ignored only for ASCII letters, because `Text.Lower` lowers A-Z only while Python's `str.lower()` lowers every letter. Where the target and an option differ in the case of a non-ASCII letter the answers differ. For the target "ÉVORA" and the options ["Lisbon", "évora"], the server scores option 1 at 10 + 2 + 9 = 21 and answers index 1; the model scores nothing and answers index 0 with confidence 0.
- Filters.IsBlockedAccount: the handle is lowered for ASCII letters only. The blocked names are ASCII, so this differs from `toLowerCase()` only for a non-ASCII capital that lowers into an ASCII letter, such as the Kelvin sign (U+212A) lowering to "k".
- Filters.ContainsIndiaContent: the same ASCII-only lowering. For example, "salman \u212Ahan" matches "salman khan" in JavaScript but not in the model.
- Filters.TrendTag and Filters.IsLocationText lower with the same ASCII-only `Text.Lower`, and still agree with the source on every input. The only non-ASCII characters that `toLowerCase()` lowers into ASCII letters are U+212A, which becomes "k", and U+0130, which becomes "i" followed by U+0307. "trending" has no "k", and an "i" followed by U+0307 never matches its "in". Every text `IsLocationText` accepts is ASCII letters, JavaScript whitespace and `,'-`, as its ensures states, and `toLowerCase()` lowers those exactly as `Text.Lower` does. Any other text fails the place-name pattern in both.
- The language-model request (prompt text, model name, temperature) and `json.loads` are oracles. What is modelled is how the server handles their results.
- `session_log`, the `/` and `/stats` routes' wrappers, CORS and the uvicorn start-up are not modelled: nothing in the core reads them. `/stats` is `Stats.GetStats`.
- The server's own timestamps are integer seconds in the main model. How they are written as text is modelled separately, for the finding below.
- Concurrency is not modelled: simultaneous requests, and page loads overlapping a handler.

## Findings

| source | as written | input that shows it | evidently intended | confidence | as-written member | corrected member |
|---|---|---|---|---|---|---|
| server.py:421-429 | the 24-hour cutoff `yesterday.isoformat()` ("YYYY-MM-DDTHH:MM:SS…") is compared as text with the stored `CURRENT_TIMESTAMP` ("YYYY-MM-DD HH:MM:SS"); ' ' sorts before 'T', so only replies stamped on a later date than the cutoff count | replies to the same author at 23:50 and 23:55, then `/analyze` for a third tweet by that author at 00:10 the next day | both replies are within the last 24 hours, so the author is in cooldown | not executed | Guard.LateRepliesEscapeCooldown | Guard.SecondRecentReplyStartsCooldown |
| server.py:483-485 | the day's count compares the stored `CURRENT_TIMESTAMP` as text with midnight's `isoformat()`; no reply stamped today or earlier is after it | 150 replies logged today, then `/check-health` | the day's replies are counted, and the health check warns at 150 | not executed | Stats.HealthNeverWarnsAsWritten | Stats.LoggedReplyCountsToday |

The rest of the model uses the corrected comparisons. `Guard.CheckDuplicate` compares times as numbers, and so does `Stats.GetStats` through `Stats.RepliedToday`.
