/** The userscript's text filters (xbot_client.js): blocked handles and
    off-target keywords, the test that a settings button looks like a location
    result, and the normalisation of trend lines into hashtags. Button and trend
    texts stand for the DOM elements they were read from. */
module Filters {
  import opened Text

  // ---------------------------------------------------------------------------
  // Blocked content

  /** `BLOCKED_ACCOUNTS`, in insertion order. */
  const BlockedAccounts: seq<string> := [
    "netflix", "netflixindia", "primevideo", "disneyplus", "hulu",
    "hbomax", "peacock", "paramountplus", "appletv", "amazonprime",
    "spotify", "youtube", "twitter", "x", "google", "microsoft"]

  /** `INDIA_KEYWORDS`. */
  const IndiaKeywords: seq<string> := [
    "india", "indian", "bollywood", "hindi", "desi", "bharat",
    "mumbai", "delhi", "bangalore", "hyderabad", "chennai", "kolkata",
    "ipl", "cricket", "bigg boss", "salman khan", "shah rukh"]

  /** `isBlockedAccount(handle)`: some blocked name occurs in the lowered handle. */
  function IsBlockedAccount(handle: string): (b: bool)
    ensures b <==> exists name :: name in BlockedAccounts && Occurs(name, Lower(handle))
  {
    ContainsAny(Lower(handle), BlockedAccounts)
  }

  /** `containsIndiaContent(text)`: some keyword occurs in the lowered text. */
  function ContainsIndiaContent(text: string): (b: bool)
    ensures b <==> exists kw :: kw in IndiaKeywords && Occurs(kw, Lower(text))
  {
    ContainsAny(Lower(text), IndiaKeywords)
  }

  /** Because the one-letter name "x" is on the list, every handle with an `x` or
      `X` anywhere is blocked. */
  lemma HandleWithXIsBlocked(handle: string, i: int)
    requires 0 <= i < |handle| && (handle[i] == 'x' || handle[i] == 'X')
    ensures IsBlockedAccount(handle)
  {
    assert Lower(handle)[i] == 'x';
    assert "x" <= Lower(handle)[i..];
    assert "x" in BlockedAccounts;
  }

  /** Blocking ignores case: a handle is blocked exactly when its lowered form is. */
  lemma {:induction false} BlockingIgnoresCase(handle: string)
    ensures IsBlockedAccount(Lower(handle)) == IsBlockedAccount(handle)
  {
    assert Lower(Lower(handle)) == Lower(handle);
  }

  // ---------------------------------------------------------------------------
  // Location results

  /** `skipWords` in `findLocationResults`. */
  const SkipWords: seq<string> := [
    "follow", "post", "premium", "home", "explore", "notifications",
    "messages", "grok", "communities", "profile", "search", "more",
    "apple", "show", "subscribe", "trending", "news", "sports", "entertainment",
    "see new posts", "show more", "see more"]

  const MaxLocationText := 50

  predicate IsAsciiDigit(c: char) { '0' <= c <= '9' }

  predicate IsAsciiLetter(c: char) { 'a' <= c <= 'z' || 'A' <= c <= 'Z' }

  /** `/^[\d.,KMk]+$/`: a count such as "4.1K". */
  predicate LooksLikeCount(t: string) {
    |t| > 0 && forall k :: 0 <= k < |t| ==> IsAsciiDigit(t[k]) || t[k] in ".,KMk"
  }

  /** `/^[A-Z][a-zA-Z\s,'-]+$/`: a capital, then at least one letter, space, comma, apostrophe or hyphen. */
  predicate LooksLikePlaceName(t: string) {
    && |t| >= 2 && 'A' <= t[0] <= 'Z'
    && forall k :: 1 <= k < |t| ==> IsAsciiLetter(t[k]) || IsJsSpace(t[k]) || t[k] in ",'-"
  }

  /** The tests `findLocationResults` applies to a button's trimmed text, in order. */
  function IsLocationText(t: string): (b: bool)
    ensures b ==> 3 <= |t| <= MaxLocationText && Utf16Length(t) == |t| && 'A' <= t[0] <= 'Z'
    ensures b ==> forall k :: 0 <= k < |t| ==> IsAsciiLetter(t[k]) || IsJsSpace(t[k]) || t[k] in ",'-"
  {
    var b :=
      && 3 <= Utf16Length(t) <= MaxLocationText
      && '@' !in t
      && Lower(t) != "follow"
      && !LooksLikeCount(t)
      && '\n' !in t
      && !ContainsAny(Lower(t), SkipWords)
      && LooksLikePlaceName(t);
    if b then Utf16LengthOfBmp(t); b else b
  }

  /** The trimmed texts of the buttons `findLocationResults` keeps, in page order. */
  function LocationResults(buttons: seq<string>): (results: seq<string>)
    ensures |results| <= |buttons|
  {
    if buttons == [] then []
    else
      var init := LocationResults(buttons[..|buttons| - 1]);
      var t := Trim(buttons[|buttons| - 1]);
      if IsLocationText(t) then init + [t] else init
  }

  /** The results are exactly the trimmed button texts the filter accepts: each
      result is accepted, and each accepted text is a result. */
  lemma {:induction false} ResultsAreAcceptedTexts(buttons: seq<string>)
    ensures forall t :: t in LocationResults(buttons) ==> IsLocationText(t)
    ensures forall b :: b in buttons && IsLocationText(Trim(b)) ==> Trim(b) in LocationResults(buttons)
  {
    if buttons != [] {
      var init := buttons[..|buttons| - 1];
      ResultsAreAcceptedTexts(init);
      assert forall b :: b in buttons ==> b in init || b == buttons[|buttons| - 1];
    }
  }

  /** `findLocationResults()` over the buttons' text contents: a push loop. */
  method FindLocationResults(buttons: seq<string>) returns (results: seq<string>)
    ensures results == LocationResults(buttons)
  {
    results := [];
    for i := 0 to |buttons|
      invariant results == LocationResults(buttons[..i])
    {
      assert buttons[..i + 1][..i] == buttons[..i];
      var text := Trim(buttons[i]);
      if Utf16Length(text) < 3 { continue; }
      if Utf16Length(text) > MaxLocationText { continue; }
      if '@' in text { continue; }
      if Lower(text) == "follow" { continue; }
      if LooksLikeCount(text) { continue; }
      if '\n' in text { continue; }
      if ContainsAny(Lower(text), SkipWords) { continue; }
      if !LooksLikePlaceName(text) { continue; }
      results := results + [text];
    }
    assert buttons[..|buttons|] == buttons;
  }

  /** The options sent to the server: the results' texts of JavaScript length 1 to 99. */
  function SentOptions(results: seq<string>): (options: seq<string>)
    ensures |options| <= |results|
    ensures forall o :: o in options <==> o in results && 0 < Utf16Length(o) < 100
  {
    if results == [] then []
    else
      var rest := SentOptions(results[1..]);
      if 0 < Utf16Length(results[0]) < 100 then [results[0]] + rest else rest
  }

  /** The filter keeps the results' order: filtering two runs of results one after
      the other is filtering each and concatenating. */
  lemma {:induction false} SentOptionsOfConcat(a: seq<string>, b: seq<string>)
    ensures SentOptions(a + b) == SentOptions(a) + SentOptions(b)
    decreases |a|
  {
    if a != [] {
      assert (a + b)[0] == a[0] && (a + b)[1..] == a[1..] + b;
      SentOptionsOfConcat(a[1..], b);
      if 0 < Utf16Length(a[0]) < 100 {
        Regroup([a[0]], SentOptions(a[1..]), SentOptions(b));
      }
    } else {
      assert a + b == b;
    }
  }

  /** The options filter drops nothing: an accepted text has at most 50 characters,
      so the server's index refers to the same list the client clicks from. */
  lemma {:induction false} OptionsKeepEveryResult(buttons: seq<string>)
    ensures SentOptions(LocationResults(buttons)) == LocationResults(buttons)
  {
    ResultsAreAcceptedTexts(buttons);
    KeepsShortTexts(LocationResults(buttons));
  }

  lemma {:induction false} KeepsShortTexts(texts: seq<string>)
    requires forall t :: t in texts ==> 3 <= Utf16Length(t) <= MaxLocationText
    ensures SentOptions(texts) == texts
  {
    if texts != [] {
      assert forall t :: t in texts[1..] ==> t in texts;
      KeepsShortTexts(texts[1..]);
    }
  }

  /** A place name with a letter outside ASCII, such as the 04:00 slot's
      "São Paulo", is never accepted as a location result. */
  lemma NonAsciiPlaceIsRejected()
    ensures !IsLocationText("São Paulo")
  {
    assert !LooksLikePlaceName("São Paulo") by {
      assert "São Paulo"[1] == 'ã';
    }
  }

  /** A place whose lowered name contains a skip word, such as "Baltimore"
      ("more"), is never accepted either. */
  lemma SkipWordInsidePlaceIsRejected()
    ensures !IsLocationText("Baltimore")
  {
    assert "more" <= Lower("Baltimore")[5..];
    assert "more" in SkipWords;
  }

  // ---------------------------------------------------------------------------
  // Trends

  const MaxTrends := 5

  /** The hashtag one trend line contributes, if any: lines that start with a digit,
      contain a middle dot or the word "trending", or are shorter than 2 or longer
      than 50 UTF-16 code units are dropped; a hashtag is kept, and a single word
      longer than 2 code units becomes one. */
  function TrendTag(line: string): (tag: Option<string>)
    ensures tag.Some? ==> tag.value != [] && tag.value[0] == '#' && 2 <= Utf16Length(tag.value) <= 51
  {
    var t := Trim(line);
    if (t != [] && IsAsciiDigit(t[0])) || '·' in t || Contains(Lower(t), "trending") then None
    else if Utf16Length(t) < 2 || Utf16Length(t) > 50 then None
    else if t[0] == '#' then Some(t)
    else if Utf16Length(t) > 2 && ' ' !in t then Some(assert ("#" + t)[1..] == t; "#" + t)
    else None
  }

  /** A tag comes from a trimmed line of 2 to 50 UTF-16 code units without a leading
      digit, a middle dot or "trending" in any case: the line itself when it starts
      with '#', otherwise '#' before a single word of more than 2 code units; and
      every such line gives its tag. */
  lemma TrendTagMeaning(line: string)
    ensures var t := Trim(line);
      var kept := !(t != [] && IsAsciiDigit(t[0])) && '·' !in t && !Occurs("trending", Lower(t)) && 2 <= Utf16Length(t) <= 50;
      && (kept && t[0] == '#' ==> TrendTag(line) == Some(t))
      && (kept && t[0] != '#' && Utf16Length(t) > 2 && ' ' !in t ==> TrendTag(line) == Some("#" + t))
      && (TrendTag(line).Some? ==> kept && (t[0] == '#' || (Utf16Length(t) > 2 && ' ' !in t)))
  {
  }

  /** Lengths are JavaScript's: a word of two emoji is four code units long, so it
      is long enough to become a hashtag. */
  lemma TwoEmojiWordBecomesTag()
    ensures TrendTag("\U{1F600}\U{1F600}") == Some("#\U{1F600}\U{1F600}")
  {
    var e := '\U{1F600}';
    var w := [e, e];
    assert w == "\U{1F600}\U{1F600}";
    assert Utf16Length([e]) == 2;
    Utf16LengthOfConcat([e], [e]);
    assert [e] + [e] == w;
    assert !IsJsSpace(e);
    assert TrimStart(w, IsJsSpace) == w;
    assert TrimEnd(w, IsJsSpace) == w;
    assert Trim(w) == w;
    assert Lower(w) == w;
    assert !Contains(w, "trending");
    assert '·' !in w && ' ' !in w && !IsAsciiDigit(w[0]) && w[0] != '#';
    assert "#" + w == "#\U{1F600}\U{1F600}";
  }

  /** The tags of a run of lines, in order. */
  function LineTags(lines: seq<string>): (tags: seq<string>)
    ensures |tags| <= |lines|
    ensures forall t :: t in tags ==> t != [] && t[0] == '#'
  {
    if lines == [] then []
    else
      var init := LineTags(lines[..|lines| - 1]);
      var tag := TrendTag(lines[|lines| - 1]);
      if tag.Some? then init + [tag.value] else init
  }

  /** The tags collected from every trend element's lines, element by element. */
  function TrendCandidates(elements: seq<string>): (tags: seq<string>)
    ensures forall t :: t in tags ==> t != [] && t[0] == '#'
  {
    if elements == [] then []
    else TrendCandidates(elements[..|elements| - 1]) + LineTags(SplitOn(elements[|elements| - 1], '\n'))
  }

  /** The callback `handleTrendHarvest` runs on one trend element: the tags of
      the lines of its `innerText` (split at line feeds), pushed onto `trends`. */
  method PushLineTags(trends: seq<string>, lines: seq<string>) returns (pushed: seq<string>)
    ensures pushed == trends + LineTags(lines)
  {
    pushed := trends;
    for l := 0 to |lines|
      invariant pushed == trends + LineTags(lines[..l])
    {
      var tag := TrendTag(lines[l]);
      LineTagsOfOneMore(lines, l);
      if tag.Some? {
        Regroup(trends, LineTags(lines[..l]), [tag.value]);
        pushed := pushed + [tag.value];
      }
    }
    assert lines[..|lines|] == lines;
  }

  /** One more line adds its tag, if it has one. */
  lemma LineTagsOfOneMore(lines: seq<string>, l: nat)
    requires l < |lines|
    ensures LineTags(lines[..l + 1]) ==
      LineTags(lines[..l]) + (if TrendTag(lines[l]).Some? then [TrendTag(lines[l]).value] else [])
  {
    assert lines[..l + 1][..l] == lines[..l];
  }

  /** The `forEach` of `handleTrendHarvest` over the trend elements' texts. */
  method CollectTrends(elements: seq<string>) returns (trends: seq<string>)
    ensures trends == TrendCandidates(elements)
  {
    trends := [];
    for e := 0 to |elements|
      invariant trends == TrendCandidates(elements[..e])
    {
      assert elements[..e + 1][..e] == elements[..e];
      trends := PushLineTags(trends, SplitOn(elements[e], '\n'));
    }
    assert elements[..|elements|] == elements;
  }

  // ---------------------------------------------------------------------------
  // Distinct values and slices

  predicate NoDuplicates(xs: seq<string>) {
    forall i, j :: 0 <= i < j < |xs| ==> xs[i] != xs[j]
  }

  /** `[...new Set(xs)]`: each value once, at the position of its first occurrence. */
  function Distinct(xs: seq<string>): (ys: seq<string>)
    ensures forall x :: x in ys <==> x in xs
    ensures NoDuplicates(ys)
    ensures |ys| <= |xs|
  {
    if xs == [] then []
    else
      var init := Distinct(xs[..|xs| - 1]);
      assert forall x :: x in xs <==> x in xs[..|xs| - 1] || x == xs[|xs| - 1];
      if xs[|xs| - 1] in init then init else init + [xs[|xs| - 1]]
  }

  /** A sequence without duplicates is its own set, in the same order. */
  lemma {:induction false} DistinctKeepsDistinct(xs: seq<string>)
    requires NoDuplicates(xs)
    ensures Distinct(xs) == xs
  {
    if xs != [] {
      var init := xs[..|xs| - 1];
      DistinctKeepsDistinct(init);
      assert xs[|xs| - 1] !in init;
      assert init + [xs[|xs| - 1]] == xs;
    }
  }

  /** The position where `x` first occurs in `xs`. */
  function FirstIndex(xs: seq<string>, x: string): (i: nat)
    requires x in xs
    ensures i < |xs| && xs[i] == x && x !in xs[..i]
  {
    if xs[0] == x then 0
    else
      var i := FirstIndex(xs[1..], x);
      assert xs[..i + 1] == [xs[0]] + xs[1..][..i];
      i + 1
  }

  /** The first occurrence of a value is the same in any prefix that holds it. */
  lemma FirstIndexInPrefix(xs: seq<string>, n: nat, x: string)
    requires n <= |xs| && x in xs[..n]
    ensures FirstIndex(xs[..n], x) == FirstIndex(xs, x)
  {
    var i, k := FirstIndex(xs[..n], x), FirstIndex(xs, x);
    assert xs[..n][..i] == xs[..i];
  }

  /** `Distinct` keeps the values in the order in which they first occur. */
  lemma {:induction false} DistinctKeepsFirstOrder(xs: seq<string>)
    ensures forall i, j :: 0 <= i < j < |Distinct(xs)| ==>
      FirstIndex(xs, Distinct(xs)[i]) < FirstIndex(xs, Distinct(xs)[j])
  {
    if xs != [] {
      var n := |xs| - 1;
      var init := xs[..n];
      var ys, ys' := Distinct(xs), Distinct(init);
      DistinctKeepsFirstOrder(init);
      forall i, j | 0 <= i < j < |ys|
        ensures FirstIndex(xs, ys[i]) < FirstIndex(xs, ys[j])
      {
        assert ys'[i] in init;
        FirstIndexInPrefix(xs, n, ys'[i]);
        assert ys[i] == ys'[i];
        if j < |ys'| {
          assert ys[j] == ys'[j];
          FirstIndexInPrefix(xs, n, ys'[j]);
        } else {
          assert ys[j] == xs[n] && xs[n] !in init;
          assert xs[..n] == init;
        }
      }
    }
  }

  /** Distinct values are kept in order of first occurrence: the first value always leads. */
  lemma {:induction false} DistinctStartsWithFirst(xs: seq<string>)
    requires xs != []
    ensures Distinct(xs) != [] && Distinct(xs)[0] == xs[0]
  {
    if |xs| > 1 {
      var init := xs[..|xs| - 1];
      DistinctStartsWithFirst(init);
      assert init[0] == xs[0];
    }
  }

  /** `xs.slice(0, n)`. */
  function Take<T>(xs: seq<T>, n: nat): (ys: seq<T>)
    ensures ys <= xs && |ys| == if |xs| < n then |xs| else n
  {
    if |xs| <= n then xs else xs[..n]
  }

  /** `xs.slice(-n)` for `n > 0`: the last `n` values, or all of them when there are fewer. */
  function TakeLast<T>(xs: seq<T>, n: nat): (ys: seq<T>)
    ensures |ys| == if |xs| < n then |xs| else n
    ensures ys == xs[|xs| - |ys|..]
  {
    if |xs| <= n then xs else xs[|xs| - n..]
  }

  /** What one harvest keeps: the first five distinct tags. */
  function Harvest(elements: seq<string>): (trends: seq<string>)
    ensures |trends| <= MaxTrends && NoDuplicates(trends)
    ensures forall t :: t in trends ==> t in TrendCandidates(elements) && t != [] && t[0] == '#'
  {
    var candidates := TrendCandidates(elements);
    var unique := Distinct(candidates);
    assert forall t :: t in unique ==> t in candidates;
    Take(unique, MaxTrends)
  }

  /** A harvest keeps the tags in the order they are first seen, and it leaves a
      tag out only when five tags seen earlier were already kept. */
  lemma HarvestIsFirstFive(elements: seq<string>)
    ensures var candidates, trends := TrendCandidates(elements), Harvest(elements);
      && (forall i, j :: 0 <= i < j < |trends| ==>
            FirstIndex(candidates, trends[i]) < FirstIndex(candidates, trends[j]))
      && (forall t :: t in candidates && t !in trends ==>
            |trends| == MaxTrends &&
            forall i :: 0 <= i < |trends| ==> FirstIndex(candidates, trends[i]) < FirstIndex(candidates, t))
  {
    var candidates, trends := TrendCandidates(elements), Harvest(elements);
    var unique := Distinct(candidates);
    DistinctKeepsFirstOrder(candidates);
    assert trends == unique[..|trends|];
    forall i, j | 0 <= i < j < |trends|
      ensures FirstIndex(candidates, trends[i]) < FirstIndex(candidates, trends[j])
    {
      assert trends[i] == unique[i] && trends[j] == unique[j];
    }
    forall t | t in candidates && t !in trends
      ensures |trends| == MaxTrends
      ensures forall i :: 0 <= i < |trends| ==> FirstIndex(candidates, trends[i]) < FirstIndex(candidates, t)
    {
      var k :| 0 <= k < |unique| && unique[k] == t;
      forall i | 0 <= i < |trends|
        ensures FirstIndex(candidates, trends[i]) < FirstIndex(candidates, t)
      {
        assert trends[i] == unique[i];
      }
    }
  }

  /** Every distinct tag is kept while there are at most five of them. */
  lemma HarvestKeepsFewTags(elements: seq<string>)
    requires |Distinct(TrendCandidates(elements))| <= MaxTrends
    ensures forall t :: t in TrendCandidates(elements) ==> t in Harvest(elements)
  {
  }
}
