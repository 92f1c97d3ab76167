/** The server's location-option scorer (server.py, select_location): every
    option is scored against the target location, and the lowest index with the
    strictly greatest positive score wins; with no positive score the answer is
    index 0 with confidence 0. */
module LocationMatch {
  import opened Text

  /** `{"index", "selected", "confidence"}` as the handler returns it. */
  datatype Selection = Selection(index: int, selected: Option<string>, confidence: int)

  /** `target.replace(',', ' ').split()` of the lowered target. */
  function TargetParts(targetLocation: string): seq<string> {
    Words(ReplaceChar(Lower(targetLocation), ',', ' '))
  }

  /** How many of `parts` occur in `optionLower`, counting repeated parts each time. */
  function PartsContained(parts: seq<string>, optionLower: string): (n: nat)
    ensures n <= |parts|
  {
    if parts == [] then 0
    else PartsContained(parts[..|parts| - 1], optionLower) + (if Contains(optionLower, parts[|parts| - 1]) then 1 else 0)
  }

  /** No part counts exactly when no part occurs. */
  lemma {:induction false} NoPartContained(parts: seq<string>, optionLower: string)
    ensures PartsContained(parts, optionLower) == 0 <==> forall p :: p in parts ==> !Occurs(p, optionLower)
  {
    if parts != [] {
      var init := parts[..|parts| - 1];
      NoPartContained(init, optionLower);
      assert forall p :: p in parts <==> p in init || p == parts[|parts| - 1];
    }
  }

  /** `max(0, 10 - len(option) // 5)`: shorter options are more specific. */
  function LengthBonus(option: string): (b: nat)
    ensures b <= 10 && (|option| < 5 ==> b == 10) && (|option| >= 50 ==> b == 0)
  {
    if 10 - |option| / 5 > 0 then 10 - |option| / 5 else 0
  }

  /** The score of one option against the lowered target and its parts: 10 when
      the whole target occurs in it, 2 per part that occurs in it, and the
      length bonus once anything matched. */
  function Score(target: string, parts: seq<string>, option: string): (score: nat)
    ensures score == 0 || score >= 2
    ensures score <= 20 + 2 * |parts|
  {
    var optionLower := Lower(option);
    var base := (if Contains(optionLower, target) then 10 else 0) + 2 * PartsContained(parts, optionLower);
    if base > 0 then base + LengthBonus(option) else base
  }

  /** An option scores nothing exactly when neither the target nor any of its parts
      occurs in it; anything that matches scores at least 2, and a match of the
      whole target at least 10, plus the length bonus. */
  lemma ScoreMeaning(target: string, parts: seq<string>, option: string)
    ensures Score(target, parts, option) == 0 <==>
      && !Occurs(target, Lower(option))
      && forall p :: p in parts ==> !Occurs(p, Lower(option))
    ensures Score(target, parts, option) > 0 ==> Score(target, parts, option) >= 2 + LengthBonus(option)
    ensures Occurs(target, Lower(option)) ==> Score(target, parts, option) >= 10 + LengthBonus(option)
  {
    NoPartContained(parts, Lower(option));
  }

  /** The score of every option, in order. */
  function Scores(target: string, parts: seq<string>, options: seq<string>): (scores: seq<nat>)
    ensures |scores| == |options|
  {
    if options == [] then []
    else Scores(target, parts, options[..|options| - 1]) + [Score(target, parts, options[|options| - 1])]
  }

  /** Entry `j` of the score list is the score of option `j`. */
  lemma {:induction false} ScoresAt(target: string, parts: seq<string>, options: seq<string>, j: int)
    requires 0 <= j < |options|
    ensures Scores(target, parts, options)[j] == Score(target, parts, options[j])
  {
    if j < |options| - 1 {
      ScoresAt(target, parts, options[..|options| - 1], j);
    }
  }

  /** `i` is the lowest index of the strictly greatest positive score. */
  ghost predicate IsBestMatch(scores: seq<nat>, i: int) {
    && 0 <= i < |scores|
    && scores[i] > 0
    && (forall j :: 0 <= j < |scores| ==> scores[j] <= scores[i])
    && (forall j :: 0 <= j < i ==> scores[j] < scores[i])
  }

  /** At most one index is the best match. */
  lemma BestMatchIsUnique(scores: seq<nat>, i: int, k: int)
    requires IsBestMatch(scores, i) && IsBestMatch(scores, k)
    ensures i == k
  {
  }

  /** The running `(best_match, best_score)` after the scores seen so far: a later
      score replaces the best only when it is strictly greater. */
  function BestOf(scores: seq<nat>): (best: (int, nat))
    ensures -1 <= best.0 < |scores|
    ensures best.0 == -1 ==> best.1 == 0 && forall j :: 0 <= j < |scores| ==> scores[j] == 0
    ensures best.0 >= 0 ==> IsBestMatch(scores, best.0) && best.1 == scores[best.0]
  {
    if scores == [] then (-1, 0)
    else
      var init := scores[..|scores| - 1];
      var last := scores[|scores| - 1];
      var best := BestOf(init);
      assert forall j :: 0 <= j < |init| ==> scores[j] == init[j];
      if last > best.1 then (|scores| - 1, last) else best
  }

  /** One more score replaces the best only when it is strictly greater. */
  lemma BestOfOneMore(scores: seq<nat>, i: nat)
    requires i < |scores|
    ensures BestOf(scores[..i + 1]) ==
      if scores[i] > BestOf(scores[..i]).1 then (i, scores[i]) else BestOf(scores[..i])
  {
    assert scores[..i + 1][..i] == scores[..i];
  }

  /** `select_location(target_location, options)` as a value: the best match of
      the options' scores, or index 0 with confidence 0 when nothing scored. The
      index is never negative, and it is in range whenever there are options. */
  function Select(targetLocation: string, options: seq<string>): (sel: Selection)
    ensures 0 <= sel.index && (options != [] ==> sel.index < |options|)
  {
    var best := BestOf(Scores(Lower(targetLocation), TargetParts(targetLocation), options));
    if best.0 >= 0 then Selection(best.0, Some(options[best.0]), best.1)
    else Selection(0, if options == [] then None else Some(options[0]), 0)
  }

  /** When some option scores, the selection is the best match and its confidence
      is its score; when none does, it is index 0 with confidence 0, and the first
      option (None when there are no options). */
  lemma SelectPicksBestMatch(targetLocation: string, options: seq<string>)
    ensures var scores := Scores(Lower(targetLocation), TargetParts(targetLocation), options);
      var sel := Select(targetLocation, options);
      && ((exists j :: 0 <= j < |scores| && scores[j] > 0) ==>
            && IsBestMatch(scores, sel.index)
            && sel.selected == Some(options[sel.index])
            && sel.confidence == scores[sel.index])
      && ((forall j :: 0 <= j < |scores| ==> scores[j] == 0) ==>
            sel == Selection(0, if options == [] then None else Some(options[0]), 0))
  {
  }

  /** The handler's inner loop: 2 points for each target part that occurs in the option. */
  method PartPoints(parts: seq<string>, optionLower: string) returns (points: nat)
    ensures points == 2 * PartsContained(parts, optionLower)
  {
    points := 0;
    for k := 0 to |parts|
      invariant points == 2 * PartsContained(parts[..k], optionLower)
    {
      assert parts[..k + 1][..k] == parts[..k];
      if Contains(optionLower, parts[k]) {
        points := points + 2;
      }
    }
    assert parts[..|parts|] == parts;
  }

  /** The body of the handler's outer loop for one option. */
  method ScoreOption(target: string, parts: seq<string>, option: string) returns (score: nat)
    ensures score == Score(target, parts, option)
  {
    var optionLower := Lower(option);
    score := 0;
    if Contains(optionLower, target) {
      score := score + 10;
    }
    var points := PartPoints(parts, optionLower);
    score := score + points;
    if score > 0 {
      score := score + LengthBonus(option);
    }
  }

  /** `select_location(target_location, options)`: the lowered target and its
      parts are computed once, then each option is scored and the best kept. */
  method SelectLocation(targetLocation: string, options: seq<string>) returns (sel: Selection)
    ensures sel == Select(targetLocation, options)
  {
    var target := Lower(targetLocation);
    var parts := TargetParts(targetLocation);
    ghost var scores := Scores(target, parts, options);
    var bestMatch := -1;
    var bestScore := 0;
    for i := 0 to |options|
      invariant (bestMatch, bestScore) == BestOf(scores[..i])
    {
      var score := ScoreOption(target, parts, options[i]);
      ScoresAt(target, parts, options, i);
      BestOfOneMore(scores, i);
      if score > bestScore {
        bestScore := score;
        bestMatch := i;
      }
    }
    assert scores[..|options|] == scores;
    if bestMatch >= 0 {
      sel := Selection(bestMatch, Some(options[bestMatch]), bestScore);
    } else {
      sel := Selection(0, if options != [] then Some(options[0]) else None, 0);
    }
  }
}
