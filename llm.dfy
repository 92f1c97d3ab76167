/** The draft generator's client (server.py, LLMClient.analyze_and_draft): the
    mock reply when no API key is configured, and the post-processing of the
    generator's text: strip, remove a markdown code fence, decode JSON, and fail
    closed to SKIP on any exception. The network call is an oracle `llm` and
    `json.loads` an oracle `parse`. */
module Llm {
  import opened Text

  const SiteUrl := "streamixapp.pages.dev"
  const MockDraft := "[MOCK] Check out " + SiteUrl + " for free streaming!"
  const ErrorPrefix := "LLM error: "

  /** The context the server hands the generator. */
  datatype Prompt = Prompt(tweetText: string, langCode: string, region: string, trends: seq<string>,
                           parentText: Option<string>)

  /** The generator call either raises (network, provider, missing content) or
      returns the message content. */
  datatype CallResult = Raised(message: string) | Content(text: string)

  /** One key of the decoded JSON object: absent, `null`, a string, or any other JSON value. */
  datatype Field = Missing | Null | Str(value: string) | NonString

  /** The four keys the server reads from the decision object. */
  datatype Decision = Decision(action: Field, reason: Field, draft: Field, trend: Field)

  /** What `json.loads` produced: an object, or some other JSON value (array, string, number ...). */
  datatype Decoded = Object(decision: Decision) | NotObject

  /** The reply produced when no client is configured. */
  function MockDecision(trends: seq<string>): (d: Decoded)
    ensures d.Object? && d.decision.action == Str("REPLY") && d.decision.draft == Str(MockDraft)
    ensures d.decision.reason.Str?
    ensures d.decision.trend == if trends == [] then Null else Str(trends[0])
  {
    Object(Decision(Str("REPLY"), Str("Movie/TV intent detected"), Str(MockDraft),
                    if |trends| > 0 then Str(trends[0]) else Null))
  }

  /** The decision produced when anything in the call or the decoding raised. */
  function ErrorDecision(message: string): (d: Decoded)
    ensures d.Object? && d.decision.action == Str("SKIP") && d.decision.reason == Str(ErrorPrefix + message)
    ensures d.decision.draft == Null && d.decision.trend == Null
  {
    Object(Decision(Str("SKIP"), Str(ErrorPrefix + message), Null, Null))
  }

  /** The text handed to `json.loads`: a reply starting with a code fence is cut to
      the part between the first two fences, without a leading "json" tag. */
  function Unfenced(text: string): (r: string)
    ensures !(Fence <= text) ==> r == text
    ensures Fence <= text ==> |r| < |text| && !Occurs(Fence, r)
  {
    if Fence <= text then
      var seg := UpToFence(text[3..]);
      NoFenceInPrefix(text[3..], seg);
      if "json" <= seg then
        assert forall k :: 0 <= k <= |seg| - 4 ==> seg[4..][k..] == seg[k + 4..];
        seg[4..]
      else seg
    else text
  }

  /** The part before the first fence contains no fence itself. */
  lemma NoFenceInPrefix(s: string, seg: string)
    requires seg == UpToFence(s)
    ensures !Occurs(Fence, seg)
  {
    forall k | 0 <= k <= |seg| ensures !(Fence <= seg[k..]) {
      if k + 3 <= |seg| {
        assert seg[k..][..3] == s[k..][..3];
      }
    }
  }

  /** The cut stops exactly at a fence that follows fence-free text. */
  lemma {:induction false} UpToFenceStopsAtFence(pre: string, post: string)
    requires '`' !in pre
    ensures UpToFence(pre + Fence + post) == pre
  {
    if pre != [] {
      assert (pre + Fence + post)[1..] == pre[1..] + Fence + post;
      UpToFenceStopsAtFence(pre[1..], post);
    }
  }

  /** A fenced reply, tagged "json" or not, yields its body whatever follows the closing fence. */
  lemma {:induction false} FencedBodyIsExtracted(body: string, tail: string, tagged: bool)
    requires '`' !in body
    requires !tagged ==> !("json" <= body)
    ensures Unfenced(Fence + (if tagged then "json" else "") + body + Fence + tail) == body
  {
    var tag := if tagged then "json" else "";
    var text := Fence + tag + body + Fence + tail;
    assert text[3..] == (tag + body) + Fence + tail;
    UpToFenceStopsAtFence(tag + body, tail);
    if tagged {
      assert (tag + body)[4..] == body;
    } else {
      assert tag + body == body;
    }
  }

  /** `analyze_and_draft`: the mock without a client, otherwise the decoded decision,
      or an error SKIP when the call or the decoding raised. */
  function AnalyzeAndDraft(hasClient: bool, prompt: Prompt, llm: Prompt -> CallResult,
                           parse: string -> Result<Decoded>): (d: Decoded)
    ensures !hasClient ==> d == MockDecision(prompt.trends)
    ensures hasClient && llm(prompt).Raised? ==> d == ErrorDecision(llm(prompt).message)
    ensures hasClient && llm(prompt).Content? ==>
      d == match parse(Unfenced(Strip(llm(prompt).text)))
           case Ok(decoded) => decoded
           case Err(message) => ErrorDecision(message)
    // fail closed: whatever raises, the result is a SKIP without draft
    ensures hasClient && (llm(prompt).Raised? || parse(Unfenced(Strip(llm(prompt).text))).Err?) ==>
      d.Object? && d.decision.action == Str("SKIP") && d.decision.draft == Null
  {
    if !hasClient then MockDecision(prompt.trends)
    else match llm(prompt)
      case Raised(message) => ErrorDecision(message)
      case Content(text) =>
        match parse(Unfenced(Strip(text)))
        case Ok(decoded) => decoded
        case Err(message) => ErrorDecision(message)
  }
}
