/**
 * The deterministic parts of backend/src/services/aiChatService.ts: the
 * keyword dispatch that stands in for a language model, the chronological
 * history, and the topic, sentiment and engagement summaries of a
 * conversation.
 */
module AiChat {
  import opened Wrappers
  import opened Text
  import opened Domain
  import StockService

  datatype MessageType = UserMessage | AssistantMessage

  /** A stored chat row: a user message carries `message`, an assistant reply `response`. */
  datatype ChatMessage = ChatMessage(
    id: string, userId: string, message: Option<string>, response: Option<string>,
    timestamp: Millis, kind: MessageType)

  /** `msg.message || msg.response || ''` */
  function MessageText(m: ChatMessage): (r: string)
    ensures m.message.Some? && m.message.value != "" ==> r == m.message.value
    ensures (m.message.None? || m.message.value == "") && m.response.Some? ==> r == m.response.value
    ensures (m.message.None? || m.message.value == "") && m.response.None? ==> r == ""
  {
    if m.message.Some? && m.message.value != "" then m.message.value
    else if m.response.Some? then m.response.value
    else ""
  }

  // Canned responses

  const CannedResponses: seq<string> := [
    "Based on your portfolio analysis, I notice you might be experiencing some confirmation bias. Consider diversifying your information sources and seeking contrarian viewpoints to ensure you're getting a balanced perspective on your investments.",
    "Your recent trading activity suggests potential loss aversion - you may be holding onto losing positions longer than optimal. Setting predefined stop-loss levels could help mitigate this bias.",
    "I see you have a moderate risk tolerance profile. Given your current portfolio allocation, you might benefit from rebalancing to better align with your long-term investment goals while managing behavioral risks.",
    "Your alpha score has improved by 3.2% this month, largely due to addressing overconfidence bias. Keep maintaining your trading journal and regularly reviewing your decisions against objective criteria.",
    "The market sentiment data suggests your current holdings are experiencing some volatility. Rather than making emotional decisions, consider whether your original investment thesis still holds true.",
    "I'm here to help you make better, bias-aware investment decisions. Based on your current portfolio and recent analyses, I recommend focusing on objective data-driven strategies rather than emotional reactions. Would you like me to analyze any specific aspect of your portfolio or discuss potential behavioral biases that might be affecting your trading decisions?"]

  /** The keyword groups, in priority order; the sixth response is the fallback. */
  const KeywordGroups: seq<seq<string>> := [
    ["bias"], ["loss", "losing"], ["risk", "portfolio"], ["alpha", "score"], ["market", "volatility"]]

  predicate GroupMatches(text: string, k: nat)
    requires k < |KeywordGroups|
  {
    exists i :: 0 <= i < |KeywordGroups[k]| && Contains(text, KeywordGroups[k][i])
  }

  /** Which canned response `getAiResponse` picks for a prompt: the first group with a keyword in the lower-cased prompt. */
  function ResponseIndex(prompt: string): (k: nat)
    ensures k <= |KeywordGroups|
  {
    var p := Lower(prompt);
    if Contains(p, "bias") then 0
    else if Contains(p, "loss") || Contains(p, "losing") then 1
    else if Contains(p, "risk") || Contains(p, "portfolio") then 2
    else if Contains(p, "alpha") || Contains(p, "score") then 3
    else if Contains(p, "market") || Contains(p, "volatility") then 4
    else 5
  }

  /** `getAiResponse` */
  function AiResponse(prompt: string): (r: string)
    ensures r in CannedResponses
  {
    CannedResponses[ResponseIndex(prompt)]
  }

  /** The response is that of the first matching group in priority order, and the fallback only when no group matches. */
  lemma ResponsePriority(prompt: string, k: nat)
    requires k < |KeywordGroups|
    ensures ResponseIndex(prompt) == k <==>
      GroupMatches(Lower(prompt), k) && forall j :: 0 <= j < k ==> !GroupMatches(Lower(prompt), j)
    ensures ResponseIndex(prompt) == |KeywordGroups| <==>
      forall j :: 0 <= j < |KeywordGroups| ==> !GroupMatches(Lower(prompt), j)
  {
    var p := Lower(prompt);
    assert GroupMatches(p, 0) <==> Contains(p, "bias") by {
      if Contains(p, "bias") { assert Contains(p, KeywordGroups[0][0]); }
    }
    assert GroupMatches(p, 1) <==> Contains(p, "loss") || Contains(p, "losing") by {
      if Contains(p, "loss") { assert Contains(p, KeywordGroups[1][0]); }
      if Contains(p, "losing") { assert Contains(p, KeywordGroups[1][1]); }
    }
    assert GroupMatches(p, 2) <==> Contains(p, "risk") || Contains(p, "portfolio") by {
      if Contains(p, "risk") { assert Contains(p, KeywordGroups[2][0]); }
      if Contains(p, "portfolio") { assert Contains(p, KeywordGroups[2][1]); }
    }
    assert GroupMatches(p, 3) <==> Contains(p, "alpha") || Contains(p, "score") by {
      if Contains(p, "alpha") { assert Contains(p, KeywordGroups[3][0]); }
      if Contains(p, "score") { assert Contains(p, KeywordGroups[3][1]); }
    }
    assert GroupMatches(p, 4) <==> Contains(p, "market") || Contains(p, "volatility") by {
      if Contains(p, "market") { assert Contains(p, KeywordGroups[4][0]); }
      if Contains(p, "volatility") { assert Contains(p, KeywordGroups[4][1]); }
    }
  }

  /** Upper- or lower-casing the prompt does not change the response. */
  lemma ResponseCaseInsensitive(prompt: string)
    ensures AiResponse(Upper(prompt)) == AiResponse(prompt)
  {
    assert Lower(Upper(prompt)) == Lower(prompt);
    assert ResponseIndex(Upper(prompt)) == ResponseIndex(prompt);
  }

  /**
   * The fixed text every prompt built by `buildPrompt` starts with, up to the
   * word "bias-aware"; the rest of the prompt (context, history, the user's
   * message) follows it.
   */
  const PromptOpening: string := "You are Neufin AI, an intelligent financial assistant specializing in behavioral finance and "

  /** The opening already contains "bias", so the lower-cased prompt does whatever follows it. */
  lemma PromptMentionsBias(rest: string)
    ensures Contains(Lower(PromptOpening + "bias-aware" + rest), "bias")
  {
    var lp := Lower(PromptOpening + "bias-aware" + rest);
    LowerAppend(PromptOpening + "bias-aware", rest);
    LowerAppend(PromptOpening, "bias-aware");
    var n := |PromptOpening|;
    assert lp == Lower(PromptOpening) + Lower("bias-aware") + Lower(rest);
    assert Lower("bias-aware")[..4] == "bias";
    assert lp[n..][..4] == "bias";
    ContainsAt(lp, "bias", n);
  }

  /** Whatever the user writes, the prompt mentions "bias", so `processMessage` always answers with the first canned response. */
  lemma EveryPromptGetsBiasResponse(rest: string)
    ensures ResponseIndex(PromptOpening + "bias-aware" + rest) == 0
    ensures AiResponse(PromptOpening + "bias-aware" + rest) == CannedResponses[0]
  {
    PromptMentionsBias(rest);
  }

  // History

  function Reverse<T>(xs: seq<T>): (r: seq<T>)
    ensures |r| == |xs|
    ensures forall i :: 0 <= i < |xs| ==> r[i] == xs[|xs| - 1 - i]
  {
    seq(|xs|, i requires 0 <= i < |xs| => xs[|xs| - 1 - i])
  }

  lemma ReverseReverse<T>(xs: seq<T>)
    ensures Reverse(Reverse(xs)) == xs
  {
  }

  predicate NewestFirst(ms: seq<ChatMessage>) {
    forall i, j :: 0 <= i < j < |ms| ==> ms[i].timestamp >= ms[j].timestamp
  }

  predicate Chronological(ms: seq<ChatMessage>) {
    forall i, j :: 0 <= i < j < |ms| ==> ms[i].timestamp <= ms[j].timestamp
  }

  const HistoryLimit: nat := 10

  /** A cache read: a stored value, nothing stored, or a read that throws. */
  datatype CacheRead<T> = Hit(value: T) | Miss | ReadFailed

  /**
   * `getConversationHistory`: the cached history if any; else the newest
   * ten rows of the newest-first query, reversed, once their half-hour cache
   * write succeeds. Everything sits in one `try`, so a failing cache read,
   * query or cache write gives no history.
   */
  function ConversationHistory(cache: CacheRead<seq<ChatMessage>>, rows: Option<seq<ChatMessage>>, writeOk: bool)
    : (r: seq<ChatMessage>)
    ensures cache.Hit? ==> r == cache.value
    ensures cache.ReadFailed? || (cache.Miss? && (rows.None? || !writeOk)) ==> r == []
    ensures cache.Miss? && rows.Some? && writeOk ==>
      |r| == (if |rows.value| <= HistoryLimit then |rows.value| else HistoryLimit)
      && forall i :: 0 <= i < |r| ==> r[i] == rows.value[|r| - 1 - i]
  {
    match cache
    case Hit(h) => h
    case ReadFailed => []
    case Miss =>
      if rows.None? || !writeOk then [] else Reverse(Take(rows.value, HistoryLimit))
  }

  /** The history is in chronological order, ending with the newest message, when the query returns newest first. */
  lemma HistoryIsChronological(rows: seq<ChatMessage>)
    requires NewestFirst(rows)
    ensures Chronological(ConversationHistory(Miss, Some(rows), true))
    ensures rows != [] ==> ConversationHistory(Miss, Some(rows), true)[|ConversationHistory(Miss, Some(rows), true)| - 1] == rows[0]
  {
    var h := ConversationHistory(Miss, Some(rows), true);
    var t := Take(rows, HistoryLimit);
    forall i, j | 0 <= i < j < |h| ensures h[i].timestamp <= h[j].timestamp {
      assert h[i] == t[|t| - 1 - i] == rows[|t| - 1 - i];
      assert h[j] == t[|t| - 1 - j] == rows[|t| - 1 - j];
    }
  }

  // Topics

  const TopicNames: seq<string> := ["bias", "portfolio", "risk", "market", "performance", "strategy"]

  const TopicKeywords: seq<seq<string>> := [
    ["bias", "biases", "behavioral", "psychology"],
    ["portfolio", "holdings", "allocation", "diversification"],
    ["risk", "risky", "conservative", "aggressive", "tolerance"],
    ["market", "markets", "stock", "stocks", "trading"],
    ["performance", "returns", "gain", "loss", "profit"],
    ["strategy", "strategies", "plan", "approach"]]

  /** `keywords.some(keyword => text.includes(keyword))` */
  function AnyKeyword(text: string, keywords: seq<string>): (b: bool)
    ensures b <==> exists i :: 0 <= i < |keywords| && Contains(text, keywords[i])
  {
    if keywords == [] then false
    else Contains(text, keywords[0]) || AnyKeyword(text, keywords[1..])
  }

  predicate Mentions(m: ChatMessage, k: nat)
    requires k < |TopicKeywords|
  {
    AnyKeyword(Lower(MessageText(m)), TopicKeywords[k])
  }

  /** Topic `k` is mentioned in one of the first `n` messages. */
  predicate MentionedIn(ms: seq<ChatMessage>, n: nat, k: nat)
    requires n <= |ms| && k < |TopicKeywords|
  {
    exists m :: 0 <= m < n && Mentions(ms[m], k)
  }

  predicate NoDuplicates(xs: seq<string>) {
    forall i, j :: 0 <= i < j < |xs| ==> xs[i] != xs[j]
  }

  lemma TopicNamesDistinct()
    ensures NoDuplicates(TopicNames)
  {
  }

  /**
   * `extractTopics`: the topics some message mentions, each once, in the
   * order they are first found.
   */
  method ExtractTopics(messages: seq<ChatMessage>) returns (topics: seq<string>)
    ensures forall k :: 0 <= k < |TopicNames| ==> (TopicNames[k] in topics <==> MentionedIn(messages, |messages|, k))
    ensures forall t :: t in topics ==> t in TopicNames
    ensures NoDuplicates(topics)
  {
    TopicNamesDistinct();
    topics := [];
    for i := 0 to |messages|
      invariant forall k :: 0 <= k < |TopicNames| ==> (TopicNames[k] in topics <==> MentionedIn(messages, i, k))
      invariant forall t :: t in topics ==> t in TopicNames
      invariant NoDuplicates(topics)
    {
      var text := Lower(MessageText(messages[i]));
      for j := 0 to |TopicNames|
        invariant forall k :: 0 <= k < |TopicNames| ==>
          (TopicNames[k] in topics <==> MentionedIn(messages, i, k) || (k < j && Mentions(messages[i], k)))
        invariant forall t :: t in topics ==> t in TopicNames
        invariant NoDuplicates(topics)
      {
        if AnyKeyword(text, TopicKeywords[j]) && TopicNames[j] !in topics {
          topics := topics + [TopicNames[j]];
        }
      }
      forall k | 0 <= k < |TopicNames|
        ensures MentionedIn(messages, i + 1, k) <==> MentionedIn(messages, i, k) || Mentions(messages[i], k)
      {
        if Mentions(messages[i], k) {
          assert MentionedIn(messages, i + 1, k);
        }
      }
    }
  }

  // Sentiment of a conversation

  const PositiveChatWords: seq<string> := ["good", "great", "excellent", "positive", "helpful", "useful"]
  const NegativeChatWords: seq<string> := ["bad", "terrible", "negative", "unhelpful", "difficult", "confusing"]

  /** The vote of one message: more distinct positive than negative words is positive, and the reverse negative. */
  function Vote(m: ChatMessage): (r: StockService.Sentiment)
    ensures var text := Lower(MessageText(m));
      var p := StockService.CountPresent(PositiveChatWords, text);
      var n := StockService.CountPresent(NegativeChatWords, text);
      (r == StockService.Positive <==> p > n) && (r == StockService.Negative <==> n > p)
  {
    var text := Lower(MessageText(m));
    var p := StockService.CountPresent(PositiveChatWords, text);
    var n := StockService.CountPresent(NegativeChatWords, text);
    if p > n then StockService.Positive
    else if n > p then StockService.Negative
    else StockService.Neutral
  }

  /** The number of messages among `ms` voting `s`. */
  function Votes(ms: seq<ChatMessage>, s: StockService.Sentiment): (n: nat)
    ensures n <= |ms|
  {
    if ms == [] then 0
    else Votes(ms[..|ms| - 1], s) + if Vote(ms[|ms| - 1]) == s then 1 else 0
  }

  /** The overall verdict: a side wins only with strictly more votes than each of the two others. */
  function Verdict(positive: nat, negative: nat, neutral: nat): (r: StockService.Sentiment)
    ensures r == StockService.Positive <==> positive > negative && positive > neutral
    ensures r == StockService.Negative <==> negative > positive && negative > neutral
  {
    if positive > negative && positive > neutral then StockService.Positive
    else if negative > positive && negative > neutral then StockService.Negative
    else StockService.Neutral
  }

  /** Each message votes exactly once. */
  lemma {:induction false} VotesTotal(ms: seq<ChatMessage>)
    ensures Votes(ms, StockService.Positive) + Votes(ms, StockService.Negative) + Votes(ms, StockService.Neutral) == |ms|
  {
    if ms != [] {
      VotesTotal(ms[..|ms| - 1]);
    }
  }

  /** `analyzeSentiment` over a conversation. */
  method ConversationSentiment(messages: seq<ChatMessage>) returns (r: StockService.Sentiment)
    ensures r == Verdict(Votes(messages, StockService.Positive), Votes(messages, StockService.Negative),
                         Votes(messages, StockService.Neutral))
  {
    var positive, negative, neutral := 0, 0, 0;
    for i := 0 to |messages|
      invariant positive == Votes(messages[..i], StockService.Positive)
      invariant negative == Votes(messages[..i], StockService.Negative)
      invariant neutral == Votes(messages[..i], StockService.Neutral)
    {
      assert messages[..i + 1][..i] == messages[..i];
      var text := Lower(MessageText(messages[i]));
      var positiveCount := StockService.CountPresent(PositiveChatWords, text);
      var negativeCount := StockService.CountPresent(NegativeChatWords, text);
      if positiveCount > negativeCount {
        positive := positive + 1;
      } else if negativeCount > positiveCount {
        negative := negative + 1;
      } else {
        neutral := neutral + 1;
      }
    }
    assert messages[..|messages|] == messages;
    r := Verdict(positive, negative, neutral);
  }

  /** A conversation with more than half its messages positive is positive overall; an empty one is neutral. */
  lemma MajorityPositive(ms: seq<ChatMessage>)
    requires 2 * Votes(ms, StockService.Positive) > |ms|
    ensures Verdict(Votes(ms, StockService.Positive), Votes(ms, StockService.Negative),
                    Votes(ms, StockService.Neutral)) == StockService.Positive
  {
    VotesTotal(ms);
  }

  // Engagement

  datatype Engagement = Engagement(score: int, frequency: real)

  /** `Math.round`: halves round up. */
  function RoundHalfUp(x: real): (r: int)
    ensures x - 0.5 < r as real <= x + 0.5
  {
    (x + 0.5).Floor
  }

  function TextLengths(ms: seq<ChatMessage>): (n: nat) {
    if ms == [] then 0 else TextLengths(ms[..|ms| - 1]) + |MessageText(ms[|ms| - 1])|
  }

  /** The unrounded engagement score and message frequency of a non-empty conversation. */
  function RawEngagement(ms: seq<ChatMessage>, now: Millis): (r: (real, real))
    requires ms != []
    ensures 0.0 <= r.0 <= 100.0
    ensures 0.0 <= r.1 <= |ms| as real
    ensures r.1 * Max(1.0, (now as real - ms[|ms| - 1].timestamp as real) / MsPerDay as real) == |ms| as real
  {
    var avgLength := TextLengths(ms) as real / |ms| as real;
    var oldest := ms[|ms| - 1].timestamp;
    var days := Max(1.0, (now as real - oldest as real) / MsPerDay as real);
    var frequency := |ms| as real / days;
    QuotientBounds(TextLengths(ms) as real, |ms| as real);
    QuotientBounds(|ms| as real, days);
    assert frequency * days == |ms| as real;
    (Min(100.0, avgLength / 100.0 * 50.0 + frequency / 10.0 * 50.0), frequency)
  }

  /** `calculateEngagement` */
  function CalculateEngagement(ms: seq<ChatMessage>, now: Millis): (r: Engagement)
    ensures ms == [] ==> r == Engagement(0, 0.0)
  {
    if ms == [] then Engagement(0, 0.0)
    else
      var raw := RawEngagement(ms, now);
      Engagement(RoundHalfUp(raw.0), (RoundHalfUp(raw.1 * 10.0) as real) / 10.0)
  }

  lemma QuotientBounds(a: real, d: real)
    requires a >= 0.0 && d >= 1.0
    ensures 0.0 <= a / d <= a
  {
    assert a / d * d == a;
  }

  /**
   * The score lies in [0, 100] and the frequency is at most the number of
   * messages (the time span is at least one day).
   */
  lemma EngagementBounds(ms: seq<ChatMessage>, now: Millis)
    ensures 0 <= CalculateEngagement(ms, now).score <= 100
    ensures 0.0 <= CalculateEngagement(ms, now).frequency <= |ms| as real
  {
    if ms != [] {
      var n := |ms| as real;
      var avgLength := TextLengths(ms) as real / n;
      var oldest := ms[|ms| - 1].timestamp;
      var days := Max(1.0, (now as real - oldest as real) / MsPerDay as real);
      QuotientBounds(TextLengths(ms) as real, n);
      QuotientBounds(n, days);
      var raw := RawEngagement(ms, now);
      assert raw.1 == n / days;
      assert 0.0 <= raw.0 <= 100.0;
      var f := RoundHalfUp(raw.1 * 10.0);
      assert f as real <= raw.1 * 10.0 + 0.5;
      assert 0 <= f;
      assert f as real <= n * 10.0 + 0.5;
      assert f <= |ms| * 10;
    }
  }
}
