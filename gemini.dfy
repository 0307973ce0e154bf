/**
 * The backend client: how the API key is found and when the client runs in
 * demo mode, what a completion call yields, and what each of the three
 * requests returns, including the fixed content each falls back to instead of
 * throwing.
 */
module Gemini {
  import opened Wrappers
  import opened Text
  import opened Record
  import opened Json
  import opened Analysis
  import opened Catalog

  // ---------------------------------------------------------------------------
  // Messages and replies

  /** The role of a message sent to the completion endpoint. */
  datatype Role = System | User | Assistant

  datatype ChatMessage = ChatMessage(role: Role, content: string)

  /** An entry of the app's chat transcript; `role` is "user" or "model". */
  datatype Turn = Turn(role: string, parts: string)

  /** `choices[i].message`, whose `content` may be missing. */
  datatype Message = Message(content: Option<string>)

  datatype Choice = Choice(message: Option<Message>)

  /** The response body: not JSON at all, or JSON whose `choices` may be missing. */
  datatype Body = Unparsable | Parsed(choices: Option<seq<Choice>>)

  /** What `fetch` produced for one request: a rejection, or a response. */
  datatype Transport = NetworkFailure | Reply(ok: bool, status: int, body: Body)

  /** What a failed completion call throws. */
  datatype CallError = DemoMode | ApiError(status: int) | FetchError

  /** The object `generateYearReview` resolves to: `{ text }`. */
  datatype ReviewResponse = ReviewResponse(text: string)

  const ChatSystemPrompt := "你就是用户2025年记忆的化身。你睿智、平静、亲密。你的声音是莫兰迪色调的——不刺眼，但温润有力。你知道用户今年经历的一切。请用中文简短、深情地回应。"
  const DemoInspiration := "（离线灵感）\n" + "灵感 1: 试着回忆那个午后的阳光。\n" + "灵感 2: 也许是一次微不足道的相遇。"
  const InspirationFallback := "灵感连接中断，请相信你内心的直觉。\n" + "(Connection interrupted, " + "trust your intuition.)"
  const OfflineChatReply := "（离线模式）你的这一年充满了故事，我能感受到你在其中的成长与变化。"
  const ChatFallback := "记忆的信号有些波动... (网络连接中断)"

  // ---------------------------------------------------------------------------
  // Key resolution and demo mode

  /** The build-time key counts only when it is a non-empty string. */
  predicate UsableEnvKey(envKey: Option<string>) {
    envKey.Some? && envKey.value != ""
  }

  /** The key `init` settles on: the build-time key when usable, else the window shim's key or "". */
  function ResolveKey(envKey: Option<string>, windowKey: Option<string>): (k: string)
    ensures UsableEnvKey(envKey) ==> k == envKey.value
    ensures !UsableEnvKey(envKey) ==> k == windowKey.GetOr("")
  {
    if UsableEnvKey(envKey) then envKey.value else windowKey.GetOr("")
  }

  /** A missing key, or the text "undefined" a build substitutes for an unset variable. */
  predicate IsDemoKey(key: string) {
    key == "" || key == "undefined"
  }

  /** Demo mode follows from the two key sources exactly as described here. */
  lemma DemoModeExactly(envKey: Option<string>, windowKey: Option<string>)
    ensures IsDemoKey(ResolveKey(envKey, windowKey)) <==>
      if UsableEnvKey(envKey) then envKey.value == "undefined"
      else windowKey.None? || windowKey.value == "" || windowKey.value == "undefined"
  {
  }

  // ---------------------------------------------------------------------------
  // Completion results

  /** `choices[0]?.message?.content || ''`. */
  function FirstContent(choices: seq<Choice>): (s: string)
    ensures s != "" ==> choices != [] && choices[0].message.Some? && choices[0].message.value.content == Some(s)
  {
    if choices == [] then ""
    else match choices[0].message
      case None => ""
      case Some(m) => m.content.GetOr("")
  }

  /** The content of the first choice comes through whole; anything missing gives "". */
  lemma FirstContentOf(choices: seq<Choice>, s: string)
    ensures (FirstContent(choices) == s && s != "") <==>
      (choices != [] && choices[0].message == Some(Message(Some(s))) && s != "")
  {
  }

  // ---------------------------------------------------------------------------
  // Chat request

  /** A transcript role as the endpoint knows it: "model" turns are the assistant's. */
  function RoleOf(role: string): (r: Role)
    ensures r == Assistant <==> role == "model"
    ensures r != System
  {
    if role == "model" then Assistant else User
  }

  /** The transcript relayed turn by turn. */
  function Relay(history: seq<Turn>): (msgs: seq<ChatMessage>)
    ensures |msgs| == |history|
    ensures forall i :: 0 <= i < |history| ==>
      msgs[i] == ChatMessage(RoleOf(history[i].role), history[i].parts)
  {
    if history == [] then []
    else [ChatMessage(RoleOf(history[0].role), history[0].parts)] + Relay(history[1..])
  }

  /** The messages `chatWithYear` sends: the persona, the transcript, then the new message. */
  function ChatRequest(history: seq<Turn>, message: string): seq<ChatMessage> {
    [ChatMessage(System, ChatSystemPrompt)] + Relay(history) + [ChatMessage(User, message)]
  }

  /** The shape of a chat request, message by message. */
  lemma ChatRequestShape(history: seq<Turn>, message: string)
    ensures var msgs := ChatRequest(history, message);
      && |msgs| == |history| + 2
      && msgs[0] == ChatMessage(System, ChatSystemPrompt)
      && (forall i :: 0 <= i < |history| ==>
            msgs[i + 1] == ChatMessage(RoleOf(history[i].role), history[i].parts))
      && msgs[|history| + 1] == ChatMessage(User, message)
  {
    var msgs := ChatRequest(history, message);
    var relay := Relay(history);
    forall i | 0 <= i < |history|
      ensures msgs[i + 1] == ChatMessage(RoleOf(history[i].role), history[i].parts)
    {
      assert msgs[i + 1] == relay[i];
    }
  }

  /** The system message is the only one with the system role: no transcript entry can pose as it. */
  lemma ChatRequestOneSystemMessage(history: seq<Turn>, message: string, i: int)
    requires 0 < i < |ChatRequest(history, message)|
    ensures ChatRequest(history, message)[i].role != System
  {
    ChatRequestShape(history, message);
    if i <= |history| {
      assert ChatRequest(history, message)[(i - 1) + 1].role == RoleOf(history[i - 1].role);
    }
  }

  // ---------------------------------------------------------------------------
  // The demo analysis

  /** `ctx.toLowerCase()` contains "warm" or "nature". */
  predicate IsWarm(ctx: string) {
    Contains(ToLower(ctx), "warm") || Contains(ToLower(ctx), "nature")
  }

  const WarmPool: seq<Keyword> := [
      Keyword("炽热", "像你选定的底色一样，你的2025在燃烧中完成了某种蜕变。"),
      Keyword("丰盈", "无论得到还是失去，你的生命体验在这一年变得前所未有的饱满。"),
      Keyword("回响", "念念不忘，必有回响。你付出的那些坚持，此刻正以另一种方式归来。")
    ]

  const CoolPool: seq<Keyword> := [
      Keyword("沉淀", "像一颗石子落入深海，你在喧嚣中找到了属于自己的重力。"),
      Keyword("如常", "在无常的世界里，保持如常的生活节奏，这本身就是一种英雄主义。"),
      Keyword("自洽", "不再寻求外界的认可，而是向内寻找逻辑，你完成了一次完美的闭环。")
    ]

  const MockMentalCore := "你正在经历一个向内探索的关键期。相比于外界的喧嚣，你更在意内心的秩序与安宁。"
  const MockActionPattern := "看似按部就班，实则在每一个微小的选择中都埋下了伏笔。"
  const MockLetterTitle := "致 2025 的漫步者"
  const MockLetterBody := "亲爱的，见信如晤。\n\n当我翻阅你刚刚写下的这些答案，我仿佛看到你在这一年的光影里穿行的背影。虽然暂时无法通过DeepSeek连接到你的故事，但我依然能从这些只言片语中，感受到你心脏跳动的频率。\n\n2025 年对你来说，或许并不是波澜壮阔的一年，但一定是在细节处见真章的一年。你在那些看似不起眼的瞬间里——一个发呆的午后，一次勇敢的拒绝，或是一首循环播放的老歌——完成了自我的重塑。你不再急于向世界证明什么，而是更愿意花时间与自己相处，这份“向内”的力量，是你今年最大的收获。\n\n不用遗憾我们未能通过网络相连，因为最深刻的答案，往往不需要AI来生成，它就藏在你敲下每一个字符时的犹豫与坚定里。\n\n愿你在未来的日子里，继续保持这份对生活的敏感与深情。\n\n在 2026 的入口处，请带上这份勇气。"

  /** The keywords of the demo analysis: the warm pool exactly for a warm context. */
  function KeywordsPool(ctx: string): (ks: seq<Keyword>)
    ensures |ks| == 3
    ensures ks == WarmPool <==> IsWarm(ctx)
    ensures ks == CoolPool <==> !IsWarm(ctx)
  {
    assert WarmPool[0] != CoolPool[0];
    if IsWarm(ctx) then WarmPool else CoolPool
  }

  /** The emotional tone sentence, which names the temperature of the context. */
  function MockTone(warm: bool): string {
    "正如你选择的底色，这一年你的基调是" + (if warm then "温暖而坚定" else "冷静而深邃") + "的。"
  }

  /** `mockData` for a colour context. */
  function MockData(ctx: string): AnalysisResult {
    AnalysisResult(
      KeywordsPool(ctx),
      Portrait(MockMentalCore, MockActionPattern, MockTone(IsWarm(ctx))),
      MockLetterTitle,
      MockLetterBody)
  }

  /** `getMockAnalysisResult`: the demo analysis as the text a backend would have sent. */
  function MockAnalysisResult(ctx: string): ReviewResponse {
    ReviewResponse(StringifyAnalysis(MockData(ctx)))
  }

  /** Lower-casing is pointwise, so it commutes with concatenation. */
  lemma ToLowerAppend(x: string, y: string)
    ensures ToLower(x + y) == ToLower(x) + ToLower(y)
  {
    var l, r := ToLower(x + y), ToLower(x) + ToLower(y);
    assert |l| == |r|;
    forall i | 0 <= i < |l| ensures l[i] == r[i] {
      if i < |x| {
        assert (x + y)[i] == x[i];
      } else {
        assert (x + y)[i] == y[i - |x|];
      }
    }
  }

  /**
   * A context that mentions "warm" or "nature" in any mix of cases, anywhere,
   * gets the warm pool.
   */
  lemma WarmWhenMentioned(before: string, word: string, after: string)
    requires ToLower(word) == "warm" || ToLower(word) == "nature"
    ensures IsWarm(before + word + after)
  {
    var s := ToLower(before + word + after);
    ToLowerAppend(before + word, after);
    ToLowerAppend(before, word);
    assert s == ToLower(before) + ToLower(word) + ToLower(after);
    var i := |before|;
    assert s[i..i + |word|] == ToLower(word);
    assert OccursAt(s, ToLower(word), i);
  }

  /** A context with no "w" cannot contain "warm". */
  lemma NotContainsMissing(s: string, sub: string, k: int)
    requires 0 <= k < |sub| && sub[k] !in s
    ensures !Contains(s, sub)
  {
    forall i | 0 <= i <= |s| - |sub| ensures !OccursAt(s, sub, i) {
      assert s[i + k] in s;
      assert s[i..i + |sub|][k] == s[i + k];
    }
  }

  /** Without a chosen colour the context is "Neutral", which gets the cool pool. */
  lemma LowerNeutral()
    ensures ToLower("Neutral") == "neutral"
  {
  }

  lemma NeutralLacksWords()
    ensures !Contains("neutral", "warm") && !Contains("neutral", "nature")
  {
    var s := "neutral";
    NotContainsMissing(s, "warm", 0);
    assert !OccursAt(s, "nature", 0) by { assert s[1] != "nature"[1]; }
    assert !OccursAt(s, "nature", 1) by { assert s[1] != "nature"[0]; }
  }

  lemma NeutralIsCool()
    ensures !IsWarm("Neutral")
  {
    LowerNeutral();
    NeutralLacksWords();
  }

  // ---------------------------------------------------------------------------
  // The client

  lemma FixedRepliesTrimmed()
    ensures IsTrimmed(DemoInspiration) && IsTrimmed(InspirationFallback)
  {
    var d, f := DemoInspiration, InspirationFallback;
    assert d[0] == '（' && d[|d| - 1] == '。';
    assert f[0] == '灵' && f[|f| - 1] == ')';
  }

  /** The messages a chat request carries, built turn by turn as `chatWithYear` pushes them. */
  method BuildChatMessages(history: seq<Turn>, message: string) returns (msgs: seq<ChatMessage>)
    ensures msgs == ChatRequest(history, message)
  {
    msgs := [ChatMessage(System, ChatSystemPrompt)];
    var i := 0;
    while i < |history|
      invariant 0 <= i <= |history|
      invariant |msgs| == i + 1
      invariant msgs[0] == ChatMessage(System, ChatSystemPrompt)
      invariant forall k :: 0 <= k < i ==>
        msgs[k + 1] == ChatMessage(RoleOf(history[k].role), history[k].parts)
    {
      var h := history[i];
      msgs := msgs + [ChatMessage(if h.role == "model" then Assistant else User, h.parts)];
      i := i + 1;
    }
    msgs := msgs + [ChatMessage(User, message)];
    ChatRequestShape(history, message);
    var expected := ChatRequest(history, message);
    assert |msgs| == |expected|;
    forall k | 0 <= k < |msgs| ensures msgs[k] == expected[k] {
      if 0 < k <= |history| {
        assert msgs[(k - 1) + 1] == expected[(k - 1) + 1];
      }
    }
  }

  class GeminiService {
    var apiKey: string
    var isDemoMode: bool

    constructor(envKey: Option<string>, windowKey: Option<string>)
      ensures apiKey == ResolveKey(envKey, windowKey)
      ensures isDemoMode == IsDemoKey(apiKey)
    {
      apiKey := "";
      isDemoMode := false;
      new;
      Init(envKey, windowKey);
    }

    /**
     * `init`: takes the build-time key when it is a non-empty string, else the
     * window shim's, and switches demo mode on when no usable key was found.
     */
    method Init(envKey: Option<string>, windowKey: Option<string>)
      modifies this`apiKey, this`isDemoMode
      ensures apiKey == ResolveKey(envKey, windowKey)
      ensures isDemoMode == (old(isDemoMode) || IsDemoKey(apiKey))
    {
      var key := "";
      if envKey.Some? && envKey.value != "" {
        key := envKey.value;
      }
      if key == "" {
        key := windowKey.GetOr("");
      }
      apiKey := key;
      if key == "" || key == "undefined" {
        isDemoMode := true;
      }
    }

    /**
     * `callDeepSeek`: throws in demo mode, on a rejected fetch, on a non-ok
     * status and on a body without `choices`; otherwise yields the first
     * choice's content, or "".
     */
    function CallDeepSeek(t: Transport): (r: Result<string, CallError>)
      reads this
      ensures isDemoMode ==> r == Failure(DemoMode)
      ensures r.Success? <==>
        !isDemoMode && t.Reply? && t.ok && t.body.Parsed? && t.body.choices.Some?
      ensures r.Success? ==> r.value == FirstContent(t.body.choices.value)
      ensures !isDemoMode && t.Reply? && !t.ok ==> r == Failure(ApiError(t.status))
    {
      if isDemoMode then Failure(DemoMode)
      else match t
        case NetworkFailure => Failure(FetchError)
        case Reply(ok, status, body) =>
          if !ok then Failure(ApiError(status))
          else match body
            case Unparsable => Failure(FetchError)
            case Parsed(None) => Failure(FetchError)
            case Parsed(Some(choices)) => Success(FirstContent(choices))
    }

    /**
     * `generateInspiration`: never throws. The demo text in demo mode, the
     * trimmed reply when the call succeeds, the fixed fallback otherwise;
     * whichever it is, it has no surrounding whitespace.
     */
    function GenerateInspiration(questionText: string, t: Transport): (r: string)
      reads this
      ensures IsTrimmed(r)
      ensures isDemoMode ==> r == DemoInspiration
      ensures !isDemoMode && CallDeepSeek(t).Failure? ==> r == InspirationFallback
      ensures !isDemoMode && CallDeepSeek(t).Success? ==>
        r == Trim(CallDeepSeek(t).value) && NonSpace(r) == NonSpace(CallDeepSeek(t).value)
    {
      FixedRepliesTrimmed();
      if isDemoMode then DemoInspiration
      else match CallDeepSeek(t)
        case Success(text) =>
          NonSpaceOfTrim(text);
          Trim(text)
        case Failure(_) => InspirationFallback
    }

    /**
     * `generateYearReview`: never throws. The backend's text when the call
     * succeeds; in demo mode and on any failure, the demo analysis for the
     * colour context.
     */
    function GenerateYearReview(answers: Record, colorContext: string, t: Transport): (r: ReviewResponse)
      reads this
      ensures isDemoMode || CallDeepSeek(t).Failure? ==> r == MockAnalysisResult(colorContext)
      ensures !isDemoMode && CallDeepSeek(t).Success? ==> r.text == CallDeepSeek(t).value
    {
      if isDemoMode then MockAnalysisResult(colorContext)
      else
        var result := CallDeepSeek(t);
        if result.Success? then ReviewResponse(result.value) else MockAnalysisResult(colorContext)
    }

    /**
     * `chatWithYear`: never throws. The offline reply in demo mode; otherwise
     * the reply to the request built from the transcript and the message, or
     * the fixed fallback when that call fails. `backend` stands for the
     * endpoint: what `fetch` yields for a given list of messages.
     */
    method ChatWithYear(history: seq<Turn>, message: string, backend: seq<ChatMessage> -> Transport)
      returns (reply: string)
      ensures isDemoMode ==> reply == OfflineChatReply
      ensures !isDemoMode ==>
        var r := CallDeepSeek(backend(ChatRequest(history, message)));
        reply == (if r.Success? then r.value else ChatFallback)
    {
      if isDemoMode {
        return OfflineChatReply;
      }
      var messages := BuildChatMessages(history, message);
      var r := CallDeepSeek(backend(messages));
      if r.Success? {
        reply := r.value;
      } else {
        reply := ChatFallback;
      }
    }
  }
}
