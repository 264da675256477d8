/**
 * The schedule inject handler of handlers/handlers.py: it reads the user's
 * text from an incoming message, runs the daily check, looks up the
 * current schedule through a quarter-hour cache, decides in one of three
 * modes whether and what to inject, records the turn in the conversation
 * context, and prepends the content to the LLM prompt.
 */
module ScheduleInjection {
  import opened Wrappers
  import opened Strings
  import opened GoalManagement
  import opened IntentClassification
  import opened ScheduleResolution
  import Ctx = ContextCaching
  import Tpl = ContentTemplates
  import Opt = InjectOptimization

  // ---------------------------------------------------------------------
  // The incoming message
  // ---------------------------------------------------------------------

  /**
   * The parts of a message the handler reads: `message_base_info` (its
   * values as text), `raw_message`, `plain_text`, `stream_id` and
   * `llm_prompt`.
   */
  datatype Message = Message(
    baseInfo: map<string, string>,
    rawMessage: Option<string>,
    plainText: Option<string>,
    streamId: Option<string>,
    llmPrompt: Option<string>)

  /** The marker of a forwarded group-chat transcript. */
  const ChatRecordMarker := "群里正在进行的聊天内容"

  /** `info.get(key)` with a missing key read as the empty (falsy) text. */
  function InfoGet(info: map<string, string>, key: string): string {
    if key in info then info[key] else ""
  }

  /** The first non-empty of the base info's "message", "original_message" and "content". */
  function BaseInfoText(info: map<string, string>): string {
    if InfoGet(info, "message") != "" then InfoGet(info, "message")
    else if InfoGet(info, "original_message") != "" then InfoGet(info, "original_message")
    else InfoGet(info, "content")
  }

  /** A raw or plain text the handler accepts: short and not a forwarded transcript. */
  predicate UsableSource(s: Option<string>) {
    Truthy(s) && !Contains(s.value, ChatRecordMarker) && |s.value| < 200
  }

  /**
   * `_extract_user_message`: the base info's text when there is one, else
   * the raw message, else the plain text, each only when usable; "" when
   * none is.
   */
  function ExtractUserMessage(m: Message): (r: string)
    ensures BaseInfoText(m.baseInfo) != "" ==> r == BaseInfoText(m.baseInfo)
    ensures r == "" <==> BaseInfoText(m.baseInfo) == "" && !UsableSource(m.rawMessage) && !UsableSource(m.plainText)
    ensures BaseInfoText(m.baseInfo) == "" && UsableSource(m.rawMessage) ==> Some(r) == m.rawMessage
    ensures r != BaseInfoText(m.baseInfo) ==>
              |r| < 200 && !Contains(r, ChatRecordMarker) && (Some(r) == m.rawMessage || Some(r) == m.plainText)
  {
    var fromInfo := BaseInfoText(m.baseInfo);
    if fromInfo != "" then fromInfo
    else if UsableSource(m.rawMessage) then m.rawMessage.value
    else if UsableSource(m.plainText) then m.plainText.value
    else ""
  }

  /** `_get_user_id`: the base info's "user_id", or "unknown". */
  function GetUserId(m: Message): string {
    if "user_id" in m.baseInfo then m.baseInfo["user_id"] else "unknown"
  }

  /** The id `execute` rebinds to before generating the day's schedule: the base info's "user_id", or "system". */
  function GenerationUserId(m: Message): string {
    if "user_id" in m.baseInfo then m.baseInfo["user_id"] else "system"
  }

  /**
   * The two ids agree exactly when the message carries a user id; without
   * one, the message is handled as "unknown" on a day whose schedule
   * exists and as "system" on a day the check finds none.
   */
  lemma UserIdRebinding(m: Message)
    ensures GenerationUserId(m) == GetUserId(m) <==> "user_id" in m.baseInfo
    ensures "user_id" !in m.baseInfo ==> GetUserId(m) == "unknown" && GenerationUserId(m) == "system"
  {
    assert "unknown"[0] != "system"[0];
  }

  // ---------------------------------------------------------------------
  // `_should_inject_schedule`
  // ---------------------------------------------------------------------

  /** Some keyword of `kws` occurs in `m`. */
  predicate AnyKeyword(m: string, kws: seq<string>) {
    exists k :: k in kws && Contains(m, k)
  }

  /** The time keywords of the keyword fallback. */
  const TimeKeywords: seq<string> := [
    "现在", "当前", "正在", "在做", "在干",
    "今天", "今日", "今早", "今晚",
    "明天", "昨天", "后天", "前天",
    "几点", "什么时候", "多久", "时间",
    "安排", "计划", "日程", "行程",
    "接下来", "等下", "稍后", "之后",
    "早上", "中午", "下午", "晚上", "夜里",
    "忙", "空闲", "有空", "在忙",
    "做什么", "干什么", "要做"]

  /**
   * `_should_inject_schedule`: no text, no injection; with the classifier
   * loaded, everything but a technical question or a command; without it,
   * a time keyword, or a message of fewer than 5 characters holding a
   * question mark.
   */
  function ShouldInjectSchedule(m: Message, classifierLoaded: bool): (r: bool)
    ensures r ==> ExtractUserMessage(m) != ""
    ensures classifierLoaded ==>
              (r <==> ExtractUserMessage(m) != ""
                      && Classify(ExtractUserMessage(m)).0 != TechQuestion
                      && Classify(ExtractUserMessage(m)).0 != CommandExecution)
    ensures !classifierLoaded ==>
              (r <==> var text := ExtractUserMessage(m);
                      text != "" && (AnyKeyword(text, TimeKeywords) || (|text| < 5 && (Contains(text, "?") || Contains(text, "？")))))
  {
    var text := ExtractUserMessage(m);
    if text == "" then false
    else if classifierLoaded then !ExcludedByValue(Classify(text).0)
    else AnyKeyword(text, TimeKeywords) || (|text| < 5 && (Contains(text, "?") || Contains(text, "？")))
  }

  /** The test on the intent's string value: `intent.value in ["tech_question", "command"]`. */
  function ExcludedByValue(intent: UserIntent): (r: bool)
    ensures r <==> intent == TechQuestion || intent == CommandExecution
  {
    intent.Value() in ["tech_question", "command"]
  }

  /** Without the classifier, a message whose text holds one of the time keywords (at `i`) is injected. */
  lemma TimeKeywordInjected(m: Message, k: string, i: nat)
    requires k in TimeKeywords
    requires i + |k| <= |ExtractUserMessage(m)| && ExtractUserMessage(m)[i..i + |k|] == k
    ensures ShouldInjectSchedule(m, false)
  {
    ContainsAt(ExtractUserMessage(m), k, i);
  }

  /**
   * A text of fewer than five characters with an ASCII or a full-width
   * question mark at any place is injected by the keyword fallback, time
   * keyword or not.
   */
  lemma ShortQuestionInjected(m: Message, i: nat)
    requires i < |ExtractUserMessage(m)| < 5
    requires ExtractUserMessage(m)[i] == '?' || ExtractUserMessage(m)[i] == '？'
    ensures ShouldInjectSchedule(m, false)
  {
    var text := ExtractUserMessage(m);
    if text[i] == '?' {
      ContainsAt(text, "?", i);
    } else {
      ContainsAt(text, "？", i);
    }
  }

  // ---------------------------------------------------------------------
  // `_build_smart_inject_prompt`
  // ---------------------------------------------------------------------

  const DirectQueryKeywords: seq<string> := [
    "在干嘛", "做什么", "忙吗", "在做", "正在", "日程", "计划", "安排", "行程", "现在", "当前", "这会儿"]
  const FutureQueryKeywords: seq<string> := [
    "接下来", "等下", "稍后", "之后", "待会", "明天", "今晚", "晚上", "下午", "上午"]
  const GreetingKeywords: seq<string> := [
    "早上好", "晚上好", "早安", "晚安", "你好", "hi", "hello", "嗨"]
  const TechQueryKeywords: seq<string> := [
    "怎么", "如何", "为什么", "什么是", "报错", "错误", "bug", "异常", "代码", "配置", "安装", "调试"]
  /** The shorter tech list smart mode skips on. */
  const SmartTechKeywords: seq<string> := ["怎么", "如何", "报错", "错误", "bug", "代码", "配置"]

  /** The usage guidance the smart prompt closes with. */
  datatype Guidance = CommandGuidance | TechGuidance | DirectGuidance | FutureGuidance | GreetingGuidance | DefaultGuidance

  /** `startswith('/') or startswith('sudo')`, on the text as received. */
  predicate StartsAsCommand(s: string) {
    StartsWith(s, "/") || StartsWith(s, "sudo")
  }

  /**
   * The guidance for a message: command, then technical question, direct
   * query, future query, greeting, default, the first that applies; the
   * keyword tests read the lowercased text.
   */
  function GuidanceFor(userMessage: string): (r: Guidance)
    ensures var low := Lower(userMessage);
      (r == CommandGuidance <==> StartsAsCommand(userMessage))
      && (r == TechGuidance <==> !StartsAsCommand(userMessage) && AnyKeyword(low, TechQueryKeywords))
      && (r == DirectGuidance <==>
            !StartsAsCommand(userMessage) && !AnyKeyword(low, TechQueryKeywords) && AnyKeyword(low, DirectQueryKeywords))
      && (r == FutureGuidance <==>
            !StartsAsCommand(userMessage) && !AnyKeyword(low, TechQueryKeywords) && !AnyKeyword(low, DirectQueryKeywords)
            && AnyKeyword(low, FutureQueryKeywords))
      && (r == GreetingGuidance <==>
            !StartsAsCommand(userMessage) && !AnyKeyword(low, TechQueryKeywords) && !AnyKeyword(low, DirectQueryKeywords)
            && !AnyKeyword(low, FutureQueryKeywords) && AnyKeyword(low, GreetingKeywords))
  {
    var low := Lower(userMessage);
    if StartsAsCommand(userMessage) then CommandGuidance
    else if AnyKeyword(low, TechQueryKeywords) then TechGuidance
    else if AnyKeyword(low, DirectQueryKeywords) then DirectGuidance
    else if AnyKeyword(low, FutureQueryKeywords) then FutureGuidance
    else if AnyKeyword(low, GreetingKeywords) then GreetingGuidance
    else DefaultGuidance
  }

  function GuidanceLines(g: Guidance): seq<string> {
    match g
    case CommandGuidance => ["⚠️ 用户正在执行命令，请忽略以上日程信息，专注处理命令。"]
    case TechGuidance => ["⚠️ 用户在询问技术问题，请忽略以上日程信息，专注回答技术内容。"]
    case DirectGuidance => ["💡 用户直接询问当前状态，请如实告知当前活动及状态。"]
    case FutureGuidance => ["💡 用户询问未来计划，请自然地介绍后续安排。"]
    case GreetingGuidance => ["💡 用户在问候，可以自然地顺便提一下今天的计划（可选，不要强行提及）。"]
    case DefaultGuidance => [
      "💡 以上是Bot当前的日程信息，仅供参考。",
      "   - 如果与用户问题相关，可以自然提及",
      "   - 如果不相关，请完全忽略此信息",
      "   - 不要为了提及日程而刻意转移话题"]
  }

  /**
   * The plan lines: a heading and one "  HH:MM - name" line for each of the
   * first `maxShow` goals to come (Python's slice for a negative bound);
   * nothing for an empty list.
   */
  function FutureLines(future: seq<(string, string)>, maxShow: int): (r: seq<string>)
    ensures future == [] ==> r == []
    ensures future != [] ==> |r| == 1 + |PyTake(future, maxShow)| && r[0] == "接下来的安排:"
    ensures maxShow >= 0 ==> |r| <= 1 + maxShow
    ensures forall i :: 1 <= i < |r| ==> r[i] == "  " + future[i - 1].0 + " - " + future[i - 1].1
  {
    if future == [] then []
    else
      var shown := PyTake(future, maxShow);
      ["接下来的安排:"] + seq(|shown|, i requires 0 <= i < |shown| => "  " + shown[i].0 + " - " + shown[i].1)
  }

  const SmartHeading := "【可选上下文 - Bot的当前日程】"

  /** The label of the current-activity line. */
  const NowLabel := "现在："
  /** The rule and the empty lines that close the smart prompt. */
  const PromptClosing: seq<string> := ["", "---", ""]

  /** The smart prompt's lines after the current activity: the plan, an empty line, the guidance and the closing rule. */
  function PromptBody(future: seq<(string, string)>, userMessage: string, maxShow: int): seq<string> {
    FutureLines(future, maxShow) + [""] + GuidanceLines(GuidanceFor(userMessage)) + PromptClosing
  }

  function PromptLines(current: string, description: Option<string>, future: seq<(string, string)>,
                       userMessage: string, maxShow: int): seq<string>
  {
    [SmartHeading, NowLabel + current + "（" + Show(description) + "）"] + PromptBody(future, userMessage, maxShow)
  }


  /** Joining a first part onto the rest puts one separator between them. */
  lemma JoinCons(a: string, rest: seq<string>, sep: string)
    requires |rest| > 0
    ensures Join([a] + rest, sep) == a + sep + Join(rest, sep)
  {
    assert ([a] + rest)[1..] == rest;
  }

  lemma {:induction false} JoinAppend(a: seq<string>, b: seq<string>, sep: string)
    requires |a| > 0 && |b| > 0
    ensures Join(a + b, sep) == Join(a, sep) + sep + Join(b, sep)
  {
    if |a| == 1 {
      assert a + b == [a[0]] + b;
      JoinCons(a[0], b, sep);
    } else {
      assert a + b == [a[0]] + (a[1..] + b);
      JoinCons(a[0], a[1..] + b, sep);
      JoinAppend(a[1..], b, sep);
      assert a == [a[0]] + a[1..];
      JoinCons(a[0], a[1..], sep);
    }
  }

  lemma StartsWithConcat(x: string, y: string)
    ensures StartsWith(x + y, x)
  {
    assert (x + y)[..|x|] == x;
  }

  lemma EndsWithConcat(x: string, y: string)
    ensures EndsWith(x + y, y)
  {
    assert (x + y)[|x + y| - |y|..] == y;
  }

  lemma StartsWithShorter(x: string, p: string, q: string)
    requires StartsWith(x, p + q)
    ensures StartsWith(x, p)
  {
    assert x[..|p|] == (p + q)[..|p|];
  }

  lemma JoinOpens(h: string, next: string, rest: seq<string>, sep: string)
    requires |rest| > 0
    ensures StartsWith(Join([h, next] + rest, sep), h + sep + next)
  {
    assert [h, next] + rest == [h] + ([next] + rest);
    JoinCons(h, [next] + rest, sep);
    JoinCons(next, rest, sep);
    StartsWithConcat(h + sep + next, sep + Join(rest, sep));
  }

  /** The same, when the second part is itself `p + q`: the join opens through `p`. */
  lemma OpensThrough(h: string, sep: string, p: string, q: string, rest: seq<string>)
    requires |rest| > 0
    ensures StartsWith(Join([h, p + q] + rest, sep), h + sep + p)
  {
    JoinOpens(h, p + q, rest, sep);
    assert h + sep + (p + q) == h + sep + p + q;
    StartsWithShorter(Join([h, p + q] + rest, sep), h + sep + p, q);
  }

  /** The joined smart prompt opens with the heading and the current activity. */
  lemma SmartPromptOpening(current: string, description: Option<string>, future: seq<(string, string)>,
                           userMessage: string, maxShow: int)
    ensures StartsWith(Join(PromptLines(current, description, future, userMessage, maxShow), "\n"),
                       SmartHeading + "\n" + NowLabel + current)
  {
    var p, q := NowLabel + current, "（" + Show(description) + "）";
    assert NowLabel + current + "（" + Show(description) + "）" == p + q;
    OpensThrough(SmartHeading, "\n", p, q, PromptBody(future, userMessage, maxShow));
  }

  /** The closing lines join to the rule between two newlines. */
  lemma JoinedClosing()
    ensures Join(PromptClosing, "\n") == "\n---\n"
  {
    JoinCons("", ["---", ""], "\n");
    JoinCons("---", [""], "\n");
  }

  /** The joined smart prompt closes with the rule line and an empty line. */
  lemma SmartPromptClosing(current: string, description: Option<string>, future: seq<(string, string)>,
                           userMessage: string, maxShow: int)
    ensures EndsWith(Join(PromptLines(current, description, future, userMessage, maxShow), "\n"), "\n---\n")
  {
    var now := NowLabel + current + "（" + Show(description) + "）";
    var front := [SmartHeading, now] + FutureLines(future, maxShow) + [""] + GuidanceLines(GuidanceFor(userMessage));
    assert PromptLines(current, description, future, userMessage, maxShow) == front + PromptClosing;
    JoinAppend(front, PromptClosing, "\n");
    JoinedClosing();
    EndsWithConcat(Join(front, "\n") + "\n", "\n---\n");
  }

  /**
   * The smart prompt: the schedule lines, the plan, the guidance and a
   * closing rule, joined by newlines; it opens with the heading and the
   * current activity and ends with the rule line.
   */
  function BuildSmartInjectPrompt(current: string, description: Option<string>, future: seq<(string, string)>,
                                  userMessage: string, maxShow: int): (r: string)
    ensures StartsWith(r, SmartHeading + "\n" + NowLabel + current)
    ensures EndsWith(r, "\n---\n")
  {
    SmartPromptOpening(current, description, future, userMessage, maxShow);
    SmartPromptClosing(current, description, future, userMessage, maxShow);
    Join(PromptLines(current, description, future, userMessage, maxShow), "\n")
  }

  /** Smart mode's lightweight skip: a command, or one of its shorter list of tech keywords. */
  predicate SmartSkips(text: string) {
    StartsAsCommand(text) || AnyKeyword(Lower(text), SmartTechKeywords)
  }

  /**
   * Smart mode's skip list lies inside the prompt's tech list: a message
   * smart mode skips would get the command or tech guidance, and a message
   * it injects never gets the command guidance.
   */
  lemma SmartSkipMatchesGuidance(text: string)
    ensures SmartSkips(text) ==> GuidanceFor(text) == CommandGuidance || GuidanceFor(text) == TechGuidance
    ensures !SmartSkips(text) ==> GuidanceFor(text) != CommandGuidance
  {
    if SmartSkips(text) && !StartsAsCommand(text) {
      var k :| k in SmartTechKeywords && Contains(Lower(text), k);
      assert k in TechQueryKeywords;
    }
  }

  /**
   * The traditional block: the current activity, its description in
   * brackets when non-empty, the reminder line, the first goal to come
   * when there is one, and a closing newline.
   */
  function TraditionalContent(current: string, description: Option<string>, future: seq<(string, string)>): (r: string)
    ensures StartsWith(r, "【当前状态】\n这会儿正" + current)
    ensures EndsWith(r, "\n")
    ensures future != [] ==> Contains(r, "\n等下" + future[0].0 + "要" + future[0].1 + "。")
    ensures Truthy(description) ==> Contains(r, "（" + description.value + "）")
  {
    var head := "【当前状态】\n这会儿正" + current;
    var desc := if Truthy(description) then "（" + description.value + "）" else "";
    var remind := "\n回复时可以自然提到当前在做什么，不要刻意强调。";
    var next := if future != [] then "\n等下" + future[0].0 + "要" + future[0].1 + "。" else "";
    var r := head + desc + remind + next + "\n";
    assert r[..|head|] == head;
    assert future != [] ==> Contains(r, next) by {
      if future != [] {
        var at := |head + desc + remind|;
        assert r[at..at + |next|] == next;
        ContainsAt(r, next, at);
      }
    }
    assert Truthy(description) ==> Contains(r, desc) by {
      if Truthy(description) {
        assert r[|head|..|head| + |desc|] == desc;
        ContainsAt(r, desc, |head|);
      }
    }
    r
  }

  // ---------------------------------------------------------------------
  // Modes, decisions and the recorded turns
  // ---------------------------------------------------------------------

  /** The handler's configuration as read at start-up, with its defaults given by the caller. */
  datatype HandlerConfig = HandlerConfig(
    enabled: bool,
    injectSchedule: bool,
    autoGenerate: bool,
    injectMode: string,
    intentClassification: bool,
    stateAnalysis: bool,
    injectOptimization: bool,
    casualInjectProbability: real,
    contextMaxTurns: nat,
    contextTtl: real,
    maxFutureActivities: int,
    scheduleCacheTtl: real)

  datatype InjectMode = SmartMode | RuleMode | TraditionalMode

  /** "smart"; "rule" when the classifier and the optimizer are loaded; anything else is traditional. */
  function ModeOf(c: HandlerConfig): InjectMode {
    if c.injectMode == "smart" then SmartMode
    else if c.injectMode == "rule" && c.intentClassification && c.injectOptimization then RuleMode
    else TraditionalMode
  }

  /** The sweep interval of the schedule cache, in seconds. */
  const CacheCleanupInterval: real := 600.0

  /**
   * What one message leads to once a current activity is known: the
   * content (None when nothing is built), whether it counts as injected,
   * the intent recorded with the turn, the intent of the turn a skip branch
   * records (None when no skip branch ran), and the intent the optimizer
   * records an injection for.
   */
  datatype Decision = Decision(
    content: Option<string>,
    injected: bool,
    detected: Option<string>,
    skip: Option<Option<string>>,
    recorded: Option<UserIntent>)

  /** The turns `execute` records for a decision: the skip branch's, then the closing one. */
  function TurnsAsWritten(d: Decision, text: string, now: real, current: string): seq<Ctx.ConversationTurn> {
    (if d.skip.Some? then [Ctx.ConversationTurn(text, now, d.skip.value, false, Some(current))] else [])
    + [Ctx.ConversationTurn(text, now, d.detected, d.injected, Some(current))]
  }

  /** One turn per message: the skip branch's turn when it ran, otherwise the closing one. */
  function TurnOf(d: Decision, text: string, now: real, current: string): Ctx.ConversationTurn {
    if d.skip.Some? then Ctx.ConversationTurn(text, now, d.skip.value, false, Some(current))
    else Ctx.ConversationTurn(text, now, d.detected, d.injected, Some(current))
  }

  function PushAll(w: seq<Ctx.ConversationTurn>, turns: seq<Ctx.ConversationTurn>, maxTurns: nat): seq<Ctx.ConversationTurn>
    decreases |turns|
  {
    if turns == [] then w else PushAll(Ctx.Push(w, turns[0], maxTurns), turns[1..], maxTurns)
  }

  /** The continuation rule on a window: the newest live turn is at most 60 seconds old and one of the last two live turns was injected. */
  predicate OngoingIn(w: seq<Ctx.ConversationTurn>, now: real, ttl: real) {
    var live := Ctx.FreshTurns(w, now, ttl);
    |live| > 0 && now - live[|live| - 1].timestamp <= 60.0
    && (live[|live| - 1].injected || (|live| > 1 && live[|live| - 2].injected))
  }

  /** The cache's own rule is the window rule on the user's window. */
  lemma OngoingInMatches(c: Ctx.ConversationContextCache, userId: string, now: real)
    ensures c.IsScheduleTopicOngoing(userId, now) <==> OngoingIn(c.Window(userId), now, c.ttl)
  {
    c.OngoingByLastTwo(userId, now);
  }

  /** Pushing onto a non-empty window of at most `maxTurns` (two or more) keeps its newest turn just before the new one. */
  lemma PushKeepsNewest(w: seq<Ctx.ConversationTurn>, t: Ctx.ConversationTurn, maxTurns: nat)
    requires maxTurns >= 2 && 0 < |w| <= maxTurns
    ensures var r := Ctx.Push(w, t, maxTurns);
      |r| >= 2 && |r| <= maxTurns && r[|r| - 1] == t && r[|r| - 2] == w[|w| - 1]
  {
  }

  /** When the last two turns are live, they are the last two live turns. */
  lemma {:induction false} LiveTail(r: seq<Ctx.ConversationTurn>, now: real, ttl: real)
    requires |r| >= 2 && Ctx.Fresh(r[|r| - 1], now, ttl) && Ctx.Fresh(r[|r| - 2], now, ttl)
    ensures var live := Ctx.FreshTurns(r, now, ttl);
      |live| >= 2 && live[|live| - 1] == r[|r| - 1] && live[|live| - 2] == r[|r| - 2]
  {
    var front := r[..|r| - 2];
    assert r == front + [r[|r| - 2]] + [r[|r| - 1]];
    Ctx.FreshTurnsSnoc(front, r[|r| - 2], now, ttl);
    Ctx.FreshTurnsSnoc(front + [r[|r| - 2]], r[|r| - 1], now, ttl);
  }

  /**
   * As written, a skipped message is recorded twice, by its skip branch and
   * again by the closing record, both not injected: whatever came before,
   * the two records fill the last two places and the continuation rule no
   * longer sees the injected turn before them.
   */
  lemma SkipAsWrittenEndsTopic(w: seq<Ctx.ConversationTurn>, d: Decision, text: string, now: real, current: string,
                               maxTurns: nat, ttl: real)
    requires d.skip.Some? && !d.injected && maxTurns >= 2 && ttl > 0.0 && |w| <= maxTurns
    ensures |TurnsAsWritten(d, text, now, current)| == 2
    ensures !OngoingIn(PushAll(w, TurnsAsWritten(d, text, now, current), maxTurns), now, ttl)
  {
    var a := Ctx.ConversationTurn(text, now, d.skip.value, false, Some(current));
    var b := Ctx.ConversationTurn(text, now, d.detected, d.injected, Some(current));
    assert TurnsAsWritten(d, text, now, current) == [a, b];
    PushAllTwo(w, a, b, maxTurns);
    TwoPlainTurnsEndTopic(w, a, b, maxTurns, now, ttl);
  }

  /** Two live turns pushed without injection leave no injected turn among the last two live ones. */
  lemma TwoPlainTurnsEndTopic(w: seq<Ctx.ConversationTurn>, a: Ctx.ConversationTurn, b: Ctx.ConversationTurn,
                              maxTurns: nat, now: real, ttl: real)
    requires maxTurns >= 2 && |w| <= maxTurns
    requires !a.injected && !b.injected && Ctx.Fresh(a, now, ttl) && Ctx.Fresh(b, now, ttl)
    ensures !OngoingIn(Ctx.Push(Ctx.Push(w, a, maxTurns), b, maxTurns), now, ttl)
  {
    var w1 := Ctx.Push(w, a, maxTurns);
    var w2 := Ctx.Push(w1, b, maxTurns);
    PushKeepsNewest(w1, b, maxTurns);
    LiveTail(w2, now, ttl);
  }

  lemma PushAllTwo(w: seq<Ctx.ConversationTurn>, a: Ctx.ConversationTurn, b: Ctx.ConversationTurn, maxTurns: nat)
    ensures PushAll(w, [a, b], maxTurns) == Ctx.Push(Ctx.Push(w, a, maxTurns), b, maxTurns)
  {
    var w1 := Ctx.Push(w, a, maxTurns);
    assert [a, b][1..] == [b];
    assert PushAll(w, [a, b], maxTurns) == PushAll(w1, [b], maxTurns);
    assert [b][1..] == [];
    assert PushAll(w1, [b], maxTurns) == PushAll(Ctx.Push(w1, b, maxTurns), [], maxTurns);
  }


  /**
   * With one turn per message, a message skipped right after an injected
   * one keeps the topic ongoing: the injected turn stays among the last two.
   */
  lemma SkipKeepsTopic(w: seq<Ctx.ConversationTurn>, d: Decision, text: string, now: real, current: string,
                       maxTurns: nat, ttl: real)
    requires d.skip.Some? && maxTurns >= 2 && ttl > 0.0 && 0 < |w| <= maxTurns
    requires w[|w| - 1].injected && Ctx.Fresh(w[|w| - 1], now, ttl)
    ensures OngoingIn(Ctx.Push(w, TurnOf(d, text, now, current), maxTurns), now, ttl)
  {
    var t := TurnOf(d, text, now, current);
    var w1 := Ctx.Push(w, t, maxTurns);
    PushKeepsNewest(w, t, maxTurns);
    LiveTail(w1, now, ttl);
  }

  /** Smart mode: a skip turn for a command or a technical question, the smart prompt otherwise. */
  function SmartDecision(text: string, current: string, s: ScheduleResult, maxShow: int): Decision {
    if SmartSkips(text) then Decision(None, false, None, Some(Some("tech_or_command")), None)
    else Decision(Some(BuildSmartInjectPrompt(current, s.description, s.future, text, maxShow)), true, None, None, None)
  }

  /**
   * Rule mode once the gate has answered: refused, a skip turn; allowed,
   * the template content when the engine is loaded, and nothing otherwise.
   */
  function RuleDecision(intent: UserIntent, allowed: bool, engineLoaded: bool, content: Option<string>): Decision {
    var detected := Some(intent.Value());
    if !allowed then Decision(None, false, detected, Some(detected), None)
    else if engineLoaded then Decision(content, true, detected, None, Some(intent))
    else Decision(None, false, detected, None, None)
  }

  // ---------------------------------------------------------------------
  // The schedule cache
  // ---------------------------------------------------------------------

  /**
   * The cache key `f"{scope}_{YYYYMMDD}_{slot}"`. Neither the date nor the
   * slot holds an underscore, so distinct triples give distinct texts and
   * the triple stands for the text.
   */
  datatype CacheKey = CacheKey(scope: string, day: int, slot: int)

  /** The handler's clock reading: day, minute of the day in the configured zone, and seconds for the timestamps. */
  datatype Clock = Clock(day: int, minute: int, seconds: real)

  /** The key of a lookup: the chat id or "global", the day, and the quarter hour. */
  function CacheKeyOf(chatId: Option<string>, clock: Clock): CacheKey {
    CacheKey(if Truthy(chatId) then chatId.value else "global", clock.day, clock.minute / 15)
  }

  /** Two lookups for the same chat share an entry exactly when they fall in the same quarter hour of the same day. */
  lemma QuarterHourKey(chatId: Option<string>, a: Clock, b: Clock)
    ensures CacheKeyOf(chatId, a) == CacheKeyOf(chatId, b) <==> a.day == b.day && a.minute / 15 == b.minute / 15
    ensures 0 <= a.minute < 1440 ==> 0 <= CacheKeyOf(chatId, a).slot < 96
  {
  }

  datatype CacheEntry = CacheEntry(result: ScheduleResult, time: real)

  /** The cache after a sweep: the entries at most `ttl` seconds old. */
  function LiveEntries(cache: map<CacheKey, CacheEntry>, now: real, ttl: real): (r: map<CacheKey, CacheEntry>)
    ensures forall k :: k in r <==> k in cache && !(now - cache[k].time > ttl)
    ensures forall k :: k in r ==> r[k] == cache[k]
  {
    map k | k in cache && !(now - cache[k].time > ttl) :: cache[k]
  }

  lemma LiveByDeletion(cache: map<CacheKey, CacheEntry>, now: real, ttl: real, expired: set<CacheKey>)
    requires expired == set k | k in cache && now - cache[k].time > ttl
    ensures cache - expired == LiveEntries(cache, now, ttl)
  {
  }

  /** A sweep never removes an entry that a lookup would still return. */
  lemma SweepKeepsHits(cache: map<CacheKey, CacheEntry>, now: real, ttl: real, k: CacheKey)
    requires k in cache && now - cache[k].time < ttl
    ensures k in LiveEntries(cache, now, ttl) && LiveEntries(cache, now, ttl)[k] == cache[k]
  {
  }

  /** The time of the last sweep after a lookup at `now`: `now` when the lookup sweeps, as before otherwise. */
  function SweptAt(lastCleanup: real, now: real): real {
    if now - lastCleanup > CacheCleanupInterval then now else lastCleanup
  }

  /** The cache a lookup at `now` reads: the live entries when more than 600 seconds have passed since the last sweep. */
  function SeenCache(cache: map<CacheKey, CacheEntry>, lastCleanup: real, now: real, ttl: real): map<CacheKey, CacheEntry> {
    if now - lastCleanup > CacheCleanupInterval then LiveEntries(cache, now, ttl) else cache
  }

  /** The key's entry is younger than the TTL. */
  predicate Hit(seen: map<CacheKey, CacheEntry>, key: CacheKey, now: real, ttl: real) {
    key in seen && now - seen[key].time < ttl
  }

  /** What the lookup returns from the cache it reads: the entry's result on a hit, the store's answer `miss` otherwise. */
  function LookupIn(seen: map<CacheKey, CacheEntry>, key: CacheKey, now: real, ttl: real, miss: ScheduleResult): ScheduleResult {
    if Hit(seen, key, now, ttl) then seen[key].result else miss
  }

  /** The cache after that lookup: unchanged on a hit, the answer `r` stored under the key at `now` on a miss. */
  function StoredIn(seen: map<CacheKey, CacheEntry>, key: CacheKey, now: real, ttl: real, r: ScheduleResult)
    : map<CacheKey, CacheEntry>
  {
    if Hit(seen, key, now, ttl) then seen else seen[key := CacheEntry(r, now)]
  }

  /**
   * With a positive TTL, a second lookup under the same key at the same
   * moment hits the entry the first one left and returns its result,
   * whatever the store then holds.
   */
  lemma SecondLookupHits(cache: map<CacheKey, CacheEntry>, lastCleanup: real, key: CacheKey, now: real, ttl: real,
                         miss: ScheduleResult, miss2: ScheduleResult)
    requires ttl > 0.0
    ensures var seen := SeenCache(cache, lastCleanup, now, ttl);
      var r := LookupIn(seen, key, now, ttl, miss);
      var seen2 := SeenCache(StoredIn(seen, key, now, ttl, r), SweptAt(lastCleanup, now), now, ttl);
      Hit(seen2, key, now, ttl) && LookupIn(seen2, key, now, ttl, miss2) == r
  {
    var seen := SeenCache(cache, lastCleanup, now, ttl);
    var r := LookupIn(seen, key, now, ttl, miss);
    assert SeenCache(StoredIn(seen, key, now, ttl, r), SweptAt(lastCleanup, now), now, ttl) == StoredIn(seen, key, now, ttl, r);
  }

  /** `_check_today_schedule_exists("global")`: some active global goal has a window key and was created today. */
  predicate ScheduleExistsToday(gm: GoalManager, today: int)
    reads gm
    requires gm.Valid()
  {
    exists g :: g in gm.GetActiveGoals(Some("global")) && ScheduledToday(g, today)
  }

  // ---------------------------------------------------------------------
  // The handler
  // ---------------------------------------------------------------------

  class ScheduleInjectHandler {
    const config: HandlerConfig
    const contextCache: Ctx.ConversationContextCache
    const optimizer: Opt.InjectOptimizer
    const engine: Tpl.ContentTemplateEngine
    var scheduleCache: map<CacheKey, CacheEntry>
    var lastCacheCleanup: real
    var lastScheduleCheckDate: Option<int>

    ghost predicate Valid()
      reads contextCache
    {
      contextCache.Valid()
    }

    /** The handler at start-up, with every component loaded. */
    constructor(config: HandlerConfig, now: real)
      ensures this.config == config && Valid()
      ensures fresh(contextCache) && fresh(optimizer) && fresh(engine)
      ensures contextCache.userContexts == map[] && contextCache.maxTurns == config.contextMaxTurns
      ensures contextCache.ttl == config.contextTtl
      ensures optimizer.injectHistory == map[] && optimizer.cacheTtl == config.scheduleCacheTtl
      ensures optimizer.casualInjectProbability == config.casualInjectProbability
      ensures engine.templates == Tpl.DefaultTemplates()
      ensures scheduleCache == map[] && lastCacheCleanup == 0.0 && lastScheduleCheckDate == None
    {
      this.config := config;
      contextCache := new Ctx.ConversationContextCache(config.contextMaxTurns, config.contextTtl, now);
      optimizer := new Opt.InjectOptimizer(config.scheduleCacheTtl, config.casualInjectProbability);
      engine := new Tpl.ContentTemplateEngine();
      scheduleCache := map[];
      lastCacheCleanup := 0.0;
      lastScheduleCheckDate := None;
    }

    /** `_cleanup_expired_cache`: exactly the entries more than the TTL old are deleted. */
    method CleanupExpiredCache(now: real)
      modifies this`scheduleCache
      ensures scheduleCache == LiveEntries(old(scheduleCache), now, config.scheduleCacheTtl)
    {
      var expired := ExpiredCacheKeys(now);
      ghost var before := scheduleCache;
      var gone := expired;
      while gone != {}
        invariant gone <= expired
        invariant scheduleCache == before - (expired - gone)
        decreases |gone|
      {
        var k :| k in gone;
        scheduleCache := scheduleCache - {k};
        gone := gone - {k};
      }
      LiveByDeletion(before, now, config.scheduleCacheTtl, expired);
    }

    /** The first loop of the sweep: the keys whose entry is older than the TTL. */
    method ExpiredCacheKeys(now: real) returns (expired: set<CacheKey>)
      ensures expired == set k | k in scheduleCache && now - scheduleCache[k].time > config.scheduleCacheTtl
    {
      var ttl := config.scheduleCacheTtl;
      expired := {};
      var pending := scheduleCache.Keys;
      while pending != {}
        invariant pending <= scheduleCache.Keys
        invariant forall k :: k in expired <==> k in scheduleCache.Keys - pending && now - scheduleCache[k].time > ttl
        decreases |pending|
      {
        var k :| k in pending;
        if now - scheduleCache[k].time > ttl {
          expired := expired + {k};
        }
        pending := pending - {k};
      }
    }

    /**
     * `_get_current_schedule` at `clock`: a sweep when more than 600
     * seconds have passed since the last one; then the cached result for
     * the key when it is younger than the TTL, and otherwise the lookup
     * over the store, which is cached under the key.
     */
    method GetCurrentSchedule(gm: GoalManager, chatId: Option<string>, clock: Clock) returns (r: ScheduleResult)
      requires gm.Valid() && clock.minute >= 0
      modifies this`scheduleCache, this`lastCacheCleanup
      ensures var ttl := config.scheduleCacheTtl;
        var seen := SeenCache(old(scheduleCache), old(lastCacheCleanup), clock.seconds, ttl);
        var key := CacheKeyOf(chatId, clock);
        r == LookupIn(seen, key, clock.seconds, ttl, old(Resolve(SourceGoals(gm, chatId), clock.day, clock.minute)))
        && scheduleCache == StoredIn(seen, key, clock.seconds, ttl, r)
      ensures lastCacheCleanup == SweptAt(old(lastCacheCleanup), clock.seconds)
    {
      SweepIfDue(clock.seconds);
      r := CachedLookup(gm, chatId, clock);
    }

    /** The sweep of `_get_current_schedule`: expired entries go when more than 600 seconds have passed since the last one. */
    method SweepIfDue(now: real)
      modifies this`scheduleCache, this`lastCacheCleanup
      ensures scheduleCache == SeenCache(old(scheduleCache), old(lastCacheCleanup), now, config.scheduleCacheTtl)
      ensures lastCacheCleanup == SweptAt(old(lastCacheCleanup), now)
    {
      if now - lastCacheCleanup > CacheCleanupInterval {
        CleanupExpiredCache(now);
        lastCacheCleanup := now;
      }
    }

    /** The cache lookup of `_get_current_schedule` after the sweep. */
    method CachedLookup(gm: GoalManager, chatId: Option<string>, clock: Clock) returns (r: ScheduleResult)
      requires gm.Valid() && clock.minute >= 0
      modifies this`scheduleCache
      ensures var key := CacheKeyOf(chatId, clock);
        var ttl := config.scheduleCacheTtl;
        r == LookupIn(old(scheduleCache), key, clock.seconds, ttl, old(Resolve(SourceGoals(gm, chatId), clock.day, clock.minute)))
        && scheduleCache == StoredIn(old(scheduleCache), key, clock.seconds, ttl, r)
    {
      var key := CacheKeyOf(chatId, clock);
      if key in scheduleCache && clock.seconds - scheduleCache[key].time < config.scheduleCacheTtl {
        return scheduleCache[key].result;
      }
      var goals := SourceGoals(gm, chatId);
      r := QuerySchedule(goals, clock.day, clock.minute);
      scheduleCache := scheduleCache[key := CacheEntry(r, clock.seconds)];
    }

    /** The daily check runs for a message on day `today`: generation is on and the day is not yet checked. */
    predicate ChecksToday(today: int)
      reads this
    {
      config.autoGenerate && lastScheduleCheckDate != Some(today)
    }

    /** The daily check runs the generator on `today`: the day is unchecked and the global chat has no schedule for it. */
    predicate Generates(gm: GoalManager, today: int)
      reads this, gm
      requires gm.Valid()
    {
      ChecksToday(today) && !ScheduleExistsToday(gm, today)
    }

    /**
     * The daily check of `execute`, once per day: when the global chat has
     * no schedule for today, the generator is called (`generates`) under
     * the message's user id or "system", which is the id the message is
     * handled under from then on; the day is then marked as checked.
     */
    method DailyCheck(m: Message, gm: GoalManager, today: int) returns (uid: string, generates: bool)
      requires gm.Valid()
      modifies this`lastScheduleCheckDate
      ensures generates <==> old(Generates(gm, today))
      ensures uid == if generates then GenerationUserId(m) else GetUserId(m)
      ensures lastScheduleCheckDate == if old(ChecksToday(today)) then Some(today) else old(lastScheduleCheckDate)
    {
      uid, generates := GetUserId(m), false;
      if config.autoGenerate && lastScheduleCheckDate != Some(today) {
        var hasSchedule := CheckTodayScheduleExists(gm, "global", today);
        if !hasSchedule {
          generates := true;
          uid := GenerationUserId(m);
        }
        lastScheduleCheckDate := Some(today);
      }
    }

    /**
     * The mode switch of `execute` for a message with current activity
     * `current`: smart mode injects the smart prompt unless it skips;
     * rule mode lets the continuation override or else the optimizer
     * decide, and builds content only with the template engine loaded;
     * traditional mode always injects its block.
     */
    function Decide(text: string, classified: (UserIntent, real), userId: string, current: string, s: ScheduleResult, cont: bool,
                    now: real, draw: real, choice: nat): (d: Decision)
      reads optimizer, engine
      ensures d.injected ==> d.skip.None?
      ensures d.recorded.Some? <==> ModeOf(config) == RuleMode && d.injected
    {
      match ModeOf(config)
      case SmartMode => SmartDecision(text, current, s, config.maxFutureActivities)
      case RuleMode =>
        var (intent, confidence) := classified;
        RuleDecision(intent, cont || optimizer.ShouldInject(userId, intent, Some(current), confidence, now, draw).0,
                     config.stateAnalysis,
                     engine.BuildInjectContent(intent, Some(current), s.description, s.description, Some(s.future), choice))
      case TraditionalMode => Decision(Some(TraditionalContent(current, s.description, s.future)), true, None, None, None)
    }

    /**
     * The decision in each mode: smart mode skips exactly the messages it
     * recognises as commands or technical questions and otherwise injects
     * the smart prompt; rule mode injects when the continuation or the
     * optimizer allows it and the template engine is loaded; traditional
     * mode always injects its block.
     */
    lemma DecideByMode(text: string, userId: string, current: string, s: ScheduleResult, cont: bool,
                 now: real, draw: real, choice: nat)
      ensures var d := Decide(text, Classify(text), userId, current, s, cont, now, draw, choice);
        (ModeOf(config) == SmartMode ==>
            (d.skip.Some? <==> SmartSkips(text)) && (d.injected <==> !SmartSkips(text)) && d.detected.None?
            && (d.skip.Some? ==> d.skip.value == Some("tech_or_command") && d.content.None?)
            && (d.injected ==> d.content == Some(BuildSmartInjectPrompt(current, s.description, s.future, text,
                                                                        config.maxFutureActivities))))
        && (ModeOf(config) == RuleMode ==>
            var (intent, confidence) := Classify(text);
            d.detected == Some(intent.Value())
            && (d.skip.None? <==> cont || optimizer.ShouldInject(userId, intent, Some(current), confidence, now, draw).0)
            && (d.skip.Some? ==> d.skip.value == d.detected && d.content.None?)
            && (d.injected <==> d.skip.None? && config.stateAnalysis)
            && (d.injected ==>
                  (d.recorded == Some(intent)
                   && d.content == engine.BuildInjectContent(intent, Some(current), s.description, s.description,
                                                             Some(s.future), choice))))
        && (ModeOf(config) == TraditionalMode ==>
            d.injected && d.skip.None? && d.detected.None?
            && d.content == Some(TraditionalContent(current, s.description, s.future)))
    {
    }

    /**
     * Rule mode without a continuation never injects for a technical
     * question or a command; with one, it injects whenever the template
     * engine is loaded, whatever the intent.
     */
    lemma RuleModeGate(text: string, userId: string, current: string, s: ScheduleResult, cont: bool,
                       now: real, draw: real, choice: nat)
      requires ModeOf(config) == RuleMode
      ensures var d := Decide(text, Classify(text), userId, current, s, cont, now, draw, choice);
        var intent := Classify(text).0;
        (!cont && (intent == TechQuestion || intent == CommandExecution) ==> !d.injected)
        && (cont ==> (d.injected <==> config.stateAnalysis))
    {
    }

    /** `execute` goes past its guards: enabled, injecting, with a prompt and a stream id. */
    predicate Handles(m: Message) {
      config.enabled && config.injectSchedule && Truthy(m.llmPrompt) && Truthy(m.streamId)
    }

    /**
     * The part of `execute` after the schedule lookup, given the
     * classifier's intent and confidence for the text: without a current
     * activity, a bare turn; with one, the decision, the optimizer's record
     * in rule mode, and one turn for the message.
     */
    method Respond(text: string, classified: (UserIntent, real), userId: string, s: ScheduleResult, cont: bool,
                   now: real, draw: real, choice: nat)
      returns (decision: Option<Decision>)
      requires Valid()
      modifies contextCache, optimizer
      ensures Valid()
      ensures decision.Some? <==> Truthy(s.current)
      ensures decision.Some? ==> decision.value == old(Decide(text, classified, userId, s.current.value, s, cont, now, draw, choice))
      ensures contextCache.maxTurns == old(contextCache.maxTurns) && contextCache.ttl == old(contextCache.ttl)
      ensures contextCache.userContexts ==
                AfterTurn(old(contextCache.userContexts), old(contextCache.lastCleanup), contextCache.maxTurns,
                          contextCache.ttl, userId, ExecutedTurn(text, s, decision, now), now)
      ensures contextCache.lastCleanup == TurnSweptAt(old(contextCache.lastCleanup), now)
      ensures optimizer.cacheTtl == old(optimizer.cacheTtl)
      ensures optimizer.casualInjectProbability == old(optimizer.casualInjectProbability)
      ensures optimizer.injectHistory == HistoryAfter(old(optimizer.injectHistory), userId, decision, s.current, now)
    {
      if !Truthy(s.current) {
        contextCache.AddTurn(userId, text, None, false, None, now);
        return None;
      }
      var current := s.current.value;
      var d := Decide(text, classified, userId, current, s, cont, now, draw, choice);
      RecordDecision(optimizer, userId, d, current, now);
      var turn := TurnOf(d, text, now, current);
      contextCache.AddTurn(userId, text, turn.intent, turn.injected, turn.activity, now);
      return Some(d);
    }

    /**
     * The schedule the lookup after the daily check returns: when the
     * generator runs and its goals are applied (`generation`, the store
     * as it leaves it), the cache is cleared and the lookup reads the new
     * store. The lookup returns the live cache entry for the stream and
     * the day's hour and minute, or the store's answer.
     */
    function ScheduleAfterCheck(m: Message, gm: GoalManager, clock: Clock, generation: Option<GoalManager>): ScheduleResult
      reads this, gm, if generation.Some? then {generation.value} else {}
      requires gm.Valid() && (generation.Some? ==> generation.value.Valid()) && 0 <= clock.minute < 1440
    {
      var applied := Generates(gm, clock.day) && generation.Some?;
      var ttl := config.scheduleCacheTtl;
      LookupIn(SeenAfterCheck(gm, clock, generation), CacheKeyOf(m.streamId, clock), clock.seconds, ttl,
               Resolve(SourceGoals(if applied then generation.value else gm, m.streamId), clock.day, clock.minute))
    }

    /** The cache the lookup after the daily check sees: cleared when generated goals were applied, then swept when due. */
    function SeenAfterCheck(gm: GoalManager, clock: Clock, generation: Option<GoalManager>): map<CacheKey, CacheEntry>
      reads this, gm
      requires gm.Valid()
    {
      var applied := Generates(gm, clock.day) && generation.Some?;
      SeenCache(if applied then map[] else scheduleCache, lastCacheCleanup, clock.seconds, config.scheduleCacheTtl)
    }

    /** The cache after the lookup that follows the daily check: a hit leaves it as seen, a miss stores the answer. */
    function CacheAfterCheck(m: Message, gm: GoalManager, clock: Clock, generation: Option<GoalManager>)
      : map<CacheKey, CacheEntry>
      reads this, gm, if generation.Some? then {generation.value} else {}
      requires gm.Valid() && (generation.Some? ==> generation.value.Valid()) && 0 <= clock.minute < 1440
    {
      StoredIn(SeenAfterCheck(gm, clock, generation), CacheKeyOf(m.streamId, clock), clock.seconds,
               config.scheduleCacheTtl, ScheduleAfterCheck(m, gm, clock, generation))
    }

    /**
     * What the steps before the decision give from the current state: the
     * user id after the daily check (the message's, or "system" when the
     * generator runs), the schedule after it, and the continuation: the
     * check without an activity under the message's own id, then the
     * check with the current activity under the id the turn is handled
     * under.
     */
    function Prepared(m: Message, gm: GoalManager, clock: Clock, generation: Option<GoalManager>)
      : (string, ScheduleResult, bool)
      reads this, contextCache, gm, if generation.Some? then {generation.value} else {}
      requires gm.Valid() && (generation.Some? ==> generation.value.Valid()) && 0 <= clock.minute < 1440
    {
      var userId := if Generates(gm, clock.day) then GenerationUserId(m) else GetUserId(m);
      var schedule := ScheduleAfterCheck(m, gm, clock, generation);
      var cont := contextCache.ShouldContinueInject(GetUserId(m), None, clock.seconds).0
                  && contextCache.ShouldContinueInject(userId, schedule.current, clock.seconds).0;
      (userId, schedule, cont)
    }

    /**
     * The daily check and the schedule lookup of `execute`. `generation`
     * is the store as the generator leaves it when it creates goals, None
     * when it creates nothing (it fails, times out, or finds the day
     * already planned).
     */
    method CheckAndLookup(m: Message, gm: GoalManager, clock: Clock, generation: Option<GoalManager>)
      returns (userId: string, schedule: ScheduleResult)
      requires gm.Valid() && (generation.Some? ==> generation.value.Valid()) && 0 <= clock.minute < 1440
      modifies this`scheduleCache, this`lastCacheCleanup, this`lastScheduleCheckDate
      ensures userId == if old(Generates(gm, clock.day)) then GenerationUserId(m) else GetUserId(m)
      ensures schedule == old(ScheduleAfterCheck(m, gm, clock, generation))
      ensures scheduleCache == old(CacheAfterCheck(m, gm, clock, generation))
      ensures lastCacheCleanup == SweptAt(old(lastCacheCleanup), clock.seconds)
      ensures lastScheduleCheckDate == if old(ChecksToday(clock.day)) then Some(clock.day) else old(lastScheduleCheckDate)
    {
      var generates;
      userId, generates := DailyCheck(m, gm, clock.day);
      var store := gm;
      if generates && generation.Some? {
        scheduleCache := map[];
        store := generation.value;
      }
      schedule := GetCurrentSchedule(store, m.streamId, clock);
    }

    /**
     * The steps of `execute` before the decision: the first continuation
     * check, the daily check and the lookup, and the second continuation
     * check, as `Prepared` gives them on the state before the call. Only
     * the handler's own state changes.
     */
    method Prepare(m: Message, gm: GoalManager, clock: Clock, generation: Option<GoalManager>)
      returns (userId: string, schedule: ScheduleResult, cont: bool)
      requires gm.Valid() && (generation.Some? ==> generation.value.Valid()) && 0 <= clock.minute < 1440
      modifies this`scheduleCache, this`lastCacheCleanup, this`lastScheduleCheckDate
      ensures (userId, schedule, cont) == old(Prepared(m, gm, clock, generation))
      ensures scheduleCache == old(CacheAfterCheck(m, gm, clock, generation))
      ensures lastCacheCleanup == SweptAt(old(lastCacheCleanup), clock.seconds)
      ensures lastScheduleCheckDate == if old(ChecksToday(clock.day)) then Some(clock.day) else old(lastScheduleCheckDate)
    {
      var first := contextCache.ShouldContinueInject(GetUserId(m), None, clock.seconds);
      cont := first.0;
      userId, schedule := CheckAndLookup(m, gm, clock, generation);
      if cont {
        var again := contextCache.ShouldContinueInject(userId, schedule.current, clock.seconds);
        cont := again.0;
      }
    }

    /**
     * The steps of `execute` after the guards, for the message's text and
     * its classification: the preparation, then the decision when there
     * is a current activity, the turn's record and the optimizer's
     * history.
     */
    method Handle(m: Message, text: string, classified: (UserIntent, real), gm: GoalManager, clock: Clock,
                  generation: Option<GoalManager>, draw: real, choice: nat)
      returns (userId: string, schedule: ScheduleResult, cont: bool, decision: Option<Decision>)
      requires Valid() && gm.Valid() && (generation.Some? ==> generation.value.Valid()) && 0 <= clock.minute < 1440
      modifies this, contextCache, optimizer
      ensures Valid()
      ensures (userId, schedule, cont) == old(Prepared(m, gm, clock, generation))
      ensures scheduleCache == old(CacheAfterCheck(m, gm, clock, generation))
      ensures lastCacheCleanup == SweptAt(old(lastCacheCleanup), clock.seconds)
      ensures lastScheduleCheckDate == if old(ChecksToday(clock.day)) then Some(clock.day) else old(lastScheduleCheckDate)
      ensures decision.Some? <==> Truthy(schedule.current)
      ensures decision.Some? ==>
                decision.value == old(Decide(text, classified, userId, schedule.current.value, schedule, cont, clock.seconds,
                                             draw, choice))
      ensures contextCache.userContexts ==
                AfterTurn(old(contextCache.userContexts), old(contextCache.lastCleanup), contextCache.maxTurns,
                          contextCache.ttl, userId, ExecutedTurn(text, schedule, decision, clock.seconds), clock.seconds)
      ensures contextCache.lastCleanup == TurnSweptAt(old(contextCache.lastCleanup), clock.seconds)
      ensures optimizer.cacheTtl == old(optimizer.cacheTtl)
      ensures optimizer.casualInjectProbability == old(optimizer.casualInjectProbability)
      ensures optimizer.injectHistory ==
                HistoryAfter(old(optimizer.injectHistory), userId, decision, schedule.current, clock.seconds)
    {
      userId, schedule, cont := Prepare(m, gm, clock, generation);
      decision := Respond(text, classified, userId, schedule, cont, clock.seconds, draw, choice);
    }

    /**
     * `execute` for message `m` at `clock`, with the generator's outcome,
     * the random draw and the template choice as parameters. A message
     * stopped by the guards changes nothing and leaves the prompt alone.
     * Any other returns the user id its turn is recorded under, the
     * schedule, the continuation flag and, exactly when there is a current
     * activity, the decision taken on its text's classification, all as
     * `Prepared` and `Decide` give them on the state before the call;
     * the new prompt is the content, a newline and the original prompt
     * when the content is non-empty; one turn is recorded for the message,
     * and the optimizer records an injection only for a rule-mode decision
     * that injects.
     */
    method Execute(m: Message, gm: GoalManager, clock: Clock, generation: Option<GoalManager>, draw: real, choice: nat)
      returns (userId: string, schedule: ScheduleResult, cont: bool, decision: Option<Decision>, prompt: Option<string>)
      requires Valid() && gm.Valid() && (generation.Some? ==> generation.value.Valid()) && 0 <= clock.minute < 1440
      modifies this, contextCache, optimizer
      ensures Valid()
      ensures !Handles(m) ==>
                prompt.None? && decision.None? && unchanged(this) && unchanged(contextCache) && unchanged(optimizer)
      ensures Handles(m) ==>
                (userId, schedule, cont) == old(Prepared(m, gm, clock, generation))
                && lastScheduleCheckDate == if old(ChecksToday(clock.day)) then Some(clock.day) else old(lastScheduleCheckDate)
      ensures Handles(m) ==>
                scheduleCache == old(CacheAfterCheck(m, gm, clock, generation))
                && lastCacheCleanup == SweptAt(old(lastCacheCleanup), clock.seconds)
                && contextCache.lastCleanup == TurnSweptAt(old(contextCache.lastCleanup), clock.seconds)
      ensures decision.Some? <==> Handles(m) && Truthy(schedule.current)
      ensures decision.Some? ==>
                decision.value == old(Decide(ExtractUserMessage(m), Classify(ExtractUserMessage(m)), userId,
                                             schedule.current.value, schedule, cont, clock.seconds, draw, choice))
      ensures prompt == (if decision.Some? && Truthy(decision.value.content)
                         then Some(decision.value.content.value + "\n" + m.llmPrompt.value) else None)
      ensures Handles(m) ==>
                contextCache.userContexts ==
                  AfterTurn(old(contextCache.userContexts), old(contextCache.lastCleanup), contextCache.maxTurns,
                            contextCache.ttl, userId, ExecutedTurn(ExtractUserMessage(m), schedule, decision, clock.seconds),
                            clock.seconds)
      ensures optimizer.cacheTtl == old(optimizer.cacheTtl)
      ensures optimizer.casualInjectProbability == old(optimizer.casualInjectProbability)
      ensures optimizer.injectHistory ==
                HistoryAfter(old(optimizer.injectHistory), userId, decision, schedule.current, clock.seconds)
    {
      userId, schedule, cont, decision, prompt := "", NoSchedule, false, None, None;
      if !Handles(m) {
        return;
      }
      var text := ExtractUserMessage(m);
      userId, schedule, cont, decision := Handle(m, text, Classify(text), gm, clock, generation, draw, choice);
      if decision.Some? && Truthy(decision.value.content) {
        prompt := Some(decision.value.content.value + "\n" + m.llmPrompt.value);
      }
    }
  }

  /** The context cache's sweep time after `add_turn` at `now`: moved to `now` when more than 300 seconds have passed. */
  function TurnSweptAt(lastCleanup: real, now: real): real {
    if now - lastCleanup > 300.0 then now else lastCleanup
  }

  /**
   * The user's windows after `add_turn(userId, turn)` at `now`: the turn
   * pushed onto the user's window, then a sweep when more than 300
   * seconds have passed since the last one.
   */
  function AfterTurn(contexts: map<string, seq<Ctx.ConversationTurn>>, lastCleanup: real, maxTurns: nat, ttl: real,
                     userId: string, turn: Ctx.ConversationTurn, now: real): map<string, seq<Ctx.ConversationTurn>>
  {
    var window := if userId in contexts then contexts[userId] else [];
    var added := contexts[userId := Ctx.Push(window, turn, maxTurns)];
    if now - lastCleanup > 300.0 then Ctx.Swept(added, now, ttl) else added
  }

  /**
   * The optimizer's history after a message: the user's entry is
   * overwritten when the decision records an injection; otherwise nothing
   * changes.
   */
  function HistoryAfter(history: map<string, Opt.History>, userId: string, decision: Option<Decision>,
                        current: Option<string>, now: real): map<string, Opt.History>
  {
    if decision.Some? && decision.value.recorded.Some? && current.Some? then
      history[userId := Opt.History(now, current.value, decision.value.content.GetOr(""),
                                    decision.value.recorded.value.Value(),
                                    if userId in history then history[userId].count + 1 else 1)]
    else history
  }

  /** `record_injection` for a decision that records one; nothing otherwise. */
  method RecordDecision(optimizer: Opt.InjectOptimizer, userId: string, d: Decision, current: string, now: real)
    modifies optimizer
    ensures optimizer.injectHistory == HistoryAfter(old(optimizer.injectHistory), userId, Some(d), Some(current), now)
    ensures optimizer.cacheTtl == old(optimizer.cacheTtl)
    ensures optimizer.casualInjectProbability == old(optimizer.casualInjectProbability)
  {
    if d.recorded.Some? {
      optimizer.RecordInjection(userId, current, d.content.GetOr(""), d.recorded, now);
    }
  }

  /** The one turn `execute` records: without a current activity, a bare not-injected turn. */
  function ExecutedTurn(text: string, s: ScheduleResult, decision: Option<Decision>, now: real): Ctx.ConversationTurn {
    if decision.Some? && Truthy(s.current) then TurnOf(decision.value, text, now, s.current.value)
    else Ctx.ConversationTurn(text, now, None, false, None)
  }
}
