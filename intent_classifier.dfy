/**
 * The rule-based intent classifier of handlers/inject/intent_classifier.py:
 * keyword scores over fixed keyword tables, a first-match decision ladder
 * (command, tech, current, future, casual, short question, default), and the
 * time-of-day extractor.
 */
module IntentClassification {
  import opened Wrappers
  import opened Strings

  datatype UserIntent = QueryCurrent | QueryFuture | CasualChat | TechQuestion | CommandExecution | Unknown {
    function Value(): string {
      match this
      case QueryCurrent => "query_current"
      case QueryFuture => "query_future"
      case CasualChat => "casual_chat"
      case TechQuestion => "tech_question"
      case CommandExecution => "command"
      case Unknown => "unknown"
    }
  }

  datatype TimeRange = TimeRange(name: string, startHour: int, endHour: int)

  const CurrentKeywords: seq<string> := [
    "现在", "当前", "正在", "在做", "在干", "在忙",
    "这会儿", "此刻", "目前", "眼下",
    "做什么", "干什么", "忙什么",
    "在吗", "有空吗", "忙吗", "空闲吗",
    "刚", "刚才", "刚刚",
    "在", "在哪", "去哪"]

  const ActivityVerbs: seq<string> := [
    "吃", "睡", "玩", "聊", "看", "学", "写", "做",
    "休息", "工作", "运动", "看剧", "追剧",
    "聊天", "打游戏", "学习", "写代码"]

  const FutureKeywords: seq<string> := [
    "接下来", "等下", "稍后", "之后", "待会", "一会儿",
    "明天", "今晚", "晚上", "下午",
    "打算", "计划", "安排", "准备",
    "要做", "会做", "打算做",
    "然后", "后面", "接着"]

  /** The tech table as written: its "API" entry is compared with a lower-cased message. */
  const TechKeywordsAsWritten: seq<string> := [
    "怎么", "如何", "为什么", "什么是",
    "配置", "安装", "设置", "调试",
    "错误", "报错", "异常", "bug",
    "代码", "程序", "脚本", "函数",
    "数据库", "服务器", "API", "接口",
    "版本", "更新", "升级", "兼容"]

  /** The tech table with its one upper-case entry lower-cased, so that every entry can match. */
  const TechKeywords: seq<string> := [
    "怎么", "如何", "为什么", "什么是",
    "配置", "安装", "设置", "调试",
    "错误", "报错", "异常", "bug",
    "代码", "程序", "脚本", "函数",
    "数据库", "服务器", "api", "接口",
    "版本", "更新", "升级", "兼容"]

  const CasualKeywords: seq<string> := [
    "你好", "hi", "hello", "嗨",
    "早", "晚安", "再见", "拜拜",
    "哈哈", "呵呵", "嘿嘿",
    "好的", "ok", "嗯", "嗯嗯",
    "谢谢", "多谢", "感谢"]

  /** Markers that multiply the current score by 1.5. */
  const StrongCurrent: seq<string> := ["正在", "在做", "在干", "现在", "当前"]
  /** Markers that multiply the future score by 1.5. */
  const StrongFuture: seq<string> := ["接下来", "等下", "计划", "安排", "打算"]
  /** Words that, next to an activity verb, mark a question about the present. */
  const RecentMarkers: seq<string> := ["刚", "刚才", "刚刚", "在"]

  /** The first characters of the table entries, used to show that a table has no match. */
  const CurrentFirstChars: set<char> := {'现', '当', '正', '在', '这', '此', '目', '眼', '做', '干', '忙', '有', '空', '刚', '去'}
  const VerbFirstChars: set<char> := {'吃', '睡', '玩', '聊', '看', '学', '写', '做', '休', '工', '运', '追', '打'}
  const FutureFirstChars: set<char> := {'接', '等', '稍', '之', '待', '一', '明', '今', '晚', '下', '打', '计', '安', '准', '要', '会', '然', '后'}
  const TechFirstChars: set<char> := {'怎', '如', '为', '什', '配', '安', '设', '调', '错', '报', '异', 'b', '代', '程', '脚', '函', '数', '服', 'a', '接', '版', '更', '升', '兼'}
  const CasualFirstChars: set<char> := {'你', 'h', '嗨', '早', '晚', '再', '拜', '哈', '呵', '嘿', '好', 'o', '嗯', '谢', '多', '感'}

  /** The time-of-day table, in declaration order. */
  const TimeRanges: seq<TimeRange> := [
    TimeRange("凌晨", 0, 6),
    TimeRange("早上", 6, 9),
    TimeRange("上午", 9, 12),
    TimeRange("中午", 11, 14),
    TimeRange("下午", 14, 18),
    TimeRange("傍晚", 17, 19),
    TimeRange("晚上", 18, 23),
    TimeRange("深夜", 22, 24)]

  /** How many keywords occur in the message. */
  function MatchCount(m: string, kws: seq<string>): (r: nat)
    ensures r <= |kws|
  {
    if kws == [] then 0
    else (if Contains(m, kws[0]) then 1 else 0) + MatchCount(m, kws[1..])
  }

  /** No match is counted exactly when no keyword occurs. */
  lemma {:induction false} MatchCountZero(m: string, kws: seq<string>)
    ensures MatchCount(m, kws) == 0 <==> forall k :: k in kws ==> !Contains(m, k)
  {
    if kws != [] {
      assert kws[0] in kws;
      assert forall k :: k in kws <==> k == kws[0] || k in kws[1..];
      MatchCountZero(m, kws[1..]);
    }
  }

  /** The total length of the keywords that occur in the message. */
  function MatchLength(m: string, kws: seq<string>): (r: nat)
    ensures MatchCount(m, kws) == 0 ==> r == 0
  {
    if kws == [] then 0
    else (if Contains(m, kws[0]) then |kws[0]| else 0) + MatchLength(m, kws[1..])
  }

  lemma {:induction false} MatchConcat(m: string, a: seq<string>, b: seq<string>)
    ensures MatchCount(m, a + b) == MatchCount(m, a) + MatchCount(m, b)
    ensures MatchLength(m, a + b) == MatchLength(m, a) + MatchLength(m, b)
  {
    if a == [] {
      assert a + b == b;
    } else {
      assert (a + b)[1..] == a[1..] + b;
      MatchConcat(m, a[1..], b);
    }
  }

  function Min(a: real, b: real): real {
    if a <= b then a else b
  }

  function Max(a: real, b: real): real {
    if a >= b then a else b
  }

  /**
   * `_calculate_keyword_score`: zero without a match, otherwise
   * min(1, min(1, n/3) + min(0.5, (L/5)/5)) for n matches of total length L.
   */
  function KeywordScore(m: string, kws: seq<string>): (r: real)
    ensures 0.0 <= r <= 1.0
    ensures r == 0.0 <==> MatchCount(m, kws) == 0
    ensures MatchCount(m, kws) >= 3 ==> r == 1.0
    ensures MatchCount(m, kws) >= 1 ==> r >= 1.0 / 3.0
    ensures MatchCount(m, kws) >= 2 ==> r >= 2.0 / 3.0
  {
    var n := MatchCount(m, kws);
    if n == 0 then 0.0
    else
      var base := Min(1.0, n as real / 3.0);
      var bonus := Min(0.5, (MatchLength(m, kws) as real / 5.0) / 5.0);
      Min(1.0, base + bonus)
  }

  /** `any(kw in message for kw in kws)`: some keyword is counted. */
  predicate AnyIn(m: string, kws: seq<string>) {
    MatchCount(m, kws) > 0
  }

  lemma AnyInOccurs(m: string, kws: seq<string>)
    ensures AnyIn(m, kws) <==> exists k :: k in kws && Contains(m, k)
  {
    MatchCountZero(m, kws);
  }

  /** The regex `^<word>\s+` at the start of the message. */
  predicate WordThenSpace(m: string, w: string) {
    StartsWith(m, w) && |m| > |w| && IsSpace(m[|w|])
  }

  /** The command patterns: `^/\w+`, `^sudo\s+`, `^git\s+`, `^npm\s+`, `^python\s+`, `^cd\s+`, `^ls\s+`. */
  predicate IsCommand(m: string) {
    (|m| >= 2 && m[0] == '/' && IsWordChar(m[1]))
    || WordThenSpace(m, "sudo") || WordThenSpace(m, "git") || WordThenSpace(m, "npm")
    || WordThenSpace(m, "python") || WordThenSpace(m, "cd") || WordThenSpace(m, "ls")
  }

  predicate HasQuestionMark(m: string) {
    Contains(m, "?") || Contains(m, "？")
  }

  /** The current-state score with its three adjustments. */
  function CurrentScore(m: string): (r: real)
    ensures 0.0 <= r <= 1.0
    ensures AnyIn(m, ActivityVerbs) && AnyIn(m, RecentMarkers) ==> r >= 0.8
    ensures AnyIn(m, ActivityVerbs) && Contains(m, "不是") && (HasQuestionMark(m) || Contains(m, "吗")) ==> r >= 0.85
    ensures r >= KeywordScore(m, CurrentKeywords)
    ensures AnyIn(m, StrongCurrent) ==> r >= Min(1.0, KeywordScore(m, CurrentKeywords) * 1.5)
  {
    var s0 := KeywordScore(m, CurrentKeywords);
    var s1 := if AnyIn(m, StrongCurrent) then Min(1.0, s0 * 1.5) else s0;
    var hasVerb := AnyIn(m, ActivityVerbs);
    var s2 := if (Contains(m, "你不是") || Contains(m, "不是")) && (Contains(m, "吗") || HasQuestionMark(m)) && hasVerb
              then Max(s1, 0.85) else s1;
    if hasVerb && AnyIn(m, RecentMarkers) then Max(s2, 0.80) else s2
  }

  /** The future-plan score with its strong-marker boost. */
  function FutureScore(m: string): (r: real)
    ensures 0.0 <= r <= 1.0
    ensures r >= KeywordScore(m, FutureKeywords)
    ensures r == 0.0 <==> KeywordScore(m, FutureKeywords) == 0.0
  {
    var s0 := KeywordScore(m, FutureKeywords);
    if AnyIn(m, StrongFuture) then Min(1.0, s0 * 1.5) else s0
  }

  /** The message as the ladder sees it: `message.strip().lower()`. */
  function Normalise(message: string): string {
    Lower(Strip(message))
  }

  /**
   * `IntentClassifier.classify` with the tech table as a parameter: the first
   * rule that fires decides, and every confidence lies in [0, 1] above the
   * threshold of the rule that returned it.
   */
  function ClassifyWith(message: string, tech: seq<string>): (r: (UserIntent, real))
    ensures 0.0 <= r.1 <= 1.0
    ensures r.0 == Unknown <==> Strip(message) == []
    ensures r.0 == Unknown ==> r.1 == 0.0
    ensures r.0 == CommandExecution <==> Strip(message) != [] && IsCommand(Normalise(message))
    ensures r.0 == CommandExecution ==> r.1 == 1.0
    ensures r.0 == TechQuestion ==> r.1 > 0.5
    ensures r.0 == QueryCurrent ==> r.1 > 0.4
    ensures r.0 == QueryFuture ==> r.1 > 0.4
    ensures r.0 == CasualChat ==> r.1 > 0.3
  {
    if message == [] || Strip(message) == [] then (Unknown, 0.0)
    else
      var m := Normalise(message);
      if IsCommand(m) then (CommandExecution, 1.0)
      else
        var techScore := KeywordScore(m, tech);
        if techScore > 0.5 then (TechQuestion, techScore)
        else
          var current := CurrentScore(m);
          if current > 0.4 then (QueryCurrent, current)
          else
            var future := FutureScore(m);
            if future > 0.4 then (QueryFuture, future)
            else
              var casual := KeywordScore(m, CasualKeywords);
              if casual > 0.3 then (CasualChat, casual)
              else if |m| < 10 && HasQuestionMark(m) then (QueryCurrent, 0.6)
              else (CasualChat, 0.40)
  }

  /** The classifier with the lower-cased tech table; the rest of the model uses this one. */
  function Classify(message: string): (r: (UserIntent, real))
    ensures 0.0 <= r.1 <= 1.0
    ensures r.0 == Unknown <==> Strip(message) == []
  {
    ClassifyWith(message, TechKeywords)
  }

  /** The classifier with the tech table as written. */
  function ClassifyAsWritten(message: string): (r: (UserIntent, real))
    ensures 0.0 <= r.1 <= 1.0
    ensures r.0 == Unknown <==> Strip(message) == []
  {
    ClassifyWith(message, TechKeywordsAsWritten)
  }

  /** After the blank and command tests, a tech score above 0.5 wins over every other score. */
  lemma TechComesFirst(message: string, tech: seq<string>)
    requires Strip(message) != [] && !IsCommand(Normalise(message))
    requires KeywordScore(Normalise(message), tech) > 0.5
    ensures ClassifyWith(message, tech) == (TechQuestion, KeywordScore(Normalise(message), tech))
  {
  }

  /** Without a tech question, a current score above 0.4 wins over the future and casual scores. */
  lemma CurrentComesSecond(message: string, tech: seq<string>)
    requires Strip(message) != [] && !IsCommand(Normalise(message))
    requires KeywordScore(Normalise(message), tech) <= 0.5 && CurrentScore(Normalise(message)) > 0.4
    ensures ClassifyWith(message, tech) == (QueryCurrent, CurrentScore(Normalise(message)))
  {
  }

  /** Then a future score above 0.4 wins over the casual score. */
  lemma FutureComesThird(message: string, tech: seq<string>)
    requires Strip(message) != [] && !IsCommand(Normalise(message))
    requires KeywordScore(Normalise(message), tech) <= 0.5 && CurrentScore(Normalise(message)) <= 0.4
    requires FutureScore(Normalise(message)) > 0.4
    ensures ClassifyWith(message, tech) == (QueryFuture, FutureScore(Normalise(message)))
  {
  }

  /**
   * When no score passes its threshold, the message is casual chat, unless it
   * is a short question (under ten characters, with "?" or "？"), which is
   * taken as a question about the present with confidence 0.6.
   */
  lemma FallbackIsCasualOrShortQuestion(message: string, tech: seq<string>)
    requires Strip(message) != [] && !IsCommand(Normalise(message))
    requires KeywordScore(Normalise(message), tech) <= 0.5 && CurrentScore(Normalise(message)) <= 0.4
    requires FutureScore(Normalise(message)) <= 0.4
    ensures var r := ClassifyWith(message, tech);
      (r.0 == CasualChat || r == (QueryCurrent, 0.6))
      && (r.0 == QueryCurrent <==>
            KeywordScore(Normalise(message), CasualKeywords) <= 0.3
            && |Normalise(message)| < 10 && HasQuestionMark(Normalise(message)))
  {
  }

  /** No score passes and the message is no short question: casual chat with the fallback confidence. */
  lemma CasualFallback(message: string, tech: seq<string>)
    requires Strip(message) != [] && !IsCommand(Normalise(message))
    requires KeywordScore(Normalise(message), tech) <= 0.5 && CurrentScore(Normalise(message)) <= 0.4
    requires FutureScore(Normalise(message)) <= 0.4 && KeywordScore(Normalise(message), CasualKeywords) <= 0.3
    requires !HasQuestionMark(Normalise(message))
    ensures ClassifyWith(message, tech) == (CasualChat, 0.40)
  {
  }

  /** Matching keywords at increasing positions count at least once each. */
  lemma {:induction false} MatchCountAtLeast(m: string, kws: seq<string>, idx: seq<nat>)
    requires forall t :: 0 <= t < |idx| ==> idx[t] < |kws| && Contains(m, kws[idx[t]])
    requires forall s, t :: 0 <= s < t < |idx| ==> idx[s] < idx[t]
    ensures MatchCount(m, kws) >= |idx|
    decreases |kws|
  {
    if idx != [] {
      var rest := if idx[0] == 0 then idx[1..] else idx;
      assert forall t :: 0 <= t < |rest| ==> rest[t] > 0 by {
        if idx[0] != 0 {
          assert forall t :: 0 <= t < |idx| ==> idx[t] >= idx[0];
        }
      }
      var shifted := seq(|rest|, t requires 0 <= t < |rest| => rest[t] - 1);
      forall t | 0 <= t < |shifted|
        ensures Contains(m, kws[1..][shifted[t]])
      {
        assert kws[1..][shifted[t]] == kws[rest[t]];
      }
      MatchCountAtLeast(m, kws[1..], shifted);
    }
  }

  /** Two or more distinct tech keywords always make a tech question (unless the message is a command). */
  lemma TwoTechKeywordsWin(message: string, tech: seq<string>, i: nat, j: nat)
    requires Strip(message) != [] && !IsCommand(Normalise(message))
    requires i < j < |tech| && Contains(Normalise(message), tech[i]) && Contains(Normalise(message), tech[j])
    ensures ClassifyWith(message, tech).0 == TechQuestion
  {
    TwoMatchesScore(Normalise(message), tech, i, j);
    TechComesFirst(message, tech);
  }

  /** Two distinct matching keywords score at least 2/3. */
  lemma TwoMatchesScore(m: string, kws: seq<string>, i: nat, j: nat)
    requires i < j < |kws| && Contains(m, kws[i]) && Contains(m, kws[j])
    ensures KeywordScore(m, kws) > 0.5
  {
    MatchCountAtLeast(m, kws, [i, j]);
  }

  /**
   * An activity verb next to a recent-time marker ("刚", "在", ...) makes a
   * question about the present whenever no command or tech rule fires first.
   */
  lemma VerbAndMarkerIsCurrent(message: string, tech: seq<string>)
    requires Strip(message) != [] && !IsCommand(Normalise(message))
    requires KeywordScore(Normalise(message), tech) <= 0.5
    requires AnyIn(Normalise(message), ActivityVerbs) && AnyIn(Normalise(message), RecentMarkers)
    ensures ClassifyWith(message, tech).0 == QueryCurrent && ClassifyWith(message, tech).1 >= 0.8
  {
  }

  /** An empty message, or one made only of whitespace, is UNKNOWN with confidence 0. */
  lemma BlankIsUnknown(message: string)
    requires forall c :: c in message ==> IsSpace(c)
    ensures Classify(message) == (Unknown, 0.0)
  {
    StripAllSpaces(message);
  }

  /** Normalising keeps a leading character that is neither a space nor upper-case. */
  lemma NormaliseKeepsStart(message: string, i: nat)
    requires i < |message| && forall j :: 0 <= j <= i ==> !IsSpace(message[j])
    ensures |Normalise(message)| > i
    ensures forall j :: 0 <= j <= i ==> Normalise(message)[j] == LowerChar(message[j])
  {
    assert StripLeft(message) == message;
    StripRightKeeps(message, i);
  }

  /**
   * A message that starts with "/" and a word character is a command with
   * confidence 1.0, whatever follows; "/help" is one.
   */
  lemma SlashWordIsCommand(message: string)
    requires |message| >= 2 && message[0] == '/' && IsWordChar(message[1])
    ensures Classify(message) == (CommandExecution, 1.0)
  {
    SlashWordNormalised(message);
  }

  /** Such a message is not blank and still matches `^/\w+` once normalised. */
  lemma SlashWordNormalised(message: string)
    requires |message| >= 2 && message[0] == '/' && IsWordChar(message[1])
    ensures Strip(message) != [] && IsCommand(Normalise(message))
  {
    NormaliseKeepsStart(message, 1);
  }

  lemma HelpIsCommand()
    ensures Classify("/help") == (CommandExecution, 1.0)
  {
    SlashWordIsCommand("/help");
  }

  /** A table whose entries all start with a character absent from `m` has no match in `m`. */
  lemma NoFirstCharMatches(m: string, kws: seq<string>, starts: set<char>, alphabet: set<char>)
    requires forall k :: k in kws ==> |k| > 0 && k[0] in starts
    requires forall c :: c in m ==> c in alphabet
    requires alphabet !! starts
    ensures MatchCount(m, kws) == 0 && KeywordScore(m, kws) == 0.0
  {
    forall k | k in kws ensures !Contains(m, k) {
      NotContainsByEnds(m, k);
    }
    MatchCountZero(m, kws);
  }

  lemma NoCurrentMatch(m: string, alphabet: set<char>)
    requires forall c :: c in m ==> c in alphabet
    requires alphabet !! CurrentFirstChars
    ensures MatchCount(m, CurrentKeywords) == 0
  {
    assert forall k :: k in CurrentKeywords ==> |k| > 0 && k[0] in CurrentFirstChars;
    NoFirstCharMatches(m, CurrentKeywords, CurrentFirstChars, alphabet);
  }

  lemma NoVerbMatch(m: string, alphabet: set<char>)
    requires forall c :: c in m ==> c in alphabet
    requires alphabet !! VerbFirstChars
    ensures MatchCount(m, ActivityVerbs) == 0
  {
    assert forall k :: k in ActivityVerbs ==> |k| > 0 && k[0] in VerbFirstChars;
    NoFirstCharMatches(m, ActivityVerbs, VerbFirstChars, alphabet);
  }

  lemma NoFutureMatch(m: string, alphabet: set<char>)
    requires forall c :: c in m ==> c in alphabet
    requires alphabet !! FutureFirstChars
    ensures MatchCount(m, FutureKeywords) == 0
  {
    assert forall k :: k in FutureKeywords ==> |k| > 0 && k[0] in FutureFirstChars;
    NoFirstCharMatches(m, FutureKeywords, FutureFirstChars, alphabet);
  }

  lemma NoTechMatch(m: string, alphabet: set<char>)
    requires forall c :: c in m ==> c in alphabet
    requires alphabet !! TechFirstChars
    ensures MatchCount(m, TechKeywords) == 0
  {
    assert forall k :: k in TechKeywords ==> |k| > 0 && k[0] in TechFirstChars;
    NoFirstCharMatches(m, TechKeywords, TechFirstChars, alphabet);
  }

  lemma NoCasualMatch(m: string, alphabet: set<char>)
    requires forall c :: c in m ==> c in alphabet
    requires alphabet !! CasualFirstChars
    ensures MatchCount(m, CasualKeywords) == 0
  {
    assert forall k :: k in CasualKeywords ==> |k| > 0 && k[0] in CasualFirstChars;
    NoFirstCharMatches(m, CasualKeywords, CasualFirstChars, alphabet);
  }

  /** A message that does not start with "/" or with the first letter of a command word is no command. */
  lemma NotCommandByStart(m: string)
    requires m != [] && m[0] !in "/sgnpcl"
    ensures !IsCommand(m)
  {
  }

  /** An entry that cannot occur changes neither the count nor the length. */
  lemma DropNonMatching(m: string, t: seq<string>, i: nat)
    requires i < |t| && !Contains(m, t[i])
    ensures MatchCount(m, t) == MatchCount(m, t[..i] + t[i + 1..])
    ensures MatchLength(m, t) == MatchLength(m, t[..i] + t[i + 1..])
  {
    assert t == t[..i] + [t[i]] + t[i + 1..];
    MatchConcat(m, t[..i] + [t[i]], t[i + 1..]);
    MatchConcat(m, t[..i], [t[i]]);
    MatchConcat(m, t[..i], t[i + 1..]);
  }

  /** When only the entry at `i` occurs, the count is one and the length is that entry's. */
  lemma OnlyOneMatches(m: string, t: seq<string>, i: nat)
    requires i < |t| && Contains(m, t[i])
    requires forall k :: k in t[..i] + t[i + 1..] ==> !Contains(m, k)
    ensures MatchCount(m, t) == 1 && MatchLength(m, t) == |t[i]|
  {
    MatchCountZero(m, t[..i]);
    MatchCountZero(m, t[i + 1..]);
    assert t == t[..i] + [t[i]] + t[i + 1..];
    MatchConcat(m, t[..i] + [t[i]], t[i + 1..]);
    MatchConcat(m, t[..i], [t[i]]);
    MatchConcat(m, t[..i], t[i + 1..]);
  }

  /** The two tech tables differ only in the entry at position 18. */
  lemma TechTables()
    ensures |TechKeywords| == |TechKeywordsAsWritten| == 24
    ensures TechKeywordsAsWritten[18] == "API" && TechKeywords[18] == "api"
    ensures TechKeywords[..18] == TechKeywordsAsWritten[..18]
    ensures TechKeywords[19..] == TechKeywordsAsWritten[19..]
  {
  }

  /**
   * As written, the "API" entry never counts: the message is lower-cased
   * before the tables are consulted, so an upper-case keyword cannot occur in
   * it, and the tech score is that of the table without the entry.
   */
  lemma ApiNeverMatches(message: string)
    ensures !Contains(Normalise(message), "API")
    ensures KeywordScore(Normalise(message), TechKeywordsAsWritten)
         == KeywordScore(Normalise(message), TechKeywordsAsWritten[..18] + TechKeywordsAsWritten[19..])
  {
    NormalisedLacksApi(message);
    TechTables();
    DropNonMatchingScore(Normalise(message), TechKeywordsAsWritten, 18);
  }

  /** The classifier as written and the corrected one differ only on messages whose normalised text holds "api". */
  lemma ClassifiersAgreeWithoutApi(message: string)
    requires !Contains(Normalise(message), "api")
    ensures Classify(message) == ClassifyAsWritten(message)
  {
    var m := Normalise(message);
    NormalisedLacksApi(message);
    TechTables();
    DropNonMatchingScore(m, TechKeywords, 18);
    DropNonMatchingScore(m, TechKeywordsAsWritten, 18);
    assert TechKeywords[..18] + TechKeywords[19..] == TechKeywordsAsWritten[..18] + TechKeywordsAsWritten[19..];
  }

  /** A lower-cased message holds no "A", so no "API". */
  lemma NormalisedLacksApi(message: string)
    ensures !Contains(Normalise(message), "API")
  {
    var m := Normalise(message);
    assert "API"[0] == 'A';
    NotContainsByEnds(m, "API");
  }

  /** An entry that does not occur in `m` can be dropped from the table without changing the score. */
  lemma DropNonMatchingScore(m: string, t: seq<string>, i: nat)
    requires i < |t| && !Contains(m, t[i])
    ensures KeywordScore(m, t) == KeywordScore(m, t[..i] + t[i + 1..])
  {
    DropNonMatching(m, t, i);
  }

  /** Replacing an entry that cannot occur by one that does adds exactly one match. */
  lemma ReplaceEntry(m: string, t: seq<string>, u: seq<string>, i: nat)
    requires |t| == |u| && i < |t| && t[..i] == u[..i] && t[i + 1..] == u[i + 1..]
    requires !Contains(m, t[i]) && Contains(m, u[i])
    ensures MatchCount(m, u) == MatchCount(m, t) + 1
  {
    DropNonMatching(m, t, i);
    assert u == u[..i] + [u[i]] + u[i + 1..];
    MatchConcat(m, u[..i] + [u[i]], u[i + 1..]);
    MatchConcat(m, u[..i], [u[i]]);
    MatchConcat(m, u[..i], u[i + 1..]);
  }

  /** With the lower-cased table, a message mentioning "api" in any case gets one more match than as written. */
  lemma ApiCountsWhenCorrected(message: string)
    requires Contains(Normalise(message), "api")
    ensures MatchCount(Normalise(message), TechKeywords)
         == MatchCount(Normalise(message), TechKeywordsAsWritten) + 1
  {
    NormalisedLacksApi(message);
    TechTables();
    ReplaceEntry(Normalise(message), TechKeywordsAsWritten, TechKeywords, 18);
  }

  /** The message "api版本", character by character. */
  predicate SpellsApiVersion(m: string) {
    |m| == 5 && m[0] == 'a' && m[1] == 'p' && m[2] == 'i' && m[3] == '版' && m[4] == '本'
  }

  const ApiVersionChars: set<char> := {'a', 'p', 'i', '版', '本'}

  lemma ApiVersionSpelled()
    ensures SpellsApiVersion("api版本")
  {
  }

  lemma ApiVersionAlphabet(m: string)
    requires SpellsApiVersion(m)
    ensures forall c :: c in m ==> c in ApiVersionChars
    ensures m[..3] == "api" && m[3..] == "版本"
  {
    assert m == [m[0], m[1], m[2], m[3], m[4]];
  }

  lemma ApiVersionNormalised(message: string)
    requires SpellsApiVersion(message)
    ensures Strip(message) != [] && SpellsApiVersion(Normalise(message))
    ensures !IsCommand(Normalise(message)) && !HasQuestionMark(Normalise(message))
  {
    ApiVersionAlphabet(message);
    StripUnchanged(message);
    LowerUnchanged(message);
    NotCommandByStart(message);
    NotContainsByEnds(message, "?");
    NotContainsByEnds(message, "？");
  }

  lemma ApiVersionTechAsWritten(m: string)
    requires SpellsApiVersion(m)
    ensures KeywordScore(m, TechKeywordsAsWritten) == 31.0 / 75.0
  {
    ApiVersionAlphabet(m);
    var t := TechKeywordsAsWritten;
    forall k | k in t[..20] + t[21..] ensures !Contains(m, k) {
      NotContainsByEnds(m, k);
    }
    ContainsAt(m, "版本", 3);
    OnlyOneMatches(m, t, 20);
  }

  lemma ApiVersionApartFromCurrent()
    ensures ApiVersionChars !! CurrentFirstChars && ApiVersionChars !! VerbFirstChars
  {
  }

  lemma ApiVersionApartFromFuture()
    ensures ApiVersionChars !! FutureFirstChars
  {
  }

  lemma ApiVersionApartFromCasual()
    ensures ApiVersionChars !! CasualFirstChars
  {
  }

  lemma ApiVersionNoCurrent(m: string)
    requires SpellsApiVersion(m)
    ensures CurrentScore(m) == 0.0
  {
    ApiVersionAlphabet(m);
    ApiVersionApartFromCurrent();
    NoCurrentMatch(m, ApiVersionChars);
    NoVerbMatch(m, ApiVersionChars);
  }

  lemma ApiVersionNoFutureOrCasual(m: string)
    requires SpellsApiVersion(m)
    ensures FutureScore(m) == 0.0 && KeywordScore(m, CasualKeywords) == 0.0
  {
    ApiVersionAlphabet(m);
    ApiVersionApartFromFuture();
    ApiVersionApartFromCasual();
    NoFutureMatch(m, ApiVersionChars);
    NoCasualMatch(m, ApiVersionChars);
  }

  /**
   * "api版本" as written: the "API" entry cannot match it, only "版本" counts
   * (score 31/75), and the ladder falls through to CASUAL_CHAT 0.4.
   */
  lemma ApiVersionAsWritten(message: string)
    requires SpellsApiVersion(message)
    ensures ClassifyAsWritten(message) == (CasualChat, 0.40)
  {
    ApiVersionScores(message);
    CasualFallback(message, TechKeywordsAsWritten);
  }

  lemma ApiVersionScores(message: string)
    requires SpellsApiVersion(message)
    ensures Strip(message) != [] && !IsCommand(Normalise(message)) && !HasQuestionMark(Normalise(message))
    ensures KeywordScore(Normalise(message), TechKeywordsAsWritten) == 31.0 / 75.0
    ensures CurrentScore(Normalise(message)) == 0.0 && FutureScore(Normalise(message)) == 0.0
    ensures KeywordScore(Normalise(message), CasualKeywords) == 0.0
  {
    ApiVersionNormalised(message);
    ApiVersionTechAsWritten(Normalise(message));
    ApiVersionNoCurrent(Normalise(message));
    ApiVersionNoFutureOrCasual(Normalise(message));
  }

  lemma ApiVersionTechCorrected(m: string)
    requires SpellsApiVersion(m)
    ensures MatchCount(m, TechKeywords) >= 2
  {
    ApiVersionAlphabet(m);
    assert Contains(m, TechKeywords[18]) by { ContainsAt(m, "api", 0); }
    assert Contains(m, TechKeywords[20]) by { ContainsAt(m, "版本", 3); }
    MatchCountAtLeast(m, TechKeywords, [18, 20]);
  }

  /** "api版本" with the lower-cased table: "api" and "版本" both count, so it is a tech question. */
  lemma ApiVersionCorrected(message: string)
    requires SpellsApiVersion(message)
    ensures Classify(message).0 == TechQuestion
  {
    ApiVersionNormalised(message);
    ApiVersionTechCorrected(Normalise(message));
  }

  /** The message "你现在在干嘛？", character by character. */
  predicate SpellsNowQuestion(m: string) {
    |m| == 7 && m[0] == '你' && m[1] == '现' && m[2] == '在' && m[3] == '在'
    && m[4] == '干' && m[5] == '嘛' && m[6] == '？'
  }

  const NowQuestionChars: set<char> := {'你', '现', '在', '干', '嘛', '？'}

  lemma NowQuestionSpelled()
    ensures SpellsNowQuestion("你现在在干嘛？")
  {
  }

  lemma NowQuestionAlphabet(m: string)
    requires SpellsNowQuestion(m)
    ensures forall c :: c in m ==> c in NowQuestionChars
  {
    assert m == [m[0], m[1], m[2], m[3], m[4], m[5], m[6]];
  }

  lemma NowQuestionNormalised(message: string)
    requires SpellsNowQuestion(message)
    ensures Strip(message) != [] && SpellsNowQuestion(Normalise(message)) && !IsCommand(Normalise(message))
  {
    NowQuestionAlphabet(message);
    StripUnchanged(message);
    LowerUnchanged(message);
    NotCommandByStart(message);
  }

  lemma NowQuestionNoTech(m: string)
    requires SpellsNowQuestion(m)
    ensures KeywordScore(m, TechKeywords) == 0.0
  {
    NowQuestionAlphabet(m);
    NoTechMatch(m, NowQuestionChars);
  }

  lemma NowQuestionCurrent(m: string)
    requires SpellsNowQuestion(m)
    ensures CurrentScore(m) == 1.0
  {
    assert Contains(m, CurrentKeywords[0]) by { ContainsAt(m, "现在", 1); }
    assert Contains(m, CurrentKeywords[4]) by { ContainsAt(m, "在干", 3); }
    assert Contains(m, CurrentKeywords[20]) by { ContainsAt(m, "在", 2); }
    MatchCountAtLeast(m, CurrentKeywords, [0, 4, 20]);
  }

  /**
   * "你现在在干嘛？" matches "现在", "在干" and "在": a question about the
   * present with confidence 1.0 (the three matches already give the maximum).
   */
  lemma WhatAreYouDoingNow(message: string)
    requires SpellsNowQuestion(message)
    ensures Classify(message) == (QueryCurrent, 1.0)
  {
    NowQuestionScores(message);
    CurrentComesSecond(message, TechKeywords);
  }

  lemma NowQuestionScores(message: string)
    requires SpellsNowQuestion(message)
    ensures Strip(message) != [] && !IsCommand(Normalise(message))
    ensures KeywordScore(Normalise(message), TechKeywords) == 0.0 && CurrentScore(Normalise(message)) == 1.0
  {
    NowQuestionNormalised(message);
    NowQuestionNoTech(Normalise(message));
    NowQuestionCurrent(Normalise(message));
  }

  /** The index of the first time range whose name occurs in `m`, searching from `i`. */
  function FirstRangeFrom(m: string, i: nat): (r: Option<nat>)
    requires i <= |TimeRanges|
    ensures r.Some? ==> i <= r.value < |TimeRanges| && Contains(m, TimeRanges[r.value].name)
    ensures r.Some? ==> forall j :: i <= j < r.value ==> !Contains(m, TimeRanges[j].name)
    ensures r.None? <==> forall j :: i <= j < |TimeRanges| ==> !Contains(m, TimeRanges[j].name)
    decreases |TimeRanges| - i
  {
    if i == |TimeRanges| then None
    else if Contains(m, TimeRanges[i].name) then Some(i)
    else FirstRangeFrom(m, i + 1)
  }

  /**
   * `extract_time_range`: None for an empty message; otherwise the first entry
   * of the table, in table order, whose name occurs in the lower-cased,
   * stripped message.
   */
  function ExtractTimeRange(message: string): (r: Option<TimeRange>)
    ensures message == [] ==> r.None?
    ensures r.Some? ==> exists i :: 0 <= i < |TimeRanges| && r.value == TimeRanges[i]
                          && Contains(Strip(Lower(message)), TimeRanges[i].name)
                          && (forall j :: 0 <= j < i ==> !Contains(Strip(Lower(message)), TimeRanges[j].name))
    ensures r.None? && message != [] ==> forall tr :: tr in TimeRanges ==> !Contains(Strip(Lower(message)), tr.name)
  {
    if message == [] then None
    else
      match FirstRangeFrom(Strip(Lower(message)), 0)
      case None => None
      case Some(i) => Some(TimeRanges[i])
  }

  /** The message "下午有什么安排", character by character. */
  predicate SpellsAfternoonPlans(m: string) {
    |m| == 7 && m[0] == '下' && m[1] == '午' && m[2] == '有' && m[3] == '什'
    && m[4] == '么' && m[5] == '安' && m[6] == '排'
  }

  lemma AfternoonPlansSpelled()
    ensures SpellsAfternoonPlans("下午有什么安排")
  {
  }

  lemma AfternoonPlansAlphabet(m: string)
    requires SpellsAfternoonPlans(m)
    ensures forall c :: c in m ==> c in {'下', '午', '有', '什', '么', '安', '排'}
  {
    assert m == [m[0], m[1], m[2], m[3], m[4], m[5], m[6]];
  }

  /** "下午有什么安排" names the afternoon, 14 to 18; none of the four earlier entries occurs. */
  lemma AfternoonPlans(message: string)
    requires SpellsAfternoonPlans(message)
    ensures ExtractTimeRange(message) == Some(TimeRange("下午", 14, 18))
  {
    var m := message;
    AfternoonPlansAlphabet(m);
    LowerUnchanged(m);
    StripUnchanged(m);
    assert Strip(Lower(m)) == m;
    forall j | 0 <= j < 4 ensures !Contains(m, TimeRanges[j].name) {
      NotContainsByEnds(m, TimeRanges[j].name);
    }
    assert Contains(m, TimeRanges[4].name) by { ContainsAt(m, "下午", 0); }
    assert FirstRangeFrom(m, 4) == Some(4);
    assert FirstRangeFrom(m, 3) == Some(4);
    assert FirstRangeFrom(m, 2) == Some(4);
    assert FirstRangeFrom(m, 1) == Some(4);
  }
}
