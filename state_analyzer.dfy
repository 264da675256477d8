/**
 * The activity state analyzer of handlers/inject/state_analyzer.py: the
 * progress state of a scheduled activity from its window and the current
 * minute, a phrase drawn from a per-type, per-state table, and the
 * "elapsed / remaining" text.
 */
module StateAnalysis {
  import opened Wrappers
  import opened Strings

  datatype ActivityState = JustStarted | InProgress | AlmostDone | Unknown {
    function Value(): string {
      match this
      case JustStarted => "just_started"
      case InProgress => "in_progress"
      case AlmostDone => "almost_done"
      case Unknown => "unknown"
    }
  }

  /**
   * The phrases of one activity type, one list per state; no type has a list
   * for `Unknown`.
   */
  datatype Phrases = Phrases(justStarted: seq<string>, inProgress: seq<string>, almostDone: seq<string>) {
    /** The list of a state, [] when the table has none. */
    function For(state: ActivityState): seq<string> {
      match state
      case JustStarted => justStarted
      case InProgress => inProgress
      case AlmostDone => almostDone
      case Unknown => []
    }

    predicate WellShaped() {
      |justStarted| > 0 && |inProgress| > 0 && |almostDone| > 0
    }
  }

  const CustomPhrases := Phrases(
    ["刚开始呢", "才起步", "刚着手", "刚启动"],
    ["进行得还挺顺利", "做了有一会儿了", "节奏还不错", "状态还行", "挺专注的"],
    ["快完成了", "马上就好", "差不多要结束了", "收尾阶段"])

  /** The phrase table keyed by activity type: None for a type without an entry. */
  function TypePhrases(activityType: string): (r: Option<Phrases>)
    ensures r.Some? ==> r.value.WellShaped()
  {
    if activityType == "study" then Some(Phrases(
      ["刚开始学，还挺有精神", "刚打开书，准备认真学", "刚开始，状态还不错"],
      ["学了一会儿了，还算专注", "学得还挺认真", "有点累但还能坚持", "效率还行", "状态还算不错"],
      ["快学完了，有点累", "马上就学完了，坚持一下", "学了好久了，脑子有点晕"]))
    else if activityType == "entertainment" then Some(Phrases(
      ["刚开始看，还挺有意思", "刚打开，看看怎么样", "刚开始玩，挺新鲜的"],
      ["看得正起劲呢", "玩得挺开心", "挺有意思的", "放松一下~", "心情不错"],
      ["快看完了", "马上就结束了", "差不多该停了"]))
    else if activityType == "meal" then Some(Phrases(
      ["刚坐下准备吃", "刚开始吃，饿死了", "才开始吃呢"],
      ["吃得挺香", "味道还不错", "慢慢品味着", "吃得还算满意", "边吃边聊~"],
      ["快吃完了", "差不多吃饱了", "马上吃完"]))
    else if activityType == "daily_routine" then Some(Phrases(
      ["刚开始", "刚开始弄", "才刚开始呢"],
      ["做着日常的事", "按部就班地做着", "例行操作中", "习惯了，挺自然的"],
      ["快弄完了", "马上就好"]))
    else if activityType == "exercise" then Some(Phrases(
      ["刚开始运动，还有力气", "才热身完，准备运动", "刚开始，状态不错"],
      ["有点累了", "出汗了，感觉不错", "坚持着，还能撑", "累但挺爽的", "出了点汗"],
      ["快练完了，好累", "马上结束，累死了", "差不多该休息了"]))
    else if activityType == "social_maintenance" then Some(Phrases(
      ["刚开始聊", "才打招呼呢"],
      ["聊得挺开心", "气氛还不错", "聊得还挺投机", "话题挺有意思"],
      ["快聊完了", "差不多该说再见了"]))
    else if activityType == "learn_topic" then Some(Phrases(
      ["刚开始研究，挺感兴趣", "才开始了解"],
      ["还挺有意思", "了解了不少新东西", "学到了挺多", "挺长知识的"],
      ["快研究完了", "差不多了解清楚了"]))
    else if activityType == "custom" then Some(CustomPhrases)
    else None
  }

  /**
   * The progress state for a window of positive length: the elapsed share of
   * the window is compared with 0.1 and 0.8.
   */
  function StateOf(start: int, end: int, current: int): (r: ActivityState)
    requires end - start > 0
    ensures r != Unknown
  {
    var progress := (current - start) as real / (end - start) as real;
    if progress < 0.1 then JustStarted
    else if progress > 0.8 then AlmostDone
    else InProgress
  }

  /**
   * The same thresholds in integers: "just started" below a tenth of the
   * window, "almost done" beyond four fifths, so that both boundaries are
   * "in progress", and a current minute at or before the start is always
   * "just started".
   */
  lemma {:induction false} StateByCrossMultiplication(start: int, end: int, current: int)
    requires end - start > 0
    ensures StateOf(start, end, current) == JustStarted <==> 10 * (current - start) < end - start
    ensures StateOf(start, end, current) == AlmostDone <==> 5 * (current - start) > 4 * (end - start)
    ensures StateOf(start, end, current) == InProgress <==>
              end - start <= 10 * (current - start) && 5 * (current - start) <= 4 * (end - start)
    ensures current <= start ==> StateOf(start, end, current) == JustStarted
  {
    var e, t := (current - start) as real, (end - start) as real;
    DivBelow(e, t, 0.1);
    DivAbove(e, t, 0.8);
  }

  lemma DivBelow(e: real, t: real, c: real)
    requires t > 0.0
    ensures e / t < c <==> e < c * t
  {
    var p := e / t;
    assert p * t == e;
    if p < c {
      assert p * t < c * t;
    } else {
      assert p * t >= c * t;
    }
  }

  lemma DivAbove(e: real, t: real, c: real)
    requires t > 0.0
    ensures e / t > c <==> e > c * t
  {
    var p := e / t;
    assert p * t == e;
    if p > c {
      assert p * t > c * t;
    } else {
      assert p * t <= c * t;
    }
  }

  /**
   * `generate_emotion_text`: the table of the type (the "custom" table for a
   * type without one), the list of the state in it, and the phrase at
   * `choice` (standing in for the random pick); "" when the list is empty.
   */
  function EmotionText(activityType: string, state: ActivityState, choice: nat): (r: string)
  {
    var table := if TypePhrases(activityType).Some? then TypePhrases(activityType).value else CustomPhrases;
    var descriptions := table.For(state);
    if descriptions == [] then "" else descriptions[choice % |descriptions|]
  }

  /** The table an activity type reads. */
  function TableOf(activityType: string): (r: Phrases)
    ensures r.WellShaped()
    ensures TypePhrases(activityType).Some? ==> r == TypePhrases(activityType).value
  {
    TypePhrases(activityType).GetOr(CustomPhrases)
  }

  /**
   * For a state other than `Unknown` the phrase is a member of that state's
   * list in the type's table, whatever the draw; for `Unknown` it is "".
   */
  lemma EmotionTextFromTable(activityType: string, state: ActivityState, choice: nat)
    ensures state != Unknown ==> EmotionText(activityType, state, choice) in TableOf(activityType).For(state)
    ensures state == Unknown ==> EmotionText(activityType, state, choice) == ""
  {
    var list := TableOf(activityType).For(state);
    assert EmotionText(activityType, state, choice) == if list == [] then "" else list[choice % |list|];
  }

  /** A type without a table reads exactly the "custom" table. */
  lemma UnknownTypeIsCustom(activityType: string, state: ActivityState, choice: nat)
    requires TypePhrases(activityType).None?
    ensures EmotionText(activityType, state, choice) == EmotionText("custom", state, choice)
  {
    assert TypePhrases("custom") == Some(CustomPhrases);
  }

  /**
   * `analyze_activity_state`: (Unknown, None) for a window of no positive
   * length, otherwise the progress state and a phrase for it.
   */
  function AnalyzeActivityState(activityName: string, start: int, end: int, current: int,
                                activityType: string, choice: nat): (r: (ActivityState, Option<string>))
    ensures end - start <= 0 <==> r == (Unknown, None)
    ensures end - start > 0 ==> r.0 == StateOf(start, end, current) && r.1 == Some(EmotionText(activityType, r.0, choice))
  {
    if end - start <= 0 then (Unknown, None)
    else
      var state := StateOf(start, end, current);
      (state, Some(EmotionText(activityType, state, choice)))
  }

  /**
   * The two examples of the documentation: ten minutes into a two-hour
   * window is "just started" with a "study" phrase; ninety minutes in is
   * three quarters of the window, which is "in progress" (not "almost
   * done" as the documentation shows).
   */
  lemma AnalyzeExamples(choice: nat)
    ensures var r := AnalyzeActivityState("学习", 540, 660, 550, "study", choice);
      r.0 == JustStarted && r.1.Some? && r.1.value in TableOf("study").justStarted
    ensures AnalyzeActivityState("学习", 540, 660, 630, "study", choice).0 == InProgress
  {
    StateByCrossMultiplication(540, 660, 550);
    StateByCrossMultiplication(540, 660, 630);
    EmotionTextFromTable("study", JustStarted, choice);
  }

  /** A positive number of minutes as whole hours and the minutes left over. */
  function HoursMinutes(n: nat): (r: (nat, nat))
    ensures r.0 * 60 + r.1 == n && r.1 < 60
  {
    (n / 60, n % 60)
  }

  /**
   * One part of the progress text: the lead word followed by the whole
   * hours and "小时" when there is at least one, then the minutes left over
   * and "分钟" when there are any; no part for zero minutes.
   */
  function DurationPart(lead: string, n: nat): (r: seq<string>)
    ensures n > 0 <==> |r| == 1
    ensures n == 0 <==> r == []
    ensures n > 0 ==> StartsWith(r[0], lead)
    ensures n >= 60 ==> StartsWith(r[0], lead + NatToString(n / 60) + "小时")
    ensures n >= 60 && n % 60 == 0 ==> r == [lead + NatToString(n / 60) + "小时"]
    ensures n >= 60 && n % 60 > 0 ==> EndsWith(r[0], "小时" + NatToString(n % 60) + "分钟")
    ensures n >= 60 && n % 60 > 0 ==> r == [lead + NatToString(n / 60) + "小时" + (NatToString(n % 60) + "分钟")]
    ensures 0 < n < 60 ==> r == [lead + NatToString(n) + "分钟"]
  {
    var (h, m) := HoursMinutes(n);
    if h > 0 then
      var head := lead + NatToString(h) + "小时";
      var tail := if m > 0 then NatToString(m) + "分钟" else "";
      assert (head + tail)[..|head|] == head;
      assert m > 0 ==> (head + tail)[|head + tail| - |"小时" + tail|..] == "小时" + tail;
      assert m == 0 ==> head + tail == head;
      [head + tail]
    else if m > 0 then [lead + NatToString(m) + "分钟"]
    else []
  }

  /**
   * `get_progress_description`: "刚开始" before the start, "即将结束" at or
   * after the end, otherwise the elapsed part and the remaining part joined
   * with "，".
   */
  function ProgressDescription(start: int, end: int, current: int): (r: string)
    ensures current - start <= 0 ==> r == "刚开始"
    ensures current - start > 0 && end - current <= 0 ==> r == "即将结束"
  {
    var elapsed := current - start;
    var remaining := end - current;
    if elapsed <= 0 then "刚开始"
    else if remaining <= 0 then "即将结束"
    else Join(DurationPart("已进行", elapsed) + DurationPart("还剩", remaining), "，")
  }

  /** Joining two parts puts one separator between them. */
  lemma JoinPair(a: string, b: string, sep: string)
    ensures Join([a, b], sep) == a + sep + b
  {
    assert [a, b][1..] == [b];
  }

  /**
   * Inside the window the text always has both parts: it is the elapsed
   * part, "，" and the remaining part; under an hour elapsed the first is
   * "已进行" and those minutes, under an hour remaining the second is
   * "还剩" and those minutes (the hours are `DurationPart`'s).
   */
  lemma ProgressDescriptionInside(start: int, end: int, current: int)
    requires start < current < end
    ensures var e, rem := DurationPart("已进行", current - start)[0], DurationPart("还剩", end - current)[0];
      ProgressDescription(start, end, current) == e + "，" + rem
      && StartsWith(e, "已进行") && StartsWith(rem, "还剩")
      && (current - start < 60 ==> e == "已进行" + NatToString(current - start) + "分钟")
      && (end - current < 60 ==> rem == "还剩" + NatToString(end - current) + "分钟")
  {
    var e, rem := DurationPart("已进行", current - start)[0], DurationPart("还剩", end - current)[0];
    assert DurationPart("已进行", current - start) + DurationPart("还剩", end - current) == [e, rem];
    JoinPair(e, rem, "，");
  }

  /** The documented example: one hour into a two-hour window. */
  lemma ProgressDescriptionExample()
    ensures ProgressDescription(540, 660, 600) == "已进行1小时，还剩1小时"
  {
    assert HoursMinutes(60) == (1, 0);
    assert NatToString(1) == "1";
    assert "已进行" + "1" + "小时" + "" == "已进行1小时";
    assert "还剩" + "1" + "小时" + "" == "还剩1小时";
    ProgressDescriptionInside(540, 660, 600);
  }
}
