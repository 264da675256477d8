/**
 * The content template engine of handlers/inject/content_template.py: pools
 * of templates per intent, where an absent template means "do not inject",
 * placeholder substitution, the list of later activities, and the short
 * fallback text.
 */
module ContentTemplates {
  import opened Wrappers
  import opened Strings
  import opened IntentClassification

  /**
   * A template is text with named placeholders, as `str.format` sees it:
   * literal pieces and `{name}` holes.
   */
  datatype Segment = Lit(text: string) | Hole(name: string)
  type Template = seq<Segment>

  /** The placeholder names a template uses. */
  function Holes(t: Template): (r: set<string>)
    ensures forall i :: 0 <= i < |t| && t[i].Hole? ==> t[i].name in r
  {
    if t == [] then {} else (if t[0].Hole? then {t[0].name} else {}) + Holes(t[1..])
  }

  /**
   * `template.format(**variables)`: every hole replaced by its value, or
   * None where a hole has no value (the KeyError the source catches).
   */
  function Render(t: Template, vars: map<string, string>): (r: Option<string>)
    ensures r.Some? <==> Holes(t) <= vars.Keys
  {
    if t == [] then Some("")
    else
      var rest := Render(t[1..], vars);
      match t[0]
      case Lit(text) => if rest.Some? then Some(text + rest.value) else None
      case Hole(name) => if name in vars && rest.Some? then Some(vars[name] + rest.value) else None
  }

  /** Values for names a template does not use do not change what it renders. */
  lemma {:induction false} RenderIgnoresUnused(t: Template, vars: map<string, string>, name: string, value: string)
    requires name !in Holes(t)
    ensures Render(t, vars[name := value]) == Render(t, vars)
  {
    if t != [] {
      RenderIgnoresUnused(t[1..], vars, name, value);
    }
  }

  /** "活动（描述）" when there is a description, else the activity, else "休息". */
  function ActivityFull(current: Option<string>, description: Option<string>): (r: string)
    ensures Truthy(description) ==> r == Show(current) + "（" + description.value + "）"
    ensures !Truthy(description) && Truthy(current) ==> r == current.value
    ensures !Truthy(description) && !Truthy(current) ==> r == "休息"
  {
    if Truthy(description) then Show(current) + "（" + description.value + "）"
    else if Truthy(current) then current.value
    else "休息"
  }

  /** The placeholder names the source fills. */
  const VariableNames: set<string> := {"activity", "description", "activity_full", "future_activities"}

  /** The values of the source's placeholders. */
  function VariablesAsWritten(current: Option<string>, description: Option<string>,
                              next: Option<seq<(string, string)>>): (r: map<string, string>)
    ensures r.Keys == VariableNames
    ensures r["activity"] == (if Truthy(current) then current.value else "休息")
    ensures r["description"] == (if Truthy(description) then description.value else "")
    ensures r["activity_full"] == ActivityFull(current, description)
    ensures next.Some? && next.value != [] ==> r["future_activities"] == FormatFutureActivities(next.value, None)
    ensures !(next.Some? && next.value != []) ==> r["future_activities"] == "暂无后续安排"
  {
    map[
      "activity" := if Truthy(current) then current.value else "休息",
      "description" := if Truthy(description) then description.value else "",
      "activity_full" := ActivityFull(current, description),
      "future_activities" := if next.Some? && next.value != [] then FormatFutureActivities(next.value, None) else "暂无后续安排"]
  }

  /**
   * The placeholder values with the state description the caller passes
   * added under "state_desc" ("" when it passes none).
   */
  function Variables(current: Option<string>, description: Option<string>, stateDesc: Option<string>,
                     next: Option<seq<(string, string)>>): (r: map<string, string>)
    ensures r.Keys == VariableNames + {"state_desc"}
    ensures r["state_desc"] == (if Truthy(stateDesc) then stateDesc.value else "")
    ensures forall k :: k in VariableNames ==> r[k] == VariablesAsWritten(current, description, next)[k]
  {
    VariablesAsWritten(current, description, next)["state_desc" := if Truthy(stateDesc) then stateDesc.value else ""]
  }

  /** The "time name" lines of the later activities, in the given order. */
  function FutureLines(activities: seq<(string, string)>): (r: seq<string>)
    ensures |r| == |activities|
    ensures forall i :: 0 <= i < |r| ==> r[i] == activities[i].0 + " " + activities[i].1
  {
    if activities == [] then []
    else [activities[0].0 + " " + activities[0].1] + FutureLines(activities[1..])
  }

  /**
   * `_format_future_activities`: "暂无安排" for no activities, otherwise the
   * lines of all of them (no limit) or of `activities[:max_count]`, joined
   * with newlines.
   */
  function FormatFutureActivities(activities: seq<(string, string)>, maxCount: Option<int>): (r: string)
    ensures activities == [] ==> r == "暂无安排"
    ensures activities != [] && maxCount.None? ==> r == Join(FutureLines(activities), "\n")
    ensures activities != [] && maxCount.Some? ==> r == Join(FutureLines(PyTake(activities, maxCount.value)), "\n")
  {
    if activities == [] then "暂无安排"
    else
      var limited := if maxCount.None? then activities else PyTake(activities, maxCount.value);
      Join(FutureLines(limited), "\n")
  }

  /** A limit at or beyond the number of activities lists them all. */
  lemma FormatLimitBeyondLength(activities: seq<(string, string)>, n: int)
    requires n >= |activities|
    ensures FormatFutureActivities(activities, Some(n)) == FormatFutureActivities(activities, None)
  {
  }

  /** The documented example: three activities become three "time name" lines. */
  lemma FormatThree(t1: string, n1: string, t2: string, n2: string, t3: string, n3: string)
    ensures FormatFutureActivities([(t1, n1), (t2, n2), (t3, n3)], None)
            == t1 + " " + n1 + "\n" + t2 + " " + n2 + "\n" + t3 + " " + n3
  {
    var lines := FutureLines([(t1, n1), (t2, n2), (t3, n3)]);
    var l1, l2, l3 := t1 + " " + n1, t2 + " " + n2, t3 + " " + n3;
    assert lines == [l1, l2, l3];
    assert lines[1..] == [l2, l3] && lines[1..][1..] == [l3];
    assert Join(lines[1..], "\n") == l2 + "\n" + l3;
  }

  const SimpleReminder := "回复时可以自然提到当前在做什么，不要刻意强调。\n"

  function SimpleHeader(current: string): string {
    "【当前状态】\n这会儿正" + current + "\n"
  }

  function NextLine(nextActivity: string, nextTime: string): string {
    "等下" + nextTime + "要" + nextActivity + "。\n"
  }

  /**
   * `build_simple_inject`: the header line, the "等下…要…" line exactly when
   * both the next activity and its time are non-empty, and the reminder.
   */
  function BuildSimpleInject(current: string, nextActivity: Option<string>, nextTime: Option<string>): (r: string)
    ensures StartsWith(r, SimpleHeader(current)) && EndsWith(r, SimpleReminder)
    ensures Truthy(nextActivity) && Truthy(nextTime) ==>
              var line := NextLine(nextActivity.value, nextTime.value);
              |r| == |SimpleHeader(current)| + |line| + |SimpleReminder|
              && r[|SimpleHeader(current)|..|SimpleHeader(current)| + |line|] == line
    ensures !(Truthy(nextActivity) && Truthy(nextTime)) ==> |r| == |SimpleHeader(current)| + |SimpleReminder|
  {
    var content := SimpleHeader(current);
    var content := if Truthy(nextActivity) && Truthy(nextTime) then content + NextLine(nextActivity.value, nextTime.value) else content;
    content + SimpleReminder
  }

  /** The number of entries of a pool that are templates rather than None. */
  function CountTemplates(pool: seq<Option<Template>>): (r: nat)
    ensures r <= |pool|
    decreases |pool|
  {
    if pool == [] then 0 else (if pool[0].Some? then 1 else 0) + CountTemplates(pool[1..])
  }

  lemma {:induction false} CountTemplatesNone(pool: seq<Option<Template>>)
    ensures CountTemplates(pool) == 0 <==> forall i :: 0 <= i < |pool| ==> pool[i].None?
    ensures CountTemplates(pool) == |pool| <==> forall i :: 0 <= i < |pool| ==> pool[i].Some?
    decreases |pool|
  {
    if pool != [] {
      CountTemplatesNone(pool[1..]);
      assert forall i :: 1 <= i < |pool| ==> pool[i] == pool[1..][i - 1];
    }
  }

  lemma {:induction false} CountTemplatesAppend(pool: seq<Option<Template>>, t: Option<Template>)
    ensures CountTemplates(pool + [t]) == CountTemplates(pool) + (if t.Some? then 1 else 0)
    decreases |pool|
  {
    if pool == [] {
      assert [] + [t] == [t];
    } else {
      assert (pool + [t])[1..] == pool[1..] + [t];
      CountTemplatesAppend(pool[1..], t);
    }
  }

  /** The pools the engine starts with; UNKNOWN has none. */
  function DefaultTemplates(): (r: map<UserIntent, seq<Option<Template>>>)
    ensures r.Keys == {QueryCurrent, QueryFuture, CasualChat, TechQuestion, CommandExecution}
  {
    map[
      QueryCurrent := [
        Some([Lit("【当前状态】"), Hole("activity_full"), Lit("。回答问题时自然提到当前活动即可。")]),
        Some([Lit("【当前状态】"), Hole("activity_full"), Lit("。回复时可以顺便说说现在在做什么。")]),
        Some([Lit("【当前状态】"), Hole("activity_full"), Lit("。自然融入到回复中。")]),
        Some([Lit("【当前状态】"), Hole("activity_full"), Lit("。回答时顺带提一下。")])],
      QueryFuture := [
        Some([Lit("【当前状态】"), Hole("activity_full"), Lit("。【接下来安排】"), Hole("future_activities"),
              Lit("。回复时自然提到后续计划。")]),
        Some([Lit("【后续计划】"), Hole("future_activities"), Lit("。可以在回答中提及接下来的安排。")]),
        Some([Lit("【今日安排】现在："), Hole("activity_full"), Lit("，之后："), Hole("future_activities"),
              Lit("。顺便说说计划即可。")])],
      CasualChat := [
        Some([Lit("【提示】"), Hole("activity_full"), Lit("。可随口提一下。")]),
        Some([Lit("【当前】"), Hole("activity_full"), Lit("。轻松回复。")]),
        None,
        None],
      TechQuestion := [None],
      CommandExecution := [None]]
  }

  class ContentTemplateEngine {
    var templates: map<UserIntent, seq<Option<Template>>>

    constructor()
      ensures templates == DefaultTemplates()
    {
      templates := DefaultTemplates();
    }

    /** `self.templates.get(intent, [])`. */
    function Pool(intent: UserIntent): seq<Option<Template>>
      reads this
    {
      if intent in templates then templates[intent] else []
    }

    /**
     * `build_inject_content` with the placeholder values `vars`: None for an
     * intent without templates, for a drawn None entry (`choice` stands in
     * for the random pick), for a missing current activity unless the
     * intent is QUERY_FUTURE, and for a template with a placeholder `vars`
     * lacks; otherwise the rendered template.
     */
    function BuildWith(vars: map<string, string>, intent: UserIntent, current: Option<string>, choice: nat): (r: Option<string>)
      reads this
      ensures Pool(intent) == [] ==> r == None
      ensures Pool(intent) != [] ==>
                var entry := Pool(intent)[choice % |Pool(intent)|];
                (r.Some? <==> entry.Some? && (Truthy(current) || intent == QueryFuture) && Holes(entry.value) <= vars.Keys)
                && (r.Some? ==> r == Render(entry.value, vars))
    {
      var pool := Pool(intent);
      if pool == [] then None
      else
        var template := pool[choice % |pool|];
        if template.None? then None
        else if !Truthy(current) && intent != QueryFuture then None
        else Render(template.value, vars)
    }

    /** The source's `build_inject_content`, whose placeholders lack "state_desc". */
    function BuildInjectContentAsWritten(intent: UserIntent, current: Option<string>, description: Option<string>,
                                         stateDesc: Option<string>, next: Option<seq<(string, string)>>, choice: nat): (r: Option<string>)
      reads this
      ensures (Pool(intent) != [] && Pool(intent)[choice % |Pool(intent)|].Some?
               && "state_desc" in Holes(Pool(intent)[choice % |Pool(intent)|].value)) ==> r == None
    {
      BuildWith(VariablesAsWritten(current, description, next), intent, current, choice)
    }

    /** `build_inject_content` with the caller's state description available as "state_desc". */
    function BuildInjectContent(intent: UserIntent, current: Option<string>, description: Option<string>,
                                stateDesc: Option<string>, next: Option<seq<(string, string)>>, choice: nat): Option<string>
      reads this
    {
      BuildWith(Variables(current, description, stateDesc, next), intent, current, choice)
    }

    /** `get_template_count`: the entries of the intent's pool that are not None. */
    function GetTemplateCount(intent: UserIntent): (r: nat)
      reads this
      ensures r <= |Pool(intent)|
      ensures intent !in templates ==> r == 0
    {
      CountTemplates(Pool(intent))
    }

    /**
     * `add_custom_template`: the template is appended to the end of the
     * intent's pool (created when missing); every other pool is unchanged.
     */
    method AddCustomTemplate(intent: UserIntent, template: Template)
      modifies this
      ensures templates == old(templates)[intent := old(Pool(intent)) + [Some(template)]]
      ensures GetTemplateCount(intent) == old(GetTemplateCount(intent)) + 1
    {
      var pool := Pool(intent);
      templates := templates[intent := pool + [Some(template)]];
      CountTemplatesAppend(pool, Some(template));
    }
  }

  /**
   * With the starting pools, tech questions, commands and unknown intents
   * never inject, and casual chat injects for only two of its four draws.
   */
  lemma DefaultSuppression(e: ContentTemplateEngine, intent: UserIntent, current: Option<string>,
                           description: Option<string>, stateDesc: Option<string>,
                           next: Option<seq<(string, string)>>, choice: nat)
    requires e.templates == DefaultTemplates()
    ensures intent in {TechQuestion, CommandExecution, Unknown} ==>
              e.BuildInjectContent(intent, current, description, stateDesc, next, choice) == None
    ensures intent == CasualChat && choice % 4 >= 2 ==>
              e.BuildInjectContent(intent, current, description, stateDesc, next, choice) == None
  {
    if intent == TechQuestion || intent == CommandExecution {
      assert e.Pool(intent) == [None];
    } else if intent == CasualChat {
      assert |e.Pool(intent)| == 4 && e.Pool(intent)[2] == None && e.Pool(intent)[3] == None;
    }
  }

  /** The starting template counts: 4, 3, 2, 0, 0 and 0. */
  lemma DefaultCounts(e: ContentTemplateEngine)
    requires e.templates == DefaultTemplates()
    ensures e.GetTemplateCount(QueryCurrent) == 4 && e.GetTemplateCount(QueryFuture) == 3
    ensures e.GetTemplateCount(CasualChat) == 2 && e.GetTemplateCount(TechQuestion) == 0
    ensures e.GetTemplateCount(CommandExecution) == 0 && e.GetTemplateCount(Unknown) == 0
  {
    var qc, qf, cc := e.Pool(QueryCurrent), e.Pool(QueryFuture), e.Pool(CasualChat);
    assert qc[1..][1..][1..][1..] == [];
    assert qf[1..][1..][1..] == [];
    assert cc[1..][1..][1..][1..] == [];
  }

  /**
   * With the starting pools, a question about the present with a current
   * activity always injects, and the text starts with "【当前状态】" followed
   * by the full activity.
   */
  lemma DefaultCurrentInjects(e: ContentTemplateEngine, current: Option<string>, description: Option<string>,
                              stateDesc: Option<string>, next: Option<seq<(string, string)>>, choice: nat)
    requires e.templates == DefaultTemplates() && Truthy(current)
    ensures var r := e.BuildInjectContent(QueryCurrent, current, description, stateDesc, next, choice);
      r.Some? && StartsWith(r.value, "【当前状态】" + ActivityFull(current, description))
  {
    var pool := e.Pool(QueryCurrent);
    var t := pool[choice % 4].value;
    var vars := Variables(current, description, stateDesc, next);
    assert t[0] == Lit("【当前状态】") && t[1] == Hole("activity_full") && |t| == 3;
    assert t[1..][1..][1..] == [];
    var tail := Render(t[1..][1..], vars);
    assert tail.Some?;
    assert Render(t, vars).value == "【当前状态】" + (vars["activity_full"] + tail.value);
  }

  /**
   * A question about the future injects even without a current activity;
   * the second starting template then lists the later activities, or says
   * there are none.
   */
  lemma FutureWithoutActivity(e: ContentTemplateEngine, description: Option<string>, stateDesc: Option<string>,
                              next: Option<seq<(string, string)>>)
    requires e.templates == DefaultTemplates()
    ensures var r := e.BuildInjectContent(QueryFuture, None, description, stateDesc, next, 1);
      r.Some?
      && StartsWith(r.value, "【后续计划】" + Variables(None, description, stateDesc, next)["future_activities"])
  {
    var t := e.Pool(QueryFuture)[1].value;
    var vars := Variables(None, description, stateDesc, next);
    assert t[1..][1..] == [Lit("。可以在回答中提及接下来的安排。")];
    var tail := Render(t[1..][1..], vars);
    assert Render(t, vars).value == "【后续计划】" + (vars["future_activities"] + tail.value);
  }

  /** A value for a name the drawn template does not use changes nothing. */
  lemma BuildWithIgnoresUnused(e: ContentTemplateEngine, vars: map<string, string>, name: string, value: string,
                               intent: UserIntent, current: Option<string>, choice: nat)
    requires e.Pool(intent) != [] && e.Pool(intent)[choice % |e.Pool(intent)|].Some? ==>
               name !in Holes(e.Pool(intent)[choice % |e.Pool(intent)|].value)
    ensures e.BuildWith(vars[name := value], intent, current, choice) == e.BuildWith(vars, intent, current, choice)
  {
    var pool := e.Pool(intent);
    if pool != [] && pool[choice % |pool|].Some? {
      RenderIgnoresUnused(pool[choice % |pool|].value, vars, name, value);
    }
  }

  /** For a template that does not use "state_desc", both variants give the same text. */
  lemma AsWrittenAgreesWithoutStateDesc(e: ContentTemplateEngine, intent: UserIntent, current: Option<string>,
                                        description: Option<string>, stateDesc: Option<string>,
                                        next: Option<seq<(string, string)>>, choice: nat)
    requires e.Pool(intent) != [] && e.Pool(intent)[choice % |e.Pool(intent)|].Some? ==>
               "state_desc" !in Holes(e.Pool(intent)[choice % |e.Pool(intent)|].value)
    ensures e.BuildInjectContentAsWritten(intent, current, description, stateDesc, next, choice)
            == e.BuildInjectContent(intent, current, description, stateDesc, next, choice)
  {
    var vars := VariablesAsWritten(current, description, next);
    var value := if Truthy(stateDesc) then stateDesc.value else "";
    assert Variables(current, description, stateDesc, next) == vars["state_desc" := value];
    BuildWithIgnoresUnused(e, vars, "state_desc", value, intent, current, choice);
  }

  /** The template of the `add_custom_template` documentation. */
  const StateDescExample: Template := [Lit("【状态】正在"), Hole("activity"), Lit("，"), Hole("state_desc")]

  /**
   * As written, a question about the present answered with the documented
   * custom template (the only entry of its pool) never injects, whatever
   * the state description.
   */
  lemma StateDescTemplateAsWritten(e: ContentTemplateEngine, stateDesc: Option<string>)
    requires e.templates == map[QueryCurrent := [Some(StateDescExample)]]
    ensures e.BuildInjectContentAsWritten(QueryCurrent, Some("学习"), None, stateDesc, None, 0) == None
  {
    assert "state_desc" in Holes(StateDescExample) by {
      assert StateDescExample[3] == Hole("state_desc");
    }
  }

  /** With "state_desc" filled, the same template renders the activity and the state description. */
  lemma StateDescTemplateCorrected(e: ContentTemplateEngine, activity: string, stateDesc: string)
    requires e.templates == map[QueryCurrent := [Some(StateDescExample)]]
    requires activity != "" && stateDesc != ""
    ensures e.BuildInjectContent(QueryCurrent, Some(activity), None, Some(stateDesc), None, 0)
            == Some("【状态】正在" + activity + "，" + stateDesc)
  {
    var vars := Variables(Some(activity), None, Some(stateDesc), None);
    assert vars["activity"] == activity && vars["state_desc"] == stateDesc;
    var t := StateDescExample;
    assert t[1..][1..][1..] == [Hole("state_desc")];
    assert t[1..][1..][1..][1..] == [];
    assert stateDesc + "" == stateDesc;
    assert Render(t[1..][1..][1..], vars) == Some(stateDesc);
    assert Render(t[1..][1..], vars) == Some("，" + stateDesc);
    assert Render(t[1..], vars) == Some(activity + ("，" + stateDesc));
    assert Render(t, vars) == Some("【状态】正在" + (activity + ("，" + stateDesc)));
    assert "【状态】正在" + (activity + ("，" + stateDesc)) == "【状态】正在" + activity + "，" + stateDesc;
    assert e.Pool(QueryCurrent) == [Some(t)];
    assert e.BuildWith(vars, QueryCurrent, Some(activity), 0) == Render(t, vars);
  }
}
