/**
 * The in-memory goal store of planner/goal_manager.py: goals, their dict
 * serialisation, the "should execute now" test, and the GoalManager's map
 * operations (create, batch create with rollback, filters, partial update,
 * delete, retention cleanup, mark executed). Persistence is represented only
 * by the `dirty` flag: set when a delayed save is scheduled, cleared by a
 * forced save.
 */
module GoalManagement {
  import opened Wrappers
  import opened Seqs

  /** Goal ids are drawn fresh for every new goal (uuid4 in the source). */
  type GoalId = nat
  /** A point in time, in seconds. */
  type Timestamp = int

  const SecondsPerDay: int := 86400

  datatype GoalStatus = Active | Paused | Completed | Cancelled | Failed {
    function Value(): string {
      match this
      case Active => "active"
      case Paused => "paused"
      case Completed => "completed"
      case Cancelled => "cancelled"
      case Failed => "failed"
    }
  }

  /** `GoalStatus(value)`: None where the enum constructor raises ValueError. */
  function StatusFromValue(v: string): (r: Option<GoalStatus>)
    ensures r.Some? ==> r.value.Value() == v
    ensures forall st: GoalStatus :: st.Value() == v ==> r == Some(st)
  {
    if v == "active" then Some(Active)
    else if v == "paused" then Some(Paused)
    else if v == "completed" then Some(Completed)
    else if v == "cancelled" then Some(Cancelled)
    else if v == "failed" then Some(Failed)
    else None
  }

  datatype GoalPriority = High | Medium | Low {
    function Value(): string {
      match this
      case High => "high"
      case Medium => "medium"
      case Low => "low"
    }
  }

  /** `GoalPriority(value)`: None where the enum constructor raises ValueError. */
  function PriorityFromValue(v: string): (r: Option<GoalPriority>)
    ensures r.Some? ==> r.value.Value() == v
    ensures forall p: GoalPriority :: p.Value() == v ==> r == Some(p)
  {
    if v == "high" then Some(High)
    else if v == "medium" then Some(Medium)
    else if v == "low" then Some(Low)
    else None
  }

  /** JSON-like values of a goal dict; `JTime` stands for an ISO timestamp string. */
  datatype Json =
    | JNull
    | JBool(b: bool)
    | JInt(i: int)
    | JStr(s: string)
    | JTime(t: Timestamp)
    | JList(items: seq<Json>)
    | JObj(fields: map<string, Json>)
  {
    /** Python truthiness. A timestamp string is never empty. */
    predicate Truthy() {
      match this
      case JNull => false
      case JBool(b) => b
      case JInt(i) => i != 0
      case JStr(s) => s != ""
      case JTime(_) => true
      case JList(xs) => xs != []
      case JObj(m) => m != map[]
    }
  }

  datatype Goal = Goal(
    goalId: GoalId,
    name: string,
    description: string,
    goalType: string,
    priority: GoalPriority,
    creatorId: string,
    chatId: string,
    status: GoalStatus,
    createdAt: Timestamp,
    deadline: Option<Timestamp>,
    intervalSeconds: Option<int>,
    conditions: map<string, Json>,
    parameters: map<string, Json>,
    progress: int,
    lastExecutedAt: Option<Timestamp>,
    executionCount: int)

  /**
   * What `from_dict` and `create_goal` raise: a missing key, a bad enum value
   * or timestamp, or a field of the wrong kind; and the RuntimeError with which
   * `create_goals_batch` reports the 1-based position of the spec that failed.
   */
  datatype GoalError =
    | KeyError(key: string)
    | ValueError(value: string)
    | TypeError(key: string)
    | BatchInterrupted(position: nat)

  function TimeJson(t: Option<Timestamp>): Json {
    match t
    case Some(v) => JTime(v)
    case None => JNull
  }

  function IntJson(i: Option<int>): Json {
    match i
    case Some(v) => JInt(v)
    case None => JNull
  }

  /** `Goal.to_dict`: enums as their lowercase values, timestamps as ISO strings. */
  function ToDict(g: Goal): map<string, Json> {
    map[
      "goal_id" := JInt(g.goalId),
      "name" := JStr(g.name),
      "description" := JStr(g.description),
      "goal_type" := JStr(g.goalType),
      "priority" := JStr(g.priority.Value()),
      "creator_id" := JStr(g.creatorId),
      "chat_id" := JStr(g.chatId),
      "status" := JStr(g.status.Value()),
      "created_at" := JTime(g.createdAt),
      "deadline" := TimeJson(g.deadline),
      "interval_seconds" := IntJson(g.intervalSeconds),
      "conditions" := JObj(g.conditions),
      "parameters" := JObj(g.parameters),
      "progress" := JInt(g.progress),
      "last_executed_at" := TimeJson(g.lastExecutedAt),
      "execution_count" := JInt(g.executionCount)
    ]
  }

  function DictKeys(): set<string> {
    {"goal_id", "name", "description", "goal_type", "priority", "creator_id", "chat_id", "status",
     "created_at", "deadline", "interval_seconds", "conditions", "parameters", "progress",
     "last_executed_at", "execution_count"}
  }

  /** `datetime.fromisoformat(data[k]) if data.get(k) else None`. */
  function TimeField(data: map<string, Json>, k: string): Result<Option<Timestamp>, GoalError> {
    if k !in data || !data[k].Truthy() then Ok(None)
    else if data[k].JTime? then Ok(Some(data[k].t))
    else Err(ValueError(k))
  }

  /** `data[k]` for a required string field. */
  function StrField(data: map<string, Json>, k: string): Result<string, GoalError> {
    if k !in data then Err(KeyError(k))
    else if data[k].JStr? then Ok(data[k].s)
    else Err(TypeError(k))
  }

  /** `data.get(k, default)` for an integer field. */
  function IntField(data: map<string, Json>, k: string, default: int): Result<int, GoalError> {
    if k !in data then Ok(default)
    else if data[k].JInt? then Ok(data[k].i)
    else Err(TypeError(k))
  }

  /** `data.get("interval_seconds")`. */
  function OptIntField(data: map<string, Json>, k: string): Result<Option<int>, GoalError> {
    if k !in data || data[k].JNull? then Ok(None)
    else if data[k].JInt? then Ok(Some(data[k].i))
    else Err(TypeError(k))
  }

  /** `data.get(k, {})` followed by the constructor's `or {}`. */
  function MapField(data: map<string, Json>, k: string): Result<map<string, Json>, GoalError> {
    if k !in data || !data[k].Truthy() then Ok(map[])
    else if data[k].JObj? then Ok(data[k].fields)
    else Err(TypeError(k))
  }

  /** `GoalPriority(data["priority"])`. */
  function PriorityField(data: map<string, Json>): Result<GoalPriority, GoalError> {
    if "priority" !in data then Err(KeyError("priority"))
    else if data["priority"].JStr? && PriorityFromValue(data["priority"].s).Some? then
      Ok(PriorityFromValue(data["priority"].s).value)
    else Err(ValueError("priority"))
  }

  /** `GoalStatus(data.get("status", "active"))`. */
  function StatusField(data: map<string, Json>): Result<GoalStatus, GoalError> {
    if "status" !in data then Ok(Active)
    else if data["status"].JStr? && StatusFromValue(data["status"].s).Some? then
      Ok(StatusFromValue(data["status"].s).value)
    else Err(ValueError("status"))
  }

  /**
   * `Goal.from_dict`: a missing `created_at` falls back to `now`; the first
   * failing field, in the source's evaluation order, is the error raised.
   */
  function FromDict(data: map<string, Json>, now: Timestamp): (r: Result<Goal, GoalError>)
    ensures "goal_id" !in data ==> r.Err?
    ensures r.Ok? && "created_at" in data && data["created_at"].Truthy() ==>
      data["created_at"] == JTime(r.value.createdAt)
    ensures r.Ok? && !("created_at" in data && data["created_at"].Truthy()) ==> r.value.createdAt == now
  {
    var createdAt := TimeField(data, "created_at");
    var deadline := TimeField(data, "deadline");
    var lastExecutedAt := TimeField(data, "last_executed_at");
    if createdAt.Err? then Err(createdAt.error)
    else if deadline.Err? then Err(deadline.error)
    else if lastExecutedAt.Err? then Err(lastExecutedAt.error)
    else if "goal_id" !in data then Err(KeyError("goal_id"))
    else if !(data["goal_id"].JInt? && data["goal_id"].i >= 0) then Err(TypeError("goal_id"))
    else
      var name := StrField(data, "name");
      var description := StrField(data, "description");
      var goalType := StrField(data, "goal_type");
      var creatorId := StrField(data, "creator_id");
      var chatId := StrField(data, "chat_id");
      var priority := PriorityField(data);
      var status := StatusField(data);
      var interval := OptIntField(data, "interval_seconds");
      var conditions := MapField(data, "conditions");
      var parameters := MapField(data, "parameters");
      var progress := IntField(data, "progress", 0);
      var count := IntField(data, "execution_count", 0);
      if name.Err? then Err(name.error)
      else if description.Err? then Err(description.error)
      else if goalType.Err? then Err(goalType.error)
      else if "priority" !in data then Err(KeyError("priority"))
      else if creatorId.Err? then Err(creatorId.error)
      else if chatId.Err? then Err(chatId.error)
      else if interval.Err? then Err(interval.error)
      else if conditions.Err? then Err(conditions.error)
      else if parameters.Err? then Err(parameters.error)
      else if progress.Err? then Err(progress.error)
      else if count.Err? then Err(count.error)
      else if priority.Err? then Err(priority.error)
      else if status.Err? then Err(status.error)
      else Ok(Goal(data["goal_id"].i, name.value, description.value, goalType.value, priority.value,
                   creatorId.value, chatId.value, status.value, createdAt.value.GetOr(now),
                   deadline.value, interval.value, conditions.value, parameters.value,
                   progress.value, lastExecutedAt.value, count.value))
  }

  /** The dict holds exactly the sixteen keys the loader reads. */
  lemma ToDictKeys(g: Goal)
    ensures ToDict(g).Keys == DictKeys()
  {
  }

  lemma ToDictIdLookups(g: Goal)
    ensures var d := ToDict(g);
      d["goal_id"] == JInt(g.goalId) && d["name"] == JStr(g.name) && d["description"] == JStr(g.description)
  {
  }

  lemma ToDictEnumLookups(g: Goal)
    ensures var d := ToDict(g);
      d["priority"] == JStr(g.priority.Value()) && d["status"] == JStr(g.status.Value())
      && d["created_at"] == JTime(g.createdAt)
  {
  }

  lemma ToDictTextLookups(g: Goal)
    ensures var d := ToDict(g);
      d["goal_type"] == JStr(g.goalType) && d["creator_id"] == JStr(g.creatorId) && d["chat_id"] == JStr(g.chatId)
  {
  }

  lemma ToDictOptionLookups(g: Goal)
    ensures var d := ToDict(g);
      d["deadline"] == TimeJson(g.deadline) && d["interval_seconds"] == IntJson(g.intervalSeconds)
      && d["last_executed_at"] == TimeJson(g.lastExecutedAt)
  {
  }

  lemma ToDictMapLookups(g: Goal)
    ensures var d := ToDict(g);
      d["conditions"] == JObj(g.conditions) && d["parameters"] == JObj(g.parameters)
      && d["progress"] == JInt(g.progress) && d["execution_count"] == JInt(g.executionCount)
  {
  }

  /** The timestamp readers give back the saved timestamps. */
  lemma RoundTripTimes(g: Goal, d: map<string, Json>)
    requires d == ToDict(g)
    ensures TimeField(d, "created_at") == Ok(Some(g.createdAt))
    ensures TimeField(d, "deadline") == Ok(g.deadline)
    ensures TimeField(d, "last_executed_at") == Ok(g.lastExecutedAt)
  {
    ToDictEnumLookups(g);
    ToDictOptionLookups(g);
  }

  /** The string readers give back the saved fields. */
  lemma RoundTripTexts(g: Goal, d: map<string, Json>)
    requires d == ToDict(g)
    ensures StrField(d, "name") == Ok(g.name) && StrField(d, "description") == Ok(g.description)
    ensures StrField(d, "goal_type") == Ok(g.goalType) && StrField(d, "creator_id") == Ok(g.creatorId)
    ensures StrField(d, "chat_id") == Ok(g.chatId)
  {
    ToDictIdLookups(g);
    ToDictTextLookups(g);
  }

  /** The enum readers give back the saved priority and status. */
  lemma RoundTripEnums(g: Goal, d: map<string, Json>)
    requires d == ToDict(g)
    ensures PriorityField(d) == Ok(g.priority) && StatusField(d) == Ok(g.status)
  {
    ToDictEnumLookups(g);
  }

  /** The number and dict readers give back the saved fields. */
  lemma RoundTripRest(g: Goal, d: map<string, Json>)
    requires d == ToDict(g)
    ensures OptIntField(d, "interval_seconds") == Ok(g.intervalSeconds)
    ensures MapField(d, "conditions") == Ok(g.conditions) && MapField(d, "parameters") == Ok(g.parameters)
    ensures IntField(d, "progress", 0) == Ok(g.progress) && IntField(d, "execution_count", 0) == Ok(g.executionCount)
  {
    ToDictOptionLookups(g);
    ToDictMapLookups(g);
  }

  /** Loading a saved goal gives back the goal that was saved, field for field. */
  lemma DictRoundTrip(g: Goal, now: Timestamp)
    ensures FromDict(ToDict(g), now) == Ok(g)
  {
    var d := ToDict(g);
    RoundTripTimes(g, d);
    RoundTripTexts(g, d);
    RoundTripEnums(g, d);
    RoundTripRest(g, d);
    ToDictIdLookups(g);
  }

  /** A dict whose priority is not one of the enum values is rejected, as `GoalPriority(...)` raises. */
  lemma FromDictRejectsBadPriority(data: map<string, Json>, now: Timestamp)
    requires "priority" in data && !(data["priority"].JStr? && PriorityFromValue(data["priority"].s).Some?)
    ensures FromDict(data, now).Err?
  {
  }

  /** A dict whose status is present but not one of the enum values is rejected, as `GoalStatus(...)` raises. */
  lemma FromDictRejectsBadStatus(data: map<string, Json>, now: Timestamp)
    requires "status" in data && !(data["status"].JStr? && StatusFromValue(data["status"].s).Some?)
    ensures FromDict(data, now).Err?
  {
  }

  /** Python truthiness of `interval_seconds`. */
  predicate HasInterval(g: Goal) {
    g.intervalSeconds.Some? && g.intervalSeconds.value != 0
  }

  /** `Goal.should_execute_now` at time `now`. */
  function ShouldExecuteNow(g: Goal, now: Timestamp): bool {
    if g.status != Active then false
    else if HasInterval(g) && g.lastExecutedAt.Some?
            && now < g.lastExecutedAt.value + g.intervalSeconds.value then false
    else if g.deadline.Some? && now > g.deadline.value then false
    else true
  }

  /**
   * A goal is not due when it is not active, when it ran less than its
   * interval ago, or when its deadline has passed; an active goal with no
   * deadline that never ran is always due.
   */
  lemma NotDueCases(g: Goal, now: Timestamp)
    ensures g.status != Active ==> !ShouldExecuteNow(g, now)
    ensures g.deadline.Some? && now > g.deadline.value ==> !ShouldExecuteNow(g, now)
    ensures g.intervalSeconds.Some? && g.lastExecutedAt.Some?
            && g.lastExecutedAt.value <= now < g.lastExecutedAt.value + g.intervalSeconds.value
            ==> !ShouldExecuteNow(g, now)
    ensures g.status == Active && g.deadline.None? && g.lastExecutedAt.None? ==> ShouldExecuteNow(g, now)
  {
  }

  /** `Goal.mark_executed` at time `now`. */
  function MarkExecuted(g: Goal, now: Timestamp): (r: Goal)
    ensures r.lastExecutedAt == Some(now) && r.executionCount == g.executionCount + 1
    ensures r.(lastExecutedAt := g.lastExecutedAt, executionCount := g.executionCount) == g
  {
    g.(lastExecutedAt := Some(now), executionCount := g.executionCount + 1)
  }

  /**
   * With a positive interval, a goal just executed is not due again until the
   * interval has elapsed, and from then on it is due exactly when it is active
   * and not past its deadline.
   */
  lemma MarkExecutedWaitsForInterval(g: Goal, t: Timestamp, later: Timestamp)
    requires g.intervalSeconds.Some? && g.intervalSeconds.value > 0 && t <= later
    ensures later < t + g.intervalSeconds.value ==> !ShouldExecuteNow(MarkExecuted(g, t), later)
    ensures later >= t + g.intervalSeconds.value ==>
      (ShouldExecuteNow(MarkExecuted(g, t), later)
       <==> g.status == Active && !(g.deadline.Some? && later > g.deadline.value))
  {
  }

  /** A goal without an interval stays due after execution while it is active and before its deadline. */
  lemma MarkExecutedWithoutInterval(g: Goal, t: Timestamp, now: Timestamp)
    requires !HasInterval(g)
    ensures ShouldExecuteNow(MarkExecuted(g, t), now) == ShouldExecuteNow(g, now)
  {
  }

  /**
   * One keyword argument of `update_goal`. There is no case for the id:
   * `goal_id` is the method's own parameter, so Python binds a `goal_id=`
   * keyword to it and it never reaches `kwargs`.
   */
  datatype GoalUpdate =
    | SetName(name: string)
    | SetDescription(description: string)
    | SetGoalType(goalType: string)
    | SetPriority(priority: GoalPriority)
    | SetCreatorId(creatorId: string)
    | SetChatId(chatId: string)
    | SetStatus(status: GoalStatus)
    | SetCreatedAt(createdAt: Timestamp)
    | SetDeadline(deadline: Option<Timestamp>)
    | SetIntervalSeconds(intervalSeconds: Option<int>)
    | SetConditions(conditions: map<string, Json>)
    | SetParameters(parameters: map<string, Json>)
    | SetProgress(progress: int)
    | SetLastExecutedAt(lastExecutedAt: Option<Timestamp>)
    | SetExecutionCount(executionCount: int)
    /** A keyword that names no attribute: `hasattr` is false and it is skipped. */
    | SetUnknown(key: string)

  /** `setattr(goal, key, value)` when `hasattr(goal, key)`. */
  function ApplyUpdate(g: Goal, u: GoalUpdate): (r: Goal)
    ensures r.goalId == g.goalId
    ensures u.SetUnknown? ==> r == g
    ensures u.SetStatus? ==> r == g.(status := u.status)
    ensures u.SetProgress? ==> r == g.(progress := u.progress)
  {
    match u
    case SetName(v) => g.(name := v)
    case SetDescription(v) => g.(description := v)
    case SetGoalType(v) => g.(goalType := v)
    case SetPriority(v) => g.(priority := v)
    case SetCreatorId(v) => g.(creatorId := v)
    case SetChatId(v) => g.(chatId := v)
    case SetStatus(v) => g.(status := v)
    case SetCreatedAt(v) => g.(createdAt := v)
    case SetDeadline(v) => g.(deadline := v)
    case SetIntervalSeconds(v) => g.(intervalSeconds := v)
    case SetConditions(v) => g.(conditions := v)
    case SetParameters(v) => g.(parameters := v)
    case SetProgress(v) => g.(progress := v)
    case SetLastExecutedAt(v) => g.(lastExecutedAt := v)
    case SetExecutionCount(v) => g.(executionCount := v)
    case SetUnknown(_) => g
  }

  /** The keyword arguments applied in order. */
  function ApplyUpdates(g: Goal, us: seq<GoalUpdate>): (r: Goal)
    ensures r.goalId == g.goalId
    ensures (forall k :: 0 <= k < |us| ==> us[k].SetUnknown?) ==> r == g
    decreases |us|
  {
    if us == [] then g else ApplyUpdates(ApplyUpdate(g, us[0]), us[1..])
  }

  /** `max(0, min(100, progress))`. */
  function ClampProgress(p: int): (r: int)
    ensures 0 <= r <= 100
    ensures 0 <= p <= 100 ==> r == p
    ensures p < 0 ==> r == 0
    ensures p > 100 ==> r == 100
  {
    if p < 0 then 0 else if p > 100 then 100 else p
  }

  /** The arguments of `create_goal`; `conditions or {}` makes None and {} the same. */
  datatype GoalSpec = GoalSpec(
    name: string,
    description: string,
    goalType: string,
    creatorId: string,
    chatId: string,
    priority: string,
    deadline: Option<Timestamp>,
    intervalSeconds: Option<int>,
    conditions: map<string, Json>,
    parameters: map<string, Json>)

  /** The goal `create_goal` builds under `id`. */
  function NewGoal(id: GoalId, spec: GoalSpec, priority: GoalPriority, now: Timestamp): (g: Goal)
    ensures g.goalId == id && g.status == Active && g.progress == 0 && g.executionCount == 0
    ensures g.lastExecutedAt.None? && g.createdAt == now && g.priority == priority
  {
    Goal(id, spec.name, spec.description, spec.goalType, priority, spec.creatorId, spec.chatId,
         Active, now, spec.deadline, spec.intervalSeconds, spec.conditions, spec.parameters, 0, None, 0)
  }

  predicate ValidPriority(spec: GoalSpec) {
    PriorityFromValue(spec.priority).Some?
  }

  function SpecPriority(spec: GoalSpec): GoalPriority
    requires ValidPriority(spec)
  {
    PriorityFromValue(spec.priority).value
  }

  /** The index of the first spec with an invalid priority, if any. */
  function FirstInvalid(specs: seq<GoalSpec>): (r: Option<nat>)
    ensures r.None? <==> forall k :: 0 <= k < |specs| ==> ValidPriority(specs[k])
    ensures r.Some? ==> r.value < |specs| && !ValidPriority(specs[r.value])
                        && forall k :: 0 <= k < r.value ==> ValidPriority(specs[k])
  {
    if specs == [] then None
    else if !ValidPriority(specs[0]) then Some(0)
    else
      var rest := FirstInvalid(specs[1..]);
      if rest.None? then None else Some(rest.value + 1)
  }

  lemma FirstInvalidAt(specs: seq<GoalSpec>, i: nat)
    requires i < |specs| && !ValidPriority(specs[i])
    requires forall k :: 0 <= k < i ==> ValidPriority(specs[k])
    ensures FirstInvalid(specs) == Some(i)
  {
  }

  /** `cleanup_old_goals` deletes a goal iff it is completed or cancelled and created before the cutoff. */
  predicate Expired(g: Goal, cutoff: Timestamp) {
    (g.status == Completed || g.status == Cancelled) && g.createdAt < cutoff
  }

  /** The store after retention cleanup. */
  function Retain(goals: map<GoalId, Goal>, cutoff: Timestamp): (r: map<GoalId, Goal>)
    ensures forall id :: id in r <==> id in goals && !Expired(goals[id], cutoff)
    ensures forall id :: id in r ==> r[id] == goals[id]
  {
    map id | id in goals && !Expired(goals[id], cutoff) :: goals[id]
  }

  /** Active, paused and failed goals survive cleanup however old they are. */
  lemma RetainKeepsUnfinished(goals: map<GoalId, Goal>, cutoff: Timestamp, id: GoalId)
    requires id in goals && goals[id].status in {Active, Paused, Failed}
    ensures id in Retain(goals, cutoff) && Retain(goals, cutoff)[id] == goals[id]
  {
  }

  /** With the default 30 days: a completed goal 31 days old goes, one 29 days old stays. */
  lemma RetainExample(g: Goal, now: Timestamp)
    requires g.status == Completed
    ensures var cutoff := now - 30 * SecondsPerDay;
      (g.createdAt == now - 31 * SecondsPerDay ==> Retain(map[1 := g], cutoff) == map[])
      && (g.createdAt == now - 29 * SecondsPerDay ==> Retain(map[1 := g], cutoff) == map[1 := g])
  {
  }

  predicate ChatMatches(g: Goal, chatId: Option<string>) {
    !Truthy(chatId) || g.chatId == chatId.value
  }

  predicate StatusMatches(g: Goal, status: Option<GoalStatus>) {
    status.None? || g.status == status.value
  }


  /** The ids of `xs` that are still keys of `m`, in order: the dict's key order after deletions. */
  function KeepKeys(xs: seq<GoalId>, m: map<GoalId, Goal>): (r: seq<GoalId>)
    ensures forall x :: x in r <==> x in xs && x in m
  {
    if xs == [] then [] else (if xs[0] in m then [xs[0]] else []) + KeepKeys(xs[1..], m)
  }

  lemma {:induction false} KeepKeysAll(xs: seq<GoalId>, m: map<GoalId, Goal>)
    requires forall x :: x in xs ==> x in m
    ensures KeepKeys(xs, m) == xs
  {
    if xs != [] {
      KeepKeysAll(xs[1..], m);
    }
  }

  lemma {:induction false} KeepKeysConcat(a: seq<GoalId>, b: seq<GoalId>, m: map<GoalId, Goal>)
    ensures KeepKeys(a + b, m) == KeepKeys(a, m) + KeepKeys(b, m)
  {
    if a == [] {
      assert a + b == b;
    } else {
      assert (a + b)[1..] == a[1..] + b;
      KeepKeysConcat(a[1..], b, m);
    }
  }

  lemma {:induction false} KeepKeysRemove(xs: seq<GoalId>, m: map<GoalId, Goal>, id: GoalId)
    ensures KeepKeys(xs, m - {id}) == Remove(KeepKeys(xs, m), id)
  {
    if xs != [] {
      KeepKeysRemove(xs[1..], m, id);
      var x, rest := xs[0], KeepKeys(xs[1..], m);
      if x in m {
        var kept := [x] + rest;
        assert KeepKeys(xs, m) == kept && kept[0] == x && kept[1..] == rest;
      } else {
        assert KeepKeys(xs, m) == rest;
      }
    }
  }

  lemma {:induction false} KeepKeysNone(xs: seq<GoalId>, m: map<GoalId, Goal>)
    requires forall x :: x in xs ==> x !in m
    ensures KeepKeys(xs, m) == []
  {
    if xs != [] {
      KeepKeysNone(xs[1..], m);
    }
  }

  /** Deleting ids appended after `xs` gives back `xs`. */
  lemma KeepKeysRestore(xs: seq<GoalId>, ys: seq<GoalId>, m: map<GoalId, Goal>)
    requires forall x :: x in xs ==> x in m
    requires forall y :: y in ys ==> y !in m
    ensures KeepKeys(xs + ys, m) == xs
  {
    KeepKeysConcat(xs, ys, m);
    KeepKeysAll(xs, m);
    KeepKeysNone(ys, m);
  }

  /** The ids of a sequence of goals, in order. */
  function Ids(gs: seq<Goal>): (r: seq<GoalId>)
    ensures |r| == |gs| && forall k :: 0 <= k < |gs| ==> r[k] == gs[k].goalId
  {
    seq(|gs|, k requires 0 <= k < |gs| => gs[k].goalId)
  }

  /** `self.goals[g.goal_id] = g` for each goal in turn. */
  function InsertAll(m: map<GoalId, Goal>, gs: seq<Goal>): map<GoalId, Goal>
    decreases |gs|
  {
    if gs == [] then m else InsertAll(m, gs[..|gs| - 1])[gs[|gs| - 1].goalId := gs[|gs| - 1]]
  }

  lemma InsertAllSnoc(m: map<GoalId, Goal>, gs: seq<Goal>, g: Goal)
    ensures InsertAll(m, gs + [g]) == InsertAll(m, gs)[g.goalId := g]
  {
    assert (gs + [g])[..|gs|] == gs;
  }

  /** The first `|created|` specs are valid and the k-th goal was created from the k-th spec under id `base + k`. */
  predicate BatchPrefix(specs: seq<GoalSpec>, base: GoalId, now: Timestamp, created: seq<Goal>) {
    |created| <= |specs|
    && forall k :: 0 <= k < |created| ==>
         ValidPriority(specs[k]) && created[k] == NewGoal(base + k, specs[k], SpecPriority(specs[k]), now)
  }

  lemma BatchPrefixSnoc(specs: seq<GoalSpec>, base: GoalId, now: Timestamp, created: seq<Goal>, g: Goal)
    requires BatchPrefix(specs, base, now, created) && |created| < |specs|
    requires ValidPriority(specs[|created|])
    requires g == NewGoal(base + |created|, specs[|created|], SpecPriority(specs[|created|]), now)
    ensures BatchPrefix(specs, base, now, created + [g])
  {
  }

  lemma BatchPrefixFirstInvalid(specs: seq<GoalSpec>, base: GoalId, now: Timestamp, created: seq<Goal>)
    requires BatchPrefix(specs, base, now, created) && |created| < |specs|
    requires !ValidPriority(specs[|created|])
    ensures FirstInvalid(specs) == Some(|created|)
  {
    FirstInvalidAt(specs, |created|);
  }

  lemma BatchPrefixFull(specs: seq<GoalSpec>, base: GoalId, now: Timestamp, created: seq<Goal>)
    requires BatchPrefix(specs, base, now, created) && |created| == |specs|
    ensures FirstInvalid(specs).None?
    ensures created == BatchGoals(specs, base, now)
  {
  }

  lemma IdsSnoc(gs: seq<Goal>, g: Goal)
    ensures Ids(gs + [g]) == Ids(gs) + [g.goalId]
  {
  }

  /** The goals a fully valid batch creates, the k-th under id `base + k`. */
  function BatchGoals(specs: seq<GoalSpec>, base: GoalId, now: Timestamp): (r: seq<Goal>)
    requires forall k :: 0 <= k < |specs| ==> ValidPriority(specs[k])
    ensures |r| == |specs|
    ensures forall k :: 0 <= k < |specs| ==>
      r[k] == NewGoal(base + k, specs[k], SpecPriority(specs[k]), now)
  {
    seq(|specs|, k requires 0 <= k < |specs| =>
      NewGoal(base + k, specs[k], SpecPriority(specs[k]), now))
  }

  /**
   * Inserting goals under distinct ids that are not yet keys: the store gains
   * exactly those ids, each holding its goal, and every earlier goal is kept.
   */
  lemma {:induction false} InsertAllFresh(m: map<GoalId, Goal>, gs: seq<Goal>)
    requires forall k :: 0 <= k < |gs| ==> gs[k].goalId !in m
    requires Distinct(Ids(gs))
    ensures forall id :: id in InsertAll(m, gs) <==> id in m || id in Ids(gs)
    ensures forall id :: id in m ==> InsertAll(m, gs)[id] == m[id]
    ensures forall k :: 0 <= k < |gs| ==> InsertAll(m, gs)[gs[k].goalId] == gs[k]
    decreases |gs|
  {
    if gs != [] {
      var n := |gs| - 1;
      var prefix, last := gs[..n], gs[n];
      assert Ids(prefix) == Ids(gs)[..n];
      InsertAllFresh(m, prefix);
      var before := InsertAll(m, prefix);
      var after := InsertAll(m, gs);
      assert after == before[last.goalId := last];
      assert Ids(gs) == Ids(prefix) + [last.goalId];
      assert last.goalId !in m;
      forall id
        ensures id in after <==> id in m || id in Ids(gs)
      {
        assert id in Ids(gs) <==> id in Ids(prefix) || id == last.goalId;
      }
      forall k | 0 <= k < |gs|
        ensures after[gs[k].goalId] == gs[k]
      {
        if k < n {
          assert Ids(gs)[k] != Ids(gs)[n];
          assert gs[k] == prefix[k];
        }
      }
    }
  }

  /** Goals numbered upwards from `base`, above every existing key, have fresh distinct ids. */
  lemma FreshIds(m: map<GoalId, Goal>, gs: seq<Goal>, base: GoalId)
    requires forall id :: id in m ==> id < base
    requires forall k :: 0 <= k < |gs| ==> gs[k].goalId == base + k
    ensures Distinct(Ids(gs)) && forall k :: 0 <= k < |gs| ==> gs[k].goalId !in m
  {
  }

  /** The goals a partial batch inserted are exactly the ones the rollback must delete. */
  lemma BatchUndoable(goals0: map<GoalId, Goal>, created: seq<Goal>, base: GoalId, specs: seq<GoalSpec>, now: Timestamp)
    requires forall id :: id in goals0 ==> id < base
    requires BatchPrefix(specs, base, now, created)
    ensures Distinct(Ids(created))
    ensures forall id :: id in Ids(created) ==> id !in goals0
    ensures forall id :: id in InsertAll(goals0, created) <==> id in goals0 || id in Ids(created)
    ensures forall id :: id in goals0 ==> InsertAll(goals0, created)[id] == goals0[id]
  {
    FreshIds(goals0, created, base);
    InsertAllFresh(goals0, created);
  }

  lemma MapMinusOne(m: map<GoalId, Goal>, gone: set<GoalId>, id: GoalId)
    ensures (m - gone) - {id} == m - (gone + {id})
  {
  }

  /** The ids of a list, as a set. */
  function SetOf(ids: seq<GoalId>): (r: set<GoalId>)
    ensures forall id :: id in r <==> id in ids
  {
    set id | id in ids
  }

  /** One more step of the deletion loop: the next id is still present, and deleting it extends the deleted prefix. */
  lemma DeleteStep(m: map<GoalId, Goal>, ids: seq<GoalId>, j: nat)
    requires Distinct(ids) && j < |ids| && forall id :: id in ids ==> id in m
    ensures ids[j] in m - SetOf(ids[..j])
    ensures (m - SetOf(ids[..j])) - {ids[j]} == m - SetOf(ids[..j + 1])
  {
    assert ids[..j + 1] == ids[..j] + [ids[j]];
    assert SetOf(ids[..j + 1]) == SetOf(ids[..j]) + {ids[j]};
    MapMinusOne(m, SetOf(ids[..j]), ids[j]);
  }

  /** A list without repeats has as many distinct ids as elements. */
  lemma {:induction false} DistinctCard(ids: seq<GoalId>)
    requires Distinct(ids)
    ensures |SetOf(ids)| == |ids|
  {
    if ids != [] {
      var init := ids[..|ids| - 1];
      assert Distinct(init);
      DistinctCard(init);
      assert SetOf(ids) == SetOf(init) + {ids[|ids| - 1]};
    }
  }

  /** After the whole list is deleted: exactly the listed entries are gone, the rest unchanged. */
  lemma DeletedAll(m: map<GoalId, Goal>, ids: seq<GoalId>, r: map<GoalId, Goal>)
    requires Distinct(ids) && (forall id :: id in ids ==> id in m) && r == m - SetOf(ids[..|ids|])
    ensures forall id :: id in r <==> id in m && id !in ids
    ensures forall id :: id in r ==> r[id] == m[id]
    ensures |r| == |m| - |ids|
  {
    assert ids[..|ids|] == ids;
    DeletedCount(m, ids);
  }

  /** Deleting distinct present ids removes exactly as many keys. */
  lemma DeletedCount(m: map<GoalId, Goal>, ids: seq<GoalId>)
    requires Distinct(ids) && forall id :: id in ids ==> id in m
    ensures |m - SetOf(ids)| == |m| - |ids|
  {
    var rest := m - SetOf(ids);
    assert m.Keys == rest.Keys + SetOf(ids) && rest.Keys !! SetOf(ids);
    assert |m.Keys| == |rest.Keys| + |SetOf(ids)|;
    DistinctCard(ids);
  }

  /**
   * The store after a cleanup with this cutoff: exactly the expired goals
   * are gone, the order keeps the survivors, and `count` says how many went.
   */
  predicate CleanedUp(goals0: map<GoalId, Goal>, order0: seq<GoalId>, cutoff: Timestamp,
                      goals: map<GoalId, Goal>, order: seq<GoalId>, count: nat) {
    goals == Retain(goals0, cutoff)
    && order == KeepKeys(order0, goals)
    && count == |goals0| - |goals|
  }

  /** Deleting exactly the expired ids leaves the retained store. */
  lemma RetainByDeletion(before: map<GoalId, Goal>, after: map<GoalId, Goal>, gone: seq<GoalId>, cutoff: Timestamp)
    requires forall id :: id in gone <==> id in before && Expired(before[id], cutoff)
    requires forall id :: id in after <==> id in before && id !in gone
    requires forall id :: id in after ==> after[id] == before[id]
    ensures after == Retain(before, cutoff)
  {
    SameMap(after, Retain(before, cutoff));
  }

  /** Deleting exactly the expired ids, as `DeleteIds` does, is a cleanup with that cutoff. */
  lemma DeletionCleansUp(goals0: map<GoalId, Goal>, order0: seq<GoalId>, cutoff: Timestamp, gone: seq<GoalId>,
                         goals: map<GoalId, Goal>, order: seq<GoalId>)
    requires forall id :: id in gone <==> id in goals0 && Expired(goals0[id], cutoff)
    requires forall id :: id in goals <==> id in goals0 && id !in gone
    requires forall id :: id in goals ==> goals[id] == goals0[id]
    requires order == KeepKeys(order0, goals)
    requires |goals| == |goals0| - |gone|
    ensures CleanedUp(goals0, order0, cutoff, goals, order, |gone|)
  {
    RetainByDeletion(goals0, goals, gone, cutoff);
  }

  lemma SameMap(a: map<GoalId, Goal>, b: map<GoalId, Goal>)
    requires forall id :: id in a <==> id in b
    requires forall id :: id in a ==> a[id] == b[id]
    ensures a == b
  {
  }

  /**
   * The goal store. `goals` is the id-to-goal dict and `order` its key
   * order; `nextId` stands for the source of fresh uuids; `dirty` is set when
   * a delayed save is scheduled and cleared by a forced save.
   */
  class GoalManager {
    var goals: map<GoalId, Goal>
    var order: seq<GoalId>
    var nextId: nat
    var dirty: bool

    ghost predicate Valid()
      reads this`goals, this`order, this`nextId
    {
      Distinct(order)
      && (forall id :: id in order <==> id in goals)
      && (forall id :: id in goals ==> goals[id].goalId == id && id < nextId)
    }

    constructor()
      ensures Valid() && goals == map[] && order == [] && !dirty
    {
      goals := map[];
      order := [];
      nextId := 0;
      dirty := false;
    }

    /** `list(self.goals.values())`, in key order. */
    function Values(): (r: seq<Goal>)
      reads this
      requires Valid()
      ensures |r| == |order|
      ensures forall g :: g in r <==> exists id :: id in goals && goals[id] == g
    {
      var gs, ids := goals, order;
      assert forall i :: 0 <= i < |ids| ==> ids[i] in ids;
      var r := seq(|ids|, i requires 0 <= i < |ids| && ids[i] in gs => gs[ids[i]]);
      assert forall id :: id in gs ==> gs[id] in r by {
        forall id | id in gs
          ensures gs[id] in r
        {
          var i :| 0 <= i < |ids| && ids[i] == id;
          assert r[i] == gs[id];
        }
      }
      r
    }

    /** `get_goal`. */
    function GetGoal(id: GoalId): (r: Option<Goal>)
      reads this
      ensures r.Some? <==> id in goals
      ensures r.Some? ==> r.value == goals[id]
      ensures Valid() && r.Some? ==> r.value.goalId == id
    {
      if id in goals then Some(goals[id]) else None
    }

    /** `get_all_goals`: the chat filter applies only for a non-empty chat id, the status filter only when given. */
    function GetAllGoals(chatId: Option<string>, status: Option<GoalStatus>): (r: seq<Goal>)
      reads this
      requires Valid()
      ensures forall g :: g in r <==>
        (exists id :: id in goals && goals[id] == g) && ChatMatches(g, chatId) && StatusMatches(g, status)
    {
      var all := Values();
      var byChat := if Truthy(chatId) then Filter(all, (g: Goal) => g.chatId == chatId.value) else all;
      if status.Some? then Filter(byChat, (g: Goal) => g.status == status.value) else byChat
    }

    /** `get_active_goals`. */
    function GetActiveGoals(chatId: Option<string>): (r: seq<Goal>)
      reads this
      requires Valid()
      ensures forall g :: g in r <==>
        (exists id :: id in goals && goals[id] == g) && ChatMatches(g, chatId) && g.status == Active
    {
      GetAllGoals(chatId, Some(Active))
    }

    /** `get_executable_goals`: active goals of every chat that are due at `now`. */
    function GetExecutableGoals(now: Timestamp): (r: seq<Goal>)
      reads this
      requires Valid()
      ensures forall g :: g in r <==>
        (exists id :: id in goals && goals[id] == g) && ShouldExecuteNow(g, now)
    {
      Filter(GetActiveGoals(None), (g: Goal) => ShouldExecuteNow(g, now))
    }

    /**
     * `create_goal`: an unknown priority raises (nothing changes); otherwise
     * exactly one new active goal is inserted under a fresh id.
     */
    method CreateGoal(spec: GoalSpec, autoSave: bool, now: Timestamp) returns (r: Result<Goal, GoalError>)
      requires Valid()
      modifies this
      ensures Valid()
      ensures nextId == old(nextId) + 1
      ensures !ValidPriority(spec) ==>
        r == Err(ValueError(spec.priority)) && goals == old(goals) && order == old(order) && dirty == old(dirty)
      ensures ValidPriority(spec) ==>
        old(nextId) !in old(goals)
        && r == Ok(NewGoal(old(nextId), spec, SpecPriority(spec), now))
        && goals == old(goals)[old(nextId) := r.value]
        && order == old(order) + [old(nextId)]
        && dirty == (old(dirty) || autoSave)
    {
      var id := nextId;
      assert id !in goals && id !in order;
      nextId := nextId + 1;
      var priority := PriorityFromValue(spec.priority);
      if priority.None? {
        return Err(ValueError(spec.priority));
      }
      var goal := NewGoal(id, spec, priority.value, now);
      goals := goals[id := goal];
      order := order + [id];
      if autoSave {
        dirty := true;
      }
      r := Ok(goal);
    }

    /**
     * `create_goals_batch`: either every spec is created, in order, and the
     * store is saved; or the error names the 1-based position of the first
     * failing spec and every goal created earlier in the batch is removed again.
     */
    method CreateGoalsBatch(specs: seq<GoalSpec>, now: Timestamp) returns (r: Result<seq<Goal>, GoalError>)
      requires Valid()
      modifies this
      ensures Valid()
      ensures r.Ok? <==> FirstInvalid(specs).None?
      ensures r.Ok? ==>
        r.value == BatchGoals(specs, old(nextId), now)
        && goals == InsertAll(old(goals), r.value)
        && order == old(order) + Ids(r.value)
        && !dirty
      ensures r.Err? ==>
        r.error == BatchInterrupted(FirstInvalid(specs).value + 1)
        && goals == old(goals) && order == old(order) && dirty == old(dirty)
    {
      ghost var goals0, order0, base := goals, order, nextId;
      assert forall id :: id in order0 ==> id in goals0;
      assert forall id :: id in goals0 ==> id < base;
      var created, failedAt := CreateEach(specs, now);
      if failedAt.Some? {
        BatchUndoable(goals0, created, base, specs, now);
        RollBack(goals0, order0, Ids(created));
        return Err(BatchInterrupted(failedAt.value + 1));
      }
      dirty := false;
      r := Ok(created);
    }

    /** The creating loop of `create_goals_batch`, which stops at the first failure. */
    method CreateEach(specs: seq<GoalSpec>, now: Timestamp) returns (created: seq<Goal>, failedAt: Option<nat>)
      requires Valid()
      modifies this
      ensures Valid() && dirty == old(dirty)
      ensures failedAt == FirstInvalid(specs)
      ensures goals == InsertAll(old(goals), created) && order == old(order) + Ids(created)
      ensures failedAt.None? ==> created == BatchGoals(specs, old(nextId), now)
      ensures failedAt.Some? ==> |created| == failedAt.value
      ensures BatchPrefix(specs, old(nextId), now, created)
    {
      ghost var goals0, order0, base := goals, order, nextId;
      created := [];
      var i := 0;
      while i < |specs|
        invariant 0 <= i <= |specs| && Valid()
        invariant nextId == base + i && |created| == i
        invariant BatchPrefix(specs, base, now, created)
        invariant goals == InsertAll(goals0, created)
        invariant order == order0 + Ids(created)
        invariant dirty == old(dirty)
      {
        var res := CreateGoal(specs[i], false, now);
        if res.Err? {
          BatchPrefixFirstInvalid(specs, base, now, created);
          return created, Some(i);
        }
        BatchPrefixSnoc(specs, base, now, created, res.value);
        InsertAllSnoc(goals0, created, res.value);
        IdsSnoc(created, res.value);
        created := created + [res.value];
        i := i + 1;
      }
      BatchPrefixFull(specs, base, now, created);
      failedAt := None;
    }

    /** The rollback of `create_goals_batch`: deletes the ids the batch created. */
    method RollBack(ghost goals0: map<GoalId, Goal>, ghost order0: seq<GoalId>, ids: seq<GoalId>)
      requires Valid() && Distinct(ids) && order == order0 + ids
      requires forall id :: id in goals <==> id in goals0 || id in ids
      requires forall id :: id in ids ==> id !in goals0
      requires forall id :: id in order0 ==> id in goals0
      requires forall id :: id in goals0 ==> goals[id] == goals0[id]
      modifies this`goals, this`order
      ensures Valid() && goals == goals0 && order == order0
    {
      DeleteIds(ids);
      SameMap(goals, goals0);
      KeepKeysRestore(order0, ids, goals);
    }

    /** `update_goal`: an unknown id returns False and changes nothing. */
    method UpdateGoal(id: GoalId, updates: seq<GoalUpdate>) returns (found: bool)
      requires Valid()
      modifies this`goals, this`dirty
      ensures Valid()
      ensures found <==> id in old(goals)
      ensures found ==> goals == old(goals)[id := ApplyUpdates(old(goals)[id], updates)] && dirty
      ensures !found ==> goals == old(goals) && dirty == old(dirty)
    {
      if id !in goals {
        return false;
      }
      goals := goals[id := ApplyUpdates(goals[id], updates)];
      dirty := true;
      found := true;
    }

    /** `update_goal_status`. */
    method UpdateGoalStatus(id: GoalId, status: GoalStatus) returns (found: bool)
      requires Valid()
      modifies this`goals, this`dirty
      ensures Valid()
      ensures found <==> id in old(goals)
      ensures found ==> goals == old(goals)[id := old(goals)[id].(status := status)] && dirty
      ensures !found ==> goals == old(goals) && dirty == old(dirty)
    {
      found := UpdateGoal(id, [SetStatus(status)]);
    }

    /** `update_goal_progress`: the stored progress is clamped to [0, 100]. */
    method UpdateGoalProgress(id: GoalId, progress: int) returns (found: bool)
      requires Valid()
      modifies this`goals, this`dirty
      ensures Valid()
      ensures found <==> id in old(goals)
      ensures found ==> goals == old(goals)[id := old(goals)[id].(progress := ClampProgress(progress))]
                        && 0 <= goals[id].progress <= 100 && dirty
      ensures !found ==> goals == old(goals) && dirty == old(dirty)
    {
      found := UpdateGoal(id, [SetProgress(ClampProgress(progress))]);
    }

    /** `complete_goal`: status COMPLETED and progress 100. */
    method CompleteGoal(id: GoalId) returns (found: bool)
      requires Valid()
      modifies this`goals, this`dirty
      ensures Valid()
      ensures found <==> id in old(goals)
      ensures found ==> goals == old(goals)[id := old(goals)[id].(status := Completed, progress := 100)] && dirty
      ensures !found ==> goals == old(goals) && dirty == old(dirty)
    {
      found := UpdateGoal(id, [SetStatus(Completed), SetProgress(100)]);
    }

    /** `pause_goal`. */
    method PauseGoal(id: GoalId) returns (found: bool)
      requires Valid()
      modifies this`goals, this`dirty
      ensures Valid()
      ensures found <==> id in old(goals)
      ensures found ==> goals == old(goals)[id := old(goals)[id].(status := Paused)] && dirty
      ensures !found ==> goals == old(goals) && dirty == old(dirty)
    {
      found := UpdateGoalStatus(id, Paused);
    }

    /** `resume_goal`. */
    method ResumeGoal(id: GoalId) returns (found: bool)
      requires Valid()
      modifies this`goals, this`dirty
      ensures Valid()
      ensures found <==> id in old(goals)
      ensures found ==> goals == old(goals)[id := old(goals)[id].(status := Active)] && dirty
      ensures !found ==> goals == old(goals) && dirty == old(dirty)
    {
      found := UpdateGoalStatus(id, Active);
    }

    /** `cancel_goal`. */
    method CancelGoal(id: GoalId) returns (found: bool)
      requires Valid()
      modifies this`goals, this`dirty
      ensures Valid()
      ensures found <==> id in old(goals)
      ensures found ==> goals == old(goals)[id := old(goals)[id].(status := Cancelled)] && dirty
      ensures !found ==> goals == old(goals) && dirty == old(dirty)
    {
      found := UpdateGoalStatus(id, Cancelled);
    }

    /** `delete_goal`: removes exactly that id; an unknown id changes nothing. */
    method DeleteGoal(id: GoalId) returns (found: bool)
      requires Valid()
      modifies this`goals, this`order, this`dirty
      ensures Valid()
      ensures found <==> id in old(goals)
      ensures goals == old(goals) - {id} && order == Remove(old(order), id)
      ensures found ==> dirty
      ensures !found ==> goals == old(goals) && order == old(order) && dirty == old(dirty)
    {
      if id !in goals {
        return false;
      }
      RemoveDistinct(order, id);
      goals := goals - {id};
      order := Remove(order, id);
      dirty := true;
      found := true;
    }

    /** `del self.goals[goal_id]` for a present id. */
    method DeleteOne(id: GoalId)
      requires Valid() && id in goals
      modifies this`goals, this`order
      ensures Valid()
      ensures goals == old(goals) - {id} && order == Remove(old(order), id)
    {
      RemoveDistinct(order, id);
      goals := goals - {id};
      order := Remove(order, id);
    }

    /** `del self.goals[goal_id]` for each id in turn (both deletion loops of the source). */
    method DeleteIds(ids: seq<GoalId>)
      requires Valid() && Distinct(ids)
      requires forall id :: id in ids ==> id in goals
      modifies this`goals, this`order
      ensures Valid()
      ensures forall id :: id in goals <==> id in old(goals) && id !in ids
      ensures forall id :: id in goals ==> goals[id] == old(goals)[id]
      ensures order == KeepKeys(old(order), goals)
      ensures |goals| == |old(goals)| - |ids|
    {
      ghost var goals0, order0 := goals, order;
      KeepKeysAll(order0, goals0);
      var j := 0;
      while j < |ids|
        invariant 0 <= j <= |ids| && Valid()
        invariant goals == goals0 - SetOf(ids[..j])
        invariant order == KeepKeys(order0, goals)
      {
        var id := ids[j];
        DeleteStep(goals0, ids, j);
        KeepKeysRemove(order0, goals, id);
        DeleteOne(id);
        j := j + 1;
      }
      DeletedAll(goals0, ids, goals);
    }

    /** The collecting loop of `cleanup_old_goals`: the expired ids, in key order. */
    method ExpiredIds(cutoff: Timestamp) returns (ids: seq<GoalId>)
      requires Valid()
      ensures Distinct(ids)
      ensures forall id :: id in ids <==> id in goals && Expired(goals[id], cutoff)
    {
      ids := [];
      var i := 0;
      while i < |order|
        invariant 0 <= i <= |order|
        invariant Distinct(ids)
        invariant forall id :: id in ids <==> id in goals && id in order[..i] && Expired(goals[id], cutoff)
      {
        var id := order[i];
        assert order[..i + 1] == order[..i] + [id];
        if Expired(goals[id], cutoff) {
          assert id !in order[..i];
          ids := ids + [id];
        }
        i := i + 1;
      }
      assert order[..i] == order;
    }

    /**
     * `cleanup_old_goals`: collects the completed or cancelled goals created
     * before `now - days`, deletes exactly those and returns how many. The
     * store write that follows a non-empty cleanup is I/O and leaves the
     * `dirty` flag as it was.
     */
    method CleanupOldGoals(days: int, now: Timestamp) returns (count: nat)
      requires Valid()
      modifies this`goals, this`order
      ensures Valid() && dirty == old(dirty)
      ensures CleanedUp(old(goals), old(order), now - days * SecondsPerDay, goals, order, count)
    {
      var cutoff := now - days * SecondsPerDay;
      ghost var goals0, order0 := goals, order;
      var toDelete := ExpiredIds(cutoff);
      assert forall id :: id in toDelete <==> id in goals0 && Expired(goals0[id], cutoff);
      DeleteIds(toDelete);
      DeletionCleansUp(goals0, order0, cutoff, toDelete, goals, order);
      count := |toDelete|;
    }

    /** `mark_goal_executed`: an unknown id changes nothing. */
    method MarkGoalExecuted(id: GoalId, now: Timestamp)
      requires Valid()
      modifies this`goals, this`dirty
      ensures Valid()
      ensures id in old(goals) ==> goals == old(goals)[id := MarkExecuted(old(goals)[id], now)] && dirty
      ensures id !in old(goals) ==> goals == old(goals) && dirty == old(dirty)
    {
      if id in goals {
        goals := goals[id := MarkExecuted(goals[id], now)];
        dirty := true;
      }
    }
  }
}
