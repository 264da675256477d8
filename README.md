# Agenda plugin core in Dafny

This project models the decision and bookkeeping logic of the autonomous
planning (agenda) plugin, apart from its I/O, timers and asyncio plumbing,
and proves properties of it. The plugin keeps a store of goals, some of
which carry a daily time window. Before each LLM call it looks up the
current and upcoming activities and decides whether to prepend them to the
prompt, and in what wording.

| file | module | models |
|---|---|---|
| `time_utils.dfy` | `TimeUtils` | the migration of legacy hour windows to minutes, and window parsing |
| `goal_manager.dfy` | `GoalManagement` | goals, their dict form, the "should execute now" test, and the `GoalManager` class whose map of goals, key order and save flag the operations update in place |
| `intent_classifier.dfy` | `IntentClassification` | the keyword score, the first-match intent ladder, and the time-of-day extractor |
| `state_analyzer.dfy` | `StateAnalysis` | progress states by cross-multiplication, the phrase table, and the elapsed/remaining text |
| `content_template.dfy` | `ContentTemplates` | template pools with suppression markers, rendering with placeholders, the future-activity text, and the `ContentTemplateEngine` class |
| `inject_optimizer.dfy` | `InjectOptimization` | the ordered deny/allow chain and the `InjectOptimizer` class with its per-user history |
| `context_cache.dfy` | `ContextCaching` | the `ConversationContextCache` class: bounded per-user windows, TTL filtering and the continuation rule |
| `schedule_resolution.dfy` | `ScheduleResolution` | the store query behind the schedule lookup: entries, stable sort, current pick, future list, and the daily check |
| `handlers.dfy` | `ScheduleInjection` | the `ScheduleInjectHandler` class: message text, cache key, TTL hit and sweep, the three inject modes, turn recording and the prompt prepend |
| `wrappers.dfy`, `strings.dfy`, `seqs.dfy`, `map_sums.dfy` | helpers | Option/Result, string predicates, filtering and removal on sequences, sums over maps |

How the source's inputs are represented:

- The clock and randomness become parameters: `now` in seconds or minutes, `today` as a day number, a real `draw` for `random.random()`, and an index `choice` for `random.choice`, which picks `pool[choice % |pool|]`.
- Scores, confidences and probabilities are exact `real`s.
- Goal ids are numbers drawn from a counter (`nextId`), where the source draws uuid4 strings. The class invariant keeps every stored id below the counter, so a new id is always fresh.
- Timestamps in the dict form are `JTime` values, where the source writes ISO strings.
- A dict's insertion order is kept beside the map, as a sequence of keys.
- The handler's optional components (classifier, engine, optimizer) are present or absent as the configuration says.

Details of the source's behaviour that the model keeps:

- Legacy hour windows are detected by `start < 24 and end <= 24` (utils/time_utils.py:27), so [24, 24] is left as it is.
- The future list is simply the sorted entries that start after now. Both branches of the created-today test append in the same way. The sort is Python's stable sort on the start key alone, so goals with equal starts keep their store order.
- The time-of-day extractor returns the first table entry whose name occurs, scanning the table in order.
- `cleanup_old_goals` writes the store directly with `_save_goals`. The `_dirty` flag, which `_schedule_save` sets (planner/goal_manager.py:305) and `_force_save` clears (planner/goal_manager.py:338), is therefore left unchanged.
- A window whose entries cannot be compared makes the whole lookup fall back to the empty schedule. This happens, for example, when an entry of a two-element list is not a number.
- A one-element window is skipped for the current pick, because it does not parse, but it is still listed as a future activity that starts at its only entry.

Other behaviour of the code that differs from its docstrings:

- "你现在在干嘛？" is classified with confidence 1.0 (`IntentClassification.WhatAreYouDoingNow`), not 0.95.
- (540, 660, 630) is IN_PROGRESS (`StateAnalysis.AnalyzeExamples`), not ALMOST_DONE.
- When today's schedule is missing, `execute` rebinds the user id to the message's `user_id` or to "system" (`ScheduleInjection.UserIdRebinding`). Later turns of that message are recorded under that id.

## Model

| member | source | states |
|---|---|---|
| TimeUtils.MigrateTimeWindow | utils/time_utils.py:8-31 | a missing window or one with fewer than two elements gives None; every other result has at least two elements |
| TimeUtils.ParseTimeWindow | utils/time_utils.py:34-47 | (None, None) exactly when the migration gives None, otherwise the first two elements of the migrated window |
| TimeUtils.MigrateLegacy | utils/time_utils.py:26-28 | a pair with start < 24 and end <= 24 becomes [start*60, end*60], extra elements dropped, and parses to that pair |
| TimeUtils.MigrateMinutesUnchanged | utils/time_utils.py:30-31 | every other window of two or more elements is returned unchanged and parses to its first two elements |
| TimeUtils.MigrateExamples | utils/time_utils.py:21-31 | [14,16] gives [840,960]; [24,24] and [1380,1500] are unchanged because the test is start < 24; a one-element window gives None |
| TimeUtils.MigrateIdempotent | utils/time_utils.py:27-31 | for non-negative windows the result has start >= 24 or end > 24, or is [0,0], so migrating it again changes nothing |
| StateAnalysis.TypePhrases | handlers/inject/state_analyzer.py:41-203 | every activity type in the table has a non-empty phrase list for each of the three progress states |
| StateAnalysis.StateOf | handlers/inject/state_analyzer.py:241-250 | the progress state of a window of positive length is never UNKNOWN |
| StateAnalysis.StateByCrossMultiplication | handlers/inject/state_analyzer.py:236-250 | for total > 0: JUST_STARTED iff 10*elapsed < total, ALMOST_DONE iff 5*elapsed > 4*total, IN_PROGRESS otherwise (both boundaries included); current <= start is always JUST_STARTED |
| StateAnalysis.TableOf | handlers/inject/state_analyzer.py:282-285 | the table read is the type's own when it has one (otherwise the "custom" table), and it has phrases for every progress state |
| StateAnalysis.EmotionTextFromTable | handlers/inject/state_analyzer.py:282-295 | whatever the draw, the phrase belongs to the state's list in the type's table; UNKNOWN gives "" |
| StateAnalysis.UnknownTypeIsCustom | handlers/inject/state_analyzer.py:281-285 | a type without a table gives exactly the phrase of the "custom" type |
| StateAnalysis.AnalyzeActivityState | handlers/inject/state_analyzer.py:207-260 | a window of non-positive length gives (UNKNOWN, None) and only it does; otherwise the progress state and a phrase for that state |
| StateAnalysis.AnalyzeExamples | handlers/inject/state_analyzer.py:227-233 | (540, 660, 550) is JUST_STARTED with a "study" phrase; (540, 660, 630) is IN_PROGRESS, not the ALMOST_DONE of the docstring |
| StateAnalysis.HoursMinutes | handlers/inject/state_analyzer.py:328-331 | hours*60 + minutes gives back the duration, with minutes below 60 |
| StateAnalysis.DurationPart | handlers/inject/state_analyzer.py:336-348 | a positive duration gives exactly one part, which starts with the lead word; zero gives none; from 60 minutes on the part shows the whole hours and "小时", ends there when the minutes divide evenly and otherwise ends with the leftover minutes and "分钟"; under 60 minutes it is the lead word, the minutes and "分钟" |
| StateAnalysis.ProgressDescription | handlers/inject/state_analyzer.py:318-325 | elapsed <= 0 gives "刚开始"; otherwise remaining <= 0 gives "即将结束" |
| StateAnalysis.ProgressDescriptionInside | handlers/inject/state_analyzer.py:327-350 | strictly inside the window the text is the elapsed part, "，", then the remaining part; under an hour elapsed the elapsed part is exactly "已进行", the minutes and "分钟", and under an hour remaining the remaining part is exactly "还剩", the minutes and "分钟" (longer spans show their hours as `DurationPart` states) |
| StateAnalysis.ProgressDescriptionExample | handlers/inject/state_analyzer.py:313-316 | (540, 660, 600) gives "已进行1小时，还剩1小时" |
| GoalManagement.StatusFromValue | planner/goal_manager.py:25-31 | the parsed status renders back to the given value, and every one of the five status values is recognised |
| GoalManagement.PriorityFromValue | planner/goal_manager.py:34-38 | the parsed priority renders back to the given value, and every one of the three priority values is recognised |
| GoalManagement.FromDict | planner/goal_manager.py:101-126 | a dict without `goal_id` is rejected; a truthy `created_at` is the loaded creation time, and a missing or empty one falls back to the current time |
| GoalManagement.ToDictKeys | planner/goal_manager.py:80-99 | the saved dict holds exactly the sixteen keys the loader reads |
| GoalManagement.ToDictIdLookups | planner/goal_manager.py:82-84 | id, name and description are saved as they are |
| GoalManagement.ToDictEnumLookups | planner/goal_manager.py:86-90 | priority and status are saved as their enum values and the creation time as a timestamp |
| GoalManagement.ToDictTextLookups | planner/goal_manager.py:85-89 | goal type, creator and chat id are saved as they are |
| GoalManagement.ToDictOptionLookups | planner/goal_manager.py:91-97 | deadline, interval and last execution are saved, None as null |
| GoalManagement.ToDictMapLookups | planner/goal_manager.py:93-98 | conditions, parameters, progress and execution count are saved as they are |
| GoalManagement.RoundTripTimes | planner/goal_manager.py:104-106 | the three timestamp readers give back the saved timestamps |
| GoalManagement.RoundTripTexts | planner/goal_manager.py:108-114 | the string readers give back the saved strings |
| GoalManagement.RoundTripEnums | planner/goal_manager.py:112-115 | the enum readers give back the saved priority and status (with lines 67, 70) |
| GoalManagement.RoundTripRest | planner/goal_manager.py:117-123 | interval, conditions, parameters, progress and execution count read back as saved |
| GoalManagement.DictRoundTrip | planner/goal_manager.py:80-126 | loading the dict of a goal gives back that goal, field for field |
| GoalManagement.FromDictRejectsBadPriority | planner/goal_manager.py:112 | every dict whose priority is not the text of one of the enum values is rejected (with line 67) |
| GoalManagement.FromDictRejectsBadStatus | planner/goal_manager.py:115 | every dict holding a status that is not the text of one of the enum values is rejected (with line 70) |
| GoalManagement.NotDueCases | planner/goal_manager.py:128-143 | a goal is not due when it is not active, when its deadline has passed, or when it ran less than its interval ago; an active goal without deadline that never ran is due |
| GoalManagement.MarkExecuted | planner/goal_manager.py:145-148 | the last execution becomes now, the count goes up by one, and every other field is unchanged |
| GoalManagement.MarkExecutedWaitsForInterval | planner/goal_manager.py:128-148 | with a positive interval a goal just executed is not due before the interval has elapsed, and afterwards is due exactly when active and not past its deadline |
| GoalManagement.MarkExecutedWithoutInterval | planner/goal_manager.py:133-148 | without an interval, executing a goal does not change whether it is due |
| GoalManagement.ApplyUpdate | planner/goal_manager.py:478-491 | an update keeps the goal id (`goal_id` is the method's own parameter, so Python binds a `goal_id=` keyword to it and it never reaches `kwargs`); an unknown keyword changes nothing; status and progress updates change only that field |
| GoalManagement.ApplyUpdates | planner/goal_manager.py:478-491 | the id survives any sequence of keyword updates (no keyword argument can name `goal_id`, the method's own parameter), and unknown keywords alone change nothing |
| GoalManagement.ClampProgress | planner/goal_manager.py:504 | the progress stored lies in [0, 100], values inside the range are kept and values outside go to the nearer end |
| GoalManagement.NewGoal | planner/goal_manager.py:383-395 | a new goal has the given id and priority, is created now, and has status ACTIVE, progress 0, no executions and no last execution time (with lines 53-61, 74-75) |
| GoalManagement.FirstInvalid | planner/goal_manager.py:428-437 | none exactly when every spec has a valid priority; otherwise the index of the first invalid spec, all before it being valid |
| GoalManagement.FirstInvalidAt | planner/goal_manager.py:428-437 | an invalid spec preceded only by valid ones is the one the batch stops at |
| GoalManagement.Retain | planner/goal_manager.py:544-556 | a goal survives cleanup exactly when it is not a completed or cancelled goal created before the cutoff, and survivors are unchanged |
| GoalManagement.RetainKeepsUnfinished | planner/goal_manager.py:549 | active, paused and failed goals survive cleanup whatever their age |
| GoalManagement.RetainExample | planner/goal_manager.py:544-552 | with the default 30 days a completed goal 31 days old is removed and one 29 days old is kept (with line 533) |
| GoalManagement.KeepKeys | planner/goal_manager.py:460 | the key order after deletions holds exactly the listed ids that are still stored |
| GoalManagement.KeepKeysAll | planner/goal_manager.py:460 | when every listed id is stored the order is unchanged |
| GoalManagement.KeepKeysRemove | planner/goal_manager.py:556 | deleting one more key removes exactly that id from the order (with line 527) |
| GoalManagement.KeepKeysRestore | planner/goal_manager.py:445-451 | deleting the ids appended by a batch restores the earlier key order |
| GoalManagement.BatchPrefixFirstInvalid | planner/goal_manager.py:433-435 | the first spec that fails after a valid prefix is the first invalid spec of the batch |
| GoalManagement.BatchPrefixFull | planner/goal_manager.py:428-443 | a completed loop means every spec was valid and the created goals are those of the batch |
| GoalManagement.BatchGoals | planner/goal_manager.py:428-443 | a valid batch creates one active goal per spec, in order, each from its own spec |
| GoalManagement.InsertAllFresh | planner/goal_manager.py:428-432 | inserting goals under distinct fresh ids adds exactly those ids, each holding its goal, and keeps every earlier goal (with line 397) |
| GoalManagement.FreshIds | planner/goal_manager.py:381 | ids drawn upwards from above every stored key are distinct and not yet stored |
| GoalManagement.DeletedAll | planner/goal_manager.py:555-556 | deleting the whole list removes exactly the listed entries and keeps the others, and the store shrinks by the list length |
| GoalManagement.DeletedCount | planner/goal_manager.py:555-562 | deleting distinct stored ids removes exactly as many keys |
| GoalManagement.RetainByDeletion | planner/goal_manager.py:544-556 | deleting exactly the expired ids leaves the retained store |
| GoalManagement.DeletionCleansUp | planner/goal_manager.py:533-562 | deleting exactly the expired ids, with the count of deleted ids, is a cleanup with that cutoff |
| GoalManagement.GoalManager.constructor | planner/goal_manager.py:198-215 | the store starts empty, consistent and with nothing to save |
| GoalManagement.GoalManager.Values | planner/goal_manager.py:459 | the value list has one entry per key and holds exactly the stored goals |
| GoalManagement.GoalManager.GetGoal | planner/goal_manager.py:453-455 | a goal is returned exactly when the id is stored, and it is the goal with that id |
| GoalManagement.GoalManager.GetAllGoals | planner/goal_manager.py:457-467 | a goal is listed exactly when it is stored, belongs to the chat when a non-empty chat id is given, and has the status when one is given |
| GoalManagement.GoalManager.GetActiveGoals | planner/goal_manager.py:469-471 | a goal is listed exactly when it is stored, active and of the chat when one is given |
| GoalManagement.GoalManager.GetExecutableGoals | planner/goal_manager.py:473-476 | a goal is listed exactly when it is stored and due now |
| GoalManagement.GoalManager.CreateGoal | planner/goal_manager.py:366-406 | an unknown priority fails and changes no goal; otherwise exactly one new active goal is stored under a fresh id, appended to the key order, and a save is scheduled when asked |
| GoalManagement.GoalManager.CreateGoalsBatch | planner/goal_manager.py:408-451 | succeeds exactly when every spec is valid, storing the batch's goals in order and saving at once; otherwise the error names the 1-based position of the first invalid spec and goals, key order and save flag are as before |
| GoalManagement.GoalManager.CreateEach | planner/goal_manager.py:427-437 | creates the specs in order up to the first invalid one, which it reports, with every created goal stored under its own fresh id |
| GoalManagement.BatchUndoable | planner/goal_manager.py:445-449 | the goals a partial batch inserted carry distinct fresh ids that were not in the store, the store with them holds exactly the old goals plus those ids, and the old goals are untouched (with lines 381, 432-434) |
| GoalManagement.GoalManager.RollBack | planner/goal_manager.py:445-451 | deleting the goals a batch created gives back the store and key order from before the batch |
| GoalManagement.GoalManager.UpdateGoal | planner/goal_manager.py:478-496 | an unknown id returns False and changes nothing; otherwise only that goal changes, by the keyword updates in order (every settable attribute except `goal_id`, which is the method's own parameter and never a keyword argument), and a save is scheduled |
| GoalManagement.GoalManager.UpdateGoalStatus | planner/goal_manager.py:498-500 | only the status of that goal changes, and an unknown id changes nothing |
| GoalManagement.GoalManager.UpdateGoalProgress | planner/goal_manager.py:502-505 | only the progress of that goal changes, to the value clamped to [0, 100] |
| GoalManagement.GoalManager.CompleteGoal | planner/goal_manager.py:507-509 | the goal becomes completed with progress 100, and nothing else changes |
| GoalManagement.GoalManager.PauseGoal | planner/goal_manager.py:511-513 | the goal becomes paused, and nothing else changes |
| GoalManagement.GoalManager.ResumeGoal | planner/goal_manager.py:515-517 | the goal becomes active, and nothing else changes |
| GoalManagement.GoalManager.CancelGoal | planner/goal_manager.py:519-521 | the goal becomes cancelled, and nothing else changes |
| GoalManagement.GoalManager.DeleteGoal | planner/goal_manager.py:523-531 | returns True exactly when the id was stored; exactly that id leaves the store and the key order, and a save is scheduled only then |
| GoalManagement.GoalManager.DeleteOne | planner/goal_manager.py:525-526 | exactly that id leaves the store and the key order |
| GoalManagement.GoalManager.DeleteIds | planner/goal_manager.py:555-556 | exactly the listed ids leave the store, the others keep their goals and their order, and the store shrinks by the list length (with lines 449-451) |
| GoalManagement.GoalManager.ExpiredIds | planner/goal_manager.py:544-552 | collects, without repeats, exactly the stored goals that are completed or cancelled and created before the cutoff |
| GoalManagement.GoalManager.CleanupOldGoals | planner/goal_manager.py:533-562 | the store afterwards is the retained store for the cutoff `now - days`, survivors keep their order, the count is the number removed, and the save flag is untouched |
| GoalManagement.GoalManager.MarkGoalExecuted | planner/goal_manager.py:564-570 | a stored goal is marked executed and a save scheduled; an unknown id changes nothing |
| IntentClassification.MatchCount | handlers/inject/intent_classifier.py:238-243 | the number of keywords found never exceeds the size of the table |
| IntentClassification.MatchCountZero | handlers/inject/intent_classifier.py:241-249 | no keyword is counted exactly when no keyword of the table occurs in the message |
| IntentClassification.MatchLength | handlers/inject/intent_classifier.py:244-246 | without a match the summed keyword length is zero |
| IntentClassification.MatchConcat | handlers/inject/intent_classifier.py:241-246 | count and summed length over two tables joined are the sums over each table, so the order of the keyword set does not matter |
| IntentClassification.KeywordScore | handlers/inject/intent_classifier.py:220-258 | the score lies in [0, 1]; it is 0 exactly when no keyword occurs; it is at least 1/3 for one match and 2/3 for two, and 1 for three or more |
| IntentClassification.AnyInOccurs | handlers/inject/intent_classifier.py:172-196 | the `any(kw in message ...)` tests hold exactly when some keyword of the list occurs |
| IntentClassification.CurrentScore | handlers/inject/intent_classifier.py:169-186 | the boosted current score lies in [0, 1] and is at least the plain keyword score; an activity verb with a recent-time marker gives at least 0.80; a strong marker (正在, 在做, 在干, 现在, 当前) gives at least min(1, 1.5 × the plain score); an activity verb with "不是" and "吗" or a question mark gives at least 0.85 |
| IntentClassification.FutureScore | handlers/inject/intent_classifier.py:193-197 | the boosted future score lies in [0, 1], is at least the plain score, and is 0 exactly when the plain score is |
| IntentClassification.ClassifyWith | handlers/inject/intent_classifier.py:125-218 | UNKNOWN exactly for a blank message (confidence 0); COMMAND_EXECUTION exactly for a non-blank message whose normalised form matches a command pattern (confidence 1.0); every other answer's confidence is above its branch threshold (tech 0.5, current 0.4, future 0.4, casual 0.3) and never above 1 |
| IntentClassification.Classify | handlers/inject/intent_classifier.py:125-218 | the classifier with the lower-cased tech table: confidence in [0, 1]; UNKNOWN exactly for a blank message |
| IntentClassification.ClassifyAsWritten | handlers/inject/intent_classifier.py:125-218 | the classifier with the tech table as written: confidence in [0, 1]; UNKNOWN exactly for a blank message (with lines 79-86) |
| IntentClassification.ClassifiersAgreeWithoutApi | handlers/inject/intent_classifier.py:84-163 | the classifier as written and the corrected one give the same intent and confidence on every message whose normalised text holds no "api" |
| IntentClassification.TechComesFirst | handlers/inject/intent_classifier.py:162-166 | past the blank and command tests, a tech score above 0.5 decides, with that score, whatever the other scores are |
| IntentClassification.CurrentComesSecond | handlers/inject/intent_classifier.py:168-190 | otherwise a boosted current score above 0.4 decides, before the future and casual scores |
| IntentClassification.FutureComesThird | handlers/inject/intent_classifier.py:192-201 | otherwise a boosted future score above 0.4 decides |
| IntentClassification.FallbackIsCasualOrShortQuestion | handlers/inject/intent_classifier.py:203-218 | when no earlier rule fires the answer is CASUAL_CHAT or (QUERY_CURRENT, 0.6), the latter exactly for a short message (under 10 characters) with "?" or "？" and a casual score of at most 0.3 |
| IntentClassification.CasualFallback | handlers/inject/intent_classifier.py:215-218 | with no rule firing and no question mark the answer is (CASUAL_CHAT, 0.40) |
| IntentClassification.MatchCountAtLeast | handlers/inject/intent_classifier.py:241-243 | distinct keywords that occur are each counted |
| IntentClassification.TwoMatchesScore | handlers/inject/intent_classifier.py:248-258 | two distinct matching keywords give a score above 0.5 |
| IntentClassification.TwoTechKeywordsWin | handlers/inject/intent_classifier.py:162-166 | two distinct tech keywords in a message that is no command always make a tech question (with lines 248-258) |
| IntentClassification.VerbAndMarkerIsCurrent | handlers/inject/intent_classifier.py:182-190 | an activity verb with "刚", "刚才", "刚刚" or "在" makes QUERY_CURRENT with confidence at least 0.8 when neither the command nor the tech rule fires |
| IntentClassification.BlankIsUnknown | handlers/inject/intent_classifier.py:149-150 | an empty or whitespace-only message is (UNKNOWN, 0.0) |
| IntentClassification.NormaliseKeepsStart | handlers/inject/intent_classifier.py:152 | stripping and lower-casing keep a leading run of non-space characters, lower-cased |
| IntentClassification.SlashWordNormalised | handlers/inject/intent_classifier.py:89-90 | a message starting with "/" and a word character is not blank and still matches `^/\w+` after normalising (with line 152) |
| IntentClassification.SlashWordIsCommand | handlers/inject/intent_classifier.py:157-160 | such a message is (COMMAND_EXECUTION, 1.0), whatever follows |
| IntentClassification.HelpIsCommand | handlers/inject/intent_classifier.py:146-147 | "/help" is (COMMAND_EXECUTION, 1.0) |
| IntentClassification.NoFirstCharMatches | handlers/inject/intent_classifier.py:241-249 | a table whose keywords all start with characters absent from the message scores 0 |
| IntentClassification.NotCommandByStart | handlers/inject/intent_classifier.py:89-97 | a message whose first character is none of "/sgnpcl" matches no command pattern |
| IntentClassification.TechTables | handlers/inject/intent_classifier.py:79-86 | the lower-cased tech table differs from the written one only at the "API" entry |
| IntentClassification.NormalisedLacksApi | handlers/inject/intent_classifier.py:152 | a lower-cased message never contains "API" (with line 84) |
| IntentClassification.ApiNeverMatches | handlers/inject/intent_classifier.py:163 | as written, the tech score of every message equals the score of the table without its "API" entry (with lines 84, 152) |
| IntentClassification.DropNonMatchingScore | handlers/inject/intent_classifier.py:241-258 | a keyword that does not occur can be removed from a table without changing the score |
| IntentClassification.ReplaceEntry | handlers/inject/intent_classifier.py:241-243 | replacing a keyword that cannot occur by one that does adds exactly one match |
| IntentClassification.ApiCountsWhenCorrected | handlers/inject/intent_classifier.py:163 | with the lower-cased table, a message containing "api" counts one tech match more than as written (with lines 84, 152) |
| IntentClassification.ApiVersionAsWritten | handlers/inject/intent_classifier.py:162-218 | as written, "api版本" scores 31/75 on the tech table and ends as (CASUAL_CHAT, 0.40) (with lines 79-86) |
| IntentClassification.ApiVersionCorrected | handlers/inject/intent_classifier.py:162-166 | with "api" lower-cased, "api版本" is a tech question (with lines 79-86) |
| IntentClassification.WhatAreYouDoingNow | handlers/inject/intent_classifier.py:168-190 | "你现在在干嘛？" is (QUERY_CURRENT, 1.0); the docstring says 0.95 (with lines 141-144) |
| IntentClassification.FirstRangeFrom | handlers/inject/intent_classifier.py:303-308 | the first table position, from the given one on, whose name occurs in the message; none exactly when no later name occurs |
| IntentClassification.ExtractTimeRange | handlers/inject/intent_classifier.py:279-308 | an empty message gives None; otherwise the first entry of the table, in table order, whose name occurs in the lower-cased, stripped message, and None only when no name occurs |
| IntentClassification.AfternoonPlans | handlers/inject/intent_classifier.py:290-292 | "下午有什么安排" gives the afternoon range, 14 to 18 |
| ContentTemplates.Holes | handlers/inject/content_template.py:41-45 | every placeholder of a template is among its placeholder names |
| ContentTemplates.Render | handlers/inject/content_template.py:158-165 | substitution succeeds exactly when every placeholder of the template has a value; a missing one gives None, as the caught KeyError does |
| ContentTemplates.RenderIgnoresUnused | handlers/inject/content_template.py:158-162 | a value for a name the template does not use changes nothing |
| ContentTemplates.ActivityFull | handlers/inject/content_template.py:141-149 | "activity（description）" when the description is non-empty, otherwise the activity, otherwise "休息" |
| ContentTemplates.VariablesAsWritten | handlers/inject/content_template.py:135-156 | exactly the four names activity, description, activity_full and future_activities, with the source's defaults ("休息", "", "暂无后续安排") |
| ContentTemplates.Variables | handlers/inject/content_template.py:135-156 | the same four values plus "state_desc" from the caller ("" when none) (with lines 89, 99-100) |
| ContentTemplates.FutureLines | handlers/inject/content_template.py:198-201 | one "time name" line per activity, in order |
| ContentTemplates.FormatFutureActivities | handlers/inject/content_template.py:167-203 | no activities give "暂无安排"; otherwise the lines of all activities, or of the first max_count, joined with newlines |
| ContentTemplates.FormatLimitBeyondLength | handlers/inject/content_template.py:192-196 | a limit at or beyond the list length gives the same text as no limit |
| ContentTemplates.FormatThree | handlers/inject/content_template.py:181-187 | three activities give three "time name" lines joined by newlines |
| ContentTemplates.BuildSimpleInject | handlers/inject/content_template.py:205-235 | starts with the header line and ends with the reminder line; the "等下{time}要{activity}。" line sits between them exactly when both are non-empty |
| ContentTemplates.CountTemplates | handlers/inject/content_template.py:246-247 | the number of non-None entries is at most the pool size |
| ContentTemplates.CountTemplatesNone | handlers/inject/content_template.py:246-247 | the count is 0 exactly when every entry is None, and the pool size exactly when none is |
| ContentTemplates.CountTemplatesAppend | handlers/inject/content_template.py:271 | appending an entry raises the count by one exactly when the entry is a template (with line 247) |
| ContentTemplates.DefaultTemplates | handlers/inject/content_template.py:46-79 | the starting pools cover the five intents other than UNKNOWN |
| ContentTemplates.ContentTemplateEngine.constructor | handlers/inject/content_template.py:32-79 | the engine starts with the default pools |
| ContentTemplates.ContentTemplateEngine.BuildWith | handlers/inject/content_template.py:116-165 | no pool gives None; otherwise there is a text exactly when the drawn entry is a template, there is a current activity or the intent is QUERY_FUTURE, and every placeholder has a value; the text is the rendered template |
| ContentTemplates.ContentTemplateEngine.BuildInjectContentAsWritten | handlers/inject/content_template.py:83-165 | a drawn template that uses "state_desc" always gives None, because that name is never filled |
| ContentTemplates.ContentTemplateEngine.GetTemplateCount | handlers/inject/content_template.py:237-247 | the count never exceeds the pool size and is 0 for an intent without a pool |
| ContentTemplates.ContentTemplateEngine.AddCustomTemplate | handlers/inject/content_template.py:249-272 | the template is appended to the end of the intent's pool, created when missing; the other pools are unchanged; the count goes up by one |
| ContentTemplates.DefaultSuppression | handlers/inject/content_template.py:116-128 | with the starting pools TECH_QUESTION, COMMAND_EXECUTION and UNKNOWN never inject, and CASUAL_CHAT gives None for two of its four draws (with lines 62-78) |
| ContentTemplates.DefaultCounts | handlers/inject/content_template.py:46-79 | the starting counts are 4, 3, 2, 0, 0 and 0 (with lines 246-247) |
| ContentTemplates.DefaultCurrentInjects | handlers/inject/content_template.py:130-162 | a QUERY_CURRENT message with a current activity always injects, starting with "【当前状态】" and the full activity (with lines 48-53) |
| ContentTemplates.FutureWithoutActivity | handlers/inject/content_template.py:130-162 | QUERY_FUTURE injects even with no current activity; the second template starts with "【后续计划】" and the future-activities text (with lines 56-60) |
| ContentTemplates.BuildWithIgnoresUnused | handlers/inject/content_template.py:158-162 | a value for a name the drawn template does not use leaves the result unchanged |
| ContentTemplates.AsWrittenAgreesWithoutStateDesc | handlers/inject/content_template.py:135-162 | for a template without "state_desc" the source's result and the corrected result are the same |
| ContentTemplates.StateDescTemplateAsWritten | handlers/inject/content_template.py:135-165 | as written, the documented custom template "【状态】正在{activity}，{state_desc}" never injects (with lines 262-266) |
| ContentTemplates.StateDescTemplateCorrected | handlers/inject/content_template.py:135-162 | with "state_desc" filled, that template renders the activity and the state description (with lines 89, 262-266) |
| InjectOptimization.Unexpired | handlers/inject/inject_optimizer.py:195-201 | a user stays exactly when the last injection is not more than twice the TTL old, with the entry unchanged |
| InjectOptimization.UnexpiredByDeletion | handlers/inject/inject_optimizer.py:193-201 | deleting the collected expired users leaves exactly the unexpired history |
| InjectOptimization.InjectOptimizer.constructor | handlers/inject/inject_optimizer.py:35-49 | the history starts empty, with the given TTL and casual probability |
| InjectOptimization.InjectOptimizer.ShouldInject | handlers/inject/inject_optimizer.py:56-147 | a reason is given exactly when the answer is no; TECH_QUESTION and COMMAND_EXECUTION are always refused as excluded; the answer is yes exactly when the intent is not excluded, there is an activity or the intent is a query, the call is no repeat, the casual draw does not exceed the probability and the confidence is at least 0.4; NoActivity is the reason exactly for a non-query intent without an activity; a repeat reason implies the repeat rule held |
| InjectOptimization.InjectOptimizer.RecordInjection | handlers/inject/inject_optimizer.py:149-180 | the user's entry is overwritten with this injection and a count one higher (1 for a new user); other users are unchanged; the total count goes up by one |
| InjectOptimization.InjectOptimizer.ExpiredUsers | handlers/inject/inject_optimizer.py:193-198 | the collected users are exactly those whose last injection is more than twice the TTL old |
| InjectOptimization.InjectOptimizer.CleanupExpiredCache | handlers/inject/inject_optimizer.py:187-204 | exactly the expired users are deleted; the others keep their entries |
| InjectOptimization.InjectOptimizer.ResetUserHistory | handlers/inject/inject_optimizer.py:238-246 | the user's entry, if any, is deleted and nothing else; the total count drops by that user's count |
| InjectOptimization.InjectOptimizer.GetTotalInjectCount | handlers/inject/inject_optimizer.py:248-254 | the result is the sum of the users' counts |
| InjectOptimization.InjectOptimizer.SetCasualInjectProbability | handlers/inject/inject_optimizer.py:264-277 | a value outside [0, 1] is refused and nothing changes; otherwise it is stored |
| InjectOptimization.RecordThenRepeat | handlers/inject/inject_optimizer.py:107-126 | after an injection is recorded, the same activity and intent within the TTL are refused as a repeat, unless the intent is QUERY_FUTURE (with lines 164-180) |
| InjectOptimization.FutureNeverRepeats | handlers/inject/inject_optimizer.py:120-122 | QUERY_FUTURE is never refused as a repeat, and is allowed exactly when the confidence is at least 0.4 (with lines 135-147) |
| MapSums.SumRemove | handlers/inject/inject_optimizer.py:254 | the sum over a dictionary's values does not depend on the order the values are taken in |
| MapSums.SumUpdate | handlers/inject/inject_optimizer.py:254 | storing a value under a key replaces that key's share of the sum |
| ContextCaching.Push | handlers/inject/context_cache.py:88-93 | the window never exceeds max_turns; below it the turn is appended; at it the oldest turn drops out; the new turn is always the newest |
| ContextCaching.FreshTurns | handlers/inject/context_cache.py:124-126 | filtering never lengthens the window |
| ContextCaching.FreshTurnsMembers | handlers/inject/context_cache.py:126 | the filter keeps exactly the turns with now - timestamp < ttl |
| ContextCaching.FreshTurnsSnoc | handlers/inject/context_cache.py:126 | the filter keeps the order of the turns |
| ContextCaching.Swept | handlers/inject/context_cache.py:226-240 | a user stays exactly when some turn is unexpired, and keeps exactly the unexpired turns, in order |
| ContextCaching.ConversationContextCache.constructor | handlers/inject/context_cache.py:46-56 | the cache starts empty, with the given window size and TTL, swept at the current time |
| ContextCaching.ConversationContextCache.AddTurn | handlers/inject/context_cache.py:62-103 | the turn becomes the newest of the user's window, created when missing, and no window exceeds max_turns; other users are unchanged unless more than 300 seconds have passed since the last sweep, and then every window is swept and the sweep time is now |
| ContextCaching.ConversationContextCache.GetRecentTurns | handlers/inject/context_cache.py:105-132 | an unknown user gives []; otherwise a suffix of the unexpired turns, oldest first: all of them when count is None or 0, the last min(count, live) when count is positive |
| ContextCaching.ConversationContextCache.OngoingByLastTwo | handlers/inject/context_cache.py:134-173 | the topic is ongoing exactly when there is an unexpired turn, the newest is at most 60 seconds old, and one of the last two unexpired turns was injected |
| ContextCaching.ConversationContextCache.GetLastActivity | handlers/inject/context_cache.py:175-189 | the activity of the newest unexpired turn when it is non-empty, otherwise None |
| ContextCaching.ConversationContextCache.ShouldContinueInject | handlers/inject/context_cache.py:191-219 | a reason is given exactly when the answer is yes; an ongoing topic gives yes; otherwise yes exactly when the last and the current activity are both non-empty and differ; with no current activity only the first rule can say yes |
| ContextCaching.ConversationContextCache.CleanupExpired | handlers/inject/context_cache.py:221-245 | the windows become exactly the swept windows, no window exceeds max_turns, and the sweep time becomes now |
| ContextCaching.ConversationContextCache.DeleteUsers | handlers/inject/context_cache.py:239-240 | exactly the given users are deleted |
| ContextCaching.ConversationContextCache.FilterWindows | handlers/inject/context_cache.py:226-236 | the users returned are exactly those with no unexpired turn and their windows are left as they were; every other window is replaced by its unexpired turns |
| ContextCaching.ConversationContextCache.ClearUserContext | handlers/inject/context_cache.py:247-255 | only that user's window is deleted, if present |
| ContextCaching.ConversationContextCache.GetStats | handlers/inject/context_cache.py:257-271 | the number of users, the sum of the window lengths, and the two settings |
| ContextCaching.SweptByDeletion | handlers/inject/context_cache.py:226-240 | replacing the windows and then deleting the emptied users gives exactly the swept windows |
| ContextCaching.PushedTurnIsNewest | handlers/inject/context_cache.py:89-93 | a turn just appended and not yet expired is the newest unexpired turn (with line 126) |
| ContextCaching.LastActivityAfterAdd | handlers/inject/context_cache.py:175-189 | right after a turn is added (with a positive TTL), the last activity is that turn's activity when non-empty (with lines 62-93) |
| ContextCaching.SweptBounded | handlers/inject/context_cache.py:228-231 | sweeping never makes a window exceed max_turns |
| ContextCaching.FollowUpIsOngoing | handlers/inject/context_cache.py:147-151 | an injected turn followed by a follow-up within a minute makes the topic ongoing |
| ScheduleResolution.ReadWindow | handlers/handlers.py:946-957 | a readable window yields one or two integers: the first two entries of a list of two or more, the only entry of a one-element list (with lines 992-994) |
| ScheduleResolution.ScheduledGoals | handlers/handlers.py:922-943 | none exactly when some goal's window cannot be read; otherwise every goal with a truthy window has its entry, and every entry comes from such a goal with its window and its created-today flag |
| ScheduleResolution.CollectScheduled | handlers/handlers.py:922-938 | the collecting loop yields exactly the entries of `ScheduledGoals` |
| ScheduleResolution.Insert | handlers/handlers.py:958 | inserting an entry adds exactly that entry to the multiset |
| ScheduleResolution.InsertAtLeast | handlers/handlers.py:946-958 | inserting an entry whose key is at least `k` into a list whose keys are at least `k` keeps that bound |
| ScheduleResolution.SortedCons | handlers/handlers.py:958 | an entry whose key is no greater than the keys of a sorted list, put in front, keeps it sorted |
| ScheduleResolution.InsertSorted | handlers/handlers.py:958 | insertion keeps a list sorted by start |
| ScheduleResolution.SortByStart | handlers/handlers.py:946-958 | the sorted entries are a permutation of the entries, in ascending start order |
| ScheduleResolution.InsertWithKey | handlers/handlers.py:958 | inserting an entry changes the entries of one key only by putting the new entry, if it has that key, in front |
| ScheduleResolution.SortIsStable | handlers/handlers.py:958 | the sort is stable: the entries of each start key keep their relative order |
| ScheduleResolution.OvernightWindowExample | handlers/handlers.py:971-976 | the overnight window [1380, 1500] holds 00:30 and 23:30 but not 11:40 |
| ScheduleResolution.InWindowOverTwoDays | handlers/handlers.py:970-979 | for a minute of the day, the window test is membership of that minute, today or tomorrow, in [start, end) laid over two days |
| ScheduleResolution.PickUnique | handlers/handlers.py:981-989 | the rule for the current pick determines at most one entry |
| ScheduleResolution.CurrentPick | handlers/handlers.py:965-989 | no pick when no entry created today has the current minute in its window; otherwise a candidate created no earlier than any other, and strictly later than every candidate before it |
| ScheduleResolution.SelectCurrent | handlers/handlers.py:965-989 | the loop that replaces the pick only on a strictly later creation time yields `CurrentPick` |
| ScheduleResolution.FutureStartIsKey | handlers/handlers.py:992-1000 | for windows of two entries the future scan and the sort read the same start (with lines 946-956) |
| ScheduleResolution.Upcoming | handlers/handlers.py:992-1014 | the goals to come are exactly the entries whose start is after now, created today or not |
| ScheduleResolution.AppendAscending | handlers/handlers.py:992-1014 | appending an entry that starts no earlier than every listed entry keeps the starts ascending |
| ScheduleResolution.SortedPrefix | handlers/handlers.py:958 | a prefix of a sorted list is sorted |
| ScheduleResolution.UpcomingInStartOrder | handlers/handlers.py:992-1014 | with two-entry windows the goals to come are listed in ascending start order (with line 958) |
| ScheduleResolution.HourMinute | handlers/handlers.py:1003-1005 | below 100 hours the rendering is five characters with a colon in the middle |
| ScheduleResolution.FutureList | handlers/handlers.py:992-1014 | the future list has one entry per goal to come |
| ScheduleResolution.FutureListSnoc | handlers/handlers.py:992-1014 | scanning one more entry appends its start and name exactly when it starts after now |
| ScheduleResolution.FutureActivities | handlers/handlers.py:992-1014 | the scanning loop yields `FutureList` |
| ScheduleResolution.Resolve | handlers/handlers.py:908-1024 | when no goal has a window the lookup gives the empty schedule |
| ScheduleResolution.SortedEntries | handlers/handlers.py:922-958 | the sorted list holds exactly the entries of the goals with a truthy window |
| ScheduleResolution.NoPickNoCandidate | handlers/handlers.py:965-989 | when nothing is picked, no goal of the store is a candidate |
| ScheduleResolution.PickIsLatestCandidate | handlers/handlers.py:965-989 | the picked goal is a candidate of the store, created no earlier than any other candidate |
| ScheduleResolution.CurrentIsLatestCandidate | handlers/handlers.py:965-989 | the current activity is absent exactly when no goal is a candidate; otherwise it is the name and description of a candidate created no earlier than any other (with line 1016) |
| ScheduleResolution.QuerySchedule | handlers/handlers.py:899-1024 | collecting, sorting, picking and scanning as the source does yields `Resolve` |
| ScheduleResolution.SourceGoals | handlers/handlers.py:901-908 | the lookup reads the active goals of the "global" chat, and only when there are none the active goals of the given non-empty chat id |
| ScheduleResolution.ActiveExactlyWhenListed | handlers/handlers.py:904-907 | a chat has an active goal exactly when its active-goal list is non-empty |
| ScheduleResolution.FindScheduledToday | handlers/handlers.py:282-304 | true exactly when some goal carries a window key and was created today |
| ScheduleResolution.CheckTodayScheduleExists | handlers/handlers.py:262-307 | true exactly when an active goal of the chat carries a window key and was created today |
| ScheduleResolution.CurrentMeansScheduleExists | handlers/handlers.py:965-989 | when the global goals yield a current activity, the daily check over the global chat finds today's schedule (with lines 262-307) |
| ScheduleInjection.ExtractUserMessage | handlers/handlers.py:438-480 | the base info's first non-empty text wins; otherwise the raw message, then the plain text, each only when it is under 200 characters and holds no group-chat transcript marker; empty exactly when none qualifies |
| ScheduleInjection.UserIdRebinding | handlers/handlers.py:482-493 | the id used for generation equals the handler's user id exactly when the message carries one; without one the message is handled as "unknown" and the generator gets "system" (with lines 650-653) |
| ScheduleInjection.ShouldInjectSchedule | handlers/handlers.py:380-436 | never true without text; with the classifier loaded, true exactly for a non-empty text classified as neither technical question nor command; without it, true exactly for a non-empty text that holds one of the time keywords, or that is shorter than five characters and holds an ASCII or a full-width question mark |
| ScheduleInjection.ExcludedByValue | handlers/handlers.py:409 | the value test excludes exactly the technical-question and command intents |
| ScheduleInjection.ShortQuestionInjected | handlers/handlers.py:430-432 | without the classifier, a text of fewer than five characters with an ASCII or a full-width question mark at any position is injected, whether or not it holds a time keyword |
| ScheduleInjection.TimeKeywordInjected | handlers/handlers.py:424-426 | without the classifier, a text that holds any one of the time keywords is injected |
| ScheduleInjection.GuidanceFor | handlers/handlers.py:520-585 | the guidance is chosen by the first test that holds, in the order command, technical, direct query, future query, greeting, default, with the keyword tests on the lowercased text |
| ScheduleInjection.FutureLines | handlers/handlers.py:559-566 | no plan lines for an empty list; otherwise a heading and one "  time - name" line for each of the first `max_show` goals to come, in order |
| ScheduleInjection.JoinAppend | handlers/handlers.py:591 | joining two non-empty line lists puts one separator between their joins |
| ScheduleInjection.SmartPromptOpening | handlers/handlers.py:555-557 | the joined smart prompt opens with the heading line and the current activity (with line 591) |
| ScheduleInjection.JoinedClosing | handlers/handlers.py:587-589 | the three closing lines join to the rule between two newlines |
| ScheduleInjection.SmartPromptClosing | handlers/handlers.py:587-591 | the joined smart prompt ends with the rule line and an empty line |
| ScheduleInjection.BuildSmartInjectPrompt | handlers/handlers.py:495-591 | the prompt opens with the heading and the current activity and ends with the closing rule |
| ScheduleInjection.SmartSkipMatchesGuidance | handlers/handlers.py:724-728 | a message smart mode skips would get the command or technical guidance, and a message it injects never gets the command guidance (with lines 543-550) |
| ScheduleInjection.TraditionalContent | handlers/handlers.py:805-818 | the block opens with the state heading and the current activity, holds the description when non-empty and the first goal to come when there is one, and ends with a newline |
| ScheduleInjection.OngoingInMatches | handlers/inject/context_cache.py:134-173 | the context cache's continuation rule is the rule on the user's window |
| ScheduleInjection.PushKeepsNewest | handlers/inject/context_cache.py:89-93 | pushing a turn onto a non-empty bounded window keeps its newest turn just before the new one |
| ScheduleInjection.LiveTail | handlers/inject/context_cache.py:124-130 | when the last two turns are live they are the last two live turns (with line 153) |
| ScheduleInjection.SkipAsWrittenEndsTopic | handlers/handlers.py:728-738 | as written, a skipped message records two non-injected turns, after which the continuation rule never holds (with lines 773-782, 821-828) |
| ScheduleInjection.TwoPlainTurnsEndTopic | handlers/handlers.py:821-828 | two live non-injected turns pushed in a row leave the continuation rule false |
| ScheduleInjection.PushAllTwo | handlers/handlers.py:821-828 | recording two turns is pushing one after the other (with lines 731-738) |
| ScheduleInjection.SkipKeepsTopic | handlers/handlers.py:728-738 | with one turn per message, a message skipped right after a live injected turn keeps the topic ongoing (with lines 773-782) |
| ScheduleInjection.QuarterHourKey | handlers/handlers.py:882-885 | two lookups of one chat share a cache key exactly when they fall in the same quarter hour of the same day; a day has 96 slots |
| ScheduleInjection.LiveEntries | handlers/handlers.py:842-858 | after a sweep exactly the entries at most the TTL old remain, unchanged |
| ScheduleInjection.LiveByDeletion | handlers/handlers.py:846-855 | deleting the collected expired keys leaves the live entries |
| ScheduleInjection.SweepKeepsHits | handlers/handlers.py:887-897 | a sweep never removes an entry a lookup would still return |
| ScheduleInjection.ScheduleInjectHandler.constructor | handlers/handlers.py:131-202 | the handler starts with its configuration, empty caches and history, the default templates, and no day checked |
| ScheduleInjection.ScheduleInjectHandler.CleanupExpiredCache | handlers/handlers.py:842-858 | the cache afterwards holds exactly the entries at most the TTL old |
| ScheduleInjection.ScheduleInjectHandler.ExpiredCacheKeys | handlers/handlers.py:846-851 | collects exactly the keys whose entry is older than the TTL |
| ScheduleInjection.ScheduleInjectHandler.GetCurrentSchedule | handlers/handlers.py:860-1024 | the result is what the lookup reads from the cache after the sweep (`SeenCache`): the entry under the stream, day and quarter-hour key when it is younger than the TTL, and otherwise the store's answer on the state before the call; the cache afterwards holds that answer under the key on a miss and is unchanged on a hit; the sweep time moves to now exactly when a sweep runs |
| ScheduleInjection.ScheduleInjectHandler.SweepIfDue | handlers/handlers.py:887-890 | the cache becomes exactly its entries younger than the TTL when more than 600 seconds have passed since the last sweep, and the sweep time is then now; otherwise both are unchanged |
| ScheduleInjection.ScheduleInjectHandler.CachedLookup | handlers/handlers.py:892-1024 | a live entry for the key is returned and the cache left unchanged; otherwise the store's answer is returned and stored under the key with the current time |
| ScheduleInjection.SecondLookupHits | handlers/handlers.py:887-897 | with a positive TTL, a second lookup under the same key at the same moment hits the entry the first one left and returns the same result, whatever the store then holds |
| ScheduleInjection.ScheduleInjectHandler.DailyCheck | handlers/handlers.py:632-685 | the generator runs exactly when auto-generation is on, the day is not yet checked, and the global chat has no active goal with a time window created today (`Generates`); the message is then handled under its `user_id` or "system", and otherwise under its usual id; the day is marked as checked exactly when the check runs |
| ScheduleInjection.ScheduleInjectHandler.CheckAndLookup | handlers/handlers.py:632-688 | the user id is the one the daily check leaves; the schedule is the lookup on the state before the call over the cache, cleared first when the generator ran and created goals, and over the store as the generator left it (`ScheduleAfterCheck`); the new cache is that cache with a miss's answer stored under the key (`CacheAfterCheck`), and the sweep time moves to now exactly when a sweep was due |
| ScheduleInjection.ScheduleInjectHandler.Decide | handlers/handlers.py:709-818 | an injected decision has no skip turn, and an injection is recorded with the optimizer exactly in rule mode when it injects |
| ScheduleInjection.ScheduleInjectHandler.DecideByMode | handlers/handlers.py:709-818 | smart mode skips exactly its commands and technical questions and otherwise injects the smart prompt; rule mode skips exactly when neither the continuation nor the optimizer allows it and injects the template content when the engine is loaded; traditional mode always injects its block |
| ScheduleInjection.ScheduleInjectHandler.RuleModeGate | handlers/handlers.py:755-803 | without a continuation rule mode never injects for a technical question or a command; with one it injects whenever the engine is loaded |
| ScheduleInjection.ScheduleInjectHandler.Respond | handlers/handlers.py:697-828 | without a current activity a bare turn is recorded and nothing decided; otherwise the decision is taken, the optimizer records a rule-mode injection, and one turn is recorded; the context cache's sweep time moves to now exactly when more than 300 seconds have passed |
| ScheduleInjection.ScheduleInjectHandler.Handle | handlers/handlers.py:620-828 | the user id, schedule and continuation flag are `Prepared` on the state before the call; there is a decision exactly when there is a current activity, and it is `Decide` on that state; one turn is recorded and the optimizer's history changes as `RecordDecision` says; the schedule cache is `CacheAfterCheck`, and the schedule cache's and the context cache's sweep times move to now exactly when their sweeps were due |
| ScheduleInjection.ScheduleInjectHandler.Prepare | handlers/handlers.py:620-695 | the user id, schedule and continuation flag are exactly `Prepared` on the state before the call: the daily check's user id, the schedule after the check, and a flag that holds only when the check without an activity under the message's own id and the check with the current activity under the handled id both allow it; the checked day is set as the daily check sets it; the schedule cache is `CacheAfterCheck` and its sweep time moves to now exactly when a sweep was due |
| ScheduleInjection.ScheduleInjectHandler.Execute | handlers/handlers.py:593-840 | a message stopped by the guards changes nothing; otherwise the user id, schedule and continuation flag are `Prepared` on the state before the call, there is a decision exactly when there is a current activity and it is `Decide` on the message's text and its classification, the new prompt is the content, a newline and the old prompt when the content is non-empty, one turn is recorded, the schedule cache is `CacheAfterCheck`, both sweep times move to now exactly when their sweeps were due, and the optimizer records only a rule-mode injection |
| ScheduleInjection.RecordDecision | handlers/handlers.py:796-799 | the optimizer's history gains the user's entry only for a decision that records an injection |

## Left out

- Goal-store persistence is not modelled: `_load_goals`, `_save_goals`, the delayed-save timer, the lock retries and the exit handler are file I/O and threads. Only the `dirty` flag stands for a pending delayed save.
- `cleanup_expired_schedules` is not part of this model. It is called by the planner handler, but its definition is not in the goal_manager.py this model follows.
- The capacity-based LRU eviction of the schedule cache, and its lock, are not modelled: the `LRUCache` class is not part of this model. The schedule cache is a map from key to result and timestamp.
- The asyncio machinery is not modelled: the generation lock, the timeout and task cancellation, and cache preheating.
- The schedule generator (`generate_daily_schedule`, `apply_schedule`) is not part of this model. Its outcome is the parameter `generation` of `Prepare`, `Handle` and `Execute`: the goal store as the generator leaves it when it created goals, and None when it created nothing, failed, timed out or found the day already planned.
- `_get_timezone_now`, `time.time()` and `datetime.now()` are not modelled. Each call takes a single clock reading as parameters, where the source reads the clock several times.
- The optional component loading is not modelled: the `ImportError` fallback to traditional mode, and the context cache being absent.
- Python's `str.lower`, `str.strip` and the regex engine are approximated. `Lower` maps only the letters A to Z. `Strip` removes the ASCII and common Unicode white space. `\w` is read as ASCII letters, digits, `_` and the CJK unified ideographs.
- `str.format` is modelled as segments with named holes. Format specifications, attribute access and escaped braces inside a template are left out.
- IEEE floating point is not modelled: scores are exact reals, and the thresholds are stated on them.
- The f-string reasons of the optimizer are a `DenyReason` datatype, so their float formatting is left out.
- Timestamps are `JTime` values rather than ISO strings, so `fromisoformat` errors and time zones are left out.
- The emoji summaries (`Goal.get_summary`, `get_goals_summary`), `get_intent_description`, the optimizer's per-user statistics (`get_user_inject_stats`, `get_active_users_count`), plugin.py and logging are display or glue code and are not modelled.
- `GoalManagement.FromDict`: Python stores whatever value a dict holds (planner/goal_manager.py:43-75, 109-126), but the model's goal has typed fields, so it rejects with a type error a non-string name, description, type, creator or chat, a non-integer progress, count or interval, and a non-object conditions or parameters (for example `"name": 5` or `"progress": null`), all of which the source loads as they are.
- `GoalManagement.FromDict`: states the `goal_id` and `created_at` cases. The full round trip is the lemma `DictRoundTrip`, and the rejection of a bad priority or status is `FromDictRejectsBadPriority` and `FromDictRejectsBadStatus`.
- `ScheduleResolution.ReadWindow`: a window entry that is a float or a bool counts as unreadable, where Python would compare it as a number.
- `ScheduleResolution.UpcomingInStartOrder`: the start order of the future list is proved only when every window has two or more entries. The future scan reads a one-element window's start differently from the sort key.
- `ScheduleResolution.Resolve`: its own contract states only the empty case. The current pick is stated by `CurrentIsLatestCandidate` and the future list by `Upcoming` and `FutureList`.
- `ScheduleResolution.HourMinute`: the five-character form is stated only below 100 hours.
- The schedule cache key `f"{scope}_{date}_{slot}"` is a datatype triple. Neither the date nor the slot holds an underscore, so distinct triples give distinct texts.
- `ScheduleInjection.ShouldInjectSchedule`: `execute` does not call it. It is modelled on its own; its contract states both the classifier branch and the keyword fallback.
- `ScheduleInjection.ShouldInjectSchedule`: uses the corrected classifier of the Findings table, where the source's classifier never matches "API". The two agree on every message whose normalised text holds no "api" (`IntentClassification.ClassifiersAgreeWithoutApi`).
- `ScheduleInjection.ScheduleInjectHandler.Decide`: uses the corrected template builder of the Findings table, which fills `{state_desc}`, where the source's builder returns None for a template that uses it. The two agree on every other template (`ContentTemplates.AsWrittenAgreesWithoutStateDesc`).
- `ScheduleInjection.ScheduleInjectHandler.DecideByMode`: is stated for the corrected classifier and template builder. It matches the source on messages without "api" and templates without `{state_desc}` (`ClassifiersAgreeWithoutApi`, `AsWrittenAgreesWithoutStateDesc`).
- `ScheduleInjection.ScheduleInjectHandler.RuleModeGate`: is stated for the corrected classifier, under the same agreement.
- `ScheduleInjection.ScheduleInjectHandler.Respond`: records one turn per message, the corrected behaviour of the Findings table below. The source's two turns for a skipped message are modelled by `TurnsAsWritten`.
- `ScheduleInjection.ScheduleInjectHandler.Execute`: the message is classified in every mode, where the source classifies it only in rule mode. Classification is pure, so the outcome is the same.
- `ScheduleInjection.ScheduleInjectHandler.Execute`: uses the corrected classifier and template builder of the Findings table. It matches the source on messages without "api" and templates without `{state_desc}` (`ClassifiersAgreeWithoutApi`, `AsWrittenAgreesWithoutStateDesc`).
- `StateAnalysis.EmotionTextFromTable`: the phrase is drawn with `choice`, where the source uses `random.choice`.

## Findings

| source | as written | input that shows it | evidently intended | confidence | as-written member | corrected member |
|---|---|---|---|---|---|---|
| handlers/inject/intent_classifier.py:152-163 | the tech keyword "API" is upper-case, but the message is lower-cased before matching, so it never matches | "api版本" scores 31/75 on the tech table and is classified (CASUAL_CHAT, 0.40) | the keyword matches "api", making "api版本" a tech question | not executed | IntentClassification.ApiVersionAsWritten | IntentClassification.ApiVersionCorrected |
| handlers/inject/content_template.py:135-165,262-266 | the documented custom template uses `{state_desc}`, which the variables never fill, so formatting raises KeyError and the content is None | `add_custom_template(QUERY_CURRENT, "【状态】正在{activity}，{state_desc}")` followed by any build that draws it | `state_desc` is filled from the caller's argument and the template renders | not executed | ContentTemplates.StateDescTemplateAsWritten | ContentTemplates.StateDescTemplateCorrected |
| handlers/handlers.py:728-738,773-782,821-828 | a skipped message is recorded twice, by its skip branch and by the closing `add_turn`, both not injected | an injected turn, then a technical question within a minute: the two records push the injected turn out of the last two | one turn per message, so the injected turn stays among the last two and the topic stays ongoing | not executed | ScheduleInjection.SkipAsWrittenEndsTopic | ScheduleInjection.SkipKeepsTopic |
