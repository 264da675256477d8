/**
 * The store query behind `_get_current_schedule` in handlers/handlers.py:
 * which goals take part in the day's schedule, their stable sort by start,
 * the pick of the current goal (created today, its window containing the
 * current minute, the latest created winning), and the list of the goals
 * still to come as "HH:MM" and name.
 */
module ScheduleResolution {
  import opened Wrappers
  import opened Strings
  import opened GoalManagement
  import opened TimeUtils

  /** The day a timestamp falls on, counted in days from the epoch. */
  function DayOf(t: Timestamp): int {
    t / SecondsPerDay
  }

  // ---------------------------------------------------------------------
  // Which goals are scheduled
  // ---------------------------------------------------------------------

  /**
   * The stored window of a goal: the parameters' "time_window" when the
   * parameters hold that key, even when its value is empty; otherwise the
   * conditions' "time_window", if any.
   */
  function WindowJson(g: Goal): Option<Json> {
    if "time_window" in g.parameters then Some(g.parameters["time_window"])
    else if "time_window" in g.conditions then Some(g.conditions["time_window"])
    else None
  }

  /** A goal takes part in the schedule when its stored window is truthy. */
  predicate HasWindow(g: Goal) {
    WindowJson(g).Some? && WindowJson(g).value.Truthy()
  }

  /**
   * The integers the lookup reads from a window: its first two entries, or
   * the only entry of a one-element list. None for a window whose read
   * entries are not integers: there the source's comparisons raise.
   */
  function ReadWindow(j: Json): (r: Option<seq<int>>)
    ensures r.Some? ==> 1 <= |r.value| <= 2
    ensures r.Some? ==> j.JList? && |r.value| == (if |j.items| >= 2 then 2 else 1)
  {
    match j
    case JList(xs) =>
      if |xs| >= 2 then
        (if xs[0].JInt? && xs[1].JInt? then Some([xs[0].i, xs[1].i]) else None)
      else if |xs| == 1 && xs[0].JInt? then Some([xs[0].i])
      else None
    case _ => None
  }

  /** A scheduled goal whose window the lookup cannot read. */
  predicate Unreadable(g: Goal) {
    HasWindow(g) && ReadWindow(WindowJson(g).value).None?
  }

  /** An entry of `scheduled_goals`: the goal, its window, and whether it was created today. */
  datatype Scheduled = Scheduled(goal: Goal, window: seq<int>, isToday: bool)

  function ScheduledOf(g: Goal, today: int): Scheduled
    requires HasWindow(g) && !Unreadable(g)
  {
    Scheduled(g, ReadWindow(WindowJson(g).value).value, DayOf(g.createdAt) == today)
  }

  /**
   * The entries of `scheduled_goals`, in the order of the goals; None when
   * some window cannot be read, where the source's lookup raises and falls
   * back to the empty schedule.
   */
  function ScheduledGoals(goals: seq<Goal>, today: int): (r: Option<seq<Scheduled>>)
    ensures r.None? <==> exists i :: 0 <= i < |goals| && Unreadable(goals[i])
    ensures r.Some? ==> forall i :: 0 <= i < |goals| && HasWindow(goals[i]) && !Unreadable(goals[i]) ==>
                          ScheduledOf(goals[i], today) in r.value
    ensures r.Some? ==> forall s :: s in r.value ==>
                          s.goal in goals && HasWindow(s.goal) && !Unreadable(s.goal) && s == ScheduledOf(s.goal, today)
  {
    if goals == [] then Some([])
    else
      var init, g := goals[..|goals| - 1], goals[|goals| - 1];
      assert goals == init + [g];
      var rest := ScheduledGoals(init, today);
      if rest.None? || Unreadable(g) then None
      else if HasWindow(g) then Some(rest.value + [ScheduledOf(g, today)])
      else rest
  }

  /** The collecting loop of the lookup. */
  method CollectScheduled(goals: seq<Goal>, today: int) returns (r: Option<seq<Scheduled>>)
    ensures r == ScheduledGoals(goals, today)
  {
    var entries: seq<Scheduled> := [];
    var failed := false;
    var i := 0;
    while i < |goals|
      invariant 0 <= i <= |goals|
      invariant (if failed then None else Some(entries)) == ScheduledGoals(goals[..i], today)
    {
      var g := goals[i];
      assert goals[..i + 1] == goals[..i] + [g];
      assert goals[..i + 1][..i] == goals[..i];
      var window := WindowJson(g);
      if window.Some? && window.value.Truthy() {
        var ints := ReadWindow(window.value);
        if ints.None? {
          failed := true;
        } else {
          entries := entries + [Scheduled(g, ints.value, DayOf(g.createdAt) == today)];
        }
      }
      i := i + 1;
    }
    assert goals[..|goals|] == goals;
    r := if failed then None else Some(entries);
  }

  // ---------------------------------------------------------------------
  // The stable sort by start
  // ---------------------------------------------------------------------

  /**
   * `get_start_minutes`: 0 for a window of fewer than two entries; the start
   * itself when the end exceeds 24, otherwise the start hour times 60.
   */
  function StartKey(w: seq<int>): int {
    if |w| < 2 then 0 else if w[1] > 24 then w[0] else w[0] * 60
  }

  predicate SortedByStart(xs: seq<Scheduled>) {
    forall i, j :: 0 <= i < j < |xs| ==> StartKey(xs[i].window) <= StartKey(xs[j].window)
  }

  /** Places `x` before the first entry whose key is not smaller. */
  function Insert(x: Scheduled, xs: seq<Scheduled>): (r: seq<Scheduled>)
    ensures multiset(r) == multiset(xs) + multiset{x}
  {
    if xs == [] || StartKey(x.window) <= StartKey(xs[0].window) then [x] + xs
    else
      assert xs == [xs[0]] + xs[1..];
      [xs[0]] + Insert(x, xs[1..])
  }

  /** Every entry of `xs` has a key of at least `k`. */
  predicate AtLeast(k: int, xs: seq<Scheduled>) {
    forall i :: 0 <= i < |xs| ==> k <= StartKey(xs[i].window)
  }

  lemma {:induction false} InsertAtLeast(x: Scheduled, xs: seq<Scheduled>, k: int)
    requires AtLeast(k, xs) && k <= StartKey(x.window)
    ensures AtLeast(k, Insert(x, xs))
  {
    if !(xs == [] || StartKey(x.window) <= StartKey(xs[0].window)) {
      InsertAtLeast(x, xs[1..], k);
    }
  }

  lemma SortedCons(y: Scheduled, ys: seq<Scheduled>)
    requires AtLeast(StartKey(y.window), ys) && SortedByStart(ys)
    ensures SortedByStart([y] + ys)
  {
    var r := [y] + ys;
    forall i, j | 0 <= i < j < |r|
      ensures StartKey(r[i].window) <= StartKey(r[j].window)
    {
      assert r[j] == ys[j - 1];
      if i > 0 {
        assert r[i] == ys[i - 1];
      }
    }
  }

  lemma {:induction false} InsertSorted(x: Scheduled, xs: seq<Scheduled>)
    requires SortedByStart(xs)
    ensures SortedByStart(Insert(x, xs))
  {
    if xs == [] || StartKey(x.window) <= StartKey(xs[0].window) {
      assert AtLeast(StartKey(x.window), xs) by {
        forall i | 0 <= i < |xs|
          ensures StartKey(x.window) <= StartKey(xs[i].window)
        {
          if i > 0 {
            assert StartKey(xs[0].window) <= StartKey(xs[i].window);
          }
        }
      }
      SortedCons(x, xs);
    } else {
      var tail := xs[1..];
      assert SortedByStart(tail) by {
        forall i, j | 0 <= i < j < |tail|
          ensures StartKey(tail[i].window) <= StartKey(tail[j].window)
        {
          assert tail[i] == xs[i + 1] && tail[j] == xs[j + 1];
        }
      }
      assert AtLeast(StartKey(xs[0].window), tail) by {
        forall i | 0 <= i < |tail|
          ensures StartKey(xs[0].window) <= StartKey(tail[i].window)
        {
          assert tail[i] == xs[i + 1];
        }
      }
      InsertSorted(x, tail);
      InsertAtLeast(x, tail, StartKey(xs[0].window));
      SortedCons(xs[0], Insert(x, tail));
    }
  }

  /**
   * `scheduled_goals.sort(key=get_start_minutes)`: a permutation of the
   * entries in ascending key order. Each entry goes before the later
   * entries of the same key, as in Python's stable sort.
   */
  function SortByStart(xs: seq<Scheduled>): (r: seq<Scheduled>)
    ensures multiset(r) == multiset(xs)
    ensures SortedByStart(r)
  {
    if xs == [] then []
    else
      var rest := SortByStart(xs[1..]);
      InsertSorted(xs[0], rest);
      assert multiset(xs) == multiset(xs[1..]) + multiset{xs[0]} by {
        assert xs == [xs[0]] + xs[1..];
      }
      Insert(xs[0], rest)
  }

  /** The entries of one key, in their order. */
  function WithKey(xs: seq<Scheduled>, k: int): seq<Scheduled> {
    if xs == [] then []
    else (if StartKey(xs[0].window) == k then [xs[0]] else []) + WithKey(xs[1..], k)
  }

  lemma {:induction false} InsertWithKey(x: Scheduled, xs: seq<Scheduled>, k: int)
    ensures WithKey(Insert(x, xs), k) == (if StartKey(x.window) == k then [x] else []) + WithKey(xs, k)
  {
    if xs == [] || StartKey(x.window) <= StartKey(xs[0].window) {
      assert ([x] + xs)[1..] == xs;
    } else {
      var rest := Insert(x, xs[1..]);
      assert ([xs[0]] + rest)[1..] == rest;
      InsertWithKey(x, xs[1..], k);
    }
  }

  /** The sort is stable: the entries of any one key keep their relative order. */
  lemma {:induction false} SortIsStable(xs: seq<Scheduled>, k: int)
    ensures WithKey(SortByStart(xs), k) == WithKey(xs, k)
  {
    if xs != [] {
      SortIsStable(xs[1..], k);
      InsertWithKey(xs[0], SortByStart(xs[1..]), k);
    }
  }

  // ---------------------------------------------------------------------
  // The current goal
  // ---------------------------------------------------------------------

  /**
   * The window test: an end beyond 1440 wraps past midnight, so the window
   * holds the minutes from the start to midnight and from midnight to the
   * end less 1440; otherwise it is the half-open interval.
   */
  predicate InWindow(start: int, end: int, now: int) {
    if end > 1440 then (start <= now < 1440) || (0 <= now < end - 1440)
    else start <= now < end
  }

  /** The documented overnight window 23:00-01:00 holds 00:30 and 23:30 but not 11:40. */
  lemma OvernightWindowExample()
    ensures InWindow(1380, 1500, 30) && InWindow(1380, 1500, 1410) && !InWindow(1380, 1500, 700)
  {
  }

  /**
   * For a minute of the day and a start no later than midnight, the test is
   * membership of the minute, today or tomorrow, in [start, end) laid out
   * over two days.
   */
  lemma InWindowOverTwoDays(start: int, end: int, now: int)
    requires 0 <= now < 1440 && start <= 1440
    ensures InWindow(start, end, now) <==> (start <= now < end || start <= now + 1440 < end)
  {
  }

  /** An entry the current pick may choose: created today, its window readable and containing `now`. */
  predicate Candidate(s: Scheduled, now: int) {
    var w := ParseTimeWindow(Some(s.window));
    s.isToday && w.Some? && InWindow(w.value.0, w.value.1, now)
  }

  function Created(s: Scheduled): Timestamp {
    s.goal.createdAt
  }

  /**
   * The pick among the first `n` entries: None when none is a candidate;
   * otherwise a candidate created no earlier than any other candidate and
   * strictly later than every candidate before it.
   */
  predicate IsPick(xs: seq<Scheduled>, now: int, n: nat, p: Option<nat>)
    requires n <= |xs|
  {
    (p.None? ==> forall i :: 0 <= i < n ==> !Candidate(xs[i], now))
    && (p.Some? ==>
          p.value < n && Candidate(xs[p.value], now)
          && (forall i :: 0 <= i < n && Candidate(xs[i], now) ==> Created(xs[i]) <= Created(xs[p.value]))
          && (forall i :: 0 <= i < p.value && Candidate(xs[i], now) ==> Created(xs[i]) < Created(xs[p.value])))
  }

  /** At most one index is the pick. */
  lemma PickUnique(xs: seq<Scheduled>, now: int, n: nat, p: Option<nat>, q: Option<nat>)
    requires n <= |xs| && IsPick(xs, now, n, p) && IsPick(xs, now, n, q)
    ensures p == q
  {
    if p.Some? && q.Some? {
      assert Created(xs[p.value]) <= Created(xs[q.value]);
      assert Created(xs[q.value]) <= Created(xs[p.value]);
    }
  }

  /** The index of the current goal in the sorted entries. */
  function CurrentPick(xs: seq<Scheduled>, now: int): (r: Option<nat>)
    ensures IsPick(xs, now, |xs|, r)
  {
    if xs == [] then None
    else
      var rest := CurrentPick(xs[1..], now);
      assert forall i :: 1 <= i < |xs| ==> xs[i] == xs[1..][i - 1];
      if Candidate(xs[0], now) && (rest.None? || Created(xs[0]) >= Created(xs[1 + rest.value])) then Some(0)
      else if rest.None? then None
      else Some(rest.value + 1)
  }

  /**
   * The loop over the sorted entries that keeps the candidate created last,
   * replacing the pick only on a strictly later creation time.
   */
  method SelectCurrent(xs: seq<Scheduled>, now: int) returns (pick: Option<nat>)
    ensures pick == CurrentPick(xs, now)
  {
    pick := None;
    var pickedAt: Timestamp := 0;
    var i := 0;
    while i < |xs|
      invariant 0 <= i <= |xs|
      invariant IsPick(xs, now, i, pick)
      invariant pick.Some? ==> pickedAt == Created(xs[pick.value])
    {
      var s := xs[i];
      var window := ParseTimeWindow(Some(s.window));
      if window.Some? && InWindow(window.value.0, window.value.1, now) && s.isToday {
        if pick.None? || s.goal.createdAt > pickedAt {
          pick := Some(i);
          pickedAt := s.goal.createdAt;
        }
      }
      i := i + 1;
    }
    PickUnique(xs, now, |xs|, pick, CurrentPick(xs, now));
  }

  // ---------------------------------------------------------------------
  // The goals still to come
  // ---------------------------------------------------------------------

  /**
   * The start the future scan reads: the start as minutes, or the start
   * hour times 60 when the end (the start plus 60 for a one-element window)
   * is at most 24.
   */
  function FutureStart(w: seq<int>): int {
    var start := if |w| > 0 then w[0] else 0;
    var end := if |w| > 1 then w[1] else start + 60;
    if end <= 24 then start * 60 else start
  }

  /** For a window of two or more entries the future scan and the sort read the same start. */
  lemma FutureStartIsKey(w: seq<int>)
    requires |w| >= 2
    ensures FutureStart(w) == StartKey(w)
  {
  }

  /** The entries that start after `now`, in their order, whether created today or not. */
  function Upcoming(xs: seq<Scheduled>, now: int): (r: seq<Scheduled>)
    ensures |r| <= |xs|
    ensures forall s :: s in r <==> s in xs && FutureStart(s.window) > now
  {
    if xs == [] then []
    else
      var init, last := xs[..|xs| - 1], xs[|xs| - 1];
      assert xs == init + [last];
      Upcoming(init, now) + (if FutureStart(last.window) > now then [last] else [])
  }

  /** The starts the future scan reads ascend along `us`. */
  predicate StartsAscending(us: seq<Scheduled>) {
    forall i, j :: 0 <= i < j < |us| ==> FutureStart(us[i].window) <= FutureStart(us[j].window)
  }

  lemma AppendAscending(front: seq<Scheduled>, x: Scheduled)
    requires StartsAscending(front)
    requires forall s :: s in front ==> FutureStart(s.window) <= FutureStart(x.window)
    ensures StartsAscending(front + [x])
  {
    var r := front + [x];
    forall i, j | 0 <= i < j < |r|
      ensures FutureStart(r[i].window) <= FutureStart(r[j].window)
    {
      if j == |front| {
        assert r[i] == front[i] && front[i] in front;
      } else {
        assert r[i] == front[i] && r[j] == front[j];
      }
    }
  }

  lemma SortedPrefix(xs: seq<Scheduled>)
    requires SortedByStart(xs) && xs != []
    ensures SortedByStart(xs[..|xs| - 1])
  {
    var init := xs[..|xs| - 1];
    forall i, j | 0 <= i < j < |init|
      ensures StartKey(init[i].window) <= StartKey(init[j].window)
    {
      assert init[i] == xs[i] && init[j] == xs[j];
    }
  }

  /**
   * On entries sorted by start whose windows all have two entries, the
   * goals to come are listed in ascending start order.
   */
  lemma {:induction false} UpcomingInStartOrder(xs: seq<Scheduled>, now: int)
    requires SortedByStart(xs)
    requires forall i :: 0 <= i < |xs| ==> |xs[i].window| >= 2
    ensures StartsAscending(Upcoming(xs, now))
  {
    if xs != [] {
      var init, last := xs[..|xs| - 1], xs[|xs| - 1];
      SortedPrefix(xs);
      assert forall i :: 0 <= i < |init| ==> init[i] == xs[i];
      UpcomingInStartOrder(init, now);
      var front := Upcoming(init, now);
      if FutureStart(last.window) > now {
        forall s | s in front
          ensures FutureStart(s.window) <= FutureStart(last.window)
        {
          var k :| 0 <= k < |init| && init[k] == s;
          assert StartKey(xs[k].window) <= StartKey(xs[|xs| - 1].window);
          FutureStartIsKey(s.window);
          FutureStartIsKey(last.window);
        }
        AppendAscending(front, last);
      }
    }
  }

  /** `f"{hour:02d}:{minute:02d}"` of a number of minutes. */
  function HourMinute(m: nat): (r: string)
    ensures m < 6000 ==> |r| == 5 && r[2] == ':'
  {
    Pad2(m / 60) + ":" + Pad2(m % 60)
  }

  /** The future-list entry of an entry that starts after `now`. */
  function Entry(s: Scheduled, now: int): (string, string)
    requires FutureStart(s.window) > now >= 0
  {
    (HourMinute(FutureStart(s.window)), s.goal.name)
  }

  /** `all_future_activities`: the "HH:MM" start and the name of every entry to come, in order. */
  function FutureList(xs: seq<Scheduled>, now: int): (r: seq<(string, string)>)
    requires now >= 0
    ensures |r| == |Upcoming(xs, now)|
  {
    var us := Upcoming(xs, now);
    seq(|us|, i requires 0 <= i < |us| => assert us[i] in us; Entry(us[i], now))
  }

  lemma FutureListSnoc(xs: seq<Scheduled>, x: Scheduled, now: int)
    requires now >= 0
    ensures FutureList(xs + [x], now) == FutureList(xs, now) + (if FutureStart(x.window) > now then [Entry(x, now)] else [])
  {
    assert (xs + [x])[..|xs|] == xs;
    assert (xs + [x])[|xs|] == x;
    var us, vs := Upcoming(xs, now), Upcoming(xs + [x], now);
    assert vs == us + (if FutureStart(x.window) > now then [x] else []);
    var a, b := FutureList(xs, now), FutureList(xs + [x], now);
    forall i | 0 <= i < |us|
      ensures b[i] == a[i]
    {
      assert vs[i] == us[i];
    }
  }

  /** The scan over the sorted entries that appends every entry to come. */
  method FutureActivities(xs: seq<Scheduled>, now: int) returns (r: seq<(string, string)>)
    requires now >= 0
    ensures r == FutureList(xs, now)
  {
    r := [];
    var i := 0;
    while i < |xs|
      invariant 0 <= i <= |xs|
      invariant r == FutureList(xs[..i], now)
    {
      var s := xs[i];
      var start := FutureStart(s.window);
      assert xs[..i + 1] == xs[..i] + [s];
      FutureListSnoc(xs[..i], s, now);
      if start > now {
        r := r + [(HourMinute(start), s.goal.name)];
      }
      i := i + 1;
    }
    assert xs[..|xs|] == xs;
  }

  // ---------------------------------------------------------------------
  // The whole lookup
  // ---------------------------------------------------------------------

  /** The lookup's result: current activity, its description, the goals to come, the current type. */
  datatype ScheduleResult = ScheduleResult(
    current: Option<string>, description: Option<string>, future: seq<(string, string)>, activityType: Option<string>)

  const NoSchedule := ScheduleResult(None, None, [], None)

  /**
   * The result of the lookup for the goals read from the store, on day
   * `today` at minute `now`: the empty schedule when no goal has a window
   * or a window cannot be read; otherwise the picked goal's name,
   * description and type, and the goals to come.
   */
  function Resolve(goals: seq<Goal>, today: int, now: int): (r: ScheduleResult)
    requires now >= 0
    ensures (forall i :: 0 <= i < |goals| ==> !HasWindow(goals[i])) ==> r == NoSchedule
  {
    var scheduled := ScheduledGoals(goals, today);
    if scheduled.None? || scheduled.value == [] then NoSchedule
    else
      var xs := SortByStart(scheduled.value);
      var pick := CurrentPick(xs, now);
      var future := FutureList(xs, now);
      if pick.None? then ScheduleResult(None, None, future, None)
      else
        var g := xs[pick.value].goal;
        ScheduleResult(Some(g.name), Some(g.description), future, Some(g.goalType))
  }

  /** A goal the current pick may choose on day `today` at minute `now`. */
  predicate CandidateGoal(g: Goal, today: int, now: int) {
    HasWindow(g) && !Unreadable(g) && Candidate(ScheduledOf(g, today), now)
  }

  /** Every entry of the sorted list comes from a goal with a window, and every such goal has an entry. */
  lemma SortedEntries(goals: seq<Goal>, today: int, xs: seq<Scheduled>)
    requires ScheduledGoals(goals, today).Some? && xs == SortByStart(ScheduledGoals(goals, today).value)
    ensures forall s :: s in xs ==> s.goal in goals && HasWindow(s.goal) && !Unreadable(s.goal) && s == ScheduledOf(s.goal, today)
    ensures forall g :: g in goals && HasWindow(g) ==> !Unreadable(g) && ScheduledOf(g, today) in xs
  {
    var scheduled := ScheduledGoals(goals, today).value;
    forall s | s in xs
      ensures s in scheduled
    {
      assert s in multiset(scheduled);
    }
    forall g | g in goals && HasWindow(g)
      ensures !Unreadable(g) && ScheduledOf(g, today) in xs
    {
      var i :| 0 <= i < |goals| && goals[i] == g;
      assert ScheduledOf(g, today) in multiset(xs);
    }
  }

  lemma NoPickNoCandidate(goals: seq<Goal>, today: int, now: int, xs: seq<Scheduled>)
    requires ScheduledGoals(goals, today).Some? && xs == SortByStart(ScheduledGoals(goals, today).value)
    requires CurrentPick(xs, now).None?
    ensures forall g :: g in goals ==> !CandidateGoal(g, today, now)
  {
    SortedEntries(goals, today, xs);
    forall g | g in goals && HasWindow(g)
      ensures !Candidate(ScheduledOf(g, today), now)
    {
      var k :| 0 <= k < |xs| && xs[k] == ScheduledOf(g, today);
      assert !Candidate(xs[k], now);
    }
  }

  lemma PickIsLatestCandidate(goals: seq<Goal>, today: int, now: int, xs: seq<Scheduled>, k: nat)
    requires ScheduledGoals(goals, today).Some? && xs == SortByStart(ScheduledGoals(goals, today).value)
    requires CurrentPick(xs, now) == Some(k)
    ensures xs[k].goal in goals && CandidateGoal(xs[k].goal, today, now)
    ensures forall g :: g in goals && CandidateGoal(g, today, now) ==> g.createdAt <= xs[k].goal.createdAt
  {
    SortedEntries(goals, today, xs);
    assert xs[k] in xs;
    forall g | g in goals && CandidateGoal(g, today, now)
      ensures g.createdAt <= xs[k].goal.createdAt
    {
      var m :| 0 <= m < |xs| && xs[m] == ScheduledOf(g, today);
      assert Created(xs[m]) <= Created(xs[k]);
    }
  }

  /**
   * The current activity is the name and description of a goal of the
   * store created today whose window holds `now`, created no earlier than
   * any other such goal; there is none exactly when no goal is such a
   * candidate.
   */
  lemma CurrentIsLatestCandidate(goals: seq<Goal>, today: int, now: int)
    requires now >= 0 && ScheduledGoals(goals, today).Some?
    ensures var r := Resolve(goals, today, now);
      (r.current.None? <==> forall g :: g in goals ==> !CandidateGoal(g, today, now))
      && (r.current.Some? ==>
            exists g :: g in goals && CandidateGoal(g, today, now)
                        && r.current == Some(g.name) && r.description == Some(g.description)
                        && forall h :: h in goals && CandidateGoal(h, today, now) ==> h.createdAt <= g.createdAt)
  {
    var scheduled := ScheduledGoals(goals, today).value;
    var xs := SortByStart(scheduled);
    var p := CurrentPick(xs, now);
    var r := Resolve(goals, today, now);
    if scheduled == [] || p.None? {
      assert r.current.None?;
      NoPickNoCandidate(goals, today, now, xs);
    } else {
      assert r.current == Some(xs[p.value].goal.name) && r.description == Some(xs[p.value].goal.description);
      PickIsLatestCandidate(goals, today, now, xs, p.value);
    }
  }

  /** The lookup as the source runs it: collect, sort, pick in a loop, scan in a loop. */
  method QuerySchedule(goals: seq<Goal>, today: int, now: int) returns (r: ScheduleResult)
    requires now >= 0
    ensures r == Resolve(goals, today, now)
  {
    var scheduled := CollectScheduled(goals, today);
    if scheduled.None? || scheduled.value == [] {
      return NoSchedule;
    }
    var xs := SortByStart(scheduled.value);
    var pick := SelectCurrent(xs, now);
    var future := FutureActivities(xs, now);
    if pick.None? {
      r := ScheduleResult(None, None, future, None);
    } else {
      var g := xs[pick.value].goal;
      r := ScheduleResult(Some(g.name), Some(g.description), future, Some(g.goalType));
    }
  }

  // ---------------------------------------------------------------------
  // The goals the lookup reads, and the daily check
  // ---------------------------------------------------------------------

  /** The store holds an active goal of chat `chatId`. */
  ghost predicate HasActive(gm: GoalManager, chatId: string)
    reads gm
  {
    exists id :: id in gm.goals && gm.goals[id].status == Active && gm.goals[id].chatId == chatId
  }

  /**
   * The goals the lookup reads: the active goals of the "global" chat; when
   * there are none and a chat id is given, that chat's active goals.
   */
  function SourceGoals(gm: GoalManager, chatId: Option<string>): (r: seq<Goal>)
    reads gm
    requires gm.Valid()
    ensures forall g :: g in r <==>
              (exists id :: id in gm.goals && gm.goals[id] == g) && g.status == Active
              && (if HasActive(gm, "global") then g.chatId == "global" else Truthy(chatId) && g.chatId == chatId.value)
  {
    var global := gm.GetActiveGoals(Some("global"));
    ActiveExactlyWhenListed(gm, "global");
    if global == [] && Truthy(chatId) then gm.GetActiveGoals(chatId) else global
  }

  /** A chat has an active goal exactly when `get_active_goals` for it is non-empty. */
  lemma ActiveExactlyWhenListed(gm: GoalManager, chatId: string)
    requires gm.Valid() && chatId != ""
    ensures HasActive(gm, chatId) <==> gm.GetActiveGoals(Some(chatId)) != []
  {
    var listed := gm.GetActiveGoals(Some(chatId));
    if HasActive(gm, chatId) {
      var id :| id in gm.goals && gm.goals[id].status == Active && gm.goals[id].chatId == chatId;
      assert ChatMatches(gm.goals[id], Some(chatId));
      assert gm.goals[id] in listed;
    }
    if listed != [] {
      var g := listed[0];
      assert g in listed;
      assert ChatMatches(g, Some(chatId)) && g.status == Active;
      var id :| id in gm.goals && gm.goals[id] == g;
    }
  }

  /** A goal whose parameters or conditions hold the key "time_window", whatever its value. */
  predicate HasWindowKey(g: Goal) {
    "time_window" in g.parameters || "time_window" in g.conditions
  }

  /** What the daily check looks for: a goal with a window key created on day `today`. */
  predicate ScheduledToday(g: Goal, today: int) {
    HasWindowKey(g) && DayOf(g.createdAt) == today
  }

  /** The scan of the daily check: whether some goal is scheduled today; it stops at the first. */
  method FindScheduledToday(goals: seq<Goal>, today: int) returns (found: bool)
    ensures found <==> exists g :: g in goals && ScheduledToday(g, today)
  {
    var i := 0;
    while i < |goals|
      invariant 0 <= i <= |goals|
      invariant forall k :: 0 <= k < i ==> !ScheduledToday(goals[k], today)
    {
      var g := goals[i];
      var hasWindow := "time_window" in g.parameters || "time_window" in g.conditions;
      if hasWindow && DayOf(g.createdAt) == today {
        assert g in goals && ScheduledToday(g, today);
        return true;
      }
      i := i + 1;
    }
    return false;
  }

  /**
   * `_check_today_schedule_exists`: whether an active goal of the chat
   * carries a window key and was created today.
   */
  method CheckTodayScheduleExists(gm: GoalManager, chatId: string, today: int) returns (found: bool)
    requires gm.Valid()
    ensures found <==> exists g :: g in gm.GetActiveGoals(Some(chatId)) && ScheduledToday(g, today)
  {
    var goals := gm.GetActiveGoals(Some(chatId));
    found := FindScheduledToday(goals, today);
  }

  /**
   * When the lookup over the global goals finds a current activity, the
   * daily check over the global chat finds today's schedule, so no new
   * schedule is generated over it.
   */
  lemma CurrentMeansScheduleExists(gm: GoalManager, today: int, now: int)
    requires gm.Valid() && now >= 0
    ensures Resolve(gm.GetActiveGoals(Some("global")), today, now).current.Some? ==>
              exists g :: g in gm.GetActiveGoals(Some("global")) && ScheduledToday(g, today)
  {
    var goals := gm.GetActiveGoals(Some("global"));
    if Resolve(goals, today, now).current.Some? {
      CurrentIsLatestCandidate(goals, today, now);
      var g :| g in goals && CandidateGoal(g, today, now);
      assert ScheduledToday(g, today);
    }
  }
}
