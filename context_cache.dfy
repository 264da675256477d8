/**
 * The conversation context cache of handlers/inject/context_cache.py: a
 * bounded window of recent turns per user (a deque with `maxlen`), turns
 * that expire after a TTL, and the rules that decide whether a conversation
 * is still about the schedule.
 */
module ContextCaching {
  import opened Wrappers
  import opened Strings
  import MapSums

  datatype ConversationTurn = ConversationTurn(
    userMessage: string, timestamp: real, intent: Option<string>, injected: bool, activity: Option<string>)

  /** `deque.append` on a deque with `maxlen`: the oldest turns fall out once it is full. */
  function Push(window: seq<ConversationTurn>, turn: ConversationTurn, maxTurns: nat): (r: seq<ConversationTurn>)
    ensures |r| <= maxTurns
    ensures |window| < maxTurns ==> r == window + [turn]
    ensures |window| == maxTurns > 0 ==> r == window[1..] + [turn]
    ensures maxTurns > 0 ==> |r| > 0 && r[|r| - 1] == turn
  {
    var w := window + [turn];
    if |w| > maxTurns then w[|w| - maxTurns..] else w
  }

  predicate Fresh(t: ConversationTurn, now: real, ttl: real) {
    now - t.timestamp < ttl
  }

  /** `[t for t in turns if now - t.timestamp < ttl]`, in the same order. */
  function FreshTurns(turns: seq<ConversationTurn>, now: real, ttl: real): (r: seq<ConversationTurn>)
    ensures |r| <= |turns|
  {
    if turns == [] then []
    else (if Fresh(turns[0], now, ttl) then [turns[0]] else []) + FreshTurns(turns[1..], now, ttl)
  }

  /** The filter keeps exactly the unexpired turns. */
  lemma {:induction false} FreshTurnsMembers(turns: seq<ConversationTurn>, now: real, ttl: real)
    ensures forall t :: t in FreshTurns(turns, now, ttl) <==> t in turns && Fresh(t, now, ttl)
  {
    if turns != [] {
      FreshTurnsMembers(turns[1..], now, ttl);
    }
  }

  /** Filtering keeps the order: the live turns of a window with one more turn at the end. */
  lemma {:induction false} FreshTurnsSnoc(turns: seq<ConversationTurn>, t: ConversationTurn, now: real, ttl: real)
    ensures FreshTurns(turns + [t], now, ttl) == FreshTurns(turns, now, ttl) + (if Fresh(t, now, ttl) then [t] else [])
  {
    if turns == [] {
      assert turns + [t] == [t];
    } else {
      assert (turns + [t])[1..] == turns[1..] + [t];
      FreshTurnsSnoc(turns[1..], t, now, ttl);
    }
  }

  /** The windows after a sweep: only live turns, and no user whose window is left empty. */
  function Swept(contexts: map<string, seq<ConversationTurn>>, now: real, ttl: real): (r: map<string, seq<ConversationTurn>>)
    ensures forall u :: u in r <==> u in contexts && FreshTurns(contexts[u], now, ttl) != []
    ensures forall u :: u in r ==> r[u] == FreshTurns(contexts[u], now, ttl)
  {
    map u | u in contexts && FreshTurns(contexts[u], now, ttl) != [] :: FreshTurns(contexts[u], now, ttl)
  }

  function WindowLength(w: seq<ConversationTurn>): nat {
    |w|
  }

  /** Why a conversation goes on being injected. */
  datatype ContinueReason = TopicOngoing | ActivityChanged(last: string, current: string)

  class ConversationContextCache {
    var maxTurns: nat
    var ttl: real
    var userContexts: map<string, seq<ConversationTurn>>
    var lastCleanup: real

    /** Every user's window respects the deque's `maxlen`. */
    ghost predicate Valid()
      reads this
    {
      forall u :: u in userContexts ==> |userContexts[u]| <= maxTurns
    }

    constructor(maxTurns: nat, ttl: real, now: real)
      ensures Valid() && userContexts == map[]
      ensures this.maxTurns == maxTurns && this.ttl == ttl && lastCleanup == now
    {
      this.maxTurns := maxTurns;
      this.ttl := ttl;
      userContexts := map[];
      lastCleanup := now;
    }

    /** The user's window, [] for a user without one. */
    function Window(userId: string): seq<ConversationTurn>
      reads this
    {
      if userId in userContexts then userContexts[userId] else []
    }

    /**
     * `add_turn` at time `now`: the turn becomes the newest of the user's
     * window (created when missing), and the oldest drops out once the
     * window holds `maxTurns`; when more than 300 seconds have passed since
     * the last sweep, every window is then swept.
     */
    method AddTurn(userId: string, userMessage: string, intent: Option<string>, injected: bool,
                   activity: Option<string>, now: real)
      requires Valid()
      modifies this
      ensures Valid() && maxTurns == old(maxTurns) && ttl == old(ttl)
      ensures var added := old(userContexts)[userId := Push(old(Window(userId)),
                ConversationTurn(userMessage, now, intent, injected, activity), maxTurns)];
        if now - old(lastCleanup) > 300.0 then userContexts == Swept(added, now, ttl) && lastCleanup == now
        else userContexts == added && lastCleanup == old(lastCleanup)
    {
      var turn := ConversationTurn(userMessage, now, intent, injected, activity);
      userContexts := userContexts[userId := Push(Window(userId), turn, maxTurns)];
      if now - lastCleanup > 300.0 {
        CleanupExpired(now);
      }
    }

    /**
     * `get_recent_turns`: the user's unexpired turns, oldest first, and only
     * the last `count` of them when `count` is given and not zero ([] for an
     * unknown user).
     */
    function GetRecentTurns(userId: string, count: Option<int>, now: real): (r: seq<ConversationTurn>)
      reads this
      ensures userId !in userContexts ==> r == []
      ensures var live := FreshTurns(Window(userId), now, ttl);
        |r| <= |live| && r == live[|live| - |r|..]
        && (count.Some? && count.value > 0 ==> |r| == if count.value < |live| then count.value else |live|)
        && (count.None? || count.value == 0 ==> r == live)
    {
      if userId !in userContexts then []
      else
        var turns := FreshTurns(userContexts[userId], now, ttl);
        if count.Some? && count.value != 0 then PyLast(turns, count.value) else turns
    }

    /**
     * `is_schedule_topic_ongoing`: the newest unexpired turn is at most 60
     * seconds old and one of the last two unexpired turns was injected.
     */
    predicate IsScheduleTopicOngoing(userId: string, now: real)
      reads this
    {
      var recent := GetRecentTurns(userId, Some(2), now);
      recent != [] && !(now - recent[|recent| - 1].timestamp > 60.0)
      && exists i :: 0 <= i < |recent| && recent[i].injected
    }

    /** The rule in terms of the user's unexpired turns. */
    lemma OngoingByLastTwo(userId: string, now: real)
      ensures var live := FreshTurns(Window(userId), now, ttl);
        IsScheduleTopicOngoing(userId, now) <==>
          |live| > 0 && now - live[|live| - 1].timestamp <= 60.0
          && (live[|live| - 1].injected || (|live| > 1 && live[|live| - 2].injected))
    {
      var live := FreshTurns(Window(userId), now, ttl);
      var recent := GetRecentTurns(userId, Some(2), now);
      if |live| > 0 {
        assert userId in userContexts;
        assert recent[|recent| - 1] == live[|live| - 1];
        if |live| > 1 {
          assert |recent| == 2 && recent[0] == live[|live| - 2];
        }
      }
    }

    /**
     * `get_last_activity`: the activity of the newest unexpired turn, when
     * it is non-empty.
     */
    function GetLastActivity(userId: string, now: real): (r: Option<string>)
      reads this
      ensures var live := FreshTurns(Window(userId), now, ttl);
        r == if |live| > 0 && Truthy(live[|live| - 1].activity) then live[|live| - 1].activity else None
    {
      var recent := GetRecentTurns(userId, Some(1), now);
      assert var live := FreshTurns(Window(userId), now, ttl);
        |recent| == (if |live| > 0 then 1 else 0) && (|live| > 0 ==> recent[0] == live[|live| - 1]);
      if |recent| > 0 && Truthy(recent[0].activity) then recent[0].activity else None
    }

    /**
     * `should_continue_inject`: yes while the schedule topic is ongoing,
     * then yes when the last and the current activity are both non-empty
     * and differ, otherwise no.
     */
    function ShouldContinueInject(userId: string, current: Option<string>, now: real): (r: (bool, Option<ContinueReason>))
      reads this
      ensures r.0 <==> r.1.Some?
      ensures IsScheduleTopicOngoing(userId, now) ==> r == (true, Some(TopicOngoing))
      ensures !IsScheduleTopicOngoing(userId, now) ==>
                var last := GetLastActivity(userId, now);
                (r.0 <==> Truthy(last) && Truthy(current) && last != current)
                && (r.0 ==> r.1 == Some(ActivityChanged(last.value, current.value)))
      ensures current.None? ==> (r.0 <==> IsScheduleTopicOngoing(userId, now))
    {
      if IsScheduleTopicOngoing(userId, now) then (true, Some(TopicOngoing))
      else
        var last := GetLastActivity(userId, now);
        if Truthy(last) && Truthy(current) && last != current then (true, Some(ActivityChanged(last.value, current.value)))
        else (false, None)
    }

    /**
     * `cleanup_expired` at time `now`: each window keeps its unexpired
     * turns in order, users left without turns are deleted, and the sweep
     * time becomes `now`.
     */
    method CleanupExpired(now: real)
      requires Valid()
      modifies this
      ensures Valid() && maxTurns == old(maxTurns) && ttl == old(ttl)
      ensures userContexts == Swept(old(userContexts), now, ttl)
      ensures lastCleanup == now
    {
      ghost var before := userContexts;
      var expired := FilterWindows(now);
      ghost var filtered := userContexts;
      DeleteUsers(expired);
      lastCleanup := now;
      SweptByDeletion(before, filtered, expired, now, ttl);
      SweptBounded(before, now, ttl, maxTurns);
    }

    /** The second pass of the sweep: `del self.user_contexts[u]` for each of `users`. */
    method DeleteUsers(users: set<string>)
      modifies this
      ensures userContexts == old(userContexts) - users
      ensures maxTurns == old(maxTurns) && ttl == old(ttl) && lastCleanup == old(lastCleanup)
    {
      var gone := users;
      while gone != {}
        invariant gone <= users
        invariant userContexts == old(userContexts) - (users - gone)
        invariant maxTurns == old(maxTurns) && ttl == old(ttl) && lastCleanup == old(lastCleanup)
        decreases |gone|
      {
        var u :| u in gone;
        userContexts := userContexts - {u};
        gone := gone - {u};
      }
    }

    /**
     * The first pass of the sweep: every window is replaced by its unexpired
     * turns, except windows that would be left empty, whose users are
     * returned instead.
     */
    method FilterWindows(now: real) returns (expired: set<string>)
      modifies this
      ensures maxTurns == old(maxTurns) && ttl == old(ttl) && lastCleanup == old(lastCleanup)
      ensures userContexts.Keys == old(userContexts).Keys
      ensures forall u :: u in expired <==> u in old(userContexts) && FreshTurns(old(userContexts)[u], now, ttl) == []
      ensures forall u :: u in userContexts && u in expired ==> userContexts[u] == old(userContexts)[u]
      ensures forall u :: u in userContexts && u !in expired ==> userContexts[u] == FreshTurns(old(userContexts)[u], now, ttl)
    {
      ghost var before := userContexts;
      expired := {};
      var pending := userContexts.Keys;
      while pending != {}
        invariant pending <= before.Keys && userContexts.Keys == before.Keys
        invariant maxTurns == old(maxTurns) && ttl == old(ttl) && lastCleanup == old(lastCleanup)
        invariant forall u :: u in expired <==> u in before && u !in pending && FreshTurns(before[u], now, ttl) == []
        invariant forall u :: u in before && (u in pending || u in expired) ==> userContexts[u] == before[u]
        invariant forall u :: u in before && u !in pending && u !in expired ==> userContexts[u] == FreshTurns(before[u], now, ttl)
        decreases |pending|
      {
        var u :| u in pending;
        var valid := FreshTurns(userContexts[u], now, ttl);
        if |valid| == 0 {
          expired := expired + {u};
        } else {
          userContexts := userContexts[u := valid];
        }
        pending := pending - {u};
      }
    }

    /** `clear_user_context`: the user's window, if any, is deleted, and nothing else. */
    method ClearUserContext(userId: string)
      requires Valid()
      modifies this
      ensures Valid() && maxTurns == old(maxTurns) && ttl == old(ttl) && lastCleanup == old(lastCleanup)
      ensures userContexts == old(userContexts) - {userId}
    {
      userContexts := userContexts - {userId};
    }

    ghost function TotalTurns(): nat
      reads this
    {
      MapSums.Sum(userContexts, WindowLength)
    }

    /** `get_stats`: the number of users, the number of turns over all windows, and the settings. */
    method GetStats() returns (totalUsers: nat, totalTurns: nat, maxTurnsOut: nat, ttlOut: real)
      ensures totalUsers == |userContexts| && totalTurns == TotalTurns()
      ensures maxTurnsOut == maxTurns && ttlOut == ttl
    {
      totalUsers := |userContexts|;
      totalTurns := 0;
      var rest := userContexts;
      while rest != map[]
        invariant totalTurns + MapSums.Sum(rest, WindowLength) == TotalTurns()
        decreases |rest|
      {
        var u :| u in rest;
        MapSums.SumRemove(rest, WindowLength, u);
        totalTurns := totalTurns + |rest[u]|;
        rest := rest - {u};
      }
      maxTurnsOut, ttlOut := maxTurns, ttl;
    }
  }

  lemma SweptByDeletion(before: map<string, seq<ConversationTurn>>, filtered: map<string, seq<ConversationTurn>>,
                        expired: set<string>, now: real, ttl: real)
    requires filtered.Keys == before.Keys
    requires forall u :: u in expired <==> u in before && FreshTurns(before[u], now, ttl) == []
    requires forall u :: u in filtered && u !in expired ==> filtered[u] == FreshTurns(before[u], now, ttl)
    ensures filtered - expired == Swept(before, now, ttl)
  {
  }

  /** A turn just appended, and not yet expired, is the newest unexpired turn of its window. */
  lemma PushedTurnIsNewest(window: seq<ConversationTurn>, turn: ConversationTurn, maxTurns: nat, now: real, ttl: real)
    requires maxTurns > 0 && Fresh(turn, now, ttl)
    ensures var live := FreshTurns(Push(window, turn, maxTurns), now, ttl);
      |live| > 0 && live[|live| - 1] == turn
  {
    var w := window + [turn];
    var k := if |w| > maxTurns then |w| - maxTurns else 0;
    assert Push(window, turn, maxTurns) == window[k..] + [turn];
    FreshTurnsSnoc(window[k..], turn, now, ttl);
  }

  /**
   * Right after a turn is added (at a time the sweep does not run, and with
   * a positive TTL), the last activity is that turn's activity when it is
   * non-empty.
   */
  lemma LastActivityAfterAdd(c: ConversationContextCache, userId: string, window: seq<ConversationTurn>,
                             turn: ConversationTurn, now: real)
    requires c.maxTurns > 0 && userId in c.userContexts && c.userContexts[userId] == Push(window, turn, c.maxTurns)
    requires turn.timestamp == now && c.ttl > 0.0
    ensures c.GetLastActivity(userId, now) == if Truthy(turn.activity) then turn.activity else None
  {
    PushedTurnIsNewest(window, turn, c.maxTurns, now, c.ttl);
  }

  /** Sweeping never makes a window longer. */
  lemma SweptBounded(contexts: map<string, seq<ConversationTurn>>, now: real, ttl: real, maxTurns: nat)
    requires forall u :: u in contexts ==> |contexts[u]| <= maxTurns
    ensures forall u :: u in Swept(contexts, now, ttl) ==> |Swept(contexts, now, ttl)[u]| <= maxTurns
  {
  }

  /**
   * The documented example: a turn that was injected, then a follow-up
   * within a minute, make the topic ongoing.
   */
  lemma FollowUpIsOngoing(c: ConversationContextCache, userId: string, first: ConversationTurn,
                          second: ConversationTurn, now: real)
    requires c.Window(userId) == [first, second] && userId in c.userContexts
    requires first.injected && Fresh(first, now, c.ttl) && Fresh(second, now, c.ttl)
    requires now - second.timestamp <= 60.0
    ensures c.IsScheduleTopicOngoing(userId, now)
  {
    assert [first, second][1..] == [second];
    assert FreshTurns([second], now, c.ttl) == [second];
    assert FreshTurns([first, second], now, c.ttl) == [first, second];
    c.OngoingByLastTwo(userId, now);
  }
}
