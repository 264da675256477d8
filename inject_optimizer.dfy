/**
 * The inject optimizer of handlers/inject/inject_optimizer.py: an ordered
 * chain of deny rules over a per-user history of injections, and the
 * operations that record, sweep and reset that history.
 */
module InjectOptimization {
  import opened Wrappers
  import opened IntentClassification
  import MapSums

  /** What the optimizer remembers about the last injection for one user. */
  datatype History = History(lastTime: real, lastActivity: string, lastContent: string, lastIntent: string, count: nat)

  /** Why an injection is refused; the source returns these as formatted text. */
  datatype DenyReason =
    | ExcludedIntent(intent: UserIntent)
    | NoActivity
    | Repeated(elapsed: real)
    | CasualDraw(probability: real)
    | LowConfidence(confidence: real)

  /** `intent.value if intent else ""`. */
  function IntentText(intent: Option<UserIntent>): string {
    if intent.Some? then intent.value.Value() else ""
  }

  function HistoryCount(h: History): nat {
    h.count
  }

  /** An entry the sweep deletes: more than twice the TTL old. */
  predicate Expired(h: History, now: real, ttl: real) {
    now - h.lastTime > ttl * 2.0
  }

  /** The history without its expired entries. */
  function Unexpired(history: map<string, History>, now: real, ttl: real): (r: map<string, History>)
    ensures forall u :: u in r <==> u in history && !Expired(history[u], now, ttl)
    ensures forall u :: u in r ==> r[u] == history[u]
  {
    map u | u in history && !Expired(history[u], now, ttl) :: history[u]
  }

  lemma UnexpiredByDeletion(history: map<string, History>, now: real, ttl: real, expired: set<string>)
    requires expired == set u | u in history && Expired(history[u], now, ttl)
    ensures history - expired == Unexpired(history, now, ttl)
  {
  }

  class InjectOptimizer {
    var injectHistory: map<string, History>
    var cacheTtl: real
    var casualInjectProbability: real

    constructor(cacheTtl: real, casualInjectProbability: real)
      ensures injectHistory == map[]
      ensures this.cacheTtl == cacheTtl && this.casualInjectProbability == casualInjectProbability
    {
      injectHistory := map[];
      this.cacheTtl := cacheTtl;
      this.casualInjectProbability := casualInjectProbability;
    }

    /**
     * The repeat rule: a recorded injection for the user less than the TTL
     * ago, with the same activity and the same intent; QUERY_FUTURE is exempt.
     */
    predicate IsRepeat(userId: string, intent: UserIntent, current: Option<string>, now: real)
      reads this
    {
      userId in injectHistory && intent != QueryFuture
      && now - injectHistory[userId].lastTime < cacheTtl
      && current == Some(injectHistory[userId].lastActivity)
      && injectHistory[userId].lastIntent == intent.Value()
    }

    /**
     * `should_inject`, with `now` for the clock and `draw` for the random
     * number: the first rule that refuses gives the reason; a call every
     * rule lets through gives (true, None).
     */
    function ShouldInject(userId: string, intent: UserIntent, current: Option<string>, confidence: real,
                          now: real, draw: real): (r: (bool, Option<DenyReason>))
      reads this
      ensures r.0 <==> r.1.None?
      ensures intent == TechQuestion || intent == CommandExecution ==> r == (false, Some(ExcludedIntent(intent)))
      ensures r.0 <==>
                intent != TechQuestion && intent != CommandExecution
                && (Truthy(current) || intent == QueryCurrent || intent == QueryFuture)
                && !IsRepeat(userId, intent, current, now)
                && !(intent == CasualChat && draw > casualInjectProbability)
                && confidence >= 0.4
      ensures r.1 == Some(NoActivity) <==>
                intent != TechQuestion && intent != CommandExecution
                && !Truthy(current) && intent != QueryCurrent && intent != QueryFuture
      ensures r.1.Some? && r.1.value.Repeated? ==> IsRepeat(userId, intent, current, now)
    {
      if intent == TechQuestion || intent == CommandExecution then (false, Some(ExcludedIntent(intent)))
      else if !Truthy(current) && intent != QueryCurrent && intent != QueryFuture then (false, Some(NoActivity))
      else if IsRepeat(userId, intent, current, now) then
        (false, Some(Repeated(now - injectHistory[userId].lastTime)))
      else if intent == CasualChat && draw > casualInjectProbability then
        (false, Some(CasualDraw(casualInjectProbability)))
      else if confidence < 0.4 then (false, Some(LowConfidence(confidence)))
      else (true, None)
    }

    /**
     * `record_injection`: the user's entry is overwritten with this
     * injection and a count one higher (1 for a new user); the other users
     * are unchanged.
     */
    method RecordInjection(userId: string, activity: string, content: string, intent: Option<UserIntent>, now: real)
      modifies this
      ensures injectHistory == old(injectHistory)[userId :=
                History(now, activity, content, IntentText(intent),
                        if userId in old(injectHistory) then old(injectHistory)[userId].count + 1 else 1)]
      ensures cacheTtl == old(cacheTtl) && casualInjectProbability == old(casualInjectProbability)
      ensures TotalCount() == old(TotalCount()) + 1
    {
      var count := if userId in injectHistory then injectHistory[userId].count + 1 else 1;
      var h := History(now, activity, content, IntentText(intent), count);
      if userId in injectHistory {
        MapSums.SumRemove(injectHistory, HistoryCount, userId);
      } else {
        assert injectHistory - {userId} == injectHistory;
      }
      MapSums.SumUpdate(injectHistory, HistoryCount, userId, h);
      injectHistory := injectHistory[userId := h];
    }

    /** The users the sweep deletes: the last injection is more than twice the TTL old. */
    method ExpiredUsers(now: real) returns (expired: set<string>)
      ensures expired == set u | u in injectHistory && Expired(injectHistory[u], now, cacheTtl)
    {
      expired := {};
      var pending := injectHistory.Keys;
      while pending != {}
        invariant pending <= injectHistory.Keys
        invariant forall u :: u in expired <==> u in injectHistory.Keys - pending && Expired(injectHistory[u], now, cacheTtl)
        decreases |pending|
      {
        var u :| u in pending;
        if Expired(injectHistory[u], now, cacheTtl) {
          expired := expired + {u};
        }
        pending := pending - {u};
      }
    }

    /**
     * `cleanup_expired_cache`: exactly the users whose last injection is
     * more than twice the TTL old are deleted.
     */
    method CleanupExpiredCache(now: real)
      modifies this
      ensures injectHistory == Unexpired(old(injectHistory), now, cacheTtl)
      ensures cacheTtl == old(cacheTtl) && casualInjectProbability == old(casualInjectProbability)
    {
      var expired := ExpiredUsers(now);
      ghost var before := injectHistory;
      var gone := expired;
      while gone != {}
        invariant gone <= expired
        invariant injectHistory == before - (expired - gone)
        invariant cacheTtl == old(cacheTtl) && casualInjectProbability == old(casualInjectProbability)
        decreases |gone|
      {
        var u :| u in gone;
        injectHistory := injectHistory - {u};
        gone := gone - {u};
      }
      UnexpiredByDeletion(before, now, cacheTtl, expired);
    }

    /** `reset_user_history`: the user's entry, if any, is deleted, and nothing else. */
    method ResetUserHistory(userId: string)
      modifies this
      ensures injectHistory == old(injectHistory) - {userId}
      ensures cacheTtl == old(cacheTtl) && casualInjectProbability == old(casualInjectProbability)
      ensures userId in old(injectHistory) ==> TotalCount() == old(TotalCount()) - old(injectHistory)[userId].count
      ensures userId !in old(injectHistory) ==> TotalCount() == old(TotalCount())
    {
      if userId in injectHistory {
        MapSums.SumRemove(injectHistory, HistoryCount, userId);
        injectHistory := injectHistory - {userId};
      } else {
        assert injectHistory - {userId} == injectHistory;
      }
    }

    /** The number of injections recorded over all users. */
    ghost function TotalCount(): nat
      reads this
    {
      MapSums.Sum(injectHistory, HistoryCount)
    }

    /** `get_total_inject_count`: the sum of the users' counts. */
    method GetTotalInjectCount() returns (total: nat)
      ensures total == TotalCount()
    {
      total := 0;
      var rest := injectHistory;
      while rest != map[]
        invariant total + MapSums.Sum(rest, HistoryCount) == TotalCount()
        decreases |rest|
      {
        var u :| u in rest;
        MapSums.SumRemove(rest, HistoryCount, u);
        total := total + rest[u].count;
        rest := rest - {u};
      }
    }

    /**
     * `set_casual_inject_probability`: a value outside [0, 1] is refused
     * (the ValueError) and nothing changes; otherwise it is stored.
     */
    method SetCasualInjectProbability(probability: real) returns (ok: bool)
      modifies this
      ensures ok <==> 0.0 <= probability <= 1.0
      ensures casualInjectProbability == if ok then probability else old(casualInjectProbability)
      ensures injectHistory == old(injectHistory) && cacheTtl == old(cacheTtl)
    {
      ok := 0.0 <= probability <= 1.0;
      if ok {
        casualInjectProbability := probability;
      }
    }
  }

  /**
   * Right after an injection is recorded, the same activity and intent for
   * the same user are refused as a repeat until the TTL has passed, unless
   * the intent is QUERY_FUTURE or an earlier rule refuses first.
   */
  lemma RecordThenRepeat(o: InjectOptimizer, userId: string, activity: string, content: string,
                         intent: UserIntent, confidence: real, t: real, now: real, draw: real)
    requires userId in o.injectHistory && o.injectHistory[userId].lastTime == t
    requires o.injectHistory[userId].lastActivity == activity && o.injectHistory[userId].lastIntent == intent.Value()
    requires activity != "" && now - t < o.cacheTtl
    requires intent != TechQuestion && intent != CommandExecution
    ensures intent != QueryFuture ==> o.ShouldInject(userId, intent, Some(activity), confidence, now, draw) == (false, Some(Repeated(now - t)))
  {
  }

  /** A question about the future is never refused as a repeat. */
  lemma FutureNeverRepeats(o: InjectOptimizer, userId: string, current: Option<string>, confidence: real,
                           now: real, draw: real)
    ensures var r := o.ShouldInject(userId, QueryFuture, current, confidence, now, draw);
      !(r.1.Some? && r.1.value.Repeated?)
      && (r.0 <==> confidence >= 0.4)
  {
  }
}
