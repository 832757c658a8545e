/**
 * The v3 test statistics service: one record of counters per test session, updated by the
 * `record_*` calls, reported on by `finalize_test_session` and removed by `cleanup_session`.
 *
 * Floating-point timings (total test time, average hand and action times) and the rates of
 * the report are not part of this model; the clock is a parameter (`now`) so that the start
 * times the service keeps can still be followed. Query results are `Result`s whose error is
 * the error code.
 */
module TestStats {
  import opened Common

  /** `TestStatsSnapshot` without its floating-point timings. */
  datatype Stats = Stats(
    handsAttempted: nat,
    handsCompleted: nat,
    handsFailed: nat,
    totalUserActions: nat,
    successfulActions: nat,
    failedActions: nat,
    initialTotalChips: int,
    finalTotalChips: int,
    chipConservationViolations: seq<string>,
    errors: seq<string>,
    criticalErrors: nat,
    warnings: nat,
    invariantViolations: seq<string>,
    criticalInvariantViolations: nat,
    actionDistribution: map<string, nat>)

  /** A new session's record. */
  const Fresh := Stats(0, 0, 0, 0, 0, 0, 0, 0, [], [], 0, 0, [], 0, map[])

  const SessionExists := "TEST_SESSION_EXISTS"
  const SessionNotFound := "TEST_SESSION_NOT_FOUND"

  /** What `_generate_test_report` reports, without the rates and timings. */
  datatype Report = Report(
    handsCompleted: nat,
    handsAttempted: nat,
    initialChips: int,
    finalChips: int,
    conservationOk: bool,
    conservationViolations: nat,
    totalViolations: nat,
    criticalViolations: nat,
    violations: seq<string>,
    totalErrors: nat,
    criticalErrors: nat,
    warnings: nat,
    actionDistribution: map<string, nat>,
    raw: Stats)

  /**
   * What every session record keeps, given the multiset of action types of the session's
   * successful actions: every action is a success or a failure; the distribution counts the
   * successful actions by type (a dictionary of counts is that multiset); critical errors only
   * come from critical invariant violations, which are among the recorded ones; every failed
   * hand left an error message; no warning is ever recorded.
   */
  ghost predicate SessionOk(s: Stats, successes: multiset<string>) {
    s.totalUserActions == s.successfulActions + s.failedActions
    && s.successfulActions == |successes|
    && s.actionDistribution == CountsOf(successes)
    && s.criticalErrors == s.criticalInvariantViolations <= |s.invariantViolations|
    && s.handsFailed <= |s.errors|
    && s.warnings == 0
  }

  /** The initial chips a configuration sets: `initial_total_chips`, read only from a non-empty configuration. */
  function InitialChips(config: map<string, int>): (r: int)
    ensures config == map[] ==> r == 0
    ensures "initial_total_chips" !in config ==> r == 0
    ensures "initial_total_chips" in config ==> r == config["initial_total_chips"]
  {
    if config != map[] && "initial_total_chips" in config then config["initial_total_chips"] else 0
  }

  /** One successful action of type `t`: `action_distribution[t] = get(t, 0) + 1`. */
  function Counted(d: map<string, nat>, t: string): (r: map<string, nat>)
    ensures r.Keys == d.Keys + {t}
    ensures r[t] == (if t in d then d[t] else 0) + 1
    ensures forall u :: u in d && u != t ==> r[u] == d[u]
  {
    d[t := (if t in d then d[t] else 0) + 1]
  }

  /** The dictionary of counts of a multiset of action types. */
  function CountsOf(m: multiset<string>): (r: map<string, nat>)
    ensures forall t :: t in r <==> t in m
    ensures forall t :: t in r ==> r[t] == m[t]
  {
    map t | t in m :: m[t]
  }

  /** Counting one more successful action of type `t` counts the multiset of successes with `t` added. */
  lemma CountedTracksSuccesses(successes: multiset<string>, t: string)
    ensures Counted(CountsOf(successes), t) == CountsOf(successes + multiset{t})
  {
    var a := Counted(CountsOf(successes), t);
    var b := CountsOf(successes + multiset{t});
    assert a.Keys == b.Keys;
    forall u | u in a ensures a[u] == b[u] {
      if u == t {
        assert t !in CountsOf(successes) ==> successes[t] == 0;
      }
    }
  }

  /** A session's record after `record_user_action`. */
  function AfterUserAction(s: Stats, actionType: string, success: bool, errorMessage: Option<string>): (r: Stats)
    ensures r.totalUserActions == s.totalUserActions + 1
    ensures success ==>
      r.successfulActions == s.successfulActions + 1 && r.failedActions == s.failedActions
      && r.actionDistribution == Counted(s.actionDistribution, actionType) && r.errors == s.errors
    ensures !success ==>
      r.failedActions == s.failedActions + 1 && r.successfulActions == s.successfulActions
      && r.actionDistribution == s.actionDistribution
      && r.errors == s.errors + (if errorMessage.Some? && errorMessage.value != "" then [errorMessage.value] else [])
  {
    if success then
      s.(totalUserActions := s.totalUserActions + 1,
         successfulActions := s.successfulActions + 1,
         actionDistribution := Counted(s.actionDistribution, actionType))
    else
      s.(totalUserActions := s.totalUserActions + 1,
         failedActions := s.failedActions + 1,
         errors := s.errors + (if errorMessage.Some? && errorMessage.value != "" then [errorMessage.value] else []))
  }

  /** `record_user_action` touches only the action counters, the distribution and the errors. */
  lemma UserActionTouchesOnlyActions(s: Stats, actionType: string, success: bool, errorMessage: Option<string>)
    ensures var r := AfterUserAction(s, actionType, success, errorMessage);
      r.(totalUserActions := 0, successfulActions := 0, failedActions := 0, actionDistribution := map[], errors := [])
      == s.(totalUserActions := 0, successfulActions := 0, failedActions := 0, actionDistribution := map[], errors := [])
  {
  }

  /** `record_user_action` keeps every action a success or a failure and the distribution its count by type. */
  lemma UserActionKeepsSession(s: Stats, successes: multiset<string>, actionType: string, success: bool, errorMessage: Option<string>)
    requires SessionOk(s, successes)
    ensures SessionOk(AfterUserAction(s, actionType, success, errorMessage),
                      if success then successes + multiset{actionType} else successes)
  {
    if success {
      CountedTracksSuccesses(successes, actionType);
    }
  }

  /**
   * `_generate_test_report` without the rates and timings: chip conservation holds exactly
   * when the final chips equal the initial ones, and the counts are those of the record.
   */
  function ReportOf(s: Stats): (r: Report)
    ensures r.conservationOk <==> s.initialTotalChips == s.finalTotalChips
    ensures r.conservationViolations == |s.chipConservationViolations|
    ensures r.totalViolations == |s.invariantViolations| && r.violations == s.invariantViolations
    ensures r.totalErrors == |s.errors| && r.raw == s
  {
    Report(
      s.handsCompleted, s.handsAttempted,
      s.initialTotalChips, s.finalTotalChips, s.initialTotalChips == s.finalTotalChips,
      |s.chipConservationViolations|,
      |s.invariantViolations|, s.criticalInvariantViolations, s.invariantViolations,
      |s.errors|, s.criticalErrors, s.warnings,
      s.actionDistribution, s)
  }

  /**
   * What a report of a consistent record promises: no more critical violations than
   * violations, no more successful actions than actions (so the success rate is at most
   * 100%), the distribution adding up to the successful actions, and no warnings.
   */
  lemma ReportBounds(s: Stats, successes: multiset<string>)
    requires SessionOk(s, successes)
    ensures ReportOf(s).criticalViolations <= ReportOf(s).totalViolations
    ensures ReportOf(s).criticalErrors == ReportOf(s).criticalViolations
    ensures s.successfulActions <= s.totalUserActions
    ensures forall t :: t in ReportOf(s).actionDistribution ==> ReportOf(s).actionDistribution[t] <= s.successfulActions
    ensures ReportOf(s).warnings == 0
  {
    forall t | t in s.actionDistribution ensures s.actionDistribution[t] <= s.successfulActions {
      CountAtMostSize(successes, t);
    }
  }

  lemma {:induction false} CountAtMostSize(m: multiset<string>, t: string)
    ensures m[t] <= |m|
    decreases |m|
  {
    if m != multiset{} {
      var x :| x in m;
      CountAtMostSize(m - multiset{x}, t);
    }
  }

  /** Every session's record is consistent with its successes. */
  ghost predicate AllOk(store: map<string, Stats>, successes: map<string, multiset<string>>) {
    (forall id :: id in store ==> id in successes)
    && forall id {:trigger SessionOk(store[id], successes[id])} :: id in store ==> SessionOk(store[id], successes[id])
  }

  /** Replacing one session's record by a consistent one keeps every record consistent. */
  lemma UpdateKeepsAllOk(store: map<string, Stats>, successes: map<string, multiset<string>>, id: string, s: Stats, ms: multiset<string>)
    requires AllOk(store, successes) && SessionOk(s, ms)
    ensures AllOk(store[id := s], successes[id := ms])
  {
    var store', successes' := store[id := s], successes[id := ms];
    forall id' | id' in store' ensures id' in successes' && SessionOk(store'[id'], successes'[id']) {
      if id' != id {
        SessionOf(store, successes, id');
      }
    }
  }

  /** Replacing one session's record by one consistent with the same successes keeps every record consistent. */
  lemma ReplaceKeepsAllOk(store: map<string, Stats>, successes: map<string, multiset<string>>, id: string, s: Stats)
    requires AllOk(store, successes) && id in store
    requires SessionOk(store[id], successes[id]) ==> SessionOk(s, successes[id])
    ensures AllOk(store[id := s], successes)
  {
    SessionOf(store, successes, id);
    UpdateKeepsAllOk(store, successes, id, s, successes[id]);
    assert successes[id := successes[id]] == successes;
  }

  /** `record_user_action` on a live session keeps every record consistent. */
  lemma UserActionKeepsAllOk(store: map<string, Stats>, successes: map<string, multiset<string>>, id: string,
                             actionType: string, success: bool, errorMessage: Option<string>)
    requires AllOk(store, successes) && id in store
    ensures id in successes
    ensures AllOk(store[id := AfterUserAction(store[id], actionType, success, errorMessage)],
                  successes[id := if success then successes[id] + multiset{actionType} else successes[id]])
  {
    SessionOf(store, successes, id);
    UserActionKeepsSession(store[id], successes[id], actionType, success, errorMessage);
    UpdateKeepsAllOk(store, successes, id, AfterUserAction(store[id], actionType, success, errorMessage),
                     if success then successes[id] + multiset{actionType} else successes[id]);
  }

  /** Removing a session keeps every remaining record consistent. */
  lemma RemoveKeepsAllOk(store: map<string, Stats>, successes: map<string, multiset<string>>, id: string)
    requires AllOk(store, successes)
    ensures AllOk(store - {id}, successes - {id})
  {
    var store', successes' := store - {id}, successes - {id};
    forall id' | id' in store' ensures SessionOk(store'[id'], successes'[id']) {
      SessionOf(store, successes, id');
    }
  }

  lemma SessionOf(store: map<string, Stats>, successes: map<string, multiset<string>>, id: string)
    requires AllOk(store, successes) && id in store
    ensures id in successes && SessionOk(store[id], successes[id])
  {
  }

  class TestStatsService {
    /** `_stats_store`. */
    var store: map<string, Stats>
    /** `_start_times`: when each session was created, by the clock given. */
    var startTimes: map<string, int>
    /** `_hand_start_times`: when each session's current hand started. */
    var handStartTimes: map<string, int>
    /** The action types of each session's successful actions. */
    ghost var successes: map<string, multiset<string>>

    /**
     * Every session has a start time and its own consistent record; a hand can only be
     * running in a live session.
     */
    ghost predicate Valid()
      reads this
    {
      startTimes.Keys == store.Keys && handStartTimes.Keys <= store.Keys
      && AllOk(store, successes)
    }

    constructor ()
      ensures Valid()
      ensures store == map[] && startTimes == map[] && handStartTimes == map[]
    {
      store := map[];
      startTimes := map[];
      handStartTimes := map[];
      successes := map[];
    }

    /**
     * `create_test_session`: fails for a session that already exists, changing nothing;
     * otherwise starts a fresh record with the configured initial chips.
     */
    method CreateTestSession(id: string, config: map<string, int>, now: int) returns (r: Result<string, string>)
      requires Valid()
      modifies this
      ensures Valid()
      ensures r.Err? <==> id in old(store)
      ensures r.Err? ==> r.error == SessionExists && unchanged(this)
      ensures r.Ok? ==>
        r.value == id
        && store == old(store)[id := Fresh.(initialTotalChips := InitialChips(config))]
        && startTimes == old(startTimes)[id := now]
        && handStartTimes == old(handStartTimes)
    {
      if id in store {
        return Err(SessionExists);
      }
      UpdateKeepsAllOk(store, successes, id, Fresh.(initialTotalChips := InitialChips(config)), multiset{});
      store := store[id := Fresh.(initialTotalChips := InitialChips(config))];
      startTimes := startTimes[id := now];
      successes := successes[id := multiset{}];
      return Ok(id);
    }

    /** `get_test_stats`: the session's record, or TEST_SESSION_NOT_FOUND. */
    function GetTestStats(id: string): (r: Result<Stats, string>)
      reads this
      ensures r.Err? <==> id !in store
      ensures r.Err? ==> r.error == SessionNotFound
      ensures r.Ok? ==> r.value == store[id]
    {
      if id in store then Ok(store[id]) else Err(SessionNotFound)
    }

    /** `record_hand_start`: one more hand attempted, started now. */
    method RecordHandStart(id: string, now: int) returns (r: Result<bool, string>)
      requires Valid()
      modifies this
      ensures Valid()
      ensures r.Err? <==> id !in old(store)
      ensures r.Err? ==> r.error == SessionNotFound && unchanged(this)
      ensures r.Ok? ==>
        r.value
        && store == old(store)[id := old(store)[id].(handsAttempted := old(store)[id].handsAttempted + 1)]
        && handStartTimes == old(handStartTimes)[id := now]
        && startTimes == old(startTimes)
    {
      if id !in store {
        return Err(SessionNotFound);
      }
      var s := store[id];
      ReplaceKeepsAllOk(store, successes, id, s.(handsAttempted := s.handsAttempted + 1));
      store := store[id := s.(handsAttempted := s.handsAttempted + 1)];
      handStartTimes := handStartTimes[id := now];
      return Ok(true);
    }

    /** `record_hand_complete`: one more hand completed; the running hand, if any, ends. */
    method RecordHandComplete(id: string) returns (r: Result<bool, string>)
      requires Valid()
      modifies this
      ensures Valid()
      ensures r.Err? <==> id !in old(store)
      ensures r.Err? ==> r.error == SessionNotFound && unchanged(this)
      ensures r.Ok? ==>
        r.value
        && store == old(store)[id := old(store)[id].(handsCompleted := old(store)[id].handsCompleted + 1)]
        && handStartTimes == old(handStartTimes) - {id}
        && startTimes == old(startTimes)
    {
      if id !in store {
        return Err(SessionNotFound);
      }
      var s := store[id];
      ReplaceKeepsAllOk(store, successes, id, s.(handsCompleted := s.handsCompleted + 1));
      store := store[id := s.(handsCompleted := s.handsCompleted + 1)];
      handStartTimes := handStartTimes - {id};
      return Ok(true);
    }

    /** `record_hand_failed`: one more failed hand, its message among the errors. */
    method RecordHandFailed(id: string, message: string) returns (r: Result<bool, string>)
      requires Valid()
      modifies this
      ensures Valid()
      ensures r.Err? <==> id !in old(store)
      ensures r.Err? ==> r.error == SessionNotFound && unchanged(this)
      ensures r.Ok? ==>
        r.value
        && store == old(store)[id := old(store)[id].(handsFailed := old(store)[id].handsFailed + 1,
                                                      errors := old(store)[id].errors + [message])]
        && handStartTimes == old(handStartTimes) && startTimes == old(startTimes)
    {
      if id !in store {
        return Err(SessionNotFound);
      }
      var s := store[id];
      var s' := s.(handsFailed := s.handsFailed + 1, errors := s.errors + [message]);
      ReplaceKeepsAllOk(store, successes, id, s');
      store := store[id := s'];
      return Ok(true);
    }

    /**
     * `record_user_action`: one more action, counted as a success (and in the distribution
     * under its type) or as a failure (with its message, if one was given, among the errors).
     */
    method RecordUserAction(id: string, actionType: string, success: bool, errorMessage: Option<string>)
      returns (r: Result<bool, string>)
      requires Valid()
      modifies this
      ensures Valid()
      ensures r.Err? <==> id !in old(store)
      ensures r.Err? ==> r.error == SessionNotFound && unchanged(this)
      ensures r.Ok? ==>
        r.value
        && store == old(store)[id := AfterUserAction(old(store)[id], actionType, success, errorMessage)]
        && handStartTimes == old(handStartTimes) && startTimes == old(startTimes)
    {
      if id !in store {
        return Err(SessionNotFound);
      }
      UserActionKeepsAllOk(store, successes, id, actionType, success, errorMessage);
      store := store[id := AfterUserAction(store[id], actionType, success, errorMessage)];
      successes := successes[id := if success then successes[id] + multiset{actionType} else successes[id]];
      return Ok(true);
    }

    /**
     * `record_invariant_violation`: the message joins the violations; a critical one counts
     * both as a critical violation and as a critical error.
     */
    method RecordInvariantViolation(id: string, message: string, isCritical: bool) returns (r: Result<bool, string>)
      requires Valid()
      modifies this
      ensures Valid()
      ensures r.Err? <==> id !in old(store)
      ensures r.Err? ==> r.error == SessionNotFound && unchanged(this)
      ensures r.Ok? ==>
        r.value
        && var s := old(store)[id];
        store == old(store)[id := s.(
          invariantViolations := s.invariantViolations + [message],
          criticalInvariantViolations := s.criticalInvariantViolations + (if isCritical then 1 else 0),
          criticalErrors := s.criticalErrors + (if isCritical then 1 else 0))]
        && handStartTimes == old(handStartTimes) && startTimes == old(startTimes)
    {
      if id !in store {
        return Err(SessionNotFound);
      }
      var s := store[id];
      var bump := if isCritical then 1 else 0;
      var s' := s.(
        invariantViolations := s.invariantViolations + [message],
        criticalInvariantViolations := s.criticalInvariantViolations + bump,
        criticalErrors := s.criticalErrors + bump);
      ReplaceKeepsAllOk(store, successes, id, s');
      store := store[id := s'];
      return Ok(true);
    }

    /** `record_chip_conservation_violation`: the message joins the conservation violations. */
    method RecordChipConservationViolation(id: string, message: string) returns (r: Result<bool, string>)
      requires Valid()
      modifies this
      ensures Valid()
      ensures r.Err? <==> id !in old(store)
      ensures r.Err? ==> r.error == SessionNotFound && unchanged(this)
      ensures r.Ok? ==>
        r.value
        && store == old(store)[id := old(store)[id].(
          chipConservationViolations := old(store)[id].chipConservationViolations + [message])]
        && handStartTimes == old(handStartTimes) && startTimes == old(startTimes)
    {
      if id !in store {
        return Err(SessionNotFound);
      }
      var s := store[id];
      var s' := s.(chipConservationViolations := s.chipConservationViolations + [message]);
      ReplaceKeepsAllOk(store, successes, id, s');
      store := store[id := s'];
      return Ok(true);
    }

    /**
     * `finalize_test_session`: records the final chips when they are given and reports on the
     * session; chip conservation then holds exactly when they equal the initial chips.
     */
    method FinalizeTestSession(id: string, finalChips: Option<int>) returns (r: Result<Report, string>)
      requires Valid()
      modifies this
      ensures Valid()
      ensures r.Err? <==> id !in old(store)
      ensures r.Err? ==> r.error == SessionNotFound && unchanged(this)
      ensures r.Ok? ==>
        var s := old(store)[id];
        var s' := if finalChips.Some? then s.(finalTotalChips := finalChips.value) else s;
        store == old(store)[id := s'] && r.value == ReportOf(s')
        && (finalChips.Some? ==> (r.value.conservationOk <==> s.initialTotalChips == finalChips.value))
        && handStartTimes == old(handStartTimes) && startTimes == old(startTimes)
    {
      if id !in store {
        return Err(SessionNotFound);
      }
      var s := store[id];
      if finalChips.Some? {
        s := s.(finalTotalChips := finalChips.value);
      }
      ReplaceKeepsAllOk(store, successes, id, s);
      store := store[id := s];
      return Ok(ReportOf(s));
    }

    /** `cleanup_session`: every trace of the session goes, whether or not it existed. */
    method CleanupSession(id: string) returns (r: Result<bool, string>)
      requires Valid()
      modifies this
      ensures Valid()
      ensures r == Ok(true)
      ensures store == old(store) - {id} && startTimes == old(startTimes) - {id}
      ensures handStartTimes == old(handStartTimes) - {id}
      ensures GetTestStats(id).Err?
    {
      RemoveKeepsAllOk(store, successes, id);
      store := store - {id};
      startTimes := startTimes - {id};
      handStartTimes := handStartTimes - {id};
      successes := successes - {id};
      return Ok(true);
    }
  }
}
