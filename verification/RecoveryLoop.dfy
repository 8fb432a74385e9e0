/** The batch loops of the recovery command (application/recovery.py), one worker at
    work on its tables. */
module RecoveryLoop {
  import opened Options
  import opened ToolCalls
  import opened AgentRuns
  import Sorting
  import Store

  /** The rows that are stale. */
  ghost function StaleIds<T>(rows: map<nat, T>, stale: T -> bool): set<nat> { set c | c in rows && stale(rows[c]) }

  /** Every stale row failed, every other row as it was. */
  ghost predicate Swept<T>(before: map<nat, T>, after: map<nat, T>, stale: T -> bool, fail: T -> T, done: set<nat>) {
    && (forall c :: c in before <==> c in after)
    && forall c :: c in before ==> after[c] == if c in done then fail(before[c]) else before[c]
  }

  ghost predicate Lists(ids: seq<nat>, all: set<nat>) { Sorting.Distinct(ids) && forall c :: c in ids <==> c in all }

  lemma {:induction false} ListCounts(ids: seq<nat>, all: set<nat>)
    requires Lists(ids, all)
    ensures |ids| == |all|
    decreases |ids|
  {
    if ids == [] {
      assert all == {};
    } else {
      var head, tail := ids[0], ids[1..];
      assert ids == [head] + tail && head !in tail;
      ListCounts(tail, all - {head});
    }
  }

  class Table<T(==,!new)> {
    var rows: map<nat, T>
    /** The recovered events, by row. */
    var events: seq<nat>

    constructor (rows: map<nat, T>)
      ensures this.rows == rows && events == []
    {
      this.rows, events := rows, [];
    }

    method AllStale(stale: T -> bool) returns (ids: seq<nat>)
      ensures Lists(ids, StaleIds(rows, stale))
    {
      ids := [];
      var left := rows.Keys;
      while left != {}
        invariant left <= rows.Keys && Sorting.Distinct(ids)
        invariant forall c :: c in ids <==> c in StaleIds(rows, stale) && c !in left
        decreases left
      {
        var c :| c in left;
        left := left - {c};
        if stale(rows[c]) { ids := ids + [c]; }
      }
    }

    /** claim_stale_*: the oldest stale rows first, no more than the limit. */
    method ClaimStale(stale: T -> bool, age: T -> int, limit: nat) returns (batch: seq<nat>)
      ensures Sorting.Distinct(batch) && |batch| <= limit
      ensures forall c :: c in batch ==> c in StaleIds(rows, stale)
      ensures |batch| < limit ==> Lists(batch, StaleIds(rows, stale))
      ensures forall c, d :: c in batch && d in StaleIds(rows, stale) && d !in batch ==> age(rows[c]) <= age(rows[d])
    {
      var ids := AllStale(stale);
      var table := rows;
      var older := (c: nat, d: nat) => Older(table, age, c, d);
      var ordered := Sorting.Sort(older, ids);
      OlderRanks(table, age, older);
      Sorting.SortSorts(older, ids);
      Sorting.SortKeepsElements(older, ids);
      Sorting.RearrangementDistinct(ids, ordered);
      batch := if |ordered| < limit then ordered else ordered[..limit];
      forall c, d | c in batch && d in StaleIds(rows, stale) && d !in batch ensures age(rows[c]) <= age(rows[d]) {
        var i :| 0 <= i < |batch| && batch[i] == c;
        var j :| 0 <= j < |ordered| && ordered[j] == d;
        assert j >= |batch| && older(ordered[i], ordered[j]);
      }
    }

    /** Part of the way: these rows of the starting table were failed and logged. */
    ghost predicate Partway(first: map<nat, T>, start: seq<nat>, stale: T -> bool, fail: T -> T, logged: seq<nat>)
      reads this
    {
      && Lists(logged, set c | c in logged) && (forall c :: c in logged ==> c in StaleIds(first, stale))
      && Swept(first, rows, stale, fail, set c | c in logged)
      && events == start + logged
    }

    /** One batch: claimed, failed and logged. */
    method Round(stale: T -> bool, fail: T -> T, age: T -> int, limit: nat,
                 ghost first: map<nat, T>, ghost start: seq<nat>, ghost logged: seq<nat>) returns (batch: seq<nat>)
      requires Partway(first, start, stale, fail, logged) && forall t :: stale(t) ==> !stale(fail(t))
      modifies this
      ensures Partway(first, start, stale, fail, logged + batch) && |batch| <= limit
      ensures |batch| < limit ==> Lists(logged + batch, StaleIds(first, stale))
    {
      ghost var done := set c | c in logged;
      ghost var before := rows;
      RestIsStale(first, rows, stale, fail, done);
      batch := ClaimStale(stale, age, limit);
      FailBatch(stale, fail, batch);
      BatchJoins(first, before, rows, stale, fail, done, batch, logged);
      assert (set c | c in logged + batch) == done + set c | c in batch;
    }

    /** One of the three loops: rounds until a batch is short. Every row stale at the
        start is failed and logged once, no other row changes, and the count says how
        many. */
    method Recover(stale: T -> bool, fail: T -> T, age: T -> int, limit: nat) returns (recovered: nat)
      requires limit >= 1 && forall t :: stale(t) ==> !stale(fail(t))
      modifies this
      ensures Swept(old(rows), rows, stale, fail, StaleIds(old(rows), stale))
      ensures StaleIds(rows, stale) == {}
      ensures recovered == |StaleIds(old(rows), stale)|
      ensures |events| == |old(events)| + recovered && events[..|old(events)|] == old(events)
      ensures Lists(events[|old(events)|..], StaleIds(old(rows), stale))
    {
      recovered := 0;
      ghost var first, start := rows, events;
      ghost var logged: seq<nat> := [];
      while true
        invariant recovered == |logged| && Partway(first, start, stale, fail, logged)
        decreases |StaleIds(first, stale)| - |logged|
      {
        var batch := Round(stale, fail, age, limit, first, start, logged);
        logged := logged + batch;
        recovered := recovered + |batch|;
        ListedAreStale(first, stale, logged);
        if |batch| < limit {
          Completed(first, start, stale, fail, logged);
          return;
        }
      }
    }

    lemma ListedAreStale(first: map<nat, T>, stale: T -> bool, logged: seq<nat>)
      requires Lists(logged, set c | c in logged) && forall c :: c in logged ==> c in StaleIds(first, stale)
      ensures |logged| <= |StaleIds(first, stale)|
    {
      var done := set c | c in logged;
      ListCounts(logged, done);
      assert done <= StaleIds(first, stale);
      assert StaleIds(first, stale) == done + (StaleIds(first, stale) - done);
    }

    lemma Completed(first: map<nat, T>, start: seq<nat>, stale: T -> bool, fail: T -> T, logged: seq<nat>)
      requires Partway(first, start, stale, fail, logged) && Lists(logged, StaleIds(first, stale))
      requires forall t :: stale(t) ==> !stale(fail(t))
      ensures Swept(first, rows, stale, fail, StaleIds(first, stale)) && StaleIds(rows, stale) == {}
      ensures |logged| == |StaleIds(first, stale)|
      ensures events[..|start|] == start && events[|start|..] == logged
    {
      var all := StaleIds(first, stale);
      assert (set c | c in logged) == all;
      RestIsStale(first, rows, stale, fail, all);
      ListCounts(logged, all);
    }

    /** The body of a batch. */
    method FailBatch(stale: T -> bool, fail: T -> T, batch: seq<nat>)
      requires Sorting.Distinct(batch) && forall c :: c in batch ==> c in rows
      modifies this
      ensures Swept(old(rows), rows, stale, fail, set c | c in batch)
      ensures events == old(events) + batch
    {
      for n := 0 to |batch|
        invariant Swept(old(rows), rows, stale, fail, set c | c in batch[..n])
        invariant events == old(events) + batch[..n]
      {
        assert batch[n] in batch && batch[n] !in batch[..n];
        assert batch[..n + 1] == batch[..n] + [batch[n]];
        rows := rows[batch[n] := fail(rows[batch[n]])];
        events := events + [batch[n]];
      }
      assert batch[..|batch|] == batch;
    }
  }

  predicate Older<T>(rows: map<nat, T>, age: T -> int, c: nat, d: nat) {
    if c in rows && d in rows then age(rows[c]) < age(rows[d]) || (age(rows[c]) == age(rows[d]) && c <= d)
    else c in rows || (d !in rows && c <= d)
  }

  lemma OlderRanks<T>(rows: map<nat, T>, age: T -> int, older: (nat, nat) -> bool)
    requires forall c, d :: older(c, d) <==> Older(rows, age, c, d)
    ensures Sorting.Ranking(older)
  {
  }

  /** What is stale after some rows were failed is what was stale without them. */
  lemma RestIsStale<T(!new)>(before: map<nat, T>, after: map<nat, T>, stale: T -> bool, fail: T -> T, done: set<nat>)
    requires Swept(before, after, stale, fail, done) && done <= StaleIds(before, stale)
    requires forall t :: stale(t) ==> !stale(fail(t))
    ensures StaleIds(after, stale) == StaleIds(before, stale) - done
  {
    forall c ensures c in StaleIds(after, stale) <==> c in StaleIds(before, stale) - done {
      if c in done { assert stale(before[c]); }
    }
  }

  lemma BatchJoins<T>(
    first: map<nat, T>, before: map<nat, T>, after: map<nat, T>, stale: T -> bool, fail: T -> T, done: set<nat>,
    batch: seq<nat>, logged: seq<nat>)
    requires Swept(first, before, stale, fail, done) && Swept(before, after, stale, fail, set c | c in batch)
    requires Sorting.Distinct(batch) && Lists(logged, done) && forall c :: c in batch ==> c !in done
    ensures Swept(first, after, stale, fail, done + set c | c in batch)
    ensures Lists(logged + batch, done + set c | c in batch)
  {
    forall i, j | 0 <= i < j < |logged + batch| ensures (logged + batch)[i] != (logged + batch)[j] {
      if i < |logged| <= j { assert logged[i] in logged && batch[j - |logged|] in batch; }
    }
  }

  // --------------------------------------------------- the three kinds of row

  function FailedCall(now: int): ToolCall -> ToolCall { (c: ToolCall) => Store.Recovered(c, now) }

  predicate StaleCall(cutoff: int, c: ToolCall) { c.status == Executing && c.updated < cutoff }

  const MODEL_INTERRUPTED := "model_call_interrupted"

  const RUN_INTERRUPTED := "agent_run_interrupted"

  function FailedModelCall(now: int): ModelCall -> ModelCall {
    (c: ModelCall) => EndModelCall(c, ModelFailed, c.requested, Some(MODEL_INTERRUPTED), now)
  }

  function FailedRun(now: int): AgentRun -> AgentRun {
    (r: AgentRun) => r.(status := RunFailed, answer := None, error := Some(RUN_INTERRUPTED), finished := Some(now),
        updated := now)
  }

  predicate StaleRun(cutoff: int, r: AgentRun) { r.status == Running && r.updated < cutoff }

  /** A stale row in order, as a reachable table holds it. */
  predicate InOrder(c: ToolCall, now: int, cutoff: int) {
    StaleCall(cutoff, c) && ToolCalls.Consistent(c) && c.created <= now
  }

  /** Every stale call that is in order went through its own transition to failed. */
  ghost predicate CallsFailed(before: map<nat, ToolCall>, after: map<nat, ToolCall>, now: int, cutoff: int) {
    forall c :: c in before && InOrder(before[c], now, cutoff) ==>
      && c in after && TransitionTo(before[c], Plain(Failed, now, Some(Store.UNKNOWN_STATE))) == Changed(after[c])
      && after[c].error == Some("execution_state_unknown")
  }

  /** Every stale run went through its own finish. */
  ghost predicate RunsFailed(before: map<nat, AgentRun>, after: map<nat, AgentRun>, now: int, cutoff: int) {
    forall r :: r in before && StaleRun(cutoff, before[r]) ==>
      && r in after && Finish(before[r], RunFailed, None, Some(RUN_INTERRUPTED), now) == Some(after[r])
      && after[r].error == Some("agent_run_interrupted")
  }

  lemma SweptCallsFailed(before: map<nat, ToolCall>, after: map<nat, ToolCall>, now: int, cutoff: int)
    requires var stale := (c: ToolCall) => StaleCall(cutoff, c);
      Swept(before, after, stale, FailedCall(now), StaleIds(before, stale))
    ensures CallsFailed(before, after, now, cutoff)
  {
    var stale := (c: ToolCall) => StaleCall(cutoff, c);
    forall c | c in before && InOrder(before[c], now, cutoff)
      ensures c in after && after[c].error == Some("execution_state_unknown")
        && TransitionTo(before[c], Plain(Failed, now, Some(Store.UNKNOWN_STATE))) == Changed(after[c])
    {
      assert c in StaleIds(before, stale);
      TransitionExactly(before[c], Plain(Failed, now, Some(Store.UNKNOWN_STATE)));
    }
  }

  lemma SweptRunsFailed(before: map<nat, AgentRun>, after: map<nat, AgentRun>, now: int, cutoff: int)
    requires var stale := (r: AgentRun) => StaleRun(cutoff, r);
      Swept(before, after, stale, FailedRun(now), StaleIds(before, stale))
    ensures RunsFailed(before, after, now, cutoff)
  {
    var stale := (r: AgentRun) => StaleRun(cutoff, r);
    forall r | r in before && StaleRun(cutoff, before[r])
      ensures r in after && after[r].error == Some("agent_run_interrupted")
        && Finish(before[r], RunFailed, None, Some(RUN_INTERRUPTED), now) == Some(after[r])
    {
      assert r in StaleIds(before, stale);
    }
  }

  /** Alone at work, the loop does to the call table what the protocol's recovery
      transactions do: every row stale at the cutoff recovered in one sweep. */
  lemma SweepIsRecovery(db: Store.Db, after: map<nat, ToolCall>, now: int, cutoff: int)
    requires forall c :: c in db.calls ==> c in db.trail
    requires var stale := (c: ToolCall) => StaleCall(cutoff, c);
      Swept(db.calls, after, stale, FailedCall(now), StaleIds(db.calls, stale))
    ensures after == Store.RecoverAll(db, Store.Stale(db, cutoff), now).calls
  {
    var stale := (c: ToolCall) => StaleCall(cutoff, c);
    assert StaleIds(db.calls, stale) == Store.Stale(db, cutoff);
  }

  /** RecoveryService.run: tool calls, then model calls, then agent runs, each at its
      own fixed cutoff. The call table ends as the protocol's recovery leaves a
      database holding it, and what is written are the entities' own transitions. */
  method RunRecovery(
    enabled: bool, now: int, callAge: nat, modelAge: nat, runAge: nat, limit: nat,
    calls: Table<ToolCall>, models: Table<ModelCall>, runs: Table<AgentRun>, ghost db: Store.Db)
    returns (callCount: nat, modelCount: nat, runCount: nat)
    requires limit >= 1 && db.calls == calls.rows && forall c :: c in db.calls ==> c in db.trail
    modifies calls, models, runs
    ensures !enabled ==>
      && callCount == modelCount == runCount == 0
      && calls.rows == old(calls.rows) && models.rows == old(models.rows) && runs.rows == old(runs.rows)
    ensures enabled ==>
      && calls.rows == Store.RecoverAll(db, Store.Stale(db, now - callAge), now).calls
      && CallsFailed(old(calls.rows), calls.rows, now, now - callAge)
      && callCount == |Store.Stale(db, now - callAge)|
    ensures enabled ==>
      var staleModel := (c: ModelCall) => c.status == Started && c.started < now - modelAge;
      && Swept(old(models.rows), models.rows, staleModel, FailedModelCall(now), StaleIds(old(models.rows), staleModel))
      && modelCount == |StaleIds(old(models.rows), staleModel)|
      && forall c :: c in old(models.rows) && staleModel(old(models.rows)[c]) ==>
           models.rows[c].status == ModelFailed && models.rows[c].error == Some("model_call_interrupted")
    ensures enabled ==>
      var staleRun := (r: AgentRun) => StaleRun(now - runAge, r);
      && Swept(old(runs.rows), runs.rows, staleRun, FailedRun(now), StaleIds(old(runs.rows), staleRun))
      && RunsFailed(old(runs.rows), runs.rows, now, now - runAge)
      && runCount == |StaleIds(old(runs.rows), staleRun)|
  {
    callCount, modelCount, runCount := 0, 0, 0;
    if !enabled { return; }
    callCount := RecoverCalls(now, callAge, limit, calls, db);
    modelCount := models.Recover((c: ModelCall) => c.status == Started && c.started < now - modelAge,
                                 FailedModelCall(now), (c: ModelCall) => c.started, limit);
    ghost var before := runs.rows;
    runCount := runs.Recover((r: AgentRun) => StaleRun(now - runAge, r), FailedRun(now),
                             (r: AgentRun) => r.updated, limit);
    SweptRunsFailed(before, runs.rows, now, now - runAge);
  }

  /** _recover_tool_calls */
  method RecoverCalls(now: int, callAge: nat, limit: nat, calls: Table<ToolCall>, ghost db: Store.Db)
    returns (count: nat)
    requires limit >= 1 && db.calls == calls.rows && forall c :: c in db.calls ==> c in db.trail
    modifies calls
    ensures calls.rows == Store.RecoverAll(db, Store.Stale(db, now - callAge), now).calls
    ensures CallsFailed(old(calls.rows), calls.rows, now, now - callAge)
    ensures count == |Store.Stale(db, now - callAge)|
  {
    count := calls.Recover((c: ToolCall) => StaleCall(now - callAge, c), FailedCall(now),
                           (c: ToolCall) => c.updated, limit);
    SweepIsRecovery(db, calls.rows, now, now - callAge);
    SweptCallsFailed(db.calls, calls.rows, now, now - callAge);
    assert StaleIds(db.calls, (c: ToolCall) => StaleCall(now - callAge, c)) == Store.Stale(db, now - callAge);
  }
}
