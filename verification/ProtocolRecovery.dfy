/** Recovery with any number of workers beside any number of executions: what is
    stale at a fixed cutoff only shrinks, every row is moved once, counts add up,
    and without crashes nothing stale is left behind. */
module ProtocolRecovery {
  import opened Options
  import opened ToolCalls
  import opened AuditTrail
  import opened Store
  import opened Protocol
  import opened ProtocolSafety
  import opened ProtocolInduction
  import opened ProtocolFrames
  import opened ProtocolTheorems
  import opened ProtocolTiming
  import opened ProtocolRace
  import ProtocolReplay
  import RequestIdentity
  import RiskEngine
  import Rules = RuleEngine

  // --------------------------------------------------- the set that shrinks

  /** An executing row is never stamped before this cutoff any more. */
  predicate Past(cfg: Config, s: State, cutoff: int) { cutoff + cfg.startLag <= s.now }

  lemma StartIsFresh(cfg: Config, s: State, w: nat, choice: Choice, o: Owned, deed: Deed)
    requires w in s.executions && s.executions[w].pc == Owning(o) && Committed(cfg, s, w, choice).Some?
    requires DeedOf(cfg, s.db, o, choice) == Some(deed)
    ensures deed.writes.call.status == Executing ==> s.now <= deed.writes.call.updated + cfg.startLag
  {
  }

  lemma PerformShrinks(cfg: Config, s: State, s': State, w: nat, o: Owned, deed: Deed, cutoff: int)
    requires ProtocolInduction.Performs(cfg, s, s', w, o, deed) && Past(cfg, s, cutoff)
    requires deed.writes.call.status == Executing ==> s.now <= deed.writes.call.updated + cfg.startLag
    ensures Stale(s'.db, cutoff) <= Stale(s.db, cutoff)
  {
  }

  lemma CommitShrinks(cfg: Config, s: State, w: nat, choice: Choice, s': State, cutoff: int)
    requires Inv(cfg, s) && Past(cfg, s, cutoff) && Committed(cfg, s, w, choice) == Some(s')
    ensures Stale(s'.db, cutoff) <= Stale(s.db, cutoff)
  {
    var o, deed := CommitFacts(cfg, s, w, choice);
    StartIsFresh(cfg, s, w, choice, o, deed);
    PerformShrinks(cfg, s, s', w, o, deed, cutoff);
  }

  lemma InsertShrinks(cfg: Config, s: State, w: nat, id: nat, stamp: int, s': State, cutoff: int)
    requires Inserted(cfg, s, w, id, stamp) == Some(s')
    ensures Stale(s'.db, cutoff) <= Stale(s.db, cutoff)
  {
  }

  /** A batch takes exactly its own rows out of the set. */
  lemma BatchShrinks(db: Db, batch: set<nat>, now: int, cutoff: int)
    requires forall c :: c in batch ==> c in db.calls && c in db.trail
    ensures Stale(RecoverAll(db, batch, now), cutoff) == Stale(db, cutoff) - batch
  {
    var after := RecoverAll(db, batch, now);
    forall c ensures c in Stale(after, cutoff) <==> c in Stale(db, cutoff) - batch {
    }
  }

  /** What is stale at a cutoff the clock has passed by startLag only shrinks. */
  lemma StaleOnlyShrinks(cfg: Config, s: State, a: Action, s': State, cutoff: int)
    requires Inv(cfg, s) && Past(cfg, s, cutoff) && Step(cfg, s, a) == Some(s')
    ensures Stale(s'.db, cutoff) <= Stale(s.db, cutoff) && Past(cfg, s', cutoff)
  {
    Framed(cfg, s, a, s');
    match a
    case InsertCall(w, id, stamp) => InsertShrinks(cfg, s, w, id, stamp, s', cutoff);
    case Commit(w, choice) => CommitShrinks(cfg, s, w, choice, s', cutoff);
    case CommitBatch(r) =>
      CommitBatchFacts(cfg, s, r, s');
      BatchShrinks(s.db, s.recoveries[r].phase.batch, s.recoveries[r].now, cutoff);
    case _ =>
  }

  lemma {:induction false} StaleOnlyShrinksInRuns(cfg: Config, s: State, actions: seq<Action>, cutoff: int)
    requires Inv(cfg, s) && Past(cfg, s, cutoff) && Run(cfg, s, actions).Some?
    ensures Stale(Run(cfg, s, actions).value.db, cutoff) <= Stale(s.db, cutoff)
    decreases |actions|
  {
    if actions != [] {
      var next := Step(cfg, s, actions[0]).value;
      StaleOnlyShrinks(cfg, s, actions[0], next, cutoff);
      StepKeeps(cfg, s, actions[0], next);
      StaleOnlyShrinksInRuns(cfg, next, actions[1..], cutoff);
    }
  }

  /** Whenever a run of recovery goes round again it has made its stale set smaller:
      the batch loop ends. */
  lemma EveryRoundMakesProgress(cfg: Config, s: State, r: nat, s': State)
    requires Inv(cfg, s) && BatchCommitted(cfg, s, r) == Some(s')
    ensures var batch, cutoff := s.recoveries[r].phase.batch, s.recoveries[r].cutoff;
      && batch <= Stale(s.db, cutoff) && Stale(s'.db, cutoff) == Stale(s.db, cutoff) - batch
      && |Stale(s'.db, cutoff)| == |Stale(s.db, cutoff)| - |batch|
      && (s'.recoveries[r].phase == Idle && cfg.batchSize >= 1 ==> |Stale(s'.db, cutoff)| < |Stale(s.db, cutoff)|)
      && s'.recoveries[r].count == s.recoveries[r].count + |batch|
  {
    var batch, cutoff := s.recoveries[r].phase.batch, s.recoveries[r].cutoff;
    CommitBatchFacts(cfg, s, r, s');
    BatchShrinks(s.db, batch, s.recoveries[r].now, cutoff);
    assert batch <= Stale(s.db, cutoff);
    CountOfRest(Stale(s.db, cutoff), batch);
    BatchCounts(cfg, s, r, s');
  }

  lemma BatchCounts(cfg: Config, s: State, r: nat, s': State)
    requires BatchCommitted(cfg, s, r) == Some(s')
    ensures s'.recoveries[r].count == s.recoveries[r].count + |s.recoveries[r].phase.batch|
    ensures s'.recoveries[r].phase == if |s.recoveries[r].phase.batch| < cfg.batchSize then Finished else Idle
    ensures Marks(s.past.moved, s'.past.moved, s.recoveries[r].phase.batch, r)
  {
  }

  /** The run's batch is on record as moved by it. */
  ghost predicate Marks(moved: map<nat, nat>, after: map<nat, nat>, batch: set<nat>, r: nat) {
    && (forall c :: c in after <==> (c in moved || c in batch))
    && forall c :: c in after ==> after[c] == if c in batch then r else moved[c]
  }

  lemma CountOfRest(all: set<nat>, part: set<nat>)
    requires part <= all
    ensures |all - part| == |all| - |part|
  {
    assert all == (all - part) + part;
  }

  // -------------------------------------------------- every row moves once

  function Occurrences(word: seq<Event>, e: Event): nat {
    if word == [] then 0
    else Occurrences(word[..|word| - 1], e) + if word[|word| - 1] == e then 1 else 0
  }

  lemma {:induction false} OccurrencesAdd(a: seq<Event>, b: seq<Event>, e: Event)
    ensures Occurrences(a + b, e) == Occurrences(a, e) + Occurrences(b, e)
  {
    if b == [] {
      assert a + b == a;
    } else {
      OccurrencesAdd(a, b[..|b| - 1], e);
      assert (a + b)[..|a + b| - 1] == a + b[..|b| - 1];
    }
  }

  lemma {:induction false} NoOccurrence(word: seq<Event>, e: Event)
    requires e !in word
    ensures Occurrences(word, e) == 0
  {
    if word != [] { NoOccurrence(word[..|word| - 1], e); }
  }

  ghost function MovedBy(moved: map<nat, nat>, r: nat): set<nat> { set c | c in moved && moved[c] == r }

  /** Moved rows are terminal, carry their one recovered event, and are counted by
      the run that moved them. */
  ghost predicate Moves(s: State) {
    && MovedEnded(s)
    && (forall c :: c in s.db.calls ==> RecoveredOnce(s.db, s.past.moved, c))
    && Counted(s.recoveries, s.past.moved)
  }

  ghost predicate RecoveredOnce(db: Db, moved: map<nat, nat>, c: nat) {
    c in db.trail && Occurrences(db.trail[c], CallRecovered) == if c in moved then 1 else 0
  }

  lemma EventsRecoverNothing(marked: bool, rules: nat, blocked: bool, redacted: bool, completed: bool)
    ensures CallRecovered !in EvaluationEvents(marked, rules, blocked)
    ensures CallRecovered !in FinalEvents(redacted, rules, marked, completed)
  {
  }

  lemma DeedRecoversNothing(cfg: Config, db: Db, o: Owned, c: Choice)
    requires DeedOf(cfg, db, o, c).Some?
    ensures CallRecovered !in DeedOf(cfg, db, o, c).value.writes.events
  {
    match c
    case Judge(_, assessment, _, _, reported, action) =>
      EventsRecoverNothing(
          assessment.flags != [] || action == Rules.Flag, |reported|, action == Rules.Block, false, false);
    case FinishInvalid(_, assessment, redacted) =>
      var decision := if assessment.flags != [] then Flag else o.call.decision;
      EventsRecoverNothing(assessment.flags != [] || decision == Flag, 0, false, redacted, false);
    case Finish(_) =>
      var plan := o.phase.plan;
      EventsRecoverNothing((if plan.marked then Flag else o.call.decision) == Flag, |plan.names|, false,
          plan.redacted, true);
    case _ =>
  }

  lemma PerformMoves(cfg: Config, s: State, s': State, w: nat, o: Owned, deed: Deed)
    requires ProtocolInduction.Performs(cfg, s, s', w, o, deed) && Moves(s)
    requires CallRecovered !in deed.writes.events
    ensures Moves(s')
  {
    var id := o.call.id;
    NoOccurrence(deed.writes.events, CallRecovered);
    forall c | c in s'.db.calls ensures RecoveredOnce(s'.db, s'.past.moved, c) {
      assert RecoveredOnce(s.db, s.past.moved, c);
      if c == id { OccurrencesAdd(s.db.trail[id], deed.writes.events, CallRecovered); }
    }
  }

  lemma CommitMovesOn(cfg: Config, s: State, w: nat, choice: Choice, s': State)
    requires Inv(cfg, s) && Moves(s) && Committed(cfg, s, w, choice) == Some(s')
    ensures Moves(s')
  {
    var o, deed := CommitFacts(cfg, s, w, choice);
    DeedRecoversNothing(cfg, s.db, o, choice);
    PerformMoves(cfg, s, s', w, o, deed);
  }

  lemma InsertMoves(cfg: Config, s: State, w: nat, id: nat, stamp: int, s': State)
    requires Moves(s) && Inserted(cfg, s, w, id, stamp) == Some(s')
    ensures Moves(s')
  {
    NoOccurrence([CallReceived], CallRecovered);
    forall c | c in s'.db.calls ensures RecoveredOnce(s'.db, s'.past.moved, c) {
      if c != id { assert RecoveredOnce(s.db, s.past.moved, c); }
    }
  }

  lemma MarkedBy(moved: map<nat, nat>, after: map<nat, nat>, batch: set<nat>, r: nat)
    requires Marks(moved, after, batch, r) && forall c :: c in batch ==> c !in moved
    ensures |MovedBy(after, r)| == |MovedBy(moved, r)| + |batch|
    ensures forall q :: q != r ==> MovedBy(after, q) == MovedBy(moved, q)
  {
    assert MovedBy(after, r) == MovedBy(moved, r) + batch;
    forall q | q != r ensures MovedBy(after, q) == MovedBy(moved, q) {
      assert forall c :: c in MovedBy(after, q) <==> c in MovedBy(moved, q);
    }
  }

  ghost predicate MovedEnded(s: State) {
    forall c :: c in s.past.moved ==>
        c in s.db.calls && s.db.calls[c].status.Terminal() && s.past.moved[c] in s.recoveries
  }

  lemma BatchEnds(cfg: Config, s: State, s': State, r: nat, batch: set<nat>)
    requires Recovers(cfg, s, s', r, batch) && MovedEnded(s) && Marks(s.past.moved, s'.past.moved, batch, r)
    ensures MovedEnded(s')
  {
  }

  lemma BatchUnmoved(cfg: Config, s: State, s': State, r: nat, batch: set<nat>)
    requires Recovers(cfg, s, s', r, batch) && MovedEnded(s)
    ensures forall c :: c in batch ==> c in s.db.calls && c in s.db.trail && c !in s.past.moved
  {
  }

  ghost predicate Counted(recoveries: map<nat, Recovery>, moved: map<nat, nat>) {
    forall r :: r in recoveries ==> recoveries[r].count == |MovedBy(moved, r)|
  }

  lemma BatchCounted(
    recoveries: map<nat, Recovery>, after: map<nat, Recovery>, moved: map<nat, nat>, moved': map<nat, nat>,
    batch: set<nat>, r: nat)
    requires Counted(recoveries, moved) && Marks(moved, moved', batch, r) && forall c :: c in batch ==> c !in moved
    requires r in recoveries && r in after && after[r].count == recoveries[r].count + |batch|
    requires forall q :: q in after && q != r ==> q in recoveries && after[q] == recoveries[q]
    ensures Counted(after, moved')
  {
    MarkedBy(moved, moved', batch, r);
  }

  lemma BatchMoves(cfg: Config, s: State, s': State, r: nat, batch: set<nat>)
    requires Recovers(cfg, s, s', r, batch) && Moves(s)
    requires s'.recoveries[r].count == s.recoveries[r].count + |batch|
    requires Marks(s.past.moved, s'.past.moved, batch, r)
    ensures Moves(s')
  {
    BatchUnmoved(cfg, s, s', r, batch);
    BatchEnds(cfg, s, s', r, batch);
    BatchCounted(s.recoveries, s'.recoveries, s.past.moved, s'.past.moved, batch, r);
    BatchEvents(s.db, batch, s.recoveries[r].now, s.past.moved, s'.past.moved, r);
  }

  lemma BatchEvents(db: Db, batch: set<nat>, now: int, moved: map<nat, nat>, after: map<nat, nat>, r: nat)
    requires forall c :: c in batch ==> c in db.calls && c in db.trail && c !in moved
    requires Marks(moved, after, batch, r) && forall c :: c in db.calls ==> RecoveredOnce(db, moved, c)
    ensures forall c :: c in db.calls ==> RecoveredOnce(RecoverAll(db, batch, now), after, c)
  {
    forall c | c in db.calls ensures RecoveredOnce(RecoverAll(db, batch, now), after, c) {
      assert RecoveredOnce(db, moved, c);
      if c in batch { OneMore(db.trail[c]); }
    }
  }

  lemma OneMore(word: seq<Event>)
    ensures Occurrences(word + [CallRecovered], CallRecovered) == Occurrences(word, CallRecovered) + 1
  {
    assert (word + [CallRecovered])[..|word|] == word;
  }

  lemma RecoveryMoves(cfg: Config, s: State, a: Action, s': State)
    requires Claims(s) && Moves(s) && OfRecovery(a) && Step(cfg, s, a) == Some(s')
    ensures Moves(s')
  {
    match a
    case CommitBatch(r) => CommitBatchMoves(cfg, s, r, s');
    case StartRecovery(r) => StartMoves(cfg, s, r, s');
    case Claim(r, batch) => ClaimMoves(cfg, s, r, batch, s');
    case CrashRecovery(r) => CrashMoves(s, r, s');
  }

  lemma RestStepMoves(cfg: Config, s: State, a: Action, s': State)
    requires Moves(s) && !OfRecovery(a) && !a.InsertCall? && !a.Commit? && Step(cfg, s, a) == Some(s')
    ensures Moves(s')
  {
    Framed(cfg, s, a, s');
    RestMoves(s, s');
  }

  lemma MovesKept(cfg: Config, s: State, a: Action, s': State)
    requires Inv(cfg, s) && Moves(s) && Step(cfg, s, a) == Some(s')
    ensures Moves(s')
  {
    if a.InsertCall? {
      InsertMoves(cfg, s, a.w, a.id, a.stamp, s');
    } else if a.Commit? {
      CommitMovesOn(cfg, s, a.w, a.choice, s');
    } else if OfRecovery(a) {
      RecoveryMoves(cfg, s, a, s');
    } else {
      RestStepMoves(cfg, s, a, s');
    }
  }

  lemma CommitBatchMoves(cfg: Config, s: State, r: nat, s': State)
    requires Claims(s) && Moves(s) && BatchCommitted(cfg, s, r) == Some(s')
    ensures Moves(s')
  {
    CommitBatchFacts(cfg, s, r, s');
    BatchCounts(cfg, s, r, s');
    BatchMoves(cfg, s, s', r, s.recoveries[r].phase.batch);
  }

  lemma StartMoves(cfg: Config, s: State, r: nat, s': State)
    requires Moves(s) && RecoveryStarted(cfg, s, r) == Some(s')
    ensures Moves(s')
  {
    RunsMove(s, s');
  }

  lemma ClaimMoves(cfg: Config, s: State, r: nat, batch: set<nat>, s': State)
    requires Moves(s) && BatchClaimed(cfg, s, r, batch) == Some(s')
    ensures Moves(s')
  {
    RunsMove(s, s');
  }

  lemma CrashMoves(s: State, r: nat, s': State)
    requires Moves(s) && RecoveryCrashed(s, r) == Some(s')
    ensures Moves(s')
  {
    RunsMove(s, s');
  }

  /** Recovery runs start and change phase without moving a row. */
  lemma RunsMove(s: State, s': State)
    requires Moves(s) && s'.db.calls == s.db.calls && s'.db.trail == s.db.trail && s'.past.moved == s.past.moved
    requires forall q :: q in s.recoveries ==> q in s'.recoveries && s'.recoveries[q].count == s.recoveries[q].count
    requires forall q :: q in s'.recoveries ==> q in s.recoveries || s'.recoveries[q].count == 0
    ensures Moves(s')
  {
    forall c | c in s'.db.calls ensures RecoveredOnce(s'.db, s'.past.moved, c) {
      assert RecoveredOnce(s.db, s.past.moved, c);
    }
    forall q | q in s'.recoveries && q !in s.recoveries ensures |MovedBy(s'.past.moved, q)| == 0 {
      assert MovedBy(s'.past.moved, q) == {};
    }
  }

  lemma RestMoves(s: State, s': State)
    requires Moves(s) && s'.db.calls == s.db.calls && s'.db.trail == s.db.trail && s'.past.moved == s.past.moved
    requires s'.recoveries == s.recoveries
    ensures Moves(s')
  {
    RunsMove(s, s');
  }

  // --------------------------------------------------------- nothing is left

  /** This run saw fewer rows than it asked for. */
  predicate SawTheEnd(cfg: Config, rec: Recovery) {
    rec.phase.Finished? || (rec.phase.Claimed? && |rec.phase.batch| < cfg.batchSize)
  }

  /** Whatever is still stale for such a run is in somebody's hands. */
  ghost predicate Swept(cfg: Config, s: State) {
    forall r :: r in s.recoveries && SawTheEnd(cfg, s.recoveries[r]) ==>
        Stale(s.db, s.recoveries[r].cutoff) <= s.claims.Keys
  }

  ghost predicate Passed(cfg: Config, s: State) {
    forall r :: r in s.recoveries ==> Past(cfg, s, s.recoveries[r].cutoff)
  }

  lemma CutoffsPass(cfg: Config, s: State)
    requires Ample(cfg) && Cutoffs(cfg, s) && Claims(s)
    ensures Passed(cfg, s)
  {
  }

  /** An owner that is writing has not left its executing call. */
  ghost predicate Writers(cfg: Config, s: State) {
    forall w :: w in s.writing ==>
      w in s.executions
      && (s.executions[w].pc.Done? || (s.executions[w].pc.Owning? && Concluding(cfg, s.executions[w].pc.own)))
  }

  lemma DeedEnds(cfg: Config, db: Db, o: Owned, c: Choice)
    requires DeedOf(cfg, db, o, c).Some? && o.call.status == Executing
    ensures DeedOf(cfg, db, o, c).value.next.Done? && DeedOf(cfg, db, o, c).value.writes.call.status.Terminal()
  {
  }

  lemma CommitWriters(cfg: Config, s: State, w: nat, choice: Choice, s': State)
    requires Writers(cfg, s) && Committed(cfg, s, w, choice) == Some(s')
    ensures Writers(cfg, s')
  {
    var o := s.executions[w].pc.own;
    if w in s.writing { DeedEnds(cfg, s.db, o, choice); }
  }

  lemma GoWriters(cfg: Config, s: State, w: nat, m: Move, s': State)
    requires Writers(cfg, s) && Gone(cfg, s, w, m) == Some(s')
    ensures Writers(cfg, s')
  {
    var p := PlaceAfter(cfg, s, s.executions[w], m).value;
    ArriveFacts(s, w, p);
    assert s'.writing == s.writing;
  }

  /** Whoever else steps leaves the writers alone. */
  lemma OtherWriters(cfg: Config, s: State, a: Action, s': State)
    requires Step(cfg, s, a) == Some(s') && !a.Go? && !a.Commit? && !a.Flush?
    ensures s'.writing == s.writing
    ensures OfExecution(a) && a.w in s.executions ==>
      !s.executions[a.w].pc.Done? && !(s.executions[a.w].pc.Owning? && Concluding(cfg, s.executions[a.w].pc.own))
  {
  }

  lemma WritersKept(cfg: Config, s: State, a: Action, s': State)
    requires Writers(cfg, s) && Step(cfg, s, a) == Some(s')
    ensures Writers(cfg, s')
  {
    if a.Go? {
      GoWriters(cfg, s, a.w, a.move, s');
    } else if a.Commit? {
      CommitWriters(cfg, s, a.w, a.choice, s');
    } else if !a.Flush? {
      OtherWriters(cfg, s, a, s');
      Framed(cfg, s, a, s');
    }
  }

  /** With an ample threshold no row an owner writes is stale for anyone. */
  lemma WrittenIsFresh(cfg: Config, s: State, r: nat, c: nat)
    requires Ample(cfg) && Timely(cfg, s) && Cutoffs(cfg, s) && Claims(s) && Writers(cfg, s)
    requires r in s.recoveries && c in Written(s)
    ensures c !in Stale(s.db, s.recoveries[r].cutoff)
  {
    var w :| w in s.writing && w in s.executions && s.executions[w].pc.Owning? && s.executions[w].pc.own.call.id == c;
    assert LiveOk(cfg, s, s.executions[w].pc.own);
    LiveIsFresh(cfg, s, s.executions[w].pc.own);
  }

  /** No row an owner writes is stale for this recovery run. */
  ghost predicate NoneSkipped(s: State, r: nat)
    requires r in s.recoveries
  {
    forall c :: c in Written(s) ==> c !in Stale(s.db, s.recoveries[r].cutoff)
  }

  lemma ClaimSweeps(cfg: Config, s: State, r: nat, batch: set<nat>, s': State)
    requires Swept(cfg, s) && BatchClaimed(cfg, s, r, batch) == Some(s') && NoneSkipped(s, r)
    ensures Swept(cfg, s')
  {
    ClaimFacts(cfg, s, r, batch, s');
    forall q | q in s'.recoveries && SawTheEnd(cfg, s'.recoveries[q])
      ensures Stale(s'.db, s'.recoveries[q].cutoff) <= s'.claims.Keys
    {
      forall c | c in Stale(s'.db, s'.recoveries[q].cutoff) ensures c in s'.claims {
        if q == r {
          assert c in s.claims || c in Unclaimed(s, s.recoveries[r].cutoff);
        } else {
          assert c in s.claims.Keys;
        }
      }
    }
  }

  lemma BatchSweeps(cfg: Config, s: State, s': State, r: nat, batch: set<nat>)
    requires Recovers(cfg, s, s', r, batch) && Swept(cfg, s)
    requires s'.recoveries[r].phase == if |batch| < cfg.batchSize then Finished else Idle
    ensures Swept(cfg, s')
  {
    forall q | q in s'.recoveries && SawTheEnd(cfg, s'.recoveries[q])
      ensures Stale(s'.db, s'.recoveries[q].cutoff) <= s'.claims.Keys
    {
      BatchShrinks(s.db, batch, s.recoveries[r].now, s.recoveries[q].cutoff);
      assert SawTheEnd(cfg, s.recoveries[q]);
      forall c | c in Stale(s'.db, s'.recoveries[q].cutoff) ensures c in s'.claims {
        assert c in s.claims.Keys && c !in batch;
      }
    }
  }

  /** Recovery runs and claims are untouched, and stale sets only shrank. */
  lemma RestSweeps(cfg: Config, s: State, s': State)
    requires Swept(cfg, s) && s'.claims == s.claims && s'.recoveries == s.recoveries
    requires forall r :: r in s.recoveries ==>
      Stale(s'.db, s.recoveries[r].cutoff) <= Stale(s.db, s.recoveries[r].cutoff)
    ensures Swept(cfg, s')
  {
  }

  lemma StartSweeps(cfg: Config, s: State, r: nat, s': State)
    requires Swept(cfg, s) && RecoveryStarted(cfg, s, r) == Some(s')
    ensures Swept(cfg, s')
  {
  }

  lemma RecoverySweeps(cfg: Config, s: State, a: Action, s': State)
    requires Claims(s) && Swept(cfg, s) && OfRecovery(a) && !a.CrashRecovery? && Step(cfg, s, a) == Some(s')
    requires forall r :: r in s.recoveries ==> NoneSkipped(s, r)
    ensures Swept(cfg, s')
  {
    match a
    case StartRecovery(r) => StartSweeps(cfg, s, r, s');
    case Claim(r, batch) => ClaimSweeps(cfg, s, r, batch, s');
    case CommitBatch(r) => CommitBatchSweeps(cfg, s, r, s');
  }

  lemma SweptKept(cfg: Config, s: State, a: Action, s': State)
    requires Inv(cfg, s) && Passed(cfg, s) && Swept(cfg, s) && !a.CrashRecovery? && Step(cfg, s, a) == Some(s')
    requires forall r :: r in s.recoveries ==> NoneSkipped(s, r)
    ensures Swept(cfg, s')
  {
    if OfRecovery(a) {
      RecoverySweeps(cfg, s, a, s');
    } else {
      RestStepSweeps(cfg, s, a, s');
    }
  }

  lemma RestStepSweeps(cfg: Config, s: State, a: Action, s': State)
    requires Inv(cfg, s) && Passed(cfg, s) && Swept(cfg, s) && !OfRecovery(a) && Step(cfg, s, a) == Some(s')
    ensures Swept(cfg, s')
  {
    Framed(cfg, s, a, s');
    AllShrink(cfg, s, a, s');
    RestSweeps(cfg, s, s');
  }

  lemma CommitBatchSweeps(cfg: Config, s: State, r: nat, s': State)
    requires Claims(s) && Swept(cfg, s) && BatchCommitted(cfg, s, r) == Some(s')
    ensures Swept(cfg, s')
  {
    CommitBatchFacts(cfg, s, r, s');
    BatchCounts(cfg, s, r, s');
    BatchSweeps(cfg, s, s', r, s.recoveries[r].phase.batch);
  }

  lemma AllShrink(cfg: Config, s: State, a: Action, s': State)
    requires Inv(cfg, s) && Passed(cfg, s) && Step(cfg, s, a) == Some(s')
    ensures forall r :: r in s.recoveries ==>
      Stale(s'.db, s.recoveries[r].cutoff) <= Stale(s.db, s.recoveries[r].cutoff)
  {
    forall r | r in s.recoveries ensures Stale(s'.db, s.recoveries[r].cutoff) <= Stale(s.db, s.recoveries[r].cutoff) {
      StaleOnlyShrinks(cfg, s, a, s', s.recoveries[r].cutoff);
    }
  }

  // -------------------------------------------------------------- all runs

  ghost predicate RecoveryInv(cfg: Config, s: State) { Inv(cfg, s) && Cutoffs(cfg, s) && Moves(s) }

  lemma {:induction false} RecoveryRun(cfg: Config, s: State, actions: seq<Action>)
    requires RecoveryInv(cfg, s) && Run(cfg, s, actions).Some?
    ensures RecoveryInv(cfg, Run(cfg, s, actions).value)
    decreases |actions|
  {
    if actions != [] {
      var next := Step(cfg, s, actions[0]).value;
      StepKeeps(cfg, s, actions[0], next);
      CutoffsKept(cfg, s, actions[0], next);
      MovesKept(cfg, s, actions[0], next);
      RecoveryRun(cfg, next, actions[1..]);
    }
  }

  lemma RecoveryStep(cfg: Config, s: State, a: Action, s': State)
    requires RecoveryInv(cfg, s) && Step(cfg, s, a) == Some(s')
    ensures RecoveryInv(cfg, s')
  {
    StepKeeps(cfg, s, a, s');
    CutoffsKept(cfg, s, a, s');
    MovesKept(cfg, s, a, s');
  }

  lemma TailIsCalm(actions: seq<Action>)
    requires actions != [] && NoRecoveryCrash(actions)
    ensures !actions[0].CrashRecovery? && NoRecoveryCrash(actions[1..])
  {
    assert forall i :: 0 <= i < |actions[1..]| ==> actions[1..][i] == actions[i + 1];
  }

  ghost predicate SweepInv(cfg: Config, s: State) {
    RecoveryInv(cfg, s) && Timely(cfg, s) && Writers(cfg, s) && Swept(cfg, s)
  }

  lemma SweptStep(cfg: Config, s: State, a: Action, s': State)
    requires Ample(cfg) && SweepInv(cfg, s) && !a.CrashRecovery? && Step(cfg, s, a) == Some(s')
    ensures SweepInv(cfg, s')
  {
    RecoveryStep(cfg, s, a, s');
    TimelyKept(cfg, s, a, s');
    WritersKept(cfg, s, a, s');
    CutoffsPass(cfg, s);
    forall r | r in s.recoveries ensures NoneSkipped(s, r) {
      forall c | c in Written(s) ensures c !in Stale(s.db, s.recoveries[r].cutoff) {
        WrittenIsFresh(cfg, s, r, c);
      }
    }
    SweptKept(cfg, s, a, s');
  }

  lemma {:induction false} SweptRun(cfg: Config, s: State, actions: seq<Action>)
    requires Ample(cfg) && SweepInv(cfg, s) && Run(cfg, s, actions).Some? && NoRecoveryCrash(actions)
    ensures SweepInv(cfg, Run(cfg, s, actions).value)
    decreases |actions|
  {
    if actions != [] {
      var next := Step(cfg, s, actions[0]).value;
      SweptStep(cfg, s, actions[0], next);
      TailIsCalm(actions);
      SweptRun(cfg, next, actions[1..]);
    }
  }

  ghost function Total(recoveries: map<nat, Recovery>, ids: set<nat>): nat
    requires forall r :: r in ids ==> r in recoveries
  {
    if ids == {} then 0
    else
      var r :| r in ids;
      recoveries[r].count + Total(recoveries, ids - {r})
  }

  ghost function MovedIn(moved: map<nat, nat>, ids: set<nat>): set<nat> { set c | c in moved && moved[c] in ids }

  lemma DisjointCount(a: set<nat>, b: set<nat>)
    requires a !! b
    ensures |a + b| == |a| + |b|
  {
  }

  lemma {:induction false} TotalIsMoved(recoveries: map<nat, Recovery>, moved: map<nat, nat>, ids: set<nat>)
    requires forall r :: r in ids ==> r in recoveries && recoveries[r].count == |MovedBy(moved, r)|
    ensures Total(recoveries, ids) == |MovedIn(moved, ids)|
    decreases |ids|
  {
    if ids == {} {
      assert MovedIn(moved, ids) == {};
    } else {
      var r :| r in ids && Total(recoveries, ids) == recoveries[r].count + Total(recoveries, ids - {r});
      TotalIsMoved(recoveries, moved, ids - {r});
      var mine, rest := MovedBy(moved, r), MovedIn(moved, ids - {r});
      assert MovedIn(moved, ids) == mine + rest && mine !! rest;
      DisjointCount(mine, rest);
    }
  }

  /** In any run, the counts of all recovery runs sum to the number of rows moved,
      and every call has one recovered event if it was moved and none otherwise. */
  lemma CountsAddUp(cfg: Config, actions: seq<Action>)
    requires Run(cfg, INITIAL, actions).Some?
    ensures var s := Run(cfg, INITIAL, actions).value;
      && Total(s.recoveries, s.recoveries.Keys) == |s.past.moved.Keys|
      && (forall c :: c in s.past.moved ==> c in s.db.calls && s.db.calls[c].status.Terminal())
      && forall c :: c in s.db.calls ==> RecoveredOnce(s.db, s.past.moved, c)
  {
    InitiallyInv(cfg);
    RecoveryRun(cfg, INITIAL, actions);
    MovesAddUp(Run(cfg, INITIAL, actions).value);
  }

  lemma MovesAddUp(s: State)
    requires Moves(s)
    ensures Total(s.recoveries, s.recoveries.Keys) == |s.past.moved.Keys|
  {
    TotalIsMoved(s.recoveries, s.past.moved, s.recoveries.Keys);
    assert MovedIn(s.past.moved, s.recoveries.Keys) == s.past.moved.Keys;
  }

  // ------------------------------------------------------- how it all ends

  /** This run of recovery is over. */
  predicate Over(rec: Recovery) { rec.phase.Finished? || rec.phase.Died? }

  ghost predicate AllOver(s: State) { forall q :: q in s.recoveries ==> Over(s.recoveries[q]) }

  lemma NothingInHand(s: State)
    requires Claims(s) && AllOver(s)
    ensures s.claims.Keys == {}
  {
    forall c | c in s.claims ensures false {
    }
  }

  /** The row was stale for this run of recovery and still is, in another run's or its
      own owner's hands once the run has seen the end; or it has ended. */
  ghost predicate Settling(cfg: Config, s: State, r: nat, c: nat) {
    && r in s.recoveries && c in s.db.calls
    && (s.db.calls[c].status.Terminal()
        || (&& c in Stale(s.db, s.recoveries[r].cutoff)
            && (SawTheEnd(cfg, s.recoveries[r]) ==> c in s.claims || c in Written(s))))
  }

  /** The step is not an owner dying inside the transaction that holds its row. */
  predicate Survives(s: State, a: Action) { !(a.Go? && a.move.Crash? && a.w in s.writing) }

  /** No owner dies there in the run. */
  ghost predicate WritersSurvive(cfg: Config, s: State, actions: seq<Action>)
    decreases |actions|
  {
    actions == [] || (Survives(s, actions[0])
      && (Step(cfg, s, actions[0]).Some? ==> WritersSurvive(cfg, Step(cfg, s, actions[0]).value, actions[1..])))
  }

  /** An owner's row stays held until it has ended. */
  ghost predicate HeldOrEnded(s: State, s': State) {
    forall c :: c in Written(s) ==> c in Written(s') || (c in s'.db.calls && s'.db.calls[c].status.Terminal())
  }

  lemma PerformHeld(cfg: Config, s: State, s': State, w: nat, o: Owned, deed: Deed)
    requires ProtocolInduction.Performs(cfg, s, s', w, o, deed) && s'.writing == s.writing
    requires w in s.writing ==> deed.writes.call.status.Terminal()
    ensures HeldOrEnded(s, s')
  {
    forall c | c in Written(s) ensures c in Written(s') || (c in s'.db.calls && s'.db.calls[c].status.Terminal()) {
      var v :| v in s.writing && v in s.executions && s.executions[v].pc.Owning? && s.executions[v].pc.own.call.id == c;
      if v != w { assert v in s'.writing && s'.executions[v] == s.executions[v]; }
    }
  }

  lemma CommitWrites(cfg: Config, s: State, w: nat, choice: Choice, s': State)
    requires Writers(cfg, s) && Committed(cfg, s, w, choice) == Some(s')
    ensures s'.writing == s.writing
    ensures w in s.writing ==> DeedOf(cfg, s.db, s.executions[w].pc.own, choice).value.writes.call.status.Terminal()
  {
    if w in s.writing { DeedEnds(cfg, s.db, s.executions[w].pc.own, choice); }
  }

  lemma CommitHeld(cfg: Config, s: State, w: nat, choice: Choice, s': State)
    requires Inv(cfg, s) && Writers(cfg, s) && Committed(cfg, s, w, choice) == Some(s')
    ensures HeldOrEnded(s, s')
  {
    var o, deed := CommitFacts(cfg, s, w, choice);
    CommitWrites(cfg, s, w, choice, s');
    PerformHeld(cfg, s, s', w, o, deed);
  }

  lemma RestHeld(s: State, s': State)
    requires forall w :: w in s.writing ==> w in s'.writing
    requires forall w :: w in s.writing && w in s.executions ==>
      w in s'.executions && s'.executions[w] == s.executions[w]
    ensures HeldOrEnded(s, s')
  {
    forall c | c in Written(s) ensures c in Written(s') {
      var v :| v in s.writing && v in s.executions && s.executions[v].pc.Owning? && s.executions[v].pc.own.call.id == c;
      assert v in s'.writing && s'.executions[v] == s.executions[v];
    }
  }

  lemma GoHeld(cfg: Config, s: State, w: nat, m: Move, s': State)
    requires Gone(cfg, s, w, m) == Some(s') && Survives(s, Go(w, m))
    ensures HeldOrEnded(s, s')
  {
    var p := PlaceAfter(cfg, s, s.executions[w], m).value;
    ArriveFacts(s, w, p);
    assert s'.writing == s.writing;
    RestHeld(s, s');
  }

  lemma HeldStep(cfg: Config, s: State, a: Action, s': State)
    requires Inv(cfg, s) && Writers(cfg, s) && Survives(s, a) && Step(cfg, s, a) == Some(s')
    ensures HeldOrEnded(s, s')
  {
    if a.Commit? {
      CommitHeld(cfg, s, a.w, a.choice, s');
    } else if a.Go? {
      GoHeld(cfg, s, a.w, a.move, s');
    } else {
      if !a.Flush? { OtherWriters(cfg, s, a, s'); }
      Framed(cfg, s, a, s');
      RestHeld(s, s');
    }
  }

  /** A row that executes or has ended stays as it is or ends. */
  ghost predicate StaysOrEnds(before: map<nat, ToolCall>, after: map<nat, ToolCall>) {
    forall c :: c in before && (before[c].status == Executing || before[c].status.Terminal()) ==>
      c in after && (after[c] == before[c] || after[c].status.Terminal())
  }

  lemma PerformStays(cfg: Config, s: State, s': State, w: nat, o: Owned, deed: Deed)
    requires ProtocolInduction.Performs(cfg, s, s', w, o, deed)
    ensures StaysOrEnds(s.db.calls, s'.db.calls)
  {
  }

  lemma CommitStays(cfg: Config, s: State, w: nat, choice: Choice, s': State)
    requires Inv(cfg, s) && Committed(cfg, s, w, choice) == Some(s')
    ensures StaysOrEnds(s.db.calls, s'.db.calls)
  {
    var o, deed := CommitFacts(cfg, s, w, choice);
    PerformStays(cfg, s, s', w, o, deed);
  }

  lemma RestStays(before: map<nat, ToolCall>, after: map<nat, ToolCall>)
    requires forall c :: c in before ==> c in after && after[c] == before[c]
    ensures StaysOrEnds(before, after)
  {
  }

  lemma InsertStays(cfg: Config, s: State, w: nat, id: nat, stamp: int, s': State)
    requires Inserted(cfg, s, w, id, stamp) == Some(s')
    ensures StaysOrEnds(s.db.calls, s'.db.calls)
  {
  }

  lemma OtherStays(cfg: Config, s: State, a: Action, s': State)
    requires Inv(cfg, s) && !OfRecovery(a) && Step(cfg, s, a) == Some(s')
    ensures StaysOrEnds(s.db.calls, s'.db.calls)
  {
    if a.Commit? {
      CommitStays(cfg, s, a.w, a.choice, s');
    } else if a.InsertCall? {
      InsertStays(cfg, s, a.w, a.id, a.stamp, s');
    } else {
      Framed(cfg, s, a, s');
      RestStays(s.db.calls, s'.db.calls);
    }
  }

  /** A step that is not recovery's own. */
  lemma OtherSettles(cfg: Config, s: State, a: Action, s': State, r: nat, c: nat)
    requires Inv(cfg, s) && Settling(cfg, s, r, c) && !OfRecovery(a) && Step(cfg, s, a) == Some(s')
      && HeldOrEnded(s, s')
    ensures Settling(cfg, s', r, c)
  {
    OtherStays(cfg, s, a, s');
    Framed(cfg, s, a, s');
    StaySettles(cfg, s, s', r, c);
  }

  lemma StaySettles(cfg: Config, s: State, s': State, r: nat, c: nat)
    requires Settling(cfg, s, r, c) && StaysOrEnds(s.db.calls, s'.db.calls)
    requires s'.claims == s.claims && s'.recoveries == s.recoveries && HeldOrEnded(s, s')
    ensures Settling(cfg, s', r, c)
  {
  }

  lemma StartSettles(cfg: Config, s: State, q: nat, s': State, r: nat, c: nat)
    requires Settling(cfg, s, r, c) && RecoveryStarted(cfg, s, q) == Some(s') && HeldOrEnded(s, s')
    ensures Settling(cfg, s', r, c)
  {
  }

  lemma ClaimSettles(cfg: Config, s: State, q: nat, batch: set<nat>, s': State, r: nat, c: nat)
    requires Settling(cfg, s, r, c) && BatchClaimed(cfg, s, q, batch) == Some(s') && HeldOrEnded(s, s')
    ensures Settling(cfg, s', r, c)
  {
    ClaimFacts(cfg, s, q, batch, s');
    if q == r && |batch| < cfg.batchSize && !s.db.calls[c].status.Terminal() {
      assert c in s.claims || c in Written(s) || c in Unclaimed(s, s.recoveries[r].cutoff);
    }
  }

  lemma BatchSettles(cfg: Config, s: State, q: nat, s': State, r: nat, c: nat)
    requires Claims(s) && Settling(cfg, s, r, c) && BatchCommitted(cfg, s, q) == Some(s') && HeldOrEnded(s, s')
    ensures Settling(cfg, s', r, c)
  {
    var batch := s.recoveries[q].phase.batch;
    CommitBatchFacts(cfg, s, q, s');
    BatchCounts(cfg, s, q, s');
    BatchShrinks(s.db, batch, s.recoveries[q].now, s.recoveries[r].cutoff);
    assert s'.db.calls[c].status.Terminal() || (c !in batch && c in Stale(s'.db, s.recoveries[r].cutoff));
  }

  lemma RecoverySettles(cfg: Config, s: State, a: Action, s': State, r: nat, c: nat)
    requires Claims(s) && Settling(cfg, s, r, c) && OfRecovery(a) && !a.CrashRecovery? && Step(cfg, s, a) == Some(s')
    requires HeldOrEnded(s, s')
    ensures Settling(cfg, s', r, c)
  {
    match a
    case StartRecovery(q) => StartSettles(cfg, s, q, s', r, c);
    case Claim(q, batch) => ClaimSettles(cfg, s, q, batch, s', r, c);
    case CommitBatch(q) => BatchSettles(cfg, s, q, s', r, c);
  }

  lemma SettlingKept(cfg: Config, s: State, a: Action, s': State, r: nat, c: nat)
    requires Inv(cfg, s) && Settling(cfg, s, r, c) && !a.CrashRecovery? && Step(cfg, s, a) == Some(s')
    requires HeldOrEnded(s, s')
    ensures Settling(cfg, s', r, c)
  {
    if OfRecovery(a) {
      RecoverySettles(cfg, s, a, s', r, c);
    } else {
      OtherSettles(cfg, s, a, s', r, c);
    }
  }

  lemma SettlingStep(cfg: Config, s: State, a: Action, s': State, r: nat, c: nat)
    requires Inv(cfg, s) && Writers(cfg, s) && Settling(cfg, s, r, c) && Step(cfg, s, a) == Some(s')
    requires !a.CrashRecovery? && Survives(s, a)
    ensures Inv(cfg, s') && Writers(cfg, s') && Settling(cfg, s', r, c)
  {
    HeldStep(cfg, s, a, s');
    SettlingKept(cfg, s, a, s', r, c);
    WritersKept(cfg, s, a, s');
    StepKeeps(cfg, s, a, s');
  }

  lemma {:induction false} SettlingRun(cfg: Config, s: State, actions: seq<Action>, r: nat, c: nat)
    requires Inv(cfg, s) && Writers(cfg, s) && Settling(cfg, s, r, c) && Run(cfg, s, actions).Some?
    requires NoRecoveryCrash(actions) && WritersSurvive(cfg, s, actions)
    ensures Inv(cfg, Run(cfg, s, actions).value) && Settling(cfg, Run(cfg, s, actions).value, r, c)
    decreases |actions|
  {
    if actions != [] {
      var next := Step(cfg, s, actions[0]).value;
      TailIsCalm(actions);
      SettlingStep(cfg, s, actions[0], next, r, c);
      SettlingRun(cfg, next, actions[1..], r, c);
    }
  }

  lemma {:induction false} WritersRun(cfg: Config, s: State, actions: seq<Action>)
    requires Writers(cfg, s) && Run(cfg, s, actions).Some?
    ensures Writers(cfg, Run(cfg, s, actions).value)
    decreases |actions|
  {
    if actions != [] {
      var next := Step(cfg, s, actions[0]).value;
      WritersKept(cfg, s, actions[0], next);
      WritersRun(cfg, next, actions[1..]);
    }
  }

  lemma ReachableWriters(cfg: Config, s: State)
    requires Reachable(cfg, s)
    ensures Writers(cfg, s)
  {
    var actions :| Run(cfg, INITIAL, actions) == Some(s);
    WritersRun(cfg, INITIAL, actions);
  }

  /** All rows stale for a recovery run that has not seen the end yet, at whatever
      point of whatever run, have ended terminal once that run has finished, no other
      is under way and no owner's transaction is open, provided no recovery worker
      dies on the way and no owner dies inside the transaction that holds its row. */
  lemma StaleRowsEndTerminal(cfg: Config, s: State, more: seq<Action>, r: nat)
    requires Reachable(cfg, s) && r in s.recoveries && !SawTheEnd(cfg, s.recoveries[r])
    requires Run(cfg, s, more).Some? && NoRecoveryCrash(more) && WritersSurvive(cfg, s, more)
    requires var end := Run(cfg, s, more).value;
      AllOver(end) && Written(end) == {} && r in end.recoveries && end.recoveries[r].phase.Finished?
    ensures var end := Run(cfg, s, more).value;
      forall c :: c in Stale(s.db, s.recoveries[r].cutoff) ==> c in end.db.calls && end.db.calls[c].status.Terminal()
  {
    ReachableInv(cfg, s);
    ReachableWriters(cfg, s);
    forall c | c in Stale(s.db, s.recoveries[r].cutoff)
      ensures c in Run(cfg, s, more).value.db.calls && Run(cfg, s, more).value.db.calls[c].status.Terminal()
    {
      SettlingRun(cfg, s, more, r, c);
      Settled(cfg, Run(cfg, s, more).value, r, c);
    }
  }

  lemma Settled(cfg: Config, s: State, r: nat, c: nat)
    requires Claims(s) && AllOver(s) && Written(s) == {} && Settling(cfg, s, r, c) && s.recoveries[r].phase.Finished?
    ensures s.db.calls[c].status.Terminal()
  {
    NothingInHand(s);
    assert c !in s.claims.Keys;
  }

  ghost predicate NothingStale(s: State) {
    forall r :: r in s.recoveries ==> Stale(s.db, s.recoveries[r].cutoff) == {}
  }

  /** Everybody is done: no recovery run and no execution is under way. */
  ghost predicate AtRest(s: State) { AllOver(s) && forall w :: w in s.executions ==> s.executions[w].pc.Done? }

  /** A run without a crash of recovery leaves no row stale at any recovery run's
      cutoff once these are over. */
  ghost predicate LeavesNothingStale(cfg: Config, actions: seq<Action>) {
    Run(cfg, INITIAL, actions).Some? && NoRecoveryCrash(actions) && AllOver(Run(cfg, INITIAL, actions).value) ==>
      NothingStale(Run(cfg, INITIAL, actions).value)
  }

  /** The same, asked only when everybody is done. */
  ghost predicate RestsWithNothingStale(cfg: Config, actions: seq<Action>) {
    Run(cfg, INITIAL, actions).Some? && NoRecoveryCrash(actions) && AtRest(Run(cfg, INITIAL, actions).value) ==>
      NothingStale(Run(cfg, INITIAL, actions).value)
  }

  lemma NothingStaleIsLeft(cfg: Config, actions: seq<Action>)
    requires Ample(cfg)
    ensures LeavesNothingStale(cfg, actions)
  {
    if Run(cfg, INITIAL, actions).Some? && NoRecoveryCrash(actions) && AllOver(Run(cfg, INITIAL, actions).value) {
      InitiallyInv(cfg);
      SweptRun(cfg, INITIAL, actions);
      NoneDied(cfg, INITIAL, actions);
      AllFinished(cfg, Run(cfg, INITIAL, actions).value);
    }
  }

  ghost predicate Alive(s: State) { forall q :: q in s.recoveries ==> !s.recoveries[q].phase.Died? }

  lemma AliveStep(cfg: Config, s: State, a: Action, s': State)
    requires Alive(s) && !a.CrashRecovery? && Step(cfg, s, a) == Some(s')
    ensures Alive(s')
  {
    if !OfRecovery(a) { Framed(cfg, s, a, s'); }
  }

  lemma {:induction false} NoneDied(cfg: Config, s: State, actions: seq<Action>)
    requires Alive(s) && Run(cfg, s, actions).Some? && NoRecoveryCrash(actions)
    ensures Alive(Run(cfg, s, actions).value)
    decreases |actions|
  {
    if actions != [] {
      var next := Step(cfg, s, actions[0]).value;
      AliveStep(cfg, s, actions[0], next);
      TailIsCalm(actions);
      NoneDied(cfg, next, actions[1..]);
    }
  }

  lemma AllFinished(cfg: Config, s: State)
    requires Claims(s) && Swept(cfg, s) && AllOver(s) && Alive(s)
    ensures forall r :: r in s.recoveries ==> Stale(s.db, s.recoveries[r].cutoff) == {}
  {
    NothingInHand(s);
    forall r | r in s.recoveries ensures Stale(s.db, s.recoveries[r].cutoff) == {} {
      assert SawTheEnd(cfg, s.recoveries[r]);
    }
  }

  // --------------------------------------- when something can be left behind

  /** The owner's last transaction is open and recovery run 0 is in the given phase. */
  ghost predicate Skipped(q: Request, s: State, now: int, o: Owned, cutoff: int, phase: RecoveryPhase) {
    && Chased(q, s, now, o, cutoff, phase) && s.claims == map[] && s.db.calls == map[0 := o.call]
    && s.writing == {0} && Ends(o)
  }

  predicate Ends(o: Owned) { o.phase.Returned? && o.phase.outcome == Overran }

  lemma FlushesTheRow(cfg: Config, q: Request, s: State, now: int, o: Owned, cutoff: int) returns (s': State)
    requires Chased(q, s, now, o, cutoff, Idle) && s.claims == map[] && s.db.calls == map[0 := o.call]
    requires s.writing == {} && Ends(o)
    ensures Step(cfg, s, Flush(0)) == Some(s') && Skipped(q, s', now, o, cutoff, Idle)
  {
    s' := Flushed(cfg, s, 0).value;
  }

  lemma NoRowIsFree(s: State, call: ToolCall, cutoff: int)
    requires s.db.calls == map[call.id := call] && call.id in Written(s)
    ensures Unclaimed(s, cutoff) == {}
  {
  }

  lemma StaysSkipped(q: Request, s: State, s': State, now: int, o: Owned, cutoff: int)
    requires Skipped(q, s, now, o, cutoff, Idle)
    requires s'.executions == s.executions && s'.writing == s.writing && s'.db == s.db && s'.now == s.now
    requires s'.claims == s.claims && s'.recoveries == s.recoveries[0 := s.recoveries[0].(phase := Claimed({}))]
    ensures Skipped(q, s', now, o, cutoff, Claimed({}))
  {
  }

  lemma NothingIsFree(q: Request, s: State, now: int, o: Owned, cutoff: int)
    requires Skipped(q, s, now, o, cutoff, Idle)
    ensures Unclaimed(s, cutoff) == {}
  {
    assert s.executions[0].pc.own.call.id in Written(s);
    NoRowIsFree(s, o.call, cutoff);
  }

  lemma SkipsTheRow(cfg: Config, q: Request, s: State, now: int, o: Owned, cutoff: int) returns (s': State)
    requires Skipped(q, s, now, o, cutoff, Idle) && cfg.batchSize >= 1
    ensures Step(cfg, s, Claim(0, {})) == Some(s') && Skipped(q, s', now, o, cutoff, Claimed({}))
  {
    NothingIsFree(q, s, now, o, cutoff);
    s' := CanClaim(cfg, s, 0, {});
    ClaimLeaves(cfg, s, 0, {}, s');
    ClaimOfNone(cfg, s, 0, s');
    StaysSkipped(q, s, s', now, o, cutoff);
  }

  lemma FindsNothing(cfg: Config, q: Request, s: State, now: int, o: Owned, cutoff: int) returns (s': State)
    requires Skipped(q, s, now, o, cutoff, Claimed({})) && cfg.batchSize >= 1
    ensures Step(cfg, s, CommitBatch(0)) == Some(s') && Skipped(q, s', now, o, cutoff, Finished)
  {
    s' := BatchCommitted(cfg, s, 0).value;
    assert s'.db.calls == s.db.calls;
  }

  /** The owner dies before it commits, and its row stays stale. */
  lemma DiesWriting(cfg: Config, q: Request, s: State, now: int, o: Owned, cutoff: int) returns (s': State)
    requires Skipped(q, s, now, o, cutoff, Finished) && 0 < cutoff
    ensures Step(cfg, s, Go(0, Crash)) == Some(s') && AtRest(s') && !NothingStale(s')
  {
    s' := Arrive(s, 0, Place(Done(Lost, Some(0)), Keep));
    assert Step(cfg, s, Go(0, Crash)) == Some(s');
    assert 0 in s'.db.calls && s'.db.calls[0] == o.call;
    assert 0 in s'.recoveries && s'.recoveries[0].cutoff == cutoff;
    assert 0 in Stale(s'.db, s'.recoveries[0].cutoff);
  }

  /** Below the threshold recovery skips a row whose owner then dies. */
  lemma SkippedForGood(cfg: Config, q: Request, adapter: string) returns (actions: seq<Action>)
    requires adapter in cfg.adapters && cfg.batchSize >= 1 && !Ample(cfg)
    requires RequestIdentity.Encodable(RequestIdentity.IdentityComponents(q.identity))
    ensures !LeavesNothingStale(cfg, actions) && !RestsWithNothingStale(cfg, actions)
  {
    var now := cfg.startLag + cfg.maxTimeout + cfg.postWork;
    var cutoff := now - cfg.staleAfter;
    var s1, o := ReachesEndOfWindow(cfg, q, adapter);
    var s2 := StartsRecovery(cfg, q, s1, SlowTool(cfg, q, adapter), now, o);
    ReachesCalmly(cfg, s1, StartRecovery(0), s2);
    var s3 := FlushesTheRow(cfg, q, s2, now, o, cutoff);
    ReachesCalmly(cfg, s2, Flush(0), s3);
    var s4 := SkipsTheRow(cfg, q, s3, now, o, cutoff);
    ReachesCalmly(cfg, s3, Claim(0, {}), s4);
    var s5 := FindsNothing(cfg, q, s4, now, o, cutoff);
    ReachesCalmly(cfg, s4, CommitBatch(0), s5);
    var s6 := DiesWriting(cfg, q, s5, now, o, cutoff);
    ReachesCalmly(cfg, s5, Go(0, Crash), s6);
    actions :| Run(cfg, INITIAL, actions) == Some(s6) && NoRecoveryCrash(actions);
  }

  /** Without a crash of recovery, finished recovery runs leave nothing stale at their
      cutoffs in every run if and only if calls go stale no sooner than the longest
      window of a live execution ends; and no later moment mends it: the same holds
      when only the runs are asked after which everybody is done. */
  lemma NothingStaleExactly(cfg: Config)
    requires cfg.adapters != {} && cfg.batchSize >= 1
    ensures (forall actions :: LeavesNothingStale(cfg, actions)) <==> Ample(cfg)
    ensures (forall actions :: RestsWithNothingStale(cfg, actions)) <==> Ample(cfg)
  {
    if Ample(cfg) {
      forall actions ensures LeavesNothingStale(cfg, actions) && RestsWithNothingStale(cfg, actions) {
        NothingStaleIsLeft(cfg, actions);
      }
    } else {
      var adapter :| adapter in cfg.adapters;
      var q := OrdinaryRequest();
      var actions := SkippedForGood(cfg, q, adapter);
    }
  }

  // ------------------------------------------------- what is never recovered

  /** The call stopped short of executing and its execution is over. */
  ghost predicate Stranded(s: State, c: nat) {
    && c in s.db.calls && !s.db.calls[c].status.Terminal() && s.db.calls[c].status != Executing
    && c in s.past.maker && s.past.maker[c] in s.executions && s.executions[s.past.maker[c]].pc.Done?
  }

  lemma PerformStrands(cfg: Config, s: State, s': State, w: nat, o: Owned, deed: Deed, c: nat)
    requires ProtocolInduction.Performs(cfg, s, s', w, o, deed) && Stranded(s, c)
    ensures SameRow(s, s', c)
  {
    assert s.past.maker[o.call.id] == w;
    assert o.call.id != c;
  }

  lemma CommitStrands(cfg: Config, s: State, w: nat, choice: Choice, s': State, c: nat)
    requires Inv(cfg, s) && Stranded(s, c) && Committed(cfg, s, w, choice) == Some(s')
    ensures SameRow(s, s', c)
  {
    var o, deed := CommitFacts(cfg, s, w, choice);
    PerformStrands(cfg, s, s', w, o, deed, c);
  }

  lemma BatchStrands(cfg: Config, s: State, r: nat, s': State, c: nat)
    requires Inv(cfg, s) && Stranded(s, c) && BatchCommitted(cfg, s, r) == Some(s')
    ensures SameRow(s, s', c)
  {
    CommitBatchFacts(cfg, s, r, s');
    assert c !in s.recoveries[r].phase.batch;
  }

  lemma InsertStrands(cfg: Config, s: State, w: nat, id: nat, stamp: int, s': State, c: nat)
    requires c in s.db.calls && c in s.past.maker && Inserted(cfg, s, w, id, stamp) == Some(s')
    ensures SameRow(s, s', c)
  {
  }

  lemma DoneStays(cfg: Config, s: State, a: Action, s': State, w: nat)
    requires w in s.executions && s.executions[w].pc.Done? && Step(cfg, s, a) == Some(s')
    ensures w in s'.executions && s'.executions[w].pc.Done?
  {
    Framed(cfg, s, a, s');
    if OfExecution(a) && a.w == w { NothingAfterDone(cfg, s, a, s'); }
  }

  lemma NothingAfterDone(cfg: Config, s: State, a: Action, s': State)
    requires OfExecution(a) && Step(cfg, s, a) == Some(s')
    ensures !(a.w in s.executions && s.executions[a.w].pc.Done?)
  {
  }

  /** Neither an insert nor a commit of anyone. */
  lemma RestStrands(cfg: Config, s: State, a: Action, s': State, c: nat)
    requires Stranded(s, c) && Step(cfg, s, a) == Some(s') && !a.InsertCall? && !a.Commit? && !a.CommitBatch?
    ensures SameRow(s, s', c)
  {
    Framed(cfg, s, a, s');
  }

  /** The call's row and maker are as before. */
  ghost predicate SameRow(s: State, s': State, c: nat) {
    && c in s.db.calls && c in s'.db.calls && s'.db.calls[c] == s.db.calls[c]
    && c in s.past.maker && c in s'.past.maker && s'.past.maker[c] == s.past.maker[c]
  }

  lemma StrandedRow(cfg: Config, s: State, a: Action, s': State, c: nat)
    requires Inv(cfg, s) && Stranded(s, c) && Step(cfg, s, a) == Some(s')
    ensures SameRow(s, s', c)
  {
    match a
    case InsertCall(w, id, stamp) => InsertStrands(cfg, s, w, id, stamp, s', c);
    case Commit(w, choice) => CommitStrands(cfg, s, w, choice, s', c);
    case CommitBatch(r) => BatchStrands(cfg, s, r, s', c);
    case _ => RestStrands(cfg, s, a, s', c);
  }

  lemma StrandedStays(cfg: Config, s: State, a: Action, s': State, c: nat)
    requires Inv(cfg, s) && Stranded(s, c) && Step(cfg, s, a) == Some(s')
    ensures Stranded(s', c) && s'.db.calls[c] == s.db.calls[c]
  {
    StrandedRow(cfg, s, a, s', c);
    DoneStays(cfg, s, a, s', s.past.maker[c]);
  }

  /** Whatever anybody does later, recovery included, a stranded call's row never
      changes, and a repeated request is told that it is in progress. */
  lemma {:induction false} StrandedForever(cfg: Config, s: State, more: seq<Action>, c: nat)
    requires Inv(cfg, s) && Stranded(s, c) && Run(cfg, s, more).Some?
    ensures var end := Run(cfg, s, more).value;
      && Stranded(end, c) && end.db.calls[c] == s.db.calls[c]
      && forall request, listed :: ProtocolReplay.Repeats(cfg, end, c, request, listed) ==>
           AfterLookup(cfg, end.db, request, listed) == Some(Fails(ExecutionInProgress))
    decreases |more|
  {
    if more == [] {
      forall request, listed | ProtocolReplay.Repeats(cfg, s, c, request, listed)
        ensures AfterLookup(cfg, s.db, request, listed) == Some(Fails(ExecutionInProgress))
      {
        StrandedReplays(cfg, s, c, request, listed);
      }
    } else {
      var next := Step(cfg, s, more[0]).value;
      StrandedStays(cfg, s, more[0], next, c);
      StepKeeps(cfg, s, more[0], next);
      StrandedForever(cfg, next, more[1..], c);
    }
  }

  lemma StrandedReplays(cfg: Config, s: State, c: nat, request: Request, listed: seq<RiskEngine.RiskFlag>)
    requires Inv(cfg, s) && Stranded(s, c) && ProtocolReplay.Repeats(cfg, s, c, request, listed)
    ensures AfterLookup(cfg, s.db, request, listed) == Some(Fails(ExecutionInProgress))
  {
  }

  /** A rerun at a cutoff where nothing is stale, now or after any continuation,
      claims nothing, moves nothing and returns 0. */
  lemma RerunReturnsNothing(cfg: Config, s: State, actions: seq<Action>, r: nat, batch: set<nat>, cutoff: int)
    requires Inv(cfg, s) && Past(cfg, s, cutoff) && Stale(s.db, cutoff) == {} && Run(cfg, s, actions).Some?
    requires var later := Run(cfg, s, actions).value;
      && r in later.recoveries && later.recoveries[r].cutoff == cutoff && later.recoveries[r].count == 0
      && BatchClaimed(cfg, later, r, batch).Some?
    requires cfg.batchSize >= 1
    ensures batch == {}
    ensures var later := Run(cfg, s, actions).value;
      var claimed := BatchClaimed(cfg, later, r, batch).value;
      && BatchCommitted(cfg, claimed, r).Some?
      && var done := BatchCommitted(cfg, claimed, r).value;
         && done.recoveries[r].phase == Finished && done.recoveries[r].count == 0 && done.db.calls == later.db.calls
  {
    StaleOnlyShrinksInRuns(cfg, s, actions, cutoff);
    NothingToClaim(cfg, Run(cfg, s, actions).value, r, batch);
  }

  lemma NothingToClaim(cfg: Config, s: State, r: nat, batch: set<nat>)
    requires r in s.recoveries && Stale(s.db, s.recoveries[r].cutoff) == {} && s.recoveries[r].count == 0
    requires BatchClaimed(cfg, s, r, batch).Some? && cfg.batchSize >= 1
    ensures batch == {}
    ensures var claimed := BatchClaimed(cfg, s, r, batch).value;
      && BatchCommitted(cfg, claimed, r).Some?
      && var done := BatchCommitted(cfg, claimed, r).value;
         && done.recoveries[r].phase == Finished && done.recoveries[r].count == 0 && done.db.calls == s.db.calls
  {
    assert Unclaimed(s, s.recoveries[r].cutoff) == {};
    assert batch == {};
    var done := BatchCommitted(cfg, BatchClaimed(cfg, s, r, batch).value, r).value;
    assert done.db.calls == s.db.calls;
  }
}
