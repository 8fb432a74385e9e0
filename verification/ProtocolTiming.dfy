/** With a stale threshold beyond the longest window of a live execution, recovery
    never takes a live call: terminal rows are final and every call's audit events
    form a word of the language. */
module ProtocolTiming {
  import opened Options
  import opened RiskEngine
  import opened ToolCalls
  import opened AuditTrail
  import opened Store
  import opened Protocol
  import opened ProtocolSafety
  import opened ProtocolInduction
  import opened ProtocolFrames
  import Rules = RuleEngine

  /** The condition on the settings. */
  predicate Ample(cfg: Config) { cfg.staleAfter >= cfg.startLag + cfg.maxTimeout + cfg.postWork }

  lemma TimeoutIsCapped(cfg: Config, tool: Tool)
    ensures TimeoutFor(cfg, tool) <= cfg.maxTimeout
  {
  }

  // ------------------------------------------------------------- windows

  predicate Live(pc: Pc) { pc.Owning? && pc.own.call.status == Executing }

  /** Where the phases of a live execution lie after its executing stamp. */
  predicate InWindow(cfg: Config, o: Owned) {
    match o.phase
    case Deciding => true
    case Running(since) => since <= o.call.updated + cfg.startLag
    case Returned(at, _) => at <= o.call.updated + cfg.startLag + cfg.maxTimeout
    case Finishing(at, _) => at <= o.call.updated + cfg.startLag + cfg.maxTimeout
  }

  /** A live execution is in time, and its row is its own and unclaimed. */
  ghost predicate LiveOk(cfg: Config, s: State, o: Owned) {
    && s.now <= Deadline(cfg, o) && InWindow(cfg, o)
    && o.call.id in s.db.calls && s.db.calls[o.call.id] == o.call && o.call.id !in s.claims
  }

  ghost predicate Timely(cfg: Config, s: State) {
    forall w :: w in s.executions && Live(s.executions[w].pc) ==> LiveOk(cfg, s, s.executions[w].pc.own)
  }

  ghost predicate Cutoffs(cfg: Config, s: State) {
    forall r :: r in s.recoveries ==> s.recoveries[r].cutoff == s.recoveries[r].now - cfg.staleAfter
  }

  /** A live execution's row is not yet stale for anyone. */
  lemma LiveIsFresh(cfg: Config, s: State, o: Owned)
    requires Ample(cfg) && LiveOk(cfg, s, o)
    ensures s.now <= o.call.updated + cfg.staleAfter
  {
    TimeoutIsCapped(cfg, o.tool);
  }

  // -------------------------------------------------- steps keep it timely

  lemma GoTimely(cfg: Config, s: State, w: nat, m: Move, s': State)
    requires Timely(cfg, s) && Gone(cfg, s, w, m) == Some(s')
    ensures Timely(cfg, s')
  {
    var p := PlaceAfter(cfg, s, s.executions[w], m).value;
    if Live(p.pc) { OwnerMoveTimely(cfg, s, s.executions[w].pc.own, m); }
    ArriveFacts(s, w, p);
    MovedTimely(cfg, s, s', w, p);
  }

  lemma OwnerMoveTimely(cfg: Config, s: State, o: Owned, m: Move)
    requires OwnerMove(cfg, s, o, m).Some? && OwnerMove(cfg, s, o, m).value.Owning?
    requires LiveOk(cfg, s, o)
    ensures LiveOk(cfg, s, OwnerMove(cfg, s, o, m).value.own)
  {
    TimeoutIsCapped(cfg, o.tool);
  }

  lemma MovedTimely(cfg: Config, s: State, s': State, w: nat, p: Place)
    requires Timely(cfg, s) && Arrived(s, s', w, p)
    requires Live(p.pc) ==> LiveOk(cfg, s, p.pc.own)
    ensures Timely(cfg, s')
  {
    forall v | v in s'.executions && Live(s'.executions[v].pc) ensures LiveOk(cfg, s', s'.executions[v].pc.own) {
      if v != w { assert LiveOk(cfg, s, s.executions[v].pc.own); }
    }
  }

  /** Everyone but one execution is where it was, on an unchanged row. */
  ghost predicate OnlyMoves(s: State, s': State, w: nat, id: nat) {
    && s'.now == s.now && s'.claims == s.claims && w in s'.executions
    && (forall v :: v in s'.executions && v != w ==> v in s.executions && s'.executions[v] == s.executions[v])
    && (forall c :: c in s.db.calls && c != id ==> c in s'.db.calls && s'.db.calls[c] == s.db.calls[c])
  }

  lemma OthersTimely(cfg: Config, s: State, s': State, w: nat, id: nat)
    requires Timely(cfg, s) && OnlyMoves(s, s', w, id)
    requires forall v :: v in s.executions && v != w && s.executions[v].pc.Owning? ==>
      s.executions[v].pc.own.call.id != id
    requires Live(s'.executions[w].pc) ==> LiveOk(cfg, s', s'.executions[w].pc.own)
    ensures Timely(cfg, s')
  {
    forall v | v in s'.executions && Live(s'.executions[v].pc) ensures LiveOk(cfg, s', s'.executions[v].pc.own) {
      if v != w { assert LiveOk(cfg, s, s.executions[v].pc.own); }
    }
  }

  /** No other execution owns the call an owner is working on. */
  lemma SoleOwner(cfg: Config, s: State, w: nat, o: Owned)
    requires Owners(cfg, s) && w in s.executions && s.executions[w].pc == Owning(o)
    ensures forall v :: v in s.executions && v != w && s.executions[v].pc.Owning? ==>
      s.executions[v].pc.own.call.id != o.call.id
  {
    assert OwnerOk(cfg, s, w, s.executions[w].request, o);
    forall v | v in s.executions && v != w && s.executions[v].pc.Owning?
        ensures s.executions[v].pc.own.call.id != o.call.id {
      assert OwnerOk(cfg, s, v, s.executions[v].request, s.executions[v].pc.own);
    }
  }

  lemma CommitTimely(cfg: Config, s: State, w: nat, choice: Choice, s': State)
    requires Inv(cfg, s) && Timely(cfg, s) && Committed(cfg, s, w, choice) == Some(s')
    ensures Timely(cfg, s')
  {
    var o, deed := CommitFacts(cfg, s, w, choice);
    SoleOwner(cfg, s, w, o);
    StartedInTime(cfg, s, o, choice);
    PerformTimely(cfg, s, s', w, o, deed);
  }

  lemma StartedInTime(cfg: Config, s: State, o: Owned, choice: Choice)
    requires DeedOf(cfg, s.db, o, choice).Some? && (choice.Start? ==> s.now <= choice.stamp + cfg.startLag)
    ensures var deed := DeedOf(cfg, s.db, o, choice).value;
      Live(deed.next) ==> deed.next.own.phase == Deciding && s.now <= deed.writes.call.updated + cfg.startLag
  {
  }

  lemma PerformTimely(cfg: Config, s: State, s': State, w: nat, o: Owned, deed: Deed)
    requires ProtocolInduction.Performs(cfg, s, s', w, o, deed) && Timely(cfg, s)
    requires forall v :: v in s.executions && v != w && s.executions[v].pc.Owning? ==>
      s.executions[v].pc.own.call.id != o.call.id
    requires Live(deed.next) ==> deed.next.own.phase == Deciding && s.now <= deed.writes.call.updated + cfg.startLag
    ensures Timely(cfg, s')
  {
    OthersTimely(cfg, s, s', w, o.call.id);
  }

  lemma InvokeTimely(cfg: Config, s: State, w: nat, s': State)
    requires Timely(cfg, s) && Invoked(cfg, s, w) == Some(s')
    ensures Timely(cfg, s')
  {
    assert LiveOk(cfg, s, s.executions[w].pc.own);
    forall v | v in s'.executions && Live(s'.executions[v].pc) ensures LiveOk(cfg, s', s'.executions[v].pc.own) {
      if v != w { assert LiveOk(cfg, s, s.executions[v].pc.own); }
    }
  }

  lemma InsertTimely(cfg: Config, s: State, w: nat, id: nat, stamp: int, s': State)
    requires Timely(cfg, s) && Inserted(cfg, s, w, id, stamp) == Some(s')
    ensures Timely(cfg, s')
  {
    forall v | v in s'.executions && Live(s'.executions[v].pc) ensures LiveOk(cfg, s', s'.executions[v].pc.own) {
      assert v != w && LiveOk(cfg, s, s.executions[v].pc.own);
    }
  }

  lemma SubmitTimely(cfg: Config, s: State, w: nat, request: Request, s': State)
    requires Timely(cfg, s) && Submitted(s, w, request) == Some(s')
    ensures Timely(cfg, s')
  {
    forall v | v in s'.executions && Live(s'.executions[v].pc) ensures LiveOk(cfg, s', s'.executions[v].pc.own) {
      assert v != w && LiveOk(cfg, s, s.executions[v].pc.own);
    }
  }

  /** A claim reaches no live row: this is where the threshold matters. */
  lemma ClaimTimely(cfg: Config, s: State, r: nat, batch: set<nat>, s': State)
    requires Ample(cfg) && Timely(cfg, s) && Cutoffs(cfg, s) && Claims(s) && Locks(s, s', r, batch)
    requires s'.executions == s.executions
    ensures Timely(cfg, s')
  {
    forall v | v in s'.executions && Live(s'.executions[v].pc) ensures LiveOk(cfg, s', s'.executions[v].pc.own) {
      var o := s.executions[v].pc.own;
      assert LiveOk(cfg, s, o);
      LiveIsFresh(cfg, s, o);
      assert o.call.id !in Stale(s.db, s.recoveries[r].cutoff);
    }
  }

  lemma BatchTimely(cfg: Config, s: State, s': State, r: nat, batch: set<nat>)
    requires Timely(cfg, s) && Claims(s) && Recovers(cfg, s, s', r, batch)
    ensures Timely(cfg, s')
  {
    forall v | v in s'.executions && Live(s'.executions[v].pc) ensures LiveOk(cfg, s', s'.executions[v].pc.own) {
      var o := s.executions[v].pc.own;
      assert LiveOk(cfg, s, o);
      assert o.call.id in batch ==> InHand(s.recoveries, r, o.call.id);
    }
  }

  /** Nothing a live execution depends on changed, but the time it may have. */
  lemma RestTimely(cfg: Config, s: State, s': State)
    requires Timely(cfg, s) && s'.executions == s.executions && s'.db.calls == s.db.calls
    requires forall c :: c in s'.claims ==> c in s.claims
    requires s'.now == s.now || MayReach(cfg, s, s'.now)
    ensures Timely(cfg, s')
  {
    forall v | v in s'.executions && Live(s'.executions[v].pc) ensures LiveOk(cfg, s', s'.executions[v].pc.own) {
      assert LiveOk(cfg, s, s.executions[v].pc.own);
    }
  }

  lemma CutoffsKept(cfg: Config, s: State, a: Action, s': State)
    requires Cutoffs(cfg, s) && Step(cfg, s, a) == Some(s')
    ensures Cutoffs(cfg, s')
  {
    Framed(cfg, s, a, s');
    match a
    case StartRecovery(r) => StartRuns(cfg, s, r, s');
    case Claim(r, batch) => ClaimRuns(cfg, s, r, batch, s');
    case CommitBatch(r) => BatchRuns(cfg, s, r, s');
    case CrashRecovery(r) => CrashRuns(s, r, s');
    case _ =>
  }

  lemma StartRuns(cfg: Config, s: State, r: nat, s': State)
    requires Cutoffs(cfg, s) && RecoveryStarted(cfg, s, r) == Some(s')
    ensures Cutoffs(cfg, s')
  {
  }

  lemma ClaimRuns(cfg: Config, s: State, r: nat, batch: set<nat>, s': State)
    requires BatchClaimed(cfg, s, r, batch) == Some(s')
    ensures SameCutoffs(s, s')
  {
  }

  ghost predicate SameCutoffs(s: State, s': State) {
    forall q :: q in s'.recoveries ==>
      && q in s.recoveries && s'.recoveries[q].cutoff == s.recoveries[q].cutoff
      && s'.recoveries[q].now == s.recoveries[q].now
  }

  lemma BatchRuns(cfg: Config, s: State, r: nat, s': State)
    requires BatchCommitted(cfg, s, r) == Some(s')
    ensures SameCutoffs(s, s')
  {
  }

  lemma CrashRuns(s: State, r: nat, s': State)
    requires RecoveryCrashed(s, r) == Some(s')
    ensures SameCutoffs(s, s')
  {
  }

  lemma RecoveryTimely(cfg: Config, s: State, a: Action, s': State)
    requires Ample(cfg) && Inv(cfg, s) && Timely(cfg, s) && Cutoffs(cfg, s)
    requires Step(cfg, s, a) == Some(s') && OfRecovery(a)
    ensures Timely(cfg, s')
  {
    Framed(cfg, s, a, s');
    match a
    case StartRecovery(r) => RestTimely(cfg, s, s');
    case Claim(r, batch) =>
      ClaimFacts(cfg, s, r, batch, s');
      ClaimTimely(cfg, s, r, batch, s');
    case CommitBatch(r) =>
      CommitBatchFacts(cfg, s, r, s');
      BatchTimely(cfg, s, s', r, s.recoveries[r].phase.batch);
    case CrashRecovery(r) =>
      CrashFrees(s, r, s');
      RestTimely(cfg, s, s');
  }

  lemma CrashFrees(s: State, r: nat, s': State)
    requires RecoveryCrashed(s, r) == Some(s')
    ensures forall c :: c in s'.claims ==> c in s.claims
  {
  }

  lemma ExecutionTimely(cfg: Config, s: State, a: Action, s': State)
    requires Inv(cfg, s) && Timely(cfg, s) && Step(cfg, s, a) == Some(s') && OfExecution(a)
    ensures Timely(cfg, s')
  {
    match a
    case Submit(w, request) => SubmitTimely(cfg, s, w, request, s');
    case Go(w, m) => GoTimely(cfg, s, w, m, s');
    case InsertCall(w, id, stamp) => InsertTimely(cfg, s, w, id, stamp, s');
    case Commit(w, choice) => CommitTimely(cfg, s, w, choice, s');
    case Flush(w) => RestTimely(cfg, s, s');
    case Invoke(w) => InvokeTimely(cfg, s, w, s');
  }

  lemma TickReaches(cfg: Config, s: State, d: nat, s': State)
    requires Ticked(cfg, s, d) == Some(s')
    ensures MayReach(cfg, s, s'.now)
  {
  }

  lemma TimelyKept(cfg: Config, s: State, a: Action, s': State)
    requires Ample(cfg) && Inv(cfg, s) && Timely(cfg, s) && Cutoffs(cfg, s) && Step(cfg, s, a) == Some(s')
    ensures Timely(cfg, s')
  {
    if OfExecution(a) {
      ExecutionTimely(cfg, s, a, s');
    } else if OfRecovery(a) {
      RecoveryTimely(cfg, s, a, s');
    } else {
      Framed(cfg, s, a, s');
      if a.Tick? { TickReaches(cfg, s, a.d, s'); }
      RestTimely(cfg, s, s');
    }
  }

  // -------------------------------------------------------- audit trails

  /** Every call's events form a word whose story fits the call's status. */
  ghost predicate Trails(db: Db) {
    forall c :: c in db.calls ==> c in db.trail && Tells(db.trail[c], db.calls[c].status)
  }

  lemma Unchanged(word: seq<Event>)
    ensures word + [] == word
  {
  }

  lemma BareFailure()
    ensures OutcomeWord(Ended(false, 0, false, false)) == [CallFailed]
  {
  }

  /** Whatever an owner's transaction appends continues the story to its new status. */
  lemma DeedTells(cfg: Config, db: Db, o: Owned, choice: Choice, word: seq<Event>)
    requires DeedOf(cfg, db, o, choice).Some? && Tells(word, o.call.status)
    ensures var writes := DeedOf(cfg, db, o, choice).value.writes; Tells(word + writes.events, writes.call.status)
  {
    match choice
    case Validate(stamp) =>
      Unchanged(word);
      ValidatingTells(word);
    case RejectCall(stamp, reason) => RejectionTells(word);
    case Judge(_, _, _, _, _, _) => JudgeTells(cfg, db, o, choice, word);
    case Start(stamp) => StartTells(word);
    case RefuseAdapter(stamp) =>
      BareFailure();
      OutcomeTells(word, Ended(false, 0, false, false), Failed);
    case TimeOut(stamp) => OutcomeTells(word, RanOut, TimedOut);
    case Fail(stamp, code, error) =>
      BareFailure();
      OutcomeTells(word, Ended(false, 0, false, false), Failed);
    case FinishInvalid(_, _, _) => InvalidTells(o, choice, word);
    case Finish(stamp) => FinishTells(cfg, o, stamp, word);
  }

  lemma JudgeTells(cfg: Config, db: Db, o: Owned, c: Choice, word: seq<Event>)
    requires c.Judge? && JudgeDeed(cfg, db, o, c).Some? && Tells(word, o.call.status)
    ensures var writes := JudgeDeed(cfg, db, o, c).value.writes; Tells(word + writes.events, writes.call.status)
  {
    EvaluationTells(word, c.assessment.flags != [] || c.action == Rules.Flag, |c.reported|, c.action == Rules.Block);
  }

  lemma InvalidTells(o: Owned, c: Choice, word: seq<Event>)
    requires c.FinishInvalid? && InvalidDeed(o, c).Some? && Tells(word, o.call.status)
    ensures var writes := InvalidDeed(o, c).value.writes; Tells(word + writes.events, writes.call.status)
  {
    var decision := if c.assessment.flags != [] then Flag else o.call.decision;
    OutcomeTells(word, Ended(c.redacted, 0, c.assessment.flags != [] || decision == Flag, false), Failed);
  }

  lemma FinishTells(cfg: Config, o: Owned, stamp: int, word: seq<Event>)
    requires FinishDeed(o, stamp).Some? && Tells(word, o.call.status)
    ensures var writes := FinishDeed(o, stamp).value.writes; Tells(word + writes.events, writes.call.status)
  {
    var plan := o.phase.plan;
    OutcomeTells(word, Ended(plan.redacted, |plan.names|, (if plan.marked then Flag else o.call.decision) == Flag,
        true), Succeeded);
  }

  lemma WriteTrails(db: Db, w: Writes)
    requires Trails(db) && w.call.id in db.calls && w.call.id in db.flags
    requires Tells(db.trail[w.call.id] + w.events, w.call.status)
    ensures Trails(Write(db, w))
  {
  }

  /** A live or undecided owner's row is its own copy. */
  lemma OwnRow(cfg: Config, s: State, w: nat, o: Owned)
    requires Owners(cfg, s) && Timely(cfg, s) && w in s.executions && s.executions[w].pc == Owning(o)
    ensures o.call.id in s.db.calls && s.db.calls[o.call.id] == o.call && !o.call.status.Terminal()
  {
    assert OwnerOk(cfg, s, w, s.executions[w].request, o);
    if o.call.status == Executing { assert LiveOk(cfg, s, o); }
  }

  lemma CommitTrails(cfg: Config, s: State, w: nat, choice: Choice, s': State)
    requires Inv(cfg, s) && Timely(cfg, s) && Trails(s.db) && Committed(cfg, s, w, choice) == Some(s')
    ensures Trails(s'.db)
  {
    var o, deed := CommitFacts(cfg, s, w, choice);
    OwnRow(cfg, s, w, o);
    DeedTells(cfg, s.db, o, choice, s.db.trail[o.call.id]);
    WriteTrails(s.db, deed.writes);
  }

  lemma InsertTrails(cfg: Config, s: State, w: nat, id: nat, stamp: int, s': State)
    requires Trails(s.db) && Inserted(cfg, s, w, id, stamp) == Some(s')
    ensures Trails(s'.db)
  {
    ReceivedTells();
  }

  lemma RecoverTrails(db: Db, batch: set<nat>, now: int)
    requires Trails(db) && forall c :: c in batch ==> c in db.calls && c in db.trail && db.calls[c].status == Executing
    ensures Trails(RecoverAll(db, batch, now))
  {
    var after := RecoverAll(db, batch, now);
    forall c | c in after.calls ensures c in after.trail && Tells(after.trail[c], after.calls[c].status) {
      if c in batch { OutcomeTells(db.trail[c], Interrupted, Failed); }
    }
  }

  lemma BatchTrails(cfg: Config, s: State, r: nat, s': State)
    requires Claims(s) && Trails(s.db) && BatchCommitted(cfg, s, r) == Some(s')
    ensures Trails(s'.db)
  {
    CommitBatchFacts(cfg, s, r, s');
    RecoverTrails(s.db, s.recoveries[r].phase.batch, s.recoveries[r].now);
  }

  lemma TrailsKept(cfg: Config, s: State, a: Action, s': State)
    requires Inv(cfg, s) && Timely(cfg, s) && Trails(s.db) && Step(cfg, s, a) == Some(s')
    ensures Trails(s'.db)
  {
    Framed(cfg, s, a, s');
    match a
    case InsertCall(w, id, stamp) => InsertTrails(cfg, s, w, id, stamp, s');
    case Commit(w, choice) => CommitTrails(cfg, s, w, choice, s');
    case CommitBatch(r) => BatchTrails(cfg, s, r, s');
    case _ =>
  }

  // ------------------------------------------------------ terminal rows stay

  /** A terminal row is the same afterwards. */
  ghost predicate Final(before: map<nat, ToolCall>, after: map<nat, ToolCall>) {
    forall c :: c in before && before[c].status.Terminal() ==> c in after && after[c] == before[c]
  }

  lemma CommitFinal(cfg: Config, s: State, w: nat, choice: Choice, s': State)
    requires Inv(cfg, s) && Timely(cfg, s) && Committed(cfg, s, w, choice) == Some(s')
    ensures Final(s.db.calls, s'.db.calls)
  {
    var o, deed := CommitFacts(cfg, s, w, choice);
    OwnRow(cfg, s, w, o);
    PerformFinal(cfg, s, s', w, o, deed);
  }

  lemma PerformFinal(cfg: Config, s: State, s': State, w: nat, o: Owned, deed: Deed)
    requires ProtocolInduction.Performs(cfg, s, s', w, o, deed) && s.db.calls[o.call.id] == o.call
    ensures Final(s.db.calls, s'.db.calls)
  {
  }

  lemma BatchFinal(cfg: Config, s: State, r: nat, s': State)
    requires Claims(s) && BatchCommitted(cfg, s, r) == Some(s')
    ensures Final(s.db.calls, s'.db.calls)
  {
    CommitBatchFacts(cfg, s, r, s');
  }

  lemma InsertFinal(cfg: Config, s: State, w: nat, id: nat, stamp: int, s': State)
    requires Inserted(cfg, s, w, id, stamp) == Some(s')
    ensures Final(s.db.calls, s'.db.calls)
  {
  }

  lemma StepFinal(cfg: Config, s: State, a: Action, s': State)
    requires Inv(cfg, s) && Timely(cfg, s) && Step(cfg, s, a) == Some(s')
    ensures Final(s.db.calls, s'.db.calls)
  {
    Framed(cfg, s, a, s');
    match a
    case InsertCall(w, id, stamp) => InsertFinal(cfg, s, w, id, stamp, s');
    case Commit(w, choice) => CommitFinal(cfg, s, w, choice, s');
    case CommitBatch(r) => BatchFinal(cfg, s, r, s');
    case _ =>
  }

  // -------------------------------------------------------------- all runs

  ghost predicate TimedInv(cfg: Config, s: State) {
    Inv(cfg, s) && Timely(cfg, s) && Cutoffs(cfg, s) && Trails(s.db)
  }

  lemma TimedStep(cfg: Config, s: State, a: Action, s': State)
    requires Ample(cfg) && TimedInv(cfg, s) && Step(cfg, s, a) == Some(s')
    ensures TimedInv(cfg, s') && Final(s.db.calls, s'.db.calls)
  {
    StepKeeps(cfg, s, a, s');
    TimelyKept(cfg, s, a, s');
    CutoffsKept(cfg, s, a, s');
    TrailsKept(cfg, s, a, s');
    StepFinal(cfg, s, a, s');
  }

  /** No persisted terminal status ever changes, in any run. */
  lemma {:induction false} TerminalRowsAreFinal(cfg: Config, s: State, actions: seq<Action>)
    requires Ample(cfg) && TimedInv(cfg, s) && Run(cfg, s, actions).Some?
    ensures TimedInv(cfg, Run(cfg, s, actions).value)
    ensures Final(s.db.calls, Run(cfg, s, actions).value.db.calls)
    decreases |actions|
  {
    if actions != [] {
      var next := Step(cfg, s, actions[0]).value;
      TimedStep(cfg, s, actions[0], next);
      TerminalRowsAreFinal(cfg, next, actions[1..]);
    }
  }

  lemma TimedReachable(cfg: Config, s: State)
    requires Ample(cfg) && Reachable(cfg, s)
    ensures TimedInv(cfg, s)
  {
    var actions :| Run(cfg, INITIAL, actions) == Some(s);
    InitiallyInv(cfg);
    TerminalRowsAreFinal(cfg, INITIAL, actions);
  }

  /** In every reachable state each call's audit events are a word of the language,
      the word decides whether and how the call ended, and the call is terminal
      exactly when the word has its one terminal event. */
  lemma AuditTrailDecides(cfg: Config, s: State, c: nat)
    requires Ample(cfg) && Reachable(cfg, s) && c in s.db.calls
    ensures c in s.db.trail && Tells(s.db.trail[c], s.db.calls[c].status)
    ensures Decides(s.db.trail[c]) ==
      if s.db.calls[c].status.Terminal() then Some(s.db.calls[c].status) else None
    ensures TerminalEvents(s.db.trail[c]) == if s.db.calls[c].status.Terminal() then 1 else 0
  {
    TimedReachable(cfg, s);
    WordDecides(s.db.trail[c], s.db.calls[c].status);
  }

  /** Recovery never holds a call whose execution is still at work on it. */
  lemma RecoverySparesTheLiving(cfg: Config, s: State, w: nat, o: Owned)
    requires Ample(cfg) && Reachable(cfg, s) && w in s.executions && s.executions[w].pc == Owning(o)
    ensures o.call.id !in s.claims && o.call.id in s.db.calls && s.db.calls[o.call.id] == o.call
  {
    TimedReachable(cfg, s);
    OwnRow(cfg, s, w, o);
    NotClaimed(cfg, s, w, o);
  }

  lemma NotClaimed(cfg: Config, s: State, w: nat, o: Owned)
    requires Timely(cfg, s) && Claims(s) && w in s.executions && s.executions[w].pc == Owning(o)
    requires o.call.id in s.db.calls && s.db.calls[o.call.id] == o.call
    ensures o.call.id !in s.claims
  {
    ClaimedAreExecuting(s);
    assert o.call.status == Executing ==> Live(s.executions[w].pc);
  }

  lemma ClaimedAreExecuting(s: State)
    requires Claims(s)
    ensures forall c :: c in s.claims ==> c in s.db.calls && s.db.calls[c].status == Executing
  {
    forall c | c in s.claims ensures c in s.db.calls && s.db.calls[c].status == Executing {
      assert InHand(s.recoveries, s.claims[c], c);
    }
  }

  // ------------------------------------------------------ windows close

  /** Nobody outstays its deadline. */
  ghost predicate Punctual(cfg: Config, s: State) {
    forall w :: w in s.executions && Live(s.executions[w].pc) ==> s.now <= Deadline(cfg, s.executions[w].pc.own)
  }

  lemma MovePunctual(cfg: Config, s: State, o: Owned, m: Move)
    requires OwnerMove(cfg, s, o, m).Some? && OwnerMove(cfg, s, o, m).value.Owning? && s.now <= Deadline(cfg, o)
    ensures s.now <= Deadline(cfg, OwnerMove(cfg, s, o, m).value.own)
  {
  }

  lemma GoPunctual(cfg: Config, s: State, w: nat, m: Move, s': State)
    requires Punctual(cfg, s) && Gone(cfg, s, w, m) == Some(s')
    ensures Punctual(cfg, s')
  {
    var p := PlaceAfter(cfg, s, s.executions[w], m).value;
    if Live(p.pc) { MovePunctual(cfg, s, s.executions[w].pc.own, m); }
    ArriveFacts(s, w, p);
  }

  lemma CommitPunctual(cfg: Config, s: State, w: nat, choice: Choice, s': State)
    requires Inv(cfg, s) && Punctual(cfg, s) && Committed(cfg, s, w, choice) == Some(s')
    ensures Punctual(cfg, s')
  {
    var o, deed := CommitFacts(cfg, s, w, choice);
    StartedInTime(cfg, s, o, choice);
    PerformPunctual(cfg, s, s', w, o, deed);
  }

  lemma PerformPunctual(cfg: Config, s: State, s': State, w: nat, o: Owned, deed: Deed)
    requires ProtocolInduction.Performs(cfg, s, s', w, o, deed) && Punctual(cfg, s)
    requires Live(deed.next) ==> s.now <= Deadline(cfg, deed.next.own)
    ensures Punctual(cfg, s')
  {
    forall v | v in s'.executions && Live(s'.executions[v].pc)
      ensures s'.now <= Deadline(cfg, s'.executions[v].pc.own)
    {
      if v != w { assert s'.executions[v] == s.executions[v]; }
    }
  }

  lemma OthersPunctual(cfg: Config, s: State, a: Action, s': State)
    requires Punctual(cfg, s) && Step(cfg, s, a) == Some(s')
    requires a.Submit? || a.InsertCall? || a.Flush? || a.Invoke? || a.Tick?
    ensures Punctual(cfg, s')
  {
  }

  lemma PunctualKept(cfg: Config, s: State, a: Action, s': State)
    requires Inv(cfg, s) && Punctual(cfg, s) && Step(cfg, s, a) == Some(s')
    ensures Punctual(cfg, s')
  {
    if a.Go? {
      GoPunctual(cfg, s, a.w, a.move, s');
    } else if a.Commit? {
      CommitPunctual(cfg, s, a.w, a.choice, s');
    } else if a.Submit? || a.InsertCall? || a.Flush? || a.Invoke? || a.Tick? {
      OthersPunctual(cfg, s, a, s');
    } else {
      Framed(cfg, s, a, s');
    }
  }

  lemma {:induction false} PunctualRun(cfg: Config, s: State, actions: seq<Action>)
    requires Inv(cfg, s) && Punctual(cfg, s) && Run(cfg, s, actions).Some?
    ensures Punctual(cfg, Run(cfg, s, actions).value)
    decreases |actions|
  {
    if actions != [] {
      var next := Step(cfg, s, actions[0]).value;
      PunctualKept(cfg, s, actions[0], next);
      StepKeeps(cfg, s, actions[0], next);
      PunctualRun(cfg, next, actions[1..]);
    }
  }

  /** In every reachable state an adapter that runs has not run longer than the
      configured maximum, nor than its tool's own positive timeout, nor, without one,
      than the default. */
  lemma AdapterWindowsClose(cfg: Config, s: State, w: nat, o: Owned, since: int)
    requires Reachable(cfg, s) && w in s.executions && s.executions[w].pc == Owning(o)
    requires o.call.status == Executing && o.phase == Running(since)
    ensures s.now <= since + cfg.maxTimeout
    ensures o.tool.timeout.Some? && o.tool.timeout.value > 0 ==> s.now <= since + o.tool.timeout.value
    ensures o.tool.timeout.None? || o.tool.timeout.value <= 0 ==> s.now <= since + cfg.defaultTimeout
  {
    var actions :| Run(cfg, INITIAL, actions) == Some(s);
    InitiallyInv(cfg);
    PunctualRun(cfg, INITIAL, actions);
  }
}
