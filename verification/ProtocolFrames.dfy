/** Which action of the execution protocol touches which part of the state. */
module ProtocolFrames {
  import opened Options
  import opened Store
  import opened Protocol
  import Rules = RuleEngine

  predicate OfExecution(a: Action) { a.Submit? || a.Go? || a.InsertCall? || a.Flush? || a.Commit? || a.Invoke? }

  predicate OfRecovery(a: Action) { a.StartRecovery? || a.Claim? || a.CommitBatch? || a.CrashRecovery? }

  predicate OfCompletion(a: Action) { a.LockForClose? || a.CommitClose? || a.CrashClose? }

  ghost predicate DbFrame(a: Action, s: State, s': State) {
    && (!a.InsertCall? && !a.Commit? && !a.CommitBatch? ==> s'.db.calls == s.db.calls && s'.db.trail == s.db.trail)
    && (!a.InsertCall? && !a.Commit? ==> s'.db.flags == s.db.flags && s'.db.results == s.db.results)
    && (!a.InsertCall? ==> s'.db.byKey == s.db.byKey)
    && (!a.CreateSession? && !a.CommitClose? ==> s'.db.sessions == s.db.sessions)
    && (!a.PutRule? ==> s'.db.rules == s.db.rules)
    && (!a.PutTool? ==> s'.db.tools == s.db.tools)
  }

  ghost predicate PastFrame(a: Action, s: State, s': State) {
    && (!a.InsertCall? ==> s'.past.maker == s.past.maker)
    && (!a.InsertCall? && !a.CreateSession? ==> s'.past.order == s.past.order)
    && (!a.CommitClose? ==> s'.past.ended == s.past.ended)
    && (!a.Invoke? ==> s'.past.invoked == s.past.invoked)
    && (!a.Commit? ==> s'.past.verdicts == s.past.verdicts && s'.past.outcomes == s.past.outcomes)
    && (!a.CommitBatch? ==> s'.past.moved == s.past.moved)
  }

  ghost predicate RestFrame(a: Action, s: State, s': State) {
    && s.now <= s'.now && (!a.Tick? ==> s'.now == s.now)
    && (!OfRecovery(a) ==> s'.claims == s.claims && s'.recoveries == s.recoveries)
    && (if OfExecution(a) then
          && a.w in s'.executions
          && s'.executions == s.executions[a.w := s'.executions[a.w]]
          && (a.w in s.executions ==> s'.executions[a.w].request == s.executions[a.w].request)
        else s'.executions == s.executions)
  }

  ghost predicate Frame(a: Action, s: State, s': State) {
    DbFrame(a, s, s') && PastFrame(a, s, s') && RestFrame(a, s, s')
  }

  lemma SubmitFrame(cfg: Config, s: State, w: nat, request: Request, s': State)
    requires Submitted(s, w, request) == Some(s')
    ensures Frame(Submit(w, request), s, s')
  {
  }

  lemma GoFrame(cfg: Config, s: State, w: nat, m: Move, s': State)
    requires Gone(cfg, s, w, m) == Some(s')
    ensures Frame(Go(w, m), s, s')
  {
    var p := PlaceAfter(cfg, s, s.executions[w], m).value;
    assert s'.executions == s.executions[w := s.executions[w].(pc := p.pc)];
  }

  /** A commit performs some deed on the owner's row. */
  ghost predicate Performs(s: State, w: nat, id: nat, deed: Deed, s': State) {
    && w in s.executions && deed.writes.call.id in s.db.trail && deed.writes.call.id in s.db.flags
    && s' == Performed(s, w, id, deed)
  }

  lemma CommitPerforms(cfg: Config, s: State, w: nat, choice: Choice, s': State) returns (id: nat, deed: Deed)
    requires Committed(cfg, s, w, choice) == Some(s')
    ensures Performs(s, w, id, deed, s')
  {
    var o := s.executions[w].pc.own;
    id := o.call.id;
    deed := DeedOf(cfg, s.db, o, choice).value;
  }

  lemma CommitFrame(cfg: Config, s: State, w: nat, choice: Choice, s': State)
    requires exists id, deed :: Performs(s, w, id, deed, s')
    ensures Frame(Commit(w, choice), s, s')
  {
    var id, deed :| Performs(s, w, id, deed, s');
    PerformedFrame(s, w, id, deed, choice);
  }

  lemma PerformedFrame(s: State, w: nat, id: nat, deed: Deed, choice: Choice)
    requires w in s.executions && deed.writes.call.id in s.db.trail && deed.writes.call.id in s.db.flags
    ensures Frame(Commit(w, choice), s, Performed(s, w, id, deed))
  {
  }

  lemma ExecutionFrame(cfg: Config, s: State, a: Action, s': State)
    requires Step(cfg, s, a) == Some(s') && OfExecution(a)
    ensures Frame(a, s, s')
  {
    match a
    case Submit(w, request) => SubmitFrame(cfg, s, w, request, s');
    case Go(w, m) => GoFrame(cfg, s, w, m, s');
    case InsertCall(w, id, stamp) => InsertFrame(cfg, s, w, id, stamp, s');
    case Flush(w) => FlushFrame(cfg, s, w, s');
    case Commit(w, choice) =>
      var id, deed := CommitPerforms(cfg, s, w, choice, s');
      CommitFrame(cfg, s, w, choice, s');
    case Invoke(w) => InvokeFrame(cfg, s, w, s');
  }

  lemma InsertFrame(cfg: Config, s: State, w: nat, id: nat, stamp: int, s': State)
    requires Inserted(cfg, s, w, id, stamp) == Some(s')
    ensures Frame(InsertCall(w, id, stamp), s, s')
  {
  }

  lemma FlushFrame(cfg: Config, s: State, w: nat, s': State)
    requires Flushed(cfg, s, w) == Some(s')
    ensures Frame(Flush(w), s, s')
  {
  }

  lemma InvokeFrame(cfg: Config, s: State, w: nat, s': State)
    requires Invoked(cfg, s, w) == Some(s')
    ensures Frame(Invoke(w), s, s')
  {
  }

  lemma StartFrame(cfg: Config, s: State, r: nat, s': State)
    requires RecoveryStarted(cfg, s, r) == Some(s')
    ensures Frame(StartRecovery(r), s, s')
  {
  }

  lemma ClaimFrame(cfg: Config, s: State, r: nat, batch: set<nat>, s': State)
    requires BatchClaimed(cfg, s, r, batch) == Some(s')
    ensures Frame(Claim(r, batch), s, s')
  {
  }

  lemma BatchFrame(cfg: Config, s: State, r: nat, s': State)
    requires BatchCommitted(cfg, s, r) == Some(s')
    ensures Frame(CommitBatch(r), s, s')
  {
  }

  lemma CrashFrame(s: State, r: nat, s': State)
    requires RecoveryCrashed(s, r) == Some(s')
    ensures Frame(CrashRecovery(r), s, s')
  {
  }

  lemma RecoveryFrame(cfg: Config, s: State, a: Action, s': State)
    requires Step(cfg, s, a) == Some(s') && OfRecovery(a)
    ensures Frame(a, s, s')
  {
    match a
    case StartRecovery(r) => StartFrame(cfg, s, r, s');
    case Claim(r, batch) => ClaimFrame(cfg, s, r, batch, s');
    case CommitBatch(r) => BatchFrame(cfg, s, r, s');
    case CrashRecovery(r) => CrashFrame(s, r, s');
  }

  lemma CloseLockFrame(s: State, k: nat, session: string, status: SessionStatus, s': State)
    requires CloseLocked(s, k, session, status) == Some(s')
    ensures Frame(LockForClose(k, session, status), s, s')
  {
  }

  lemma CloseFrame(s: State, k: nat, s': State)
    requires CloseCommitted(s, k) == Some(s')
    ensures Frame(CommitClose(k), s, s')
  {
  }

  lemma CloseCrashFrame(s: State, k: nat, s': State)
    requires CloseCrashed(s, k) == Some(s')
    ensures Frame(CrashClose(k), s, s')
  {
  }

  lemma CompletionFrame(cfg: Config, s: State, a: Action, s': State)
    requires Step(cfg, s, a) == Some(s') && OfCompletion(a)
    ensures Frame(a, s, s')
  {
    match a
    case LockForClose(k, session, status) => CloseLockFrame(s, k, session, status, s');
    case CommitClose(k) => CloseFrame(s, k, s');
    case CrashClose(k) => CloseCrashFrame(s, k, s');
  }

  lemma TickFrame(cfg: Config, s: State, d: nat, s': State)
    requires Ticked(cfg, s, d) == Some(s')
    ensures Frame(Tick(d), s, s')
  {
  }

  lemma RuleFrame(cfg: Config, s: State, rule: Rules.Rule, s': State)
    requires RulePut(cfg, s, rule) == Some(s')
    ensures Frame(PutRule(rule), s, s')
  {
  }

  lemma ToolFrame(s: State, tool: Tool, s': State)
    requires ToolPut(s, tool) == Some(s')
    ensures Frame(PutTool(tool), s, s')
  {
  }

  lemma SessionFrame(s: State, session: string, s': State)
    requires SessionCreated(s, session) == Some(s')
    ensures Frame(CreateSession(session), s, s')
  {
  }

  lemma AdministrationFrame(cfg: Config, s: State, a: Action, s': State)
    requires Step(cfg, s, a) == Some(s') && (a.PutRule? || a.PutTool?)
    ensures Frame(a, s, s')
  {
    match a
    case PutRule(rule) => RuleFrame(cfg, s, rule, s');
    case PutTool(tool) => ToolFrame(s, tool, s');
  }

  lemma WorldFrame(cfg: Config, s: State, a: Action, s': State)
    requires Step(cfg, s, a) == Some(s') && (a.Tick? || a.CreateSession?)
    ensures Frame(a, s, s')
  {
    match a
    case Tick(d) => TickFrame(cfg, s, d, s');
    case CreateSession(session) => SessionFrame(s, session, s');
  }

  lemma Framed(cfg: Config, s: State, a: Action, s': State)
    requires Step(cfg, s, a) == Some(s')
    ensures Frame(a, s, s')
  {
    if OfExecution(a) {
      ExecutionFrame(cfg, s, a, s');
    } else if OfRecovery(a) {
      RecoveryFrame(cfg, s, a, s');
    } else if OfCompletion(a) {
      CompletionFrame(cfg, s, a, s');
    } else if a.PutRule? || a.PutTool? {
      AdministrationFrame(cfg, s, a, s');
    } else {
      WorldFrame(cfg, s, a, s');
    }
  }
}
