/** What decides a call's decision: in every reachable state a row is flagged exactly
    when its input or its result raised a flag or met a flagging rule, whatever
    executions and recovery runs did in between. */
module ProtocolDecisions {
  import opened Options
  import opened RiskEngine
  import opened ToolCalls
  import opened AuditTrail
  import opened Store
  import opened Protocol
  import opened ProtocolSafety
  import opened ProtocolInduction
  import opened ProtocolFrames
  import Rules = RuleEngine

  // ------------------------------------------------------------- judgements

  /** An applying rule of the listing flags what it was evaluated against. */
  ghost predicate RuleFlags(cfg: Config, v: Verdict) {
    exists r :: r in v.listing && Rules.Applies(cfg.matchers, v.subject, r) && r.action == Rules.Flag
  }

  /** The verdict is for flagging: a flag was raised, or a rule says so. */
  ghost predicate Marks(cfg: Config, v: Verdict) { v.subject.flags != [] || RuleFlags(cfg, v) }

  /** The verdict's action is what its rules come to. */
  ghost predicate Fair(cfg: Config, v: Verdict) {
    Rules.IsDecision(cfg.matchers, v.subject, v.listing, v.action)
  }

  /** An action that does not block flags exactly when a rule does. */
  lemma FlagActions(cfg: Config, v: Verdict)
    requires Fair(cfg, v) && v.action != Rules.Block
    ensures v.action == Rules.Flag <==> RuleFlags(cfg, v)
  {
  }

  ghost predicate IsFlagged(decision: Decision, marked: bool) { decision == if marked then Flag else Allow }

  function Of(verdicts: map<nat, Verdict>, c: nat): Option<Verdict> {
    if c in verdicts then Some(verdicts[c]) else None
  }

  /** The input was judged, not blocked, and these are its flags and risk. */
  ghost predicate InputPassed(cfg: Config, input: Option<Verdict>, flags: multiset<RiskFlag>) {
    && input.Some? && Fair(cfg, input.value) && !input.value.subject.resultPhase && input.value.action != Rules.Block
    && multiset(input.value.subject.flags) <= flags
  }

  /** How a row's decision, risk and mark in the trail follow from its verdicts. */
  ghost predicate RowJudged(
    cfg: Config, row: ToolCall, flags: multiset<RiskFlag>, word: seq<Event>, input: Option<Verdict>,
    result: Option<Verdict>)
  {
    match row.status
    case Received => row.decision == Allow && flags == multiset{} && CallFlagged !in word
    case Validating => row.decision == Allow && flags == multiset{} && CallFlagged !in word
    case Rejected => row.decision == Reject && flags == multiset{} && CallFlagged !in word
    case Blocked =>
      && input.Some? && Fair(cfg, input.value) && input.value.action == Rules.Block && row.decision == Block
      && row.risk == input.value.subject.risk && flags == multiset(input.value.subject.flags)
      && (CallFlagged in word <==> flags != multiset{})
    case Succeeded =>
      && InputPassed(cfg, input, flags) && result.Some? && Fair(cfg, result.value) && result.value.subject.resultPhase
      && IsFlagged(row.decision, Marks(cfg, input.value) || Marks(cfg, result.value))
      && (CallFlagged in word <==> row.decision == Flag)
      && row.risk == result.value.subject.risk
      && Highest(row.risk, input.value.subject.risk, result.value.subject.flags)
      && flags == multiset(input.value.subject.flags) + multiset(result.value.subject.flags)
    case Failed =>
      && InputPassed(cfg, input, flags)
      && IsFlagged(row.decision, Marks(cfg, input.value) || flags != multiset(input.value.subject.flags))
      && (CallFlagged in word <==> row.decision == Flag)
    case _ =>
      && InputPassed(cfg, input, flags) && IsFlagged(row.decision, Marks(cfg, input.value))
      && (CallFlagged in word <==> row.decision == Flag)
      && row.risk == input.value.subject.risk && flags == multiset(input.value.subject.flags)
  }

  /** What an execution's copy and its plan owe to the verdicts. */
  ghost predicate OwnerJudged(cfg: Config, o: Owned, word: seq<Event>, input: Option<Verdict>) {
    && RowJudged(cfg, o.call, multiset(o.flags), word, input, None)
    && (o.phase.Finishing? ==> o.call.status == Executing && PlanJudged(cfg, o))
  }

  ghost predicate PlanJudged(cfg: Config, o: Owned)
    requires o.phase.Finishing?
  {
    var plan := o.phase.plan;
    && Fair(cfg, plan.verdict) && plan.verdict.subject.resultPhase && plan.verdict.action != Rules.Block
    && plan.assessment == RiskAssessment(plan.verdict.subject.risk, plan.verdict.subject.flags)
    && (plan.marked <==> plan.verdict.subject.flags != [] || plan.verdict.action == Rules.Flag)
    && Highest(plan.assessment.level, o.call.risk, plan.assessment.flags)
  }

  ghost predicate RowAt(cfg: Config, db: Db, past: History, c: nat) {
    && c in db.calls && c in db.trail && c in db.flags
    && RowJudged(cfg, db.calls[c], db.flags[c], db.trail[c], Of(past.verdicts, c), Of(past.outcomes, c))
  }

  ghost predicate RowsJudged(cfg: Config, db: Db, past: History) {
    forall c :: c in db.calls ==> RowAt(cfg, db, past, c)
  }

  ghost predicate OwnerAt(cfg: Config, s: State, o: Owned) {
    o.call.id in s.db.trail && OwnerJudged(cfg, o, s.db.trail[o.call.id], Of(s.past.verdicts, o.call.id))
  }

  ghost predicate OwnersJudged(cfg: Config, s: State) {
    forall w :: w in s.executions && s.executions[w].pc.Owning? ==> OwnerAt(cfg, s, s.executions[w].pc.own)
  }

  ghost predicate Judged(cfg: Config, s: State) { RowsJudged(cfg, s.db, s.past) && OwnersJudged(cfg, s) }

  // ------------------------------------------------- what a deed leaves

  lemma FlaggedInBoth(a: seq<Event>, b: seq<Event>)
    ensures CallFlagged in a + b <==> CallFlagged in a || CallFlagged in b
  {
  }

  lemma EvaluationMarks(flagged: bool, rules: nat, blocked: bool)
    ensures CallFlagged in EvaluationEvents(flagged, rules, blocked) <==> flagged
  {
    var front := [CallValidated, RedactionApplied, RiskClassified];
    assert CallFlagged !in front && CallFlagged !in Repeat(RuleMatched, rules);
    FlaggedInBoth(front + When(flagged, CallFlagged), Repeat(RuleMatched, rules));
    FlaggedInBoth(front, When(flagged, CallFlagged));
    FlaggedInBoth(Judgement(flagged, rules), When(blocked, CallBlocked));
    if flagged { assert When(flagged, CallFlagged)[0] == CallFlagged; }
  }

  lemma FinalMarks(redacted: bool, rules: nat, flagged: bool, completed: bool)
    ensures CallFlagged in FinalEvents(redacted, rules, flagged, completed) <==> flagged
  {
    var a, b, c := When(redacted, RedactionApplied), Repeat(RuleMatched, rules), When(flagged, CallFlagged);
    var d := [if completed then CallCompleted else CallFailed];
    assert CallFlagged !in a && CallFlagged !in b && CallFlagged !in d;
    FlaggedInBoth(a + b + c, d);
    FlaggedInBoth(a + b, c);
    FlaggedInBoth(a, b);
    if flagged { assert c[0] == CallFlagged; }
  }

  /** The row, the flags and the trail a deed leaves, and what its owner goes on with. */
  ghost predicate DeedLeaves(
    cfg: Config, o: Owned, deed: Deed, word: seq<Event>, input: Option<Verdict>)
  {
    var after := if deed.verdict.Some? then deed.verdict else input;
    var result := if o.phase.Finishing? then Some(o.phase.plan.verdict) else None;
    && RowJudged(cfg, deed.writes.call, multiset(o.flags) + multiset(deed.writes.flags), word + deed.writes.events,
                 after, result)
    && (deed.next.Owning? ==> OwnerJudged(cfg, deed.next.own, word + deed.writes.events, after))
    && (deed.writes.call.status == Succeeded ==> o.phase.Finishing?)
  }

  lemma PlainLeaves(cfg: Config, o: Owned, change: Change, event: seq<Event>, next: ToolCall -> Pc, word: seq<Event>,
      input: Option<Verdict>)
    requires Consistent(o.call) && OwnerJudged(cfg, o, word, input) && PlainDeed(o, change, event, next).Some?
    requires change.risk.None? && change.matched.None? && CallFlagged !in event
    requires change.decision.None? || change.decision == Some(o.call.decision)
    requires change.status == Validating || change.status == Rejected || change.status == Executing
      || change.status == Failed || change.status == TimedOut
    requires !change.status.Terminal() ==> next == Continues(o) && o.phase == Deciding
    requires change.status.Terminal() ==> forall call :: next(call).Done?
    ensures DeedLeaves(cfg, o, PlainDeed(o, change, event, next).value, word, input)
  {
    FlaggedInBoth(word, event);
    assert multiset(o.flags) + multiset([]) == multiset(o.flags);
  }

  lemma JudgeLeaves(cfg: Config, db: Db, o: Owned, c: Choice, word: seq<Event>, input: Option<Verdict>)
    requires c.Judge? && JudgeDeed(cfg, db, o, c).Some? && OwnerJudged(cfg, o, word, input) && o.flags == []
    ensures DeedLeaves(cfg, o, JudgeDeed(cfg, db, o, c).value, word, input)
  {
    var deed := JudgeDeed(cfg, db, o, c).value;
    var v := deed.verdict.value;
    var events := deed.writes.events;
    var marked := c.assessment.flags != [] || c.action == Rules.Flag;
    EvaluationMarks(marked, |c.reported|, c.action == Rules.Block);
    FlaggedInBoth(word, events);
    if c.action != Rules.Block { FlagActions(cfg, v); }
    assert multiset(o.flags) + multiset(c.assessment.flags) == multiset(c.assessment.flags);
    assert c.assessment.flags != [] ==> c.assessment.flags[0] in multiset(c.assessment.flags);
  }

  lemma InvalidLeaves(cfg: Config, o: Owned, c: Choice, word: seq<Event>, input: Option<Verdict>)
    requires c.FinishInvalid? && InvalidDeed(o, c).Some? && OwnerJudged(cfg, o, word, input)
    ensures DeedLeaves(cfg, o, InvalidDeed(o, c).value, word, input)
  {
    var flags := c.assessment.flags;
    var decision := if flags != [] then Flag else o.call.decision;
    FinalMarks(c.redacted, 0, flags != [] || decision == Flag, false);
    FlaggedInBoth(word, InvalidDeed(o, c).value.writes.events);
    assert flags != [] ==> flags[0] in multiset(flags);
    assert |multiset(o.flags) + multiset(flags)| == |o.flags| + |flags|;
  }

  lemma FinishLeaves(cfg: Config, o: Owned, stamp: int, word: seq<Event>, input: Option<Verdict>)
    requires FinishDeed(o, stamp).Some? && OwnerJudged(cfg, o, word, input)
    ensures DeedLeaves(cfg, o, FinishDeed(o, stamp).value, word, input)
  {
    var plan := o.phase.plan;
    var decision := if plan.marked then Flag else o.call.decision;
    FlagActions(cfg, plan.verdict);
    FinalMarks(plan.redacted, |plan.names|, decision == Flag, true);
    FlaggedInBoth(word, FinishDeed(o, stamp).value.writes.events);
  }

  /** Whatever an owner commits follows from the verdicts. */
  lemma DeedIsJudged(cfg: Config, db: Db, o: Owned, choice: Choice, word: seq<Event>, input: Option<Verdict>)
    requires DeedOf(cfg, db, o, choice).Some? && Consistent(o.call) && OwnerJudged(cfg, o, word, input)
    requires o.call.status.Stage() < 2 ==> o.flags == []
    ensures DeedLeaves(cfg, o, DeedOf(cfg, db, o, choice).value, word, input)
  {
    match choice
    case Validate(stamp) => PlainLeaves(cfg, o, Plain(Validating, stamp, None), [], Continues(o), word, input);
    case RejectCall(stamp, reason) =>
      PlainLeaves(cfg, o, Plain(Rejected, stamp, Some(PublicCode(RejectError(reason)))), [CallFailed],
                  Ends(o, RejectError(reason)), word, input);
    case Judge(_, _, _, _, _, _) => JudgeLeaves(cfg, db, o, choice, word, input);
    case Start(stamp) =>
      PlainLeaves(cfg, o, Change(Executing, stamp, None, Some(o.call.decision), None, None), [CallStarted],
                  Continues(o), word, input);
    case RefuseAdapter(stamp) =>
      PlainLeaves(cfg, o, Plain(Failed, stamp, Some(PublicCode(AdapterNotConfigured))), [CallFailed],
                  Ends(o, AdapterNotConfigured), word, input);
    case TimeOut(stamp) =>
      PlainLeaves(cfg, o, Plain(TimedOut, stamp, Some(PublicCode(ToolTimeout))), [CallTimedOut],
                  Ends(o, ToolTimeout), word, input);
    case Fail(stamp, code, error) =>
      PlainLeaves(cfg, o, Plain(Failed, stamp, Some(code)), [CallFailed], Ends(o, error), word, input);
    case FinishInvalid(_, _, _) => InvalidLeaves(cfg, o, choice, word, input);
    case Finish(stamp) => FinishLeaves(cfg, o, stamp, word, input);
  }

  // ----------------------------------------------------- every step keeps it

  lemma PerformRows(cfg: Config, s: State, s': State, w: nat, o: Owned, deed: Deed)
    requires ProtocolInduction.Performs(cfg, s, s', w, o, deed) && RowsJudged(cfg, s.db, s.past)
    requires DeedLeaves(cfg, o, deed, s.db.trail[o.call.id], Of(s.past.verdicts, o.call.id))
    ensures RowsJudged(cfg, s'.db, s'.past)
  {
    var id := o.call.id;
    forall c | c in s'.db.calls ensures RowAt(cfg, s'.db, s'.past, c) {
      if c != id { assert RowAt(cfg, s.db, s.past, c); }
    }
  }

  lemma PerformOwners(cfg: Config, s: State, s': State, w: nat, o: Owned, deed: Deed)
    requires ProtocolInduction.Performs(cfg, s, s', w, o, deed) && OwnersJudged(cfg, s) && Owners(cfg, s)
    requires DeedLeaves(cfg, o, deed, s.db.trail[o.call.id], Of(s.past.verdicts, o.call.id))
    ensures OwnersJudged(cfg, s')
  {
    forall v | v in s'.executions && s'.executions[v].pc.Owning? ensures OwnerAt(cfg, s', s'.executions[v].pc.own) {
      if v != w {
        assert OwnerOk(cfg, s, v, s.executions[v].request, s.executions[v].pc.own);
        assert s.executions[v].pc.own.call.id != o.call.id;
      }
    }
  }

  lemma CommitJudged(cfg: Config, s: State, w: nat, choice: Choice, s': State)
    requires Inv(cfg, s) && Judged(cfg, s) && Committed(cfg, s, w, choice) == Some(s')
    ensures Judged(cfg, s')
  {
    var o, deed := CommitFacts(cfg, s, w, choice);
    assert OwnerAt(cfg, s, o);
    DeedIsJudged(cfg, s.db, o, choice, s.db.trail[o.call.id], Of(s.past.verdicts, o.call.id));
    PerformRows(cfg, s, s', w, o, deed);
    PerformOwners(cfg, s, s', w, o, deed);
  }

  lemma EvaluationIsFair(cfg: Config, db: Db, o: Owned, m: Move)
    requires m.EvaluateResult? && AfterEvaluation(cfg, db, o, m).Some?
    ensures var after := AfterEvaluation(cfg, db, o, m).value;
      after.Owning? && after.own.phase.Finishing? && after.own.call == o.call && PlanJudged(cfg, after.own)
  {
  }

  lemma MoveJudged(cfg: Config, s: State, o: Owned, m: Move, word: seq<Event>, input: Option<Verdict>)
    requires OwnerMove(cfg, s, o, m).Some? && OwnerMove(cfg, s, o, m).value.Owning?
    requires OwnerJudged(cfg, o, word, input) && (o.phase != Deciding ==> o.call.status == Executing)
    ensures var after := OwnerMove(cfg, s, o, m).value.own;
      OwnerJudged(cfg, after, word, input) && after.call == o.call
  {
    if m.EvaluateResult? { EvaluationIsFair(cfg, s.db, o, m); }
  }

  lemma ArriveJudged(cfg: Config, s: State, s': State, w: nat, p: Place)
    requires Judged(cfg, s) && Arrived(s, s', w, p)
    requires p.pc.Owning? ==> OwnerAt(cfg, s, p.pc.own)
    ensures Judged(cfg, s')
  {
  }

  lemma GoJudged(cfg: Config, s: State, w: nat, m: Move, s': State)
    requires Inv(cfg, s) && Judged(cfg, s) && Gone(cfg, s, w, m) == Some(s')
    ensures Judged(cfg, s')
  {
    var x := s.executions[w];
    var p := PlaceAfter(cfg, s, x, m).value;
    ArriveFacts(s, w, p);
    if p.pc.Owning? {
      PlaceOwns(cfg, s, x, m);
      assert OwnerOk(cfg, s, w, x.request, x.pc.own) && OwnerAt(cfg, s, x.pc.own);
      MoveJudged(cfg, s, x.pc.own, m, s.db.trail[x.pc.own.call.id], Of(s.past.verdicts, x.pc.own.call.id));
    }
    ArriveJudged(cfg, s, s', w, p);
  }

  lemma PlaceOwns(cfg: Config, s: State, x: Execution, m: Move)
    requires PlaceAfter(cfg, s, x, m).Some? && PlaceAfter(cfg, s, x, m).value.pc.Owning?
    ensures x.pc.Owning? && OwnerMove(cfg, s, x.pc.own, m) == Some(PlaceAfter(cfg, s, x, m).value.pc)
  {
  }

  lemma InvokeJudged(cfg: Config, s: State, w: nat, s': State)
    requires Judged(cfg, s) && Invoked(cfg, s, w) == Some(s')
    ensures Judged(cfg, s')
  {
    var o := s.executions[w].pc.own;
    forall v | v in s'.executions && s'.executions[v].pc.Owning? ensures OwnerAt(cfg, s', s'.executions[v].pc.own) {
      if v == w { assert OwnerAt(cfg, s, o); } else { assert OwnerAt(cfg, s, s.executions[v].pc.own); }
    }
  }

  lemma InsertJudged(cfg: Config, s: State, w: nat, id: nat, stamp: int, s': State)
    requires Inv(cfg, s) && Judged(cfg, s) && Inserted(cfg, s, w, id, stamp) == Some(s')
    ensures Judged(cfg, s')
  {
    InsertFacts(cfg, s, w, id, stamp, s');
    InsertKeepsRows(cfg, s, w, id, stamp, s');
    InsertKeepsOwners(cfg, s, w, id, stamp, s');
  }

  lemma InsertKeepsRows(cfg: Config, s: State, w: nat, id: nat, stamp: int, s': State)
    requires RowsJudged(cfg, s.db, s.past) && Inserted(cfg, s, w, id, stamp) == Some(s')
    ensures RowsJudged(cfg, s'.db, s'.past)
  {
    forall c | c in s'.db.calls ensures RowAt(cfg, s'.db, s'.past, c) {
      if c != id { assert RowAt(cfg, s.db, s.past, c); }
    }
  }

  lemma InsertKeepsOwners(cfg: Config, s: State, w: nat, id: nat, stamp: int, s': State)
    requires OwnersJudged(cfg, s) && Owners(cfg, s) && Inserted(cfg, s, w, id, stamp) == Some(s')
    ensures OwnersJudged(cfg, s')
  {
    forall v | v in s'.executions && s'.executions[v].pc.Owning? ensures OwnerAt(cfg, s', s'.executions[v].pc.own) {
      if v != w {
        assert OwnerOk(cfg, s, v, s.executions[v].request, s.executions[v].pc.own);
        assert s.executions[v].pc.own.call.id in s.db.calls;
      }
    }
  }

  /** Recovery changes status and error only, and adds one event that is no mark. */
  lemma RecoveredIsJudged(cfg: Config, row: ToolCall, now: int, flags: multiset<RiskFlag>, word: seq<Event>,
      input: Option<Verdict>, result: Option<Verdict>)
    requires row.status == Executing && RowJudged(cfg, row, flags, word, input, result)
    ensures RowJudged(cfg, Recovered(row, now), flags, word + [CallRecovered], input, result)
  {
    FlaggedInBoth(word, [CallRecovered]);
  }

  lemma BatchRows(cfg: Config, s: State, s': State, r: nat, batch: set<nat>)
    requires Recovers(cfg, s, s', r, batch) && RowsJudged(cfg, s.db, s.past)
    ensures RowsJudged(cfg, s'.db, s'.past)
  {
    var now := s.recoveries[r].now;
    forall c | c in s'.db.calls ensures RowAt(cfg, s'.db, s'.past, c) {
      assert RowAt(cfg, s.db, s.past, c);
      if c in batch {
        RecoveredIsJudged(cfg, s.db.calls[c], now, s.db.flags[c], s.db.trail[c], Of(s.past.verdicts, c),
                          Of(s.past.outcomes, c));
      }
    }
  }

  lemma BatchOwners(cfg: Config, s: State, s': State, r: nat, batch: set<nat>)
    requires Recovers(cfg, s, s', r, batch) && OwnersJudged(cfg, s)
    ensures OwnersJudged(cfg, s')
  {
    forall v | v in s'.executions && s'.executions[v].pc.Owning? ensures OwnerAt(cfg, s', s'.executions[v].pc.own) {
      var x := s.executions[v].pc.own;
      assert OwnerAt(cfg, s, x);
      if x.call.id in batch { SameMark(cfg, x, s.db.trail[x.call.id], Of(s.past.verdicts, x.call.id)); }
    }
  }

  lemma SameMark(cfg: Config, o: Owned, word: seq<Event>, input: Option<Verdict>)
    requires OwnerJudged(cfg, o, word, input)
    ensures OwnerJudged(cfg, o, word + [CallRecovered], input)
  {
    FlaggedInBoth(word, [CallRecovered]);
  }

  lemma BatchJudged(cfg: Config, s: State, r: nat, s': State)
    requires Inv(cfg, s) && Judged(cfg, s) && BatchCommitted(cfg, s, r) == Some(s')
    ensures Judged(cfg, s')
  {
    CommitBatchFacts(cfg, s, r, s');
    BatchRows(cfg, s, s', r, s.recoveries[r].phase.batch);
    BatchOwners(cfg, s, s', r, s.recoveries[r].phase.batch);
  }

  /** Nobody's rows, trails, flags or verdicts change, and nobody comes to own a call. */
  lemma RestJudged(cfg: Config, s: State, s': State)
    requires Judged(cfg, s) && s'.db.calls == s.db.calls && s'.db.trail == s.db.trail && s'.db.flags == s.db.flags
    requires s'.past.verdicts == s.past.verdicts && s'.past.outcomes == s.past.outcomes
    requires forall v :: v in s'.executions && s'.executions[v].pc.Owning? ==>
      v in s.executions && s'.executions[v].pc == s.executions[v].pc
    ensures Judged(cfg, s')
  {
  }

  lemma NobodyNewOwns(cfg: Config, s: State, a: Action, s': State)
    requires Step(cfg, s, a) == Some(s') && (a.Submit? || a.Flush?)
    ensures forall v :: v in s'.executions && s'.executions[v].pc.Owning? ==>
      v in s.executions && s'.executions[v].pc == s.executions[v].pc
  {
  }

  lemma JudgedKept(cfg: Config, s: State, a: Action, s': State)
    requires Inv(cfg, s) && Judged(cfg, s) && Step(cfg, s, a) == Some(s')
    ensures Judged(cfg, s')
  {
    match a
    case Go(w, m) => GoJudged(cfg, s, w, m, s');
    case InsertCall(w, id, stamp) => InsertJudged(cfg, s, w, id, stamp, s');
    case Commit(w, choice) => CommitJudged(cfg, s, w, choice, s');
    case Invoke(w) => InvokeJudged(cfg, s, w, s');
    case CommitBatch(r) => BatchJudged(cfg, s, r, s');
    case _ =>
      Framed(cfg, s, a, s');
      if a.Submit? || a.Flush? { NobodyNewOwns(cfg, s, a, s'); }
      RestJudged(cfg, s, s');
  }

  lemma {:induction false} JudgedRun(cfg: Config, s: State, actions: seq<Action>)
    requires Inv(cfg, s) && Judged(cfg, s) && Run(cfg, s, actions).Some?
    ensures Judged(cfg, Run(cfg, s, actions).value)
    decreases |actions|
  {
    if actions != [] {
      var next := Step(cfg, s, actions[0]).value;
      JudgedKept(cfg, s, actions[0], next);
      StepKeeps(cfg, s, actions[0], next);
      JudgedRun(cfg, next, actions[1..]);
    }
  }

  lemma ReachableJudged(cfg: Config, s: State)
    requires Reachable(cfg, s)
    ensures Judged(cfg, s)
  {
    var actions :| Run(cfg, INITIAL, actions) == Some(s);
    InitiallyInv(cfg);
    JudgedRun(cfg, INITIAL, actions);
  }

  /** In every reachable state: a succeeded call is flagged exactly when its input or
      its result raised a flag, or an applying rule flagged the one or the other;
      otherwise it is allowed. Its trail has the mark exactly then, its risk is that of
      the result, the higher of the input's and its flags', and its stored flags are
      those of both. */
  lemma SuccessIsJudged(cfg: Config, s: State, c: nat)
    requires Reachable(cfg, s) && c in s.db.calls && s.db.calls[c].status == Succeeded
    ensures c in s.past.verdicts && c in s.past.outcomes && c in s.db.trail && c in s.db.flags
    ensures var row, input, result := s.db.calls[c], s.past.verdicts[c], s.past.outcomes[c];
      && !input.subject.resultPhase && result.subject.resultPhase
      && (row.decision == Flag <==>
            || input.subject.flags != [] || RuleFlags(cfg, input)
            || result.subject.flags != [] || RuleFlags(cfg, result))
      && (row.decision != Flag ==> row.decision == Allow)
      && (CallFlagged in s.db.trail[c] <==> row.decision == Flag)
      && row.risk == result.subject.risk && Highest(row.risk, input.subject.risk, result.subject.flags)
      && s.db.flags[c] == multiset(input.subject.flags) + multiset(result.subject.flags)
  {
    ReachableJudged(cfg, s);
    assert RowAt(cfg, s.db, s.past, c);
  }

  /** The same for every other call whose input passed: its decision is the input's,
      but for a result that broke its schema, whose flags mark it too. */
  lemma OthersAreJudged(cfg: Config, s: State, c: nat)
    requires Reachable(cfg, s) && c in s.db.calls
    requires var status := s.db.calls[c].status;
      status == Evaluating || status == Executing || status == TimedOut || status == Failed
    ensures c in s.past.verdicts && c in s.db.trail && c in s.db.flags
    ensures var row, input := s.db.calls[c], s.past.verdicts[c];
      && (row.decision == Flag <==>
            || input.subject.flags != [] || RuleFlags(cfg, input)
            || s.db.flags[c] != multiset(input.subject.flags))
      && (row.decision != Flag ==> row.decision == Allow)
      && (row.status != Failed ==> s.db.flags[c] == multiset(input.subject.flags) && row.risk == input.subject.risk)
      && (CallFlagged in s.db.trail[c] <==> row.decision == Flag)
  {
    ReachableJudged(cfg, s);
    assert RowAt(cfg, s.db, s.past, c);
  }
}
