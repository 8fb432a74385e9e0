/** Safety of the execution protocol over every run, whatever the timing. */
module ProtocolSafety {
  import opened Options
  import opened RiskEngine
  import opened ToolCalls
  import opened AuditTrail
  import opened Store
  import opened Protocol
  import opened RequestIdentity
  import Rules = RuleEngine
  import Sorting

  // ------------------------------------------------------------- numbering

  /** The call at this place of the session's list is the session's, with the place's number. */
  ghost predicate Listed(calls: map<nat, ToolCall>, order: map<string, seq<nat>>, sid: string, i: nat)
    requires sid in order && i < |order[sid]|
  {
    var c := order[sid][i];
    c in calls && calls[c].session == sid && calls[c].sequence == i + 1
  }

  /** The call stands in its session's list where its number says. */
  ghost predicate InPlace(calls: map<nat, ToolCall>, order: map<string, seq<nat>>, c: nat)
    requires c in calls
  {
    var call := calls[c];
    call.session in order && 1 <= call.sequence <= |order[call.session]| && order[call.session][call.sequence - 1] == c
  }

  /** Each session's calls, in order, carry the numbers 1, 2, 3 and so on. */
  ghost predicate Numbering(
    sessions: map<string, SessionStatus>, calls: map<nat, ToolCall>, order: map<string, seq<nat>>)
  {
    && (forall sid :: sid in sessions <==> sid in order)
    && (forall sid, i: nat :: sid in order && i < |order[sid]| ==> Listed(calls, order, sid, i))
    && (forall c :: c in calls ==> InPlace(calls, order, c))
  }

  /** The number of calls of a session that has ended is the number it ended with. */
  ghost predicate Sealed(sessions: map<string, SessionStatus>, order: map<string, seq<nat>>, ended: map<string, nat>) {
    && (forall sid :: sid in sessions ==> (sessions[sid] != Active <==> sid in ended))
    && (forall sid :: sid in ended ==> sid in sessions && sid in order && |order[sid]| == ended[sid])
  }

  // ----------------------------------------------------------------- locks

  ghost predicate Waiting(s: State, w: nat) {
    w in s.executions && (s.executions[w].pc.Locked? || s.executions[w].pc.Numbered?)
  }

  ghost predicate HoldsLock(s: State, w: nat)
    requires w in s.executions
  {
    var session := s.executions[w].request.identity.session;
    && At(s, w, session) && session in s.db.sessions && session in s.past.order
    && (s.executions[w].pc.Numbered? ==>
          && s.db.sessions[session] == Active
          && s.executions[w].pc.sequence == |s.past.order[session]| + 1
          && s.executions[w].pc.tool.key == ToolOf(s.executions[w].request)
          && ToolOf(s.executions[w].request) in s.db.tools)
  }

  /** One holder a session: whoever is between lock and commit holds its row. */
  ghost predicate Locking(s: State) {
    && (forall w :: Waiting(s, w) ==> HoldsLock(s, w))
    && (forall k :: k in s.closers && s.closers[k].HoldingSession? ==>
          && s.closers[k].session in s.locks && s.locks[s.closers[k].session] == Closing(k)
          && s.closers[k].status != Active)
  }

  // ---------------------------------------------------------------- owners

  /** The row is the owner's copy, or what recovery made of an executing copy. */
  ghost predicate RowOf(calls: map<nat, ToolCall>, call: ToolCall) {
    && call.id in calls
    && (calls[call.id] == call
        || (call.status == Executing && calls[call.id] == Recovered(call, calls[call.id].updated)))
  }

  ghost predicate IsFor(cfg: Config, call: ToolCall, request: Request) {
    && call.session == request.identity.session && call.tool == ToolOf(request)
    && call.hash == HashOf(cfg, request) && call.key == request.key
  }

  /** No applying block rule was enabled when the input was judged. */
  ghost predicate Cleared(cfg: Config, verdicts: map<nat, Verdict>, c: nat) {
    && c in verdicts
    && verdicts[c].action != Rules.Block && !verdicts[c].subject.resultPhase
    && forall r :: r in verdicts[c].listing ==> !Rules.Stops(cfg.matchers, verdicts[c].subject, r)
  }

  ghost predicate PlanOk(rules: map<nat, Rules.Rule>, o: Owned) {
    o.phase.Finishing? ==>
      && Known(rules, o.phase.plan.matched) && o.phase.plan.names == RuleNames(rules, o.phase.plan.matched)
      && o.call.risk.Rank() <= o.phase.plan.assessment.level.Rank()
      && (o.phase.plan.assessment.flags != [] ==> o.phase.plan.marked)
  }

  /** Nothing has been judged yet. */
  ghost predicate Blank(o: Owned) {
    o.call.decision == Allow && o.call.risk == Low && o.call.matched == [] && o.names == [] && o.flags == []
  }

  /** What an execution may rely on about the call it inserted. */
  ghost predicate OwnerOk(cfg: Config, s: State, w: nat, request: Request, o: Owned) {
    var id := o.call.id;
    && RowOf(s.db.calls, o.call) && IsFor(cfg, o.call, request)
    && id in s.past.maker && s.past.maker[id] == w
    && Consistent(o.call) && !o.call.status.Terminal() && o.call.updated <= s.now
    && o.tool.key == o.call.tool
    && Known(s.db.rules, o.call.matched) && o.names == RuleNames(s.db.rules, o.call.matched)
    && id in s.db.flags && s.db.flags[id] == multiset(o.flags) && id !in s.db.results && id in s.db.trail
    && (o.call.status.Stage() < 2 ==> Blank(o))
    && (o.phase != Deciding ==> o.call.status == Executing)
    && (id in s.past.invoked <==> o.phase != Deciding)
    && (o.call.status == Evaluating || o.call.status == Executing ==> Cleared(cfg, s.past.verdicts, id))
    && PlanOk(s.db.rules, o)
  }

  ghost predicate Owners(cfg: Config, s: State) {
    forall w :: w in s.executions && s.executions[w].pc.Owning? ==>
      OwnerOk(cfg, s, w, s.executions[w].request, s.executions[w].pc.own)
  }

  /** The execution's call is this one, live or done. */
  ghost predicate Made(pc: Pc, c: nat) {
    (pc.Owning? && pc.own.call.id == c) || (pc.Done? && pc.made == Some(c))
  }

  /** Every call has one inserting execution, and every execution inserts one call at most. */
  ghost predicate Makers(cfg: Config, s: State) {
    && (forall c :: c in s.db.calls <==> c in s.past.maker)
    && (forall c :: c in s.past.maker ==>
          && s.past.maker[c] in s.executions && Made(s.executions[s.past.maker[c]].pc, c)
          && IsFor(cfg, s.db.calls[c], s.executions[s.past.maker[c]].request))
    && (forall w, c :: w in s.executions && Made(s.executions[w].pc, c) ==> c in s.past.maker && s.past.maker[c] == w)
  }

  // ------------------------------------------------------- the adapter log

  predicate MayHaveRun(status: Status) {
    status == Executing || status == Succeeded || status == Failed || status == TimedOut
  }

  /** No call appears twice in the adapter log, and each one in it was cleared
      before and committed as executing. */
  ghost predicate Log(cfg: Config, s: State) {
    && Sorting.Distinct(s.past.invoked)
    && forall c :: c in s.past.invoked ==>
         c in s.db.calls && MayHaveRun(s.db.calls[c].status) && Cleared(cfg, s.past.verdicts, c)
  }

  // ---------------------------------------------------------------- claims

  /** The run has this row in the batch it is working on. */
  ghost predicate InHand(recoveries: map<nat, Recovery>, r: nat, c: nat) {
    r in recoveries && recoveries[r].phase.Claimed? && c in recoveries[r].phase.batch
  }

  ghost predicate Claims(s: State) {
    && (forall c :: c in s.claims ==> InHand(s.recoveries, s.claims[c], c))
    && (forall r :: r in s.recoveries ==> s.recoveries[r].now <= s.now && s.recoveries[r].cutoff <= s.recoveries[r].now)
    && (forall r, c :: InHand(s.recoveries, r, c) ==>
          c in s.claims && s.claims[c] == r && c in Stale(s.db, s.recoveries[r].cutoff))
  }

  ghost predicate Inv(cfg: Config, s: State) {
    && Sound(s.db)
    && Numbering(s.db.sessions, s.db.calls, s.past.order)
    && Sealed(s.db.sessions, s.past.order, s.past.ended)
    && Locking(s)
    && Owners(cfg, s)
    && Makers(cfg, s)
    && Log(cfg, s)
    && Claims(s)
  }

  // =================================================== what a deed can do

  /** Facts about any owner transaction, whichever choice it made. */
  ghost predicate GoodDeed(cfg: Config, rules: map<nat, Rules.Rule>, o: Owned, deed: Deed) {
    var call := deed.writes.call;
    && SameCall(call, o.call) && Consistent(call) && Rises(o.call, call)
    && call.status.Stage() > o.call.status.Stage()
    && (o.call.status == Executing ==> MayHaveRun(call.status))
    && Known(rules, call.matched)
    && (deed.next.Done? || deed.next.Owning?)
    && (deed.next.Done? ==> deed.next.made == Some(o.call.id) && call.status.Terminal())
    && (deed.next.Owning? ==>
          && deed.next.own.call == call && !call.status.Terminal() && deed.next.own.phase == Deciding
          && o.phase == Deciding && (call.status.Stage() < 2 ==> Blank(deed.next.own))
          && (call.status.Stage() >= 2 ==> deed.verdict.Some? || o.call.status == Evaluating)
          && deed.next.own.tool == o.tool && deed.writes.result.None?
          && deed.next.own.names == RuleNames(rules, call.matched)
          && multiset(deed.next.own.flags) == multiset(o.flags) + multiset(deed.writes.flags))
    && (deed.verdict.Some? <==> o.call.status == Validating && call.status != Rejected)
    && (deed.verdict.Some? && call.status != Blocked ==>
          && deed.verdict.value.action != Rules.Block && !deed.verdict.value.subject.resultPhase
          && forall r :: r in deed.verdict.value.listing ==> !Rules.Stops(cfg.matchers, deed.verdict.value.subject, r))
  }

  /** The part of an owner's knowledge its next transaction rests on. */
  ghost predicate Ready(rules: map<nat, Rules.Rule>, o: Owned) {
    && Consistent(o.call) && !o.call.status.Terminal()
    && Known(rules, o.call.matched) && o.names == RuleNames(rules, o.call.matched)
    && (o.call.status.Stage() < 2 ==> Blank(o))
    && PlanOk(rules, o)
  }

  lemma PlainlyGood(cfg: Config, rules: map<nat, Rules.Rule>, o: Owned, change: Change, event: seq<Event>,
      next: ToolCall -> Pc)
    requires Ready(rules, o) && PlainDeed(o, change, event, next).Some?
    requires change.risk.None? && change.matched.None?
      && (change.decision.None? || change.decision == Some(o.call.decision))
    requires o.call.status == Validating ==> change.status == Rejected
    requires !change.status.Terminal() ==> next == Continues(o) && o.phase == Deciding
    requires change.status.Terminal() ==> exists error :: next == Ends(o, error)
    ensures GoodDeed(cfg, rules, o, PlainDeed(o, change, event, next).value)
  {
    TransitionKeeps(o.call, change);
    var deed := PlainDeed(o, change, event, next).value;
    assert multiset(o.flags) + multiset(deed.writes.flags) == multiset(o.flags);
  }

  lemma JudgeGood(cfg: Config, db: Db, o: Owned, c: Choice)
    requires Sound(db) && Ready(db.rules, o) && c.Judge? && JudgeDeed(cfg, db, o, c).Some?
    ensures GoodDeed(cfg, db.rules, o, JudgeDeed(cfg, db, o, c).value)
  {
    ReportedAreListed(cfg, db, o, c);
    NamesOfListed(db.rules, c.reported);
    var marked := c.assessment.flags != [] || c.action == Rules.Flag;
    var change := Change(Evaluating, c.stamp, None, Some(if marked then Flag else Allow), Some(c.assessment.level),
        Some(Ids(c.reported)));
    TransitionKeeps(o.call, change);
    var evaluating := TransitionTo(o.call, change).call;
    assert Ids(c.reported) == [] ==> RuleNames(db.rules, o.call.matched) == Names(c.reported);
    assert evaluating.matched == Ids(c.reported);
    assert multiset(o.flags) + multiset(c.assessment.flags) == multiset(c.assessment.flags);
    if c.action == Rules.Block {
      TransitionKeeps(evaluating,
          Change(Blocked, c.stamp, Some("tool_call_blocked"), Some(Block), None, Some(Ids(c.reported))));
    }
  }

  lemma ReportedAreListed(cfg: Config, db: Db, o: Owned, c: Choice)
    requires c.Judge? && JudgeDeed(cfg, db, o, c).Some?
    ensures forall r :: r in c.reported ==> r.id in db.rules && db.rules[r.id] == r
    ensures c.action != Rules.Block ==>
      forall r :: r in c.listing ==> !Rules.Stops(cfg.matchers, JudgeDeed(cfg, db, o, c).value.verdict.value.subject, r)
  {
    var subject := Rules.Subject(o.tool.key.name, c.assessment.level, c.assessment.flags, c.arguments, false);
    forall r | r in c.reported ensures r.id in db.rules && db.rules[r.id] == r {
      assert Rules.Reported(cfg.matchers, subject, c.listing, r);
    }
  }

  lemma FinishedGood(cfg: Config, rules: map<nat, Rules.Rule>, o: Owned, stamp: int)
    requires Ready(rules, o) && FinishDeed(o, stamp).Some?
    ensures GoodDeed(cfg, rules, o, FinishDeed(o, stamp).value)
  {
    var plan := o.phase.plan;
    TransitionKeeps(o.call, Change(Succeeded, stamp, None, Some(if plan.marked then Flag else o.call.decision),
                                   Some(plan.assessment.level), Some(o.call.matched + plan.matched)));
  }

  lemma FinishedInvalidGood(cfg: Config, rules: map<nat, Rules.Rule>, o: Owned, c: Choice)
    requires Ready(rules, o) && c.FinishInvalid? && InvalidDeed(o, c).Some?
    ensures GoodDeed(cfg, rules, o, InvalidDeed(o, c).value)
  {
    TransitionKeeps(o.call,
        Change(Failed, c.stamp, Some("invalid_tool_result"),
            Some(if c.assessment.flags != [] then Flag else o.call.decision),
                                   Some(c.assessment.level), Some(o.call.matched)));
  }

  lemma DeedIsGood(cfg: Config, db: Db, o: Owned, c: Choice)
    requires Sound(db) && Ready(db.rules, o) && DeedOf(cfg, db, o, c).Some?
    ensures GoodDeed(cfg, db.rules, o, DeedOf(cfg, db, o, c).value)
  {
    match c
    case Validate(stamp) => PlainlyGood(cfg, db.rules, o, Plain(Validating, stamp, None), [], Continues(o));
    case RejectCall(stamp, reason) =>
      PlainlyGood(cfg, db.rules, o, Plain(Rejected, stamp, Some(PublicCode(RejectError(reason)))), [CallFailed],
          Ends(o, RejectError(reason)));
    case Judge(_, _, _, _, _, _) => JudgeGood(cfg, db, o, c);
    case Start(stamp) =>
      PlainlyGood(cfg, db.rules, o, Change(Executing, stamp, None, Some(o.call.decision), None, None), [CallStarted],
          Continues(o));
    case RefuseAdapter(stamp) =>
      PlainlyGood(cfg, db.rules, o, Plain(Failed, stamp, Some(PublicCode(AdapterNotConfigured))), [CallFailed],
          Ends(o, AdapterNotConfigured));
    case TimeOut(stamp) =>
      PlainlyGood(cfg, db.rules, o, Plain(TimedOut, stamp, Some(PublicCode(ToolTimeout))), [CallTimedOut],
          Ends(o, ToolTimeout));
    case Fail(stamp, code, error) =>
      PlainlyGood(cfg, db.rules, o, Plain(Failed, stamp, Some(code)), [CallFailed], Ends(o, error));
    case FinishInvalid(_, _, _) => FinishedInvalidGood(cfg, db.rules, o, c);
    case Finish(stamp) => FinishedGood(cfg, db.rules, o, stamp);
  }
}
