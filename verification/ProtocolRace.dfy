/** The stale threshold's condition is exact: below it, some run lets recovery fail
    a call whose execution then overwrites the terminal row. */
module ProtocolRace {
  import opened Options
  import opened RiskEngine
  import opened ToolCalls
  import opened AuditTrail
  import opened Store
  import opened RequestIdentity
  import opened Protocol
  import opened ProtocolSafety
  import opened ProtocolInduction
  import opened ProtocolTiming
  import JsonValues
  import Text
  import Rules = RuleEngine

  /** Some terminal row of the first state is different in the second. */
  ghost predicate Overwrites(s: State, s': State) { !Final(s.db.calls, s'.db.calls) }

  function SlowTool(cfg: Config, q: Request, adapter: string): Tool {
    Tool(ToolOf(q), true, Low, adapter, Some(cfg.maxTimeout))
  }

  lemma SlowToolTakesLongest(cfg: Config, q: Request, adapter: string)
    ensures TimeoutFor(cfg, SlowTool(cfg, q, adapter)) == cfg.maxTimeout
  {
  }

  // ------------------------------------------------ one execution, alone

  /** Nothing but execution 0 has happened, and it stands at pc. */
  ghost predicate Alone(q: Request, s: State, tool: Tool, now: int, pc: Pc) {
    && s.now == now && s.executions == map[0 := Execution(q, pc)]
    && s.claims == map[] && s.writing == {} && s.recoveries == map[] && s.db.rules == map[]
    && ToolOf(q) in s.db.tools && s.db.tools[ToolOf(q)] == tool
    && q.identity.session in s.db.sessions && s.db.sessions[q.identity.session] == Active
  }

  /** No call has been made yet. */
  ghost predicate Empty(s: State) { s.db.calls == map[] && s.db.byKey == map[] }

  /** The one call is the execution's own, and the row is its copy. */
  ghost predicate Holds(q: Request, s: State, tool: Tool, now: int, o: Owned) {
    && Alone(q, s, tool, now, Owning(o)) && o.tool == tool && o.call.id == 0
    && s.db.calls == map[0 := o.call] && 0 in s.db.trail && 0 in s.db.flags
    && Consistent(o.call) && o.call.created == o.call.updated == 0
    && o.call.matched == [] && o.call.decision == Allow
  }

  // -------------------------------------------------------- the first steps

  lemma PutsTool(cfg: Config, q: Request, tool: Tool) returns (s': State)
    requires tool.key == ToolOf(q)
    ensures Step(cfg, INITIAL, PutTool(tool)) == Some(s')
    ensures s' == INITIAL.(db := EMPTY.(tools := map[ToolOf(q) := tool]))
  {
    s' := INITIAL.(db := EMPTY.(tools := map[ToolOf(q) := tool]));
  }

  lemma CreatesSession(cfg: Config, q: Request, s: State, tool: Tool) returns (s': State)
    requires s == INITIAL.(db := EMPTY.(tools := map[ToolOf(q) := tool]))
    ensures Step(cfg, s, CreateSession(q.identity.session)) == Some(s')
    ensures s'.executions == map[] && s'.now == 0 && s'.locks == map[] && s'.claims == map[] && s'.writing == {}
    ensures s'.recoveries == map[]
    ensures s'.db == EMPTY.(tools := map[ToolOf(q) := tool], sessions := map[q.identity.session := Active])
  {
    s' := SessionCreated(s, q.identity.session).value;
  }

  lemma SubmitsRequest(cfg: Config, q: Request, s: State, tool: Tool) returns (s': State)
    requires s.executions == map[] && s.now == 0 && s.locks == map[] && s.claims == map[] && s.writing == {}
    requires s.recoveries == map[]
    requires s.db == EMPTY.(tools := map[ToolOf(q) := tool], sessions := map[q.identity.session := Active])
    requires Encodable(IdentityComponents(q.identity))
    ensures Step(cfg, s, Submit(0, q)) == Some(s')
    ensures Alone(q, s', tool, 0, Fresh) && Empty(s') && s'.locks == map[]
  {
    s' := Submitted(s, 0, q).value;
  }

  // ------------------------------------------------------------- admission

  lemma LooksUp(cfg: Config, q: Request, s: State, tool: Tool) returns (s': State)
    requires Alone(q, s, tool, 0, Fresh) && Empty(s) && s.locks == map[]
    ensures Step(cfg, s, Go(0, Lookup([]))) == Some(s')
    ensures Alone(q, s', tool, 0, Admitting) && Empty(s') && s'.locks == map[]
  {
    s' := Arrive(s, 0, Place(Admitting, Keep));
  }

  lemma TakesLock(cfg: Config, q: Request, s: State, tool: Tool) returns (s': State)
    requires Alone(q, s, tool, 0, Admitting) && Empty(s) && s.locks == map[]
    ensures Step(cfg, s, Go(0, LockSession)) == Some(s')
    ensures Alone(q, s', tool, 0, Locked) && Empty(s')
  {
    s' := Arrive(s, 0, Place(Locked, Take));
  }

  lemma Inspects(cfg: Config, q: Request, s: State, tool: Tool) returns (s': State)
    requires Alone(q, s, tool, 0, Locked) && Empty(s) && tool.enabled && tool.key == ToolOf(q)
    ensures Step(cfg, s, Go(0, Inspect(1))) == Some(s')
    ensures Alone(q, s', tool, 0, Numbered(tool, 1)) && Empty(s')
  {
    assert Refusal(cfg, s.db, q) == None;
    assert IsNext(s.db.calls, q.identity.session, 1);
    s' := Arrive(s, 0, Place(Numbered(tool, 1), Keep));
  }

  lemma Inserts(cfg: Config, q: Request, s: State, tool: Tool) returns (s': State, o: Owned)
    requires Alone(q, s, tool, 0, Numbered(tool, 1)) && Empty(s) && tool.key == ToolOf(q)
    ensures Step(cfg, s, InsertCall(0, 0, 0)) == Some(s')
    ensures Holds(q, s', tool, 0, o) && Before(o, Received, Deciding)
  {
    o := Owned(NewCall(cfg, q, 0, 1, 0), tool, [], [], Deciding);
    assert AfterConflict(s.db, q, 1) == None;
    s' := Inserted(cfg, s, 0, 0, 0).value;
    assert s.db.calls[0 := o.call] == map[0 := o.call];
  }

  // -------------------------------------------------------------- decisions

  lemma Commits(cfg: Config, q: Request, s: State, tool: Tool, now: int, o: Owned, c: Choice, deed: Deed)
      returns (s': State)
    requires Holds(q, s, tool, now, o) && DeedOf(cfg, s.db, o, c) == Some(deed)
    requires 0 <= c.stamp <= now && (c.Start? ==> now <= c.stamp + cfg.startLag)
    requires deed.writes.call.id == 0
    ensures Step(cfg, s, Commit(0, c)) == Some(s')
    ensures Alone(q, s', tool, now, deed.next) && s'.db.calls == map[0 := deed.writes.call]
    ensures 0 in s'.db.trail && 0 in s'.db.flags
  {
    s' := Performed(s, 0, o.call.id, deed);
    assert s'.executions == map[0 := Execution(q, deed.next)];
    assert s.db.calls[0 := deed.writes.call] == map[0 := deed.writes.call];
  }

  lemma Validates(cfg: Config, q: Request, s: State, tool: Tool, o: Owned) returns (s': State, after: Owned)
    requires Holds(q, s, tool, 0, o) && Before(o, Received, Deciding)
    ensures Step(cfg, s, Commit(0, Validate(0))) == Some(s')
    ensures Holds(q, s', tool, 0, after) && Before(after, Validating, Deciding)
  {
    var change := Plain(Validating, 0, None);
    after := o.(call := Rewritten(o.call, change));
    s' := Commits(cfg, q, s, tool, 0, o, Validate(0), Deed(Writes(after.call, [], [], None), Owning(after), None));
  }

  const NO_RISK := RiskAssessment(Low, [])

  const JUDGE := Judge(0, NO_RISK, JsonValues.Null, [], [], Rules.Allow)

  lemma Judges(cfg: Config, q: Request, s: State, tool: Tool, o: Owned) returns (s': State, after: Owned)
    requires Holds(q, s, tool, 0, o) && Before(o, Validating, Deciding) && tool.base == Low
    ensures Step(cfg, s, Commit(0, JUDGE)) == Some(s')
    ensures Holds(q, s', tool, 0, after) && Before(after, Evaluating, Deciding)
  {
    var subject := Rules.Subject(tool.key.name, Low, [], JsonValues.Null, false);
    assert Rules.Evaluates(cfg.matchers, subject, [], [], Rules.Allow);
    assert IsListing(s.db.rules, []);
    var change := Change(Evaluating, 0, None, Some(Allow), Some(Low), Some([]));
    assert Ids([]) == [] && Names([]) == [];
    var call := Rewritten(o.call, change);
    after := Owned(call, tool, [], [], Deciding);
    var deed := Deed(Writes(call, EvaluationEvents(false, 0, false), [], None), Owning(after),
                     Some(Verdict(subject, [], Rules.Allow)));
    s' := Commits(cfg, q, s, tool, 0, o, JUDGE, deed);
  }

  lemma Starts(cfg: Config, q: Request, s: State, tool: Tool, o: Owned) returns (s': State, after: Owned)
    requires Holds(q, s, tool, 0, o) && Before(o, Evaluating, Deciding)
    ensures Step(cfg, s, Commit(0, Start(0))) == Some(s')
    ensures Holds(q, s', tool, 0, after) && Before(after, Executing, Deciding)
  {
    var change := Change(Executing, 0, None, Some(o.call.decision), None, None);
    after := o.(call := Rewritten(o.call, change));
    s' := Commits(cfg, q, s, tool, 0, o, Start(0),
        Deed(Writes(after.call, [CallStarted], [], None), Owning(after), None));
  }

  // -------------------------------------------------------------- the window

  lemma Waits(cfg: Config, q: Request, s: State, tool: Tool, now: int, o: Owned, d: nat) returns (s': State)
    requires Holds(q, s, tool, now, o) && now + d <= Deadline(cfg, o)
    ensures Step(cfg, s, Tick(d)) == Some(s') && Holds(q, s', tool, now + d, o)
  {
    s' := s.(now := now + d);
  }

  lemma Invokes(cfg: Config, q: Request, s: State, tool: Tool, now: int, o: Owned) returns (s': State, after: Owned)
    requires Holds(q, s, tool, now, o) && Before(o, Executing, Deciding) && tool.adapter in cfg.adapters
    ensures Step(cfg, s, Invoke(0)) == Some(s')
    ensures after == o.(phase := Running(now)) && Holds(q, s', tool, now, after)
  {
    after := o.(phase := Running(now));
    s' := Invoked(cfg, s, 0).value;
  }

  lemma Overruns(cfg: Config, q: Request, s: State, tool: Tool, now: int, o: Owned) returns (s': State, after: Owned)
    requires Holds(q, s, tool, now, o) && o.phase.Running?
    ensures Step(cfg, s, Go(0, Return(Overran))) == Some(s')
    ensures after == o.(phase := Returned(now, Overran)) && Holds(q, s', tool, now, after)
  {
    after := o.(phase := Returned(now, Overran));
    s' := Arrive(s, 0, Place(Owning(after), Keep));
  }

  // ---------------------------------------------------------------- the race

  /** The same, with recovery run 0 in the given phase. */
  ghost predicate Chased(q: Request, s: State, now: int, o: Owned, cutoff: int, phase: RecoveryPhase) {
    && s.executions == map[0 := Execution(q, Owning(o))] && s.now == now && o.call.id == 0
    && s.recoveries == map[0 := Recovery(now, cutoff, 0, phase)]
    && 0 in s.db.calls && 0 in s.db.trail && 0 in s.db.flags
    && Consistent(o.call) && o.call.status == Executing && o.call.created == o.call.updated == 0
  }

  lemma StartsRecovery(cfg: Config, q: Request, s: State, tool: Tool, now: int, o: Owned) returns (s': State)
    requires Holds(q, s, tool, now, o) && o.call.status == Executing
    ensures Step(cfg, s, StartRecovery(0)) == Some(s')
    ensures Chased(q, s', now, o, now - cfg.staleAfter, Idle)
    ensures s'.claims == map[] && s'.writing == {} && s'.db.calls == map[0 := o.call]
  {
    s' := RecoveryStarted(cfg, s, 0).value;
  }

  lemma OnlyRowIsFree(s: State, call: ToolCall, cutoff: int)
    requires s.db.calls == map[0 := call] && s.claims == map[] && s.writing == {}
    requires call.status == Executing && call.updated < cutoff
    ensures Unclaimed(s, cutoff) == {0}
  {
    assert Written(s) == {};
    assert Stale(s.db, cutoff) == {0};
  }

  /** What a claim changes, but for the claims. */
  lemma ClaimLeaves(cfg: Config, s: State, r: nat, batch: set<nat>, s': State)
    requires BatchClaimed(cfg, s, r, batch) == Some(s')
    ensures s'.executions == s.executions && s'.writing == s.writing && s'.db == s.db && s'.now == s.now
    ensures s'.recoveries == s.recoveries[r := s.recoveries[r].(phase := Claimed(batch))]
  {
  }

  lemma ClaimOfNone(cfg: Config, s: State, r: nat, s': State)
    requires BatchClaimed(cfg, s, r, {}) == Some(s')
    ensures s'.claims == s.claims
  {
    ClaimFacts(cfg, s, r, {}, s');
    assert s'.claims == s.claims;
  }

  /** All there is can be claimed. */
  lemma CanClaim(cfg: Config, s: State, r: nat, batch: set<nat>) returns (s': State)
    requires r in s.recoveries && s.recoveries[r].phase.Idle? && batch == Unclaimed(s, s.recoveries[r].cutoff)
    requires |batch| <= cfg.batchSize
    ensures BatchClaimed(cfg, s, r, batch) == Some(s')
  {
    s' := BatchClaimed(cfg, s, r, batch).value;
  }

  lemma ClaimsTheRow(cfg: Config, q: Request, s: State, now: int, o: Owned, cutoff: int) returns (s': State)
    requires Chased(q, s, now, o, cutoff, Idle) && s.claims == map[] && s.writing == {}
      && s.db.calls == map[0 := o.call]
    requires 0 < cutoff && cfg.batchSize >= 1
    ensures Step(cfg, s, Claim(0, {0})) == Some(s')
    ensures Chased(q, s', now, o, cutoff, Claimed({0})) && s'.db.calls == map[0 := o.call]
  {
    OnlyRowIsFree(s, o.call, cutoff);
    assert |{0}| == 1;
    s' := CanClaim(cfg, s, 0, {0});
    ClaimLeaves(cfg, s, 0, {0}, s');
  }

  lemma RecoversTheRow(cfg: Config, q: Request, s: State, now: int, o: Owned, cutoff: int) returns (s': State)
    requires Chased(q, s, now, o, cutoff, Claimed({0})) && s.db.calls == map[0 := o.call]
    ensures Step(cfg, s, CommitBatch(0)) == Some(s')
    ensures s'.executions == s.executions && s'.now == now && 0 !in s'.claims && 0 in s'.db.trail && 0 in s'.db.flags
    ensures 0 in s'.db.calls && s'.db.calls[0] == Recovered(o.call, now)
  {
    s' := BatchCommitted(cfg, s, 0).value;
  }

  /** The owner, still within its window, commits its timeout over the recovered row. */
  lemma Overwrite(cfg: Config, q: Request, s: State, now: int, o: Owned) returns (s': State)
    requires Taken(q, s, now, o)
    ensures Step(cfg, s, Commit(0, TimeOut(now))) == Some(s') && Overwrites(s, s')
  {
    var change := Plain(TimedOut, now, Some(PublicCode(ToolTimeout)));
    TransitionExactly(o.call, change);
    var call := Rewritten(o.call, change);
    var deed := Deed(Writes(call, [CallTimedOut], [], None), Done(Failure(Terminal(ToolTimeout)), Some(0)), None);
    assert DeedOf(cfg, s.db, o, TimeOut(now)).Some?;
    s' := Performed(s, 0, 0, DeedOf(cfg, s.db, o, TimeOut(now)).value);
    assert s.db.calls[0].status.Terminal() && s'.db.calls[0].status == TimedOut;
  }

  // ------------------------------------------------------------- the whole run

  lemma {:induction false} RunsOn(cfg: Config, s0: State, actions: seq<Action>, s: State, a: Action, s': State)
    requires Run(cfg, s0, actions) == Some(s) && Step(cfg, s, a) == Some(s')
    ensures Run(cfg, s0, actions + [a]) == Some(s')
    decreases |actions|
  {
    if actions == [] {
      assert actions + [a] == [a] && [a][1..] == [];
      assert Run(cfg, s', []) == Some(s');
    } else {
      RunsOn(cfg, Step(cfg, s0, actions[0]).value, actions[1..], s, a, s');
      assert (actions + [a])[1..] == actions[1..] + [a];
    }
  }

  lemma Reaches(cfg: Config, s: State, a: Action, s': State)
    requires Reachable(cfg, s) && Step(cfg, s, a) == Some(s')
    ensures Reachable(cfg, s')
  {
    var actions :| Run(cfg, INITIAL, actions) == Some(s);
    RunsOn(cfg, INITIAL, actions, s, a, s');
  }

  /** Some run without a crash of recovery ends here. */
  ghost predicate Calm(cfg: Config, s: State) {
    exists actions :: Run(cfg, INITIAL, actions) == Some(s) && NoRecoveryCrash(actions)
  }

  lemma ReachesCalmly(cfg: Config, s: State, a: Action, s': State)
    requires Calm(cfg, s) && Step(cfg, s, a) == Some(s') && !a.CrashRecovery?
    ensures Calm(cfg, s')
  {
    var actions :| Run(cfg, INITIAL, actions) == Some(s) && NoRecoveryCrash(actions);
    RunsOn(cfg, INITIAL, actions, s, a, s');
    assert NoRecoveryCrash(actions + [a]);
  }

  lemma ReachesAdmission(cfg: Config, q: Request, tool: Tool) returns (s: State, o: Owned)
    requires tool.key == ToolOf(q) && tool.enabled && Encodable(IdentityComponents(q.identity))
    ensures Calm(cfg, s) && Holds(q, s, tool, 0, o) && Before(o, Received, Deciding)
  {
    assert Run(cfg, INITIAL, []) == Some(INITIAL) && NoRecoveryCrash([]);
    var s1 := PutsTool(cfg, q, tool);
    ReachesCalmly(cfg, INITIAL, PutTool(tool), s1);
    var s2 := CreatesSession(cfg, q, s1, tool);
    ReachesCalmly(cfg, s1, CreateSession(q.identity.session), s2);
    var s3 := SubmitsRequest(cfg, q, s2, tool);
    ReachesCalmly(cfg, s2, Submit(0, q), s3);
    var s4 := LooksUp(cfg, q, s3, tool);
    ReachesCalmly(cfg, s3, Go(0, Lookup([])), s4);
    var s5 := TakesLock(cfg, q, s4, tool);
    ReachesCalmly(cfg, s4, Go(0, LockSession), s5);
    var s6 := Inspects(cfg, q, s5, tool);
    ReachesCalmly(cfg, s5, Go(0, Inspect(1)), s6);
    s, o := Inserts(cfg, q, s6, tool);
    ReachesCalmly(cfg, s6, InsertCall(0, 0, 0), s);
  }

  lemma ReachesJudgement(cfg: Config, q: Request, tool: Tool) returns (s: State, o: Owned)
    requires tool.key == ToolOf(q) && tool.enabled && tool.base == Low && Encodable(IdentityComponents(q.identity))
    ensures Calm(cfg, s) && Holds(q, s, tool, 0, o) && Before(o, Evaluating, Deciding)
  {
    var s1, o1 := ReachesAdmission(cfg, q, tool);
    var s2, o2 := Validates(cfg, q, s1, tool, o1);
    ReachesCalmly(cfg, s1, Commit(0, Validate(0)), s2);
    s, o := Judges(cfg, q, s2, tool, o2);
    ReachesCalmly(cfg, s2, Commit(0, JUDGE), s);
  }

  lemma ReachesExecution(cfg: Config, q: Request, tool: Tool) returns (s: State, o: Owned)
    requires tool.key == ToolOf(q) && tool.enabled && tool.base == Low && Encodable(IdentityComponents(q.identity))
    ensures Calm(cfg, s) && Holds(q, s, tool, 0, o) && Before(o, Executing, Deciding)
  {
    var s1, o1 := ReachesJudgement(cfg, q, tool);
    s, o := Starts(cfg, q, s1, tool, o1);
    ReachesCalmly(cfg, s1, Commit(0, Start(0)), s);
  }

  lemma ReachesAdapter(cfg: Config, q: Request, adapter: string) returns (s: State, o: Owned)
    requires adapter in cfg.adapters && Encodable(IdentityComponents(q.identity))
    ensures Calm(cfg, s) && Holds(q, s, SlowTool(cfg, q, adapter), cfg.startLag, o)
    ensures o.call.status == Executing && o.phase == Running(cfg.startLag)
  {
    var tool := SlowTool(cfg, q, adapter);
    var s1, o1 := ReachesExecution(cfg, q, tool);
    var s2 := Waits(cfg, q, s1, tool, 0, o1, cfg.startLag);
    ReachesCalmly(cfg, s1, Tick(cfg.startLag), s2);
    s, o := Invokes(cfg, q, s2, tool, cfg.startLag, o1);
    ReachesCalmly(cfg, s2, Invoke(0), s);
  }

  /** The longest window: the adapter starts late, overruns, and the work after it drags. */
  lemma ReachesEndOfWindow(cfg: Config, q: Request, adapter: string) returns (s: State, o: Owned)
    requires adapter in cfg.adapters && Encodable(IdentityComponents(q.identity))
    ensures Calm(cfg, s) && Holds(q, s, SlowTool(cfg, q, adapter), cfg.startLag + cfg.maxTimeout + cfg.postWork, o)
    ensures o.call.status == Executing && o.phase.Returned? && o.phase.outcome == Overran
  {
    var tool, due := SlowTool(cfg, q, adapter), cfg.startLag + cfg.maxTimeout;
    SlowToolTakesLongest(cfg, q, adapter);
    var s3, o3 := ReachesAdapter(cfg, q, adapter);
    var s4 := Waits(cfg, q, s3, tool, cfg.startLag, o3, cfg.maxTimeout);
    ReachesCalmly(cfg, s3, Tick(cfg.maxTimeout), s4);
    var s5;
    s5, o := Overruns(cfg, q, s4, tool, due, o3);
    ReachesCalmly(cfg, s4, Go(0, Return(Overran)), s5);
    s := Waits(cfg, q, s5, tool, due, o, cfg.postWork);
    ReachesCalmly(cfg, s5, Tick(cfg.postWork), s);
  }

  /** The row is what recovery made of the owner's copy. */
  ghost predicate Taken(q: Request, s: State, now: int, o: Owned) {
    && s.executions == map[0 := Execution(q, Owning(o))] && s.now == now >= 0
    && 0 !in s.claims && 0 in s.db.trail && 0 in s.db.flags && o.call.id == 0
    && 0 in s.db.calls && s.db.calls[0] == Recovered(o.call, now)
    && Consistent(o.call) && o.call.status == Executing && o.call.created == o.call.updated == 0
    && o.phase.Returned? && o.phase.outcome == Overran
  }

  lemma ReachesRecovery(cfg: Config, q: Request, s1: State, tool: Tool, now: nat, o: Owned) returns (s: State)
    requires Calm(cfg, s1) && Holds(q, s1, tool, now, o) && cfg.batchSize >= 1 && cfg.staleAfter < now
    requires o.call.status == Executing && o.phase.Returned? && o.phase.outcome == Overran
    ensures Calm(cfg, s) && Taken(q, s, now, o)
  {
    var s2 := StartsRecovery(cfg, q, s1, tool, now, o);
    ReachesCalmly(cfg, s1, StartRecovery(0), s2);
    var s3 := ClaimsTheRow(cfg, q, s2, now, o, now - cfg.staleAfter);
    ReachesCalmly(cfg, s2, Claim(0, {0}), s3);
    s := RecoversTheRow(cfg, q, s3, now, o, now - cfg.staleAfter);
    ReachesCalmly(cfg, s3, CommitBatch(0), s);
  }

  /** Below the threshold a run of nineteen actions changes a terminal row. */
  lemma BelowTheThreshold(cfg: Config, q: Request, adapter: string) returns (s: State, a: Action, s': State)
    requires adapter in cfg.adapters && cfg.batchSize >= 1 && !Ample(cfg) && Encodable(IdentityComponents(q.identity))
    ensures Reachable(cfg, s) && Step(cfg, s, a) == Some(s') && Overwrites(s, s')
  {
    var now := cfg.startLag + cfg.maxTimeout + cfg.postWork;
    var s1, o := ReachesEndOfWindow(cfg, q, adapter);
    s := ReachesRecovery(cfg, q, s1, SlowTool(cfg, q, adapter), now, o);
    a := Commit(0, TimeOut(now));
    s' := Overwrite(cfg, q, s, now, o);
  }

  lemma {:induction false} EncodedLength(s: string)
    ensures |Text.Encode(s)| <= 4 * |s|
  {
    if s != "" { EncodedLength(s[1..]); }
  }

  lemma ShortEncoding(s: string)
    requires |s| <= 65_536
    ensures |Text.Encode(s)| < TWO_TO_THE_64
  {
    EncodedLength(s);
  }

  lemma FourEncodable(parts: seq<seq<Text.Byte>>)
    requires |parts| == 4 && |parts[0]| < TWO_TO_THE_64 && |parts[1]| < TWO_TO_THE_64
    requires |parts[2]| < TWO_TO_THE_64 && |parts[3]| < TWO_TO_THE_64
    ensures Encodable(parts)
  {
  }

  lemma ShortIsEncodable(session: string, tool: string, version: string, arguments: string)
    requires |session| <= 255 && |tool| <= 255 && |version| <= 255 && |arguments| <= 65_536
    ensures Encodable(IdentityComponents(Identity(session, tool, version, Text.Encode(arguments))))
  {
    ShortEncoding(session);
    ShortEncoding(tool);
    ShortEncoding(version);
    ShortEncoding(arguments);
    FourEncodable(IdentityComponents(Identity(session, tool, version, Text.Encode(arguments))));
  }

  /** An ordinary request with an empty argument object. */
  lemma OrdinaryRequest() returns (q: Request)
    ensures Encodable(IdentityComponents(q.identity))
    ensures q.identity.session != "" && q.identity.tool != "" && q.identity.version != ""
  {
    var session, tool, version := "0f5a1f0e-8f0c-4a51-9f6c-0d5f3b8f4c11", "demo.echo", "1.0.0";
    ShortIsEncodable(session, tool, version, "{}");
    q := Request(Identity(session, tool, version, Text.Encode("{}")), 7);
  }

  /** No reachable step changes a terminal row. */
  ghost predicate TerminalRowsStay(cfg: Config) {
    forall s, a :: Reachable(cfg, s) && Step(cfg, s, a).Some? ==> !Overwrites(s, Step(cfg, s, a).value)
  }

  /** The threshold is exact: terminal rows stay in every run if and only if calls
      go stale no sooner than the longest window of a live execution ends. */
  lemma ThresholdIsExact(cfg: Config)
    requires cfg.adapters != {} && cfg.batchSize >= 1
    ensures TerminalRowsStay(cfg) <==> Ample(cfg)
  {
    if Ample(cfg) {
      forall s, a | Reachable(cfg, s) && Step(cfg, s, a).Some? ensures !Overwrites(s, Step(cfg, s, a).value) {
        TimedReachable(cfg, s);
        TimedStep(cfg, s, a, Step(cfg, s, a).value);
      }
    } else {
      var adapter :| adapter in cfg.adapters;
      var q := OrdinaryRequest();
      var s, a, s' := BelowTheThreshold(cfg, q, adapter);
    }
  }
}
