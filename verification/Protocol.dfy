/** The tool-call execution protocol (application/tool_calls.py) as a labelled
    transition system. One action is one committed transaction, one wait or one
    crash; executions, session completions and recovery runs interleave freely. */
module Protocol {
  import opened Options
  import opened RiskEngine
  import opened ToolCalls
  import opened AuditTrail
  import opened Store
  import opened RequestIdentity
  import JsonValues
  import Rules = RuleEngine

  // ------------------------------------------------------------ parameters

  /** Times are milliseconds. startLag bounds the wait between a call's executing
      stamp and its adapter's start, postWork the work after the adapter. */
  datatype Config = Config(
    digest: Digest, matchers: Rules.Matchers, adapters: set<string>, startLag: nat, defaultTimeout: nat,
    maxTimeout: nat, postWork: nat, staleAfter: nat, batchSize: nat)

  function Least(a: nat, b: nat): nat { if a < b then a else b }

  /** _timeout_for */
  function TimeoutFor(cfg: Config, tool: Tool): nat {
    if tool.timeout.Some? && tool.timeout.value > 0 then Least(tool.timeout.value, cfg.maxTimeout)
    else Least(cfg.defaultTimeout, cfg.maxTimeout)
  }

  // --------------------------------------------------------------- answers

  datatype TerminalError =
    | InvalidToolArguments | AdapterNotConfigured | ToolExecutionFailed | MockQueryNotSupported | ToolTimeout
    | InvalidToolResult | ToolResultTooLarge | ToolPayloadTooDeep | ToolResultPayloadTooDeep

  datatype PublicError =
    | SessionNotFound | SessionNotActive | ToolNotFound | ToolDisabled | ToolCallNotFound | IdempotencyConflict
    | ExecutionInProgress | Terminal(error: TerminalError)

  /** The code a client sees. */
  function PublicCode(e: TerminalError): string {
    match e
    case InvalidToolArguments => "invalid_tool_arguments"
    case AdapterNotConfigured => "adapter_not_configured"
    case ToolExecutionFailed => "tool_execution_failed"
    case MockQueryNotSupported => "mock_query_not_supported"
    case ToolTimeout => "tool_timeout"
    case InvalidToolResult => "invalid_tool_result"
    case ToolResultTooLarge => "tool_result_too_large"
    case ToolPayloadTooDeep => "tool_payload_too_deep"
    case ToolResultPayloadTooDeep => "tool_payload_too_deep"
  }

  /** The table of _raise_terminal_error. */
  function ReplayError(code: string): TerminalError {
    if code == "invalid_tool_arguments" then InvalidToolArguments
    else if code == "adapter_not_configured" then AdapterNotConfigured
    else if code == "tool_execution_failed" then ToolExecutionFailed
    else if code == "mock_query_not_supported" then MockQueryNotSupported
    else if code == "tool_timeout" then ToolTimeout
    else if code == "invalid_tool_result" then InvalidToolResult
    else if code == "tool_result_too_large" then ToolResultTooLarge
    else if code == "tool_payload_too_deep" then ToolResultPayloadTooDeep
    else ToolExecutionFailed
  }

  /** The error an adapter's own failure code raises the first time. */
  function AdapterError(code: string): TerminalError {
    if code == "mock_query_not_supported" then MockQueryNotSupported else ToolExecutionFailed
  }

  datatype Answer =
    | Success(call: ToolCall, result: JsonValues.Json, names: seq<string>, flags: seq<RiskFlag>, replayed: bool)
    | BlockedBy(call: ToolCall, names: seq<string>, flags: seq<RiskFlag>, replayed: bool)
    | Failure(error: PublicError)
    | Lost

  // ----------------------------------------------------------------- state

  datatype Request = Request(identity: Identity, key: nat)

  function HashOf(cfg: Config, r: Request): string { RequestHash(cfg.digest, r.identity) }

  function ToolOf(r: Request): ToolKey { ToolKey(r.identity.tool, r.identity.version) }

  datatype Produced = Overran | RaisedCode(code: string) | RaisedOther | Delivered

  /** What finalising will write, once the result is evaluated. */
  datatype Plan = Plan(
    result: JsonValues.Json, assessment: RiskAssessment, redacted: bool, matched: seq<nat>, names: seq<string>,
    marked: bool, verdict: Verdict)

  datatype Phase =
    | Deciding
    | Running(since: int)
    | Returned(at: int, outcome: Produced)
    | Finishing(at: int, plan: Plan)

  /** An execution's own copy of the call it inserted, and what it remembers of the input. */
  datatype Owned = Owned(call: ToolCall, tool: Tool, names: seq<string>, flags: seq<RiskFlag>, phase: Phase)

  datatype Pc =
    | Fresh
    | Admitting
    | Locked
    | Numbered(tool: Tool, sequence: int)
    | Owning(own: Owned)
    | Done(answer: Answer, made: Option<nat>)

  datatype Execution = Execution(request: Request, pc: Pc)

  datatype Holder = Worker(w: nat) | Closing(k: nat)

  datatype Closer = HoldingSession(session: string, status: SessionStatus) | Closed

  datatype RecoveryPhase = Idle | Claimed(batch: set<nat>) | Finished | Died

  datatype Recovery = Recovery(now: int, cutoff: int, count: nat, phase: RecoveryPhase)

  /** What the input was judged against, and the judgement. */
  datatype Verdict = Verdict(subject: Rules.Subject, listing: seq<Rules.Rule>, action: Rules.Action)

  /** What the run so far leaves on record: who inserted a call, each session's
      calls in order, how many a session had when it ended, the adapter log, the
      verdicts on inputs and on the results of finished calls, and which recovery run
      moved a row. */
  datatype History = History(
    maker: map<nat, nat>, order: map<string, seq<nat>>, ended: map<string, nat>, invoked: seq<nat>,
    verdicts: map<nat, Verdict>, outcomes: map<nat, Verdict>, moved: map<nat, nat>)

  /** locks: session rows; claims: call rows locked by a recovery run; writing: the
      executions whose open transaction holds their own call's row. */
  datatype State = State(
    db: Db, now: int, locks: map<string, Holder>, claims: map<nat, nat>, writing: set<nat>,
    executions: map<nat, Execution>, closers: map<nat, Closer>, recoveries: map<nat, Recovery>, past: History)

  const EMPTY := Db(map[], map[], map[], map[], map[], map[], map[], map[])

  const INITIAL := State(EMPTY, 0, map[], map[], {}, map[], map[], map[],
      History(map[], map[], map[], [], map[], map[], map[]))

  // --------------------------------------------------------------- actions

  datatype RejectReason = BadArguments | TooDeep

  /** The transactions by which an execution moves its own call on. */
  datatype Choice =
    | Validate(stamp: int)
    | RejectCall(stamp: int, reason: RejectReason)
    | Judge(stamp: int, assessment: RiskAssessment, arguments: JsonValues.Json, listing: seq<Rules.Rule>,
            reported: seq<Rules.Rule>, action: Rules.Action)
    | Start(stamp: int)
    | RefuseAdapter(stamp: int)
    | TimeOut(stamp: int)
    | Fail(stamp: int, code: string, error: TerminalError)
    | FinishInvalid(stamp: int, assessment: RiskAssessment, redacted: bool)
    | Finish(stamp: int)

  /** What changes only where an execution stands, and the session locks. */
  datatype Move =
    | Lookup(listed: seq<RiskFlag>)
    | LockSession
    | Inspect(sequence: int)
    | LoseRace
    | Return(outcome: Produced)
    | EvaluateResult(result: JsonValues.Json, assessment: RiskAssessment, redacted: bool,
                     arguments: JsonValues.Json, listing: seq<Rules.Rule>, reported: seq<Rules.Rule>,
                     action: Rules.Action)
    | Abandon(error: TerminalError)
    | Crash

  datatype Action =
    | Submit(w: nat, request: Request)
    | Go(w: nat, move: Move)
    | InsertCall(w: nat, id: nat, stamp: int)
    | Flush(w: nat)
    | Commit(w: nat, choice: Choice)
    | Invoke(w: nat)
    | LockForClose(k: nat, session: string, status: SessionStatus)
    | CommitClose(k: nat)
    | CrashClose(k: nat)
    | StartRecovery(r: nat)
    | Claim(r: nat, batch: set<nat>)
    | CommitBatch(r: nat)
    | CrashRecovery(r: nat)
    | Tick(d: nat)
    | PutRule(rule: Rules.Rule)
    | PutTool(tool: Tool)
    | CreateSession(session: string)

  function Put(s: State, w: nat, pc: Pc): State
    requires w in s.executions
  {
    s.(executions := s.executions[w := s.executions[w].(pc := pc)])
  }

  function Release(locks: map<string, Holder>, session: string): map<string, Holder> { locks - {session} }

  predicate At(s: State, w: nat, session: string) { session in s.locks && s.locks[session] == Worker(w) }

  // ----------------------------------------------------------------- moves

  datatype LockUse = Keep | Take | Free

  /** Where a move leaves the execution, and what it does to its session's row lock. */
  datatype Place = Place(pc: Pc, lock: LockUse)

  function Fails(error: PublicError): Pc { Done(Failure(error), None) }

  function Submitted(s: State, w: nat, request: Request): Option<State> {
    if w !in s.executions && Encodable(IdentityComponents(request.identity))
    then Some(s.(executions := s.executions[w := Execution(request, Fresh)]))
    else None
  }

  /** What a stored call answers to a request with its key and hash. */
  function ReplayAnswer(db: Db, c: nat, listed: seq<RiskFlag>): Answer
    requires c in db.calls
  {
    var row := db.calls[c];
    var names := RuleNames(db.rules, row.matched);
    if row.status == Succeeded then
      if c !in db.results then Failure(ExecutionInProgress)
      else Success(row, db.results[c].payload, names, listed, true)
    else if row.status == Blocked then BlockedBy(row, names, listed, true)
    else if row.status.Terminal() then Failure(Terminal(ReplayError(if row.error.Some? then row.error.value else "")))
    else Failure(ExecutionInProgress)
  }

  /** _existing_outcome: the flags come back in the order of the listing. */
  ghost function AfterLookup(cfg: Config, db: Db, request: Request, listed: seq<RiskFlag>): Option<Pc> {
    if request.key !in db.byKey then Some(Admitting)
    else
      var c := db.byKey[request.key];
      if !(c in db.calls && c in db.flags && multiset(listed) == db.flags[c]) then None
      else if db.calls[c].hash != HashOf(cfg, request) then Some(Fails(IdempotencyConflict))
      else if db.calls[c].tool !in db.tools then Some(Fails(ToolCallNotFound))
      else Some(Done(ReplayAnswer(db, c, listed), None))
  }

  /** What _create_received finds under the session lock, when it is an error. */
  function Refusal(cfg: Config, db: Db, request: Request): Option<PublicError>
    requires request.identity.session in db.sessions
    requires forall k :: k in db.byKey ==> db.byKey[k] in db.calls
  {
    if db.sessions[request.identity.session] != Active then Some(SessionNotActive)
    else if ToolOf(request) !in db.tools then Some(ToolNotFound)
    else if !db.tools[ToolOf(request)].enabled then Some(ToolDisabled)
    else if request.key in db.byKey then
      Some(if db.calls[db.byKey[request.key]].hash != HashOf(cfg, request) then IdempotencyConflict
           else ExecutionInProgress)
    else None
  }

  ghost function AfterInspection(cfg: Config, db: Db, request: Request, sequence: int): Option<Place> {
    if !(request.identity.session in db.sessions && forall k :: k in db.byKey ==> db.byKey[k] in db.calls) then None
    else match Refusal(cfg, db, request)
      case Some(error) => Some(Place(Fails(error), Free))
      case None =>
        if ToolOf(request) in db.tools && IsNext(db.calls, request.identity.session, sequence)
        then Some(Place(Numbered(db.tools[ToolOf(request)], sequence), Keep))
        else None
  }

  function NewCall(cfg: Config, request: Request, id: nat, sequence: int, stamp: int): ToolCall {
    ToolCall(id, request.identity.session, ToolOf(request), sequence, HashOf(cfg, request), request.key,
             Received, Allow, Low, [], None, None, None, None, stamp, stamp)
  }

  /** The unique pair of session and sequence number. */
  ghost predicate NumberTaken(calls: map<nat, ToolCall>, session: string, sequence: int) {
    exists c :: c in calls && calls[c].session == session && calls[c].sequence == sequence
  }

  /** Which unique constraint rolls the insert back, and what the caller is told. */
  ghost function AfterConflict(db: Db, request: Request, sequence: int): Option<Pc> {
    if request.key in db.byKey then Some(Fails(IdempotencyConflict))
    else if NumberTaken(db.calls, request.identity.session, sequence) || sequence < 1 then Some(Done(Lost, None))
    else None
  }

  /** The insert and its commit, when neither constraint stands in the way. */
  ghost function Inserted(cfg: Config, s: State, w: nat, id: nat, stamp: int): Option<State> {
    if !(w in s.executions && s.executions[w].pc.Numbered? && id !in s.db.calls && stamp <= s.now) then None
    else
      var Execution(request, pc) := s.executions[w];
      var session := request.identity.session;
      if AfterConflict(s.db, request, pc.sequence).Some? then None
      else
        var call := NewCall(cfg, request, id, pc.sequence, stamp);
        var mine := if session in s.past.order then s.past.order[session] else [];
        Some(Put(s, w, Owning(Owned(call, pc.tool, [], [], Deciding))).(
               db := Store.Insert(s.db, call), locks := Release(s.locks, session),
               past := s.past.(maker := s.past.maker[id := w], order := s.past.order[session := mine + [id]])))
  }

  // ------------------------------------------------- the owner's commits

  /** One owner transaction: what it writes and where the execution stands after it. */
  datatype Deed = Deed(writes: Writes, next: Pc, verdict: Option<Verdict>)

  predicate Before(o: Owned, status: Status, phase: Phase) { o.call.status == status && o.phase == phase }

  /** A transition with one event and no flags or result. */
  function PlainDeed(o: Owned, change: Change, event: seq<Event>, next: ToolCall -> Pc): Option<Deed> {
    match TransitionTo(o.call, change)
    case Changed(call) => Some(Deed(Writes(call, event, [], None), next(call), None))
    case _ => None
  }

  function Ends(o: Owned, error: TerminalError): ToolCall -> Pc {
    call => Done(Failure(Terminal(error)), Some(o.call.id))
  }

  function Continues(o: Owned): ToolCall -> Pc { call => Owning(o.(call := call)) }

  function RejectError(reason: RejectReason): TerminalError {
    if reason.BadArguments? then InvalidToolArguments else ToolPayloadTooDeep
  }

  /** The stored code and the error raised by each failure after the adapter returned. */
  predicate FailsWith(outcome: Produced, code: string, error: TerminalError) {
    match outcome
    case Overran => false
    case RaisedCode(raised) => code == raised && error == AdapterError(raised)
    case RaisedOther => code == "tool_execution_failed" && error == ToolExecutionFailed
    case Delivered =>
      || (code == "tool_payload_too_deep" && error == ToolResultPayloadTooDeep)
      || (code == "tool_result_too_large" && error == ToolResultTooLarge)
      || (code == "invalid_tool_result" && error == InvalidToolResult)
  }

  /** _evaluate_input: one transaction, blocked or not. */
  ghost function JudgeDeed(cfg: Config, db: Db, o: Owned, c: Choice): Option<Deed>
    requires c.Judge?
  {
    var subject := Rules.Subject(o.tool.key.name, c.assessment.level, c.assessment.flags, c.arguments, false);
    if !(&& Before(o, Validating, Deciding)
         && Highest(c.assessment.level, o.tool.base, c.assessment.flags) && SortedByCode(c.assessment.flags)
         && IsListing(db.rules, c.listing)
         && Rules.Evaluates(cfg.matchers, subject, c.listing, c.reported, c.action)) then None
    else
      var marked := c.assessment.flags != [] || c.action == Rules.Flag;
      var decision := if marked then Flag else Allow;
      var ids := Ids(c.reported);
      var names := Names(c.reported);
      var events := EvaluationEvents(marked, |c.reported|, c.action == Rules.Block);
      var verdict := Some(Verdict(subject, c.listing, c.action));
      match TransitionTo(o.call, Change(Evaluating, c.stamp, None, Some(decision), Some(c.assessment.level), Some(ids)))
      case Changed(evaluating) =>
        if c.action == Rules.Block then
          match TransitionTo(
            evaluating, Change(Blocked, c.stamp, Some("tool_call_blocked"), Some(Block), None, Some(ids)))
          case Changed(blocked) =>
            Some(Deed(Writes(blocked, events, c.assessment.flags, None),
                      Done(BlockedBy(blocked, names, c.assessment.flags, false), Some(o.call.id)), verdict))
          case _ => None
        else
          Some(Deed(Writes(evaluating, events, c.assessment.flags, None),
                    Owning(Owned(evaluating, o.tool, names, c.assessment.flags, Deciding)), verdict))
      case _ => None
  }

  /** _finalize after a result that breaks its schema. */
  ghost function InvalidDeed(o: Owned, c: Choice): Option<Deed>
    requires c.FinishInvalid?
  {
    if !(&& o.call.status == Executing && o.phase.Returned? && o.phase.outcome == Delivered
         && Highest(c.assessment.level, o.call.risk, c.assessment.flags) && SortedByCode(c.assessment.flags)) then None
    else
      var decision := if c.assessment.flags != [] then Flag else o.call.decision;
      var marked := c.assessment.flags != [] || decision == Flag;
      match TransitionTo(o.call, Change(Failed, c.stamp, Some("invalid_tool_result"), Some(decision),
                                        Some(c.assessment.level), Some(o.call.matched)))
      case Changed(call) =>
        Some(Deed(Writes(call, FinalEvents(c.redacted, 0, marked, false), c.assessment.flags,
                         Some(StoredResult(JsonValues.Null, false))),
                  Done(Failure(Terminal(InvalidToolResult)), Some(o.call.id)), None))
      case _ => None
  }

  /** _finalize after a result that was evaluated. */
  function FinishDeed(o: Owned, stamp: int): Option<Deed> {
    if !(o.call.status == Executing && o.phase.Finishing?) then None
    else
      var plan := o.phase.plan;
      var decision := if plan.marked then Flag else o.call.decision;
      match TransitionTo(o.call, Change(Succeeded, stamp, None, Some(decision), Some(plan.assessment.level),
                                        Some(o.call.matched + plan.matched)))
      case Changed(call) =>
        Some(Deed(Writes(call, FinalEvents(plan.redacted, |plan.names|, decision == Flag, true), plan.assessment.flags,
                         Some(StoredResult(plan.result, true))),
                  Done(Success(call, plan.result, o.names + plan.names, o.flags + plan.assessment.flags, false),
                       Some(o.call.id)), None))
      case _ => None
  }

  ghost function DeedOf(cfg: Config, db: Db, o: Owned, c: Choice): Option<Deed> {
    match c
    case Validate(stamp) =>
      if Before(o, Received, Deciding) then PlainDeed(o, Plain(Validating, stamp, None), [], Continues(o)) else None
    case RejectCall(stamp, reason) =>
      if Before(o, Validating, Deciding)
      then PlainDeed(o, Plain(Rejected, stamp, Some(PublicCode(RejectError(reason)))), [CallFailed],
          Ends(o, RejectError(reason)))
      else None
    case Judge(_, _, _, _, _, _) => JudgeDeed(cfg, db, o, c)
    case Start(stamp) =>
      if Before(o, Evaluating, Deciding)
      then PlainDeed(o, Change(Executing, stamp, None, Some(o.call.decision), None, None), [CallStarted], Continues(o))
      else None
    case RefuseAdapter(stamp) =>
      if Before(o, Executing, Deciding) && o.tool.adapter !in cfg.adapters
      then PlainDeed(o, Plain(Failed, stamp, Some(PublicCode(AdapterNotConfigured))), [CallFailed],
          Ends(o, AdapterNotConfigured))
      else None
    case TimeOut(stamp) =>
      if o.call.status == Executing && o.phase.Returned? && o.phase.outcome == Overran
      then PlainDeed(o, Plain(TimedOut, stamp, Some(PublicCode(ToolTimeout))), [CallTimedOut], Ends(o, ToolTimeout))
      else None
    case Fail(stamp, code, error) =>
      if o.call.status == Executing && o.phase.Returned? && FailsWith(o.phase.outcome, code, error)
      then PlainDeed(o, Plain(Failed, stamp, Some(code)), [CallFailed], Ends(o, error))
      else None
    case FinishInvalid(_, _, _) => InvalidDeed(o, c)
    case Finish(stamp) => FinishDeed(o, stamp)
  }

  /** The commit stands when the stamp was taken since the last one, in time, no
      recovery run holds the row, and the row is there to update. An executing
      stamp is committed within startLag. */
  ghost function Committed(cfg: Config, s: State, w: nat, c: Choice): Option<State> {
    if !(w in s.executions && s.executions[w].pc.Owning?) then None
    else
      var o := s.executions[w].pc.own;
      if !(&& o.call.id !in s.claims && o.call.updated <= c.stamp <= s.now
           && (c.Start? ==> s.now <= c.stamp + cfg.startLag)) then None
      else match DeedOf(cfg, s.db, o, c)
        case None => None
        case Some(deed) =>
          if deed.writes.call.id in s.db.trail && deed.writes.call.id in s.db.flags
          then Some(Performed(s, w, o.call.id, deed))
          else None
  }

  /** The owner is about to end its executing call. */
  predicate Concluding(cfg: Config, o: Owned) {
    && o.call.status == Executing
    && (o.phase.Returned? || o.phase.Finishing? || (o.phase.Deciding? && o.tool.adapter !in cfg.adapters))
  }

  /** The UPDATE of the owner's last transaction takes the row lock; what follows up to
      the commit may take a while, or come to nothing. */
  function Flushed(cfg: Config, s: State, w: nat): Option<State> {
    if !(w in s.executions && s.executions[w].pc.Owning?) then None
    else
      var o := s.executions[w].pc.own;
      if Concluding(cfg, o) && o.call.id !in s.claims then Some(s.(writing := s.writing + {w})) else None
  }

  /** The rows these transactions hold. */
  ghost function Written(s: State): set<nat> {
    set w | w in s.writing && w in s.executions && s.executions[w].pc.Owning? :: s.executions[w].pc.own.call.id
  }

  /** A call that finishes leaves the verdict on its result on record. */
  function OutcomesWith(outcomes: map<nat, Verdict>, pc: Pc, id: nat): map<nat, Verdict> {
    if pc.Owning? && pc.own.phase.Finishing? then outcomes[id := pc.own.phase.plan.verdict] else outcomes
  }

  function Performed(s: State, w: nat, id: nat, deed: Deed): State
    requires w in s.executions && deed.writes.call.id in s.db.trail && deed.writes.call.id in s.db.flags
  {
    Put(s, w, deed.next).(
      db := Write(s.db, deed.writes),
      past := s.past.(
        verdicts := if deed.verdict.Some? then s.past.verdicts[id := deed.verdict.value] else s.past.verdicts,
        outcomes := OutcomesWith(s.past.outcomes, s.executions[w].pc, id)))
  }

  // ------------------------------------------------- the adapter's window

  function Invoked(cfg: Config, s: State, w: nat): Option<State> {
    if !(w in s.executions && s.executions[w].pc.Owning?) then None
    else
      var o := s.executions[w].pc.own;
      if Before(o, Executing, Deciding) && o.tool.adapter in cfg.adapters
      then Some(Put(s, w, Owning(o.(phase := Running(s.now)))).(
               past := s.past.(invoked := s.past.invoked + [o.call.id])))
      else None
  }

  /** The result phase reads the rules in a transaction of its own. */
  ghost function AfterEvaluation(cfg: Config, db: Db, o: Owned, m: Move): Option<Pc>
    requires m.EvaluateResult?
  {
    var subject := Rules.Subject(o.tool.key.name, m.assessment.level, m.assessment.flags, m.arguments, true);
    if !(&& o.phase.Returned? && o.phase.outcome == Delivered
         && Highest(m.assessment.level, o.call.risk, m.assessment.flags) && SortedByCode(m.assessment.flags)
         && IsListing(db.rules, m.listing)
         && Rules.Evaluates(cfg.matchers, subject, m.listing, m.reported, m.action)) then None
    else
      var plan := Plan(m.result, m.assessment, m.redacted, Ids(m.reported), Names(m.reported),
                       m.assessment.flags != [] || m.action == Rules.Flag, Verdict(subject, m.listing, m.action));
      Some(Owning(o.(phase := Finishing(o.phase.at, plan))))
  }

  predicate SanitizedLimit(error: TerminalError) { error == ToolResultTooLarge || error == ToolResultPayloadTooDeep }

  /** The owner's moves; Abandon is _canonical_sanitized_result failing: the error
      goes out and the row stays executing. */
  ghost function OwnerMove(cfg: Config, s: State, o: Owned, m: Move): Option<Pc> {
    match m
    case Return(outcome) => if o.phase.Running? then Some(Owning(o.(phase := Returned(s.now, outcome)))) else None
    case EvaluateResult(_, _, _, _, _, _, _) => AfterEvaluation(cfg, s.db, o, m)
    case Abandon(error) =>
      if o.phase.Returned? && o.phase.outcome == Delivered && SanitizedLimit(error)
      then Some(Done(Failure(Terminal(error)), Some(o.call.id)))
      else None
    case Crash => Some(Done(Lost, Some(o.call.id)))
    case _ => None
  }

  /** A crash is cancellation or process death: uncommitted work is rolled back,
      locks are freed. LockSession waits while the row is held. */
  ghost function PlaceAfter(cfg: Config, s: State, x: Execution, m: Move): Option<Place> {
    match x.pc
    case Fresh =>
      if m.Lookup? then
        match AfterLookup(cfg, s.db, x.request, m.listed)
        case Some(pc) => Some(Place(pc, Keep))
        case None => None
      else if m.Crash? then Some(Place(Done(Lost, None), Keep)) else None
    case Admitting =>
      if m.LockSession? then
        if x.request.identity.session !in s.db.sessions then Some(Place(Fails(SessionNotFound), Keep))
        else if x.request.identity.session in s.locks then None
        else Some(Place(Locked, Take))
      else if m.Crash? then Some(Place(Done(Lost, None), Keep)) else None
    case Locked =>
      if m.Inspect? then AfterInspection(cfg, s.db, x.request, m.sequence)
      else if m.Crash? then Some(Place(Done(Lost, None), Free)) else None
    case Numbered(_, sequence) =>
      if m.LoseRace? then
        match AfterConflict(s.db, x.request, sequence)
        case Some(pc) => Some(Place(pc, Free))
        case None => None
      else if m.Crash? then Some(Place(Done(Lost, None), Free)) else None
    case Owning(o) =>
      (match OwnerMove(cfg, s, o, m)
       case Some(pc) => Some(Place(pc, Keep))
       case None => None)
    case Done(_, _) => None
  }

  function Arrive(s: State, w: nat, p: Place): State
    requires w in s.executions
  {
    var session := s.executions[w].request.identity.session;
    Put(s, w, p.pc).(locks :=
      match p.lock
      case Keep => s.locks
      case Take => s.locks[session := Worker(w)]
      case Free => Release(s.locks, session))
  }

  ghost function Gone(cfg: Config, s: State, w: nat, m: Move): Option<State> {
    if w !in s.executions || (w in s.writing && !m.Crash?) then None
    else match PlaceAfter(cfg, s, s.executions[w], m)
      case Some(place) => Some(Arrive(s, w, place))
      case None => None
  }

  // ----------------------------------------------------- session completion

  function CloseLocked(s: State, k: nat, session: string, status: SessionStatus): Option<State> {
    if k !in s.closers && session in s.db.sessions && session !in s.locks && status != Active
    then Some(s.(closers := s.closers[k := HoldingSession(session, status)], locks := s.locks[session := Closing(k)]))
    else None
  }

  function CloseCommitted(s: State, k: nat): Option<State> {
    if !(k in s.closers && s.closers[k].HoldingSession?) then None
    else
      var HoldingSession(session, status) := s.closers[k];
      var freed := s.(closers := s.closers[k := Closed], locks := Release(s.locks, session));
      if session in s.db.sessions && s.db.sessions[session] == Active then
        Some(freed.(db := s.db.(sessions := s.db.sessions[session := status]),
                    past := s.past.(ended := s.past.ended[session :=
                      if session in s.past.order then |s.past.order[session]| else 0])))
      else Some(freed)
  }

  function CloseCrashed(s: State, k: nat): Option<State> {
    if k in s.closers && s.closers[k].HoldingSession?
    then Some(s.(closers := s.closers[k := Closed], locks := Release(s.locks, s.closers[k].session)))
    else None
  }

  // --------------------------------------------------------------- recovery

  function RecoveryStarted(cfg: Config, s: State, r: nat): Option<State> {
    if r in s.recoveries then None
    else Some(s.(recoveries := s.recoveries[r := Recovery(s.now, s.now - cfg.staleAfter, 0, Idle)]))
  }

  /** The stale rows nobody holds. */
  ghost function Unclaimed(s: State, cutoff: int): set<nat> { Stale(s.db, cutoff) - s.claims.Keys - Written(s) }

  /** claim_stale_executing skips locked rows, a recovery run's or an owner's, and
      returns fewer than the limit only when there are no more. */
  ghost function BatchClaimed(cfg: Config, s: State, r: nat, batch: set<nat>): Option<State> {
    if !(r in s.recoveries && s.recoveries[r].phase.Idle?) then None
    else
      var rec := s.recoveries[r];
      if && batch <= Unclaimed(s, rec.cutoff) && |batch| <= cfg.batchSize
         && (|batch| < cfg.batchSize ==> batch == Unclaimed(s, rec.cutoff))
      then Some(s.(recoveries := s.recoveries[r := rec.(phase := Claimed(batch))],
                   claims := s.claims + map c | c in batch :: r))
      else None
  }

  function BatchCommitted(cfg: Config, s: State, r: nat): Option<State> {
    if !(r in s.recoveries && s.recoveries[r].phase.Claimed?) then None
    else
      var rec := s.recoveries[r];
      var batch := rec.phase.batch;
      if !(forall c :: c in batch ==> c in s.db.calls && c in s.db.trail) then None
      else
        Some(s.(db := RecoverAll(s.db, batch, rec.now), claims := s.claims - batch,
                recoveries := s.recoveries[r := rec.(
                  count := rec.count + |batch|, phase := if |batch| < cfg.batchSize then Finished else Idle)],
                past := s.past.(moved := s.past.moved + map c | c in batch :: r)))
  }

  function RecoveryCrashed(s: State, r: nat): Option<State> {
    if r in s.recoveries && (s.recoveries[r].phase.Idle? || s.recoveries[r].phase.Claimed?) then
      var rec := s.recoveries[r];
      Some(s.(recoveries := s.recoveries[r := rec.(phase := Died)],
              claims := if rec.phase.Claimed? then s.claims - rec.phase.batch else s.claims))
    else None
  }

  // ------------------------------------------------------------------ time

  /** Until when an execution whose call is executing may stay where it is. */
  function Deadline(cfg: Config, o: Owned): int {
    match o.phase
    case Deciding => o.call.updated + cfg.startLag
    case Running(since) => since + TimeoutFor(cfg, o.tool)
    case Returned(at, _) => at + cfg.postWork
    case Finishing(at, _) => at + cfg.postWork
  }

  /** wait_for and the two work bounds: time does not pass a live deadline. */
  ghost predicate MayReach(cfg: Config, s: State, time: int) {
    forall w :: w in s.executions && s.executions[w].pc.Owning? && s.executions[w].pc.own.call.status == Executing ==>
      time <= Deadline(cfg, s.executions[w].pc.own)
  }

  ghost function Ticked(cfg: Config, s: State, d: nat): Option<State> {
    if MayReach(cfg, s, s.now + d) then Some(s.(now := s.now + d)) else None
  }

  // ---------------------------------------------------------- administration

  function RulePut(cfg: Config, s: State, rule: Rules.Rule): Option<State> {
    if Rules.ValidRule(cfg.matchers, rule) && (rule.id in s.db.rules ==> s.db.rules[rule.id].name == rule.name)
    then Some(s.(db := s.db.(rules := s.db.rules[rule.id := rule])))
    else None
  }

  function ToolPut(s: State, tool: Tool): Option<State> {
    if tool.key in s.db.tools && tool != s.db.tools[tool.key].(enabled := tool.enabled) then None
    else Some(s.(db := s.db.(tools := s.db.tools[tool.key := tool])))
  }

  function SessionCreated(s: State, session: string): Option<State> {
    if session in s.db.sessions then None
    else
      Some(s.(db := s.db.(sessions := s.db.sessions[session := Active]),
              past := s.past.(order := s.past.order[session := []])))
  }

  // ------------------------------------------------------------------ runs

  ghost function Step(cfg: Config, s: State, a: Action): Option<State> {
    match a
    case Submit(w, request) => Submitted(s, w, request)
    case Go(w, move) => Gone(cfg, s, w, move)
    case InsertCall(w, id, stamp) => Inserted(cfg, s, w, id, stamp)
    case Flush(w) => Flushed(cfg, s, w)
    case Commit(w, choice) => Committed(cfg, s, w, choice)
    case Invoke(w) => Invoked(cfg, s, w)
    case LockForClose(k, session, status) => CloseLocked(s, k, session, status)
    case CommitClose(k) => CloseCommitted(s, k)
    case CrashClose(k) => CloseCrashed(s, k)
    case StartRecovery(r) => RecoveryStarted(cfg, s, r)
    case Claim(r, batch) => BatchClaimed(cfg, s, r, batch)
    case CommitBatch(r) => BatchCommitted(cfg, s, r)
    case CrashRecovery(r) => RecoveryCrashed(s, r)
    case Tick(d) => Ticked(cfg, s, d)
    case PutRule(rule) => RulePut(cfg, s, rule)
    case PutTool(tool) => ToolPut(s, tool)
    case CreateSession(session) => SessionCreated(s, session)
  }

  ghost function Run(cfg: Config, s: State, actions: seq<Action>): Option<State>
    decreases |actions|
  {
    if actions == [] then Some(s)
    else match Step(cfg, s, actions[0])
      case None => None
      case Some(next) => Run(cfg, next, actions[1..])
  }

  /** No recovery worker dies in the run. */
  ghost predicate NoRecoveryCrash(actions: seq<Action>) {
    forall i :: 0 <= i < |actions| ==> !actions[i].CrashRecovery?
  }

  /** s is where some run from the empty database ends. */
  ghost predicate Reachable(cfg: Config, s: State) {
    exists actions :: Run(cfg, INITIAL, actions) == Some(s)
  }
}
