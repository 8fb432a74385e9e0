/** One call of `ToolCallService.execute`, transaction by transaction and branch by
    branch (application/tool_calls.py). The object carries, as ghost state, the
    protocol state its transactions have led to. */
module ToolCallService {
  import opened Options
  import opened RiskEngine
  import opened ToolCalls
  import opened AuditTrail
  import opened Store
  import opened Protocol
  import ProtocolSafety
  import ProtocolInduction
  import ProtocolRace
  import ProtocolRecovery
  import ProtocolDecisions
  import ProtocolReplay
  import opened Text
  import opened CallAnswers
  import JsonValues
  import Payloads
  import StringRedaction
  import TreeRedaction
  import RequestIdentity
  import CanonicalJson
  import Rules = RuleEngine

  // ------------------------------------------------- steps of the run

  lemma MoveStep(cfg: Config, s: State, w: nat, m: Move, p: Place)
    requires w in s.executions && w !in s.writing && PlaceAfter(cfg, s, s.executions[w], m) == Some(p)
    ensures Step(cfg, s, Go(w, m)) == Some(Arrive(s, w, p))
    ensures ProtocolInduction.Arrived(s, Arrive(s, w, p), w, p)
  {
    ProtocolInduction.ArriveFacts(s, w, p);
  }

  lemma CommitStep(cfg: Config, s: State, w: nat, o: Owned, c: Choice, deed: Deed)
    requires w in s.executions && s.executions[w].pc == Owning(o) && DeedOf(cfg, s.db, o, c) == Some(deed)
    requires o.call.id !in s.claims && o.call.updated <= c.stamp <= s.now
      && (c.Start? ==> s.now <= c.stamp + cfg.startLag)
    requires deed.writes.call.id in s.db.trail && deed.writes.call.id in s.db.flags
    ensures Step(cfg, s, Commit(w, c)) == Some(Performed(s, w, o.call.id, deed))
    ensures Settled(s, Performed(s, w, o.call.id, deed), w, deed.next, Write(s.db, deed.writes))
  {
  }

  /** The execution stands elsewhere, on another database; time and claims are as before. */
  ghost predicate Settled(s: State, s': State, w: nat, pc: Pc, db: Db) {
    && s'.db == db && s'.now == s.now && s'.claims == s.claims && s'.locks == s.locks && s'.writing == s.writing
    && w in s.executions && s'.executions == s.executions[w := s.executions[w].(pc := pc)]
  }

  lemma InvokeStep(cfg: Config, s: State, w: nat, o: Owned)
    requires w in s.executions && s.executions[w].pc == Owning(o)
    requires Before(o, Executing, Deciding) && o.tool.adapter in cfg.adapters
    ensures Invoked(cfg, s, w).Some? && Step(cfg, s, Invoke(w)) == Invoked(cfg, s, w)
    ensures Settled(s, Invoked(cfg, s, w).value, w, Owning(o.(phase := Running(s.now))), s.db)
  {
  }

  ghost function InsertedState(cfg: Config, s: State, w: nat, id: nat, stamp: int): State {
    if Inserted(cfg, s, w, id, stamp).Some? then Inserted(cfg, s, w, id, stamp).value else s
  }

  lemma InspectRefuses(cfg: Config, s: State, request: Request, error: PublicError)
    requires Sound(s.db) && request.identity.session in s.db.sessions && Refusal(cfg, s.db, request) == Some(error)
    ensures PlaceAfter(cfg, s, Execution(request, Locked), Inspect(1)) == Some(Place(Fails(error), Free))
  {
  }

  lemma InspectPasses(cfg: Config, s: State, request: Request, n: int)
    requires Sound(s.db) && request.identity.session in s.db.sessions && Refusal(cfg, s.db, request) == None
    requires IsNext(s.db.calls, request.identity.session, n)
    ensures ToolOf(request) in s.db.tools && request.key !in s.db.byKey
    ensures PlaceAfter(cfg, s, Execution(request, Locked), Inspect(n)) ==
      Some(Place(Numbered(s.db.tools[ToolOf(request)], n), Keep))
  {
  }

  lemma InsertStep(cfg: Config, s: State, w: nat, request: Request, tool: Tool, n: int, id: nat, stamp: int)
    requires w in s.executions && s.executions[w] == Execution(request, Numbered(tool, n))
    requires id !in s.db.calls && stamp <= s.now && request.key !in s.db.byKey
    requires IsNext(s.db.calls, request.identity.session, n)
    ensures var call := NewCall(cfg, request, id, n, stamp);
      var s' := InsertedState(cfg, s, w, id, stamp);
      && Step(cfg, s, InsertCall(w, id, stamp)) == Some(s')
      && s'.db == Insert(s.db, call) && s'.now == s.now && s'.claims == s.claims && s'.writing == s.writing
      && s'.executions == s.executions[w := Execution(request, Owning(Owned(call, tool, [], [], Deciding)))]
  {
    assert !NumberTaken(s.db.calls, request.identity.session, n);
    assert AfterConflict(s.db, request, n) == None;
  }

  /** A set of states no protocol step leads out of. */
  ghost predicate StepClosed(cfg: Config, reached: State -> bool) {
    forall s, a :: reached(s) && Step(cfg, s, a).Some? ==> reached(Step(cfg, s, a).value)
  }

  class Call {
    const cfg: Config
    const w: nat
    const request: Request
    const now: int
    var db: Db
    ghost const reached: State -> bool
    ghost var at: State

    /** The transactions so far lead, by steps of the protocol, to a state with this
        database where this execution stands here. */
    ghost predicate Valid(pc: Pc)
      reads this
    {
      && StepClosed(cfg, reached) && reached(at)
      && at.db == db && at.now == now && at.claims == map[] && w !in at.writing
      && w in at.executions && at.executions[w] == Execution(request, pc)
    }

    /** The owner's row is its copy, and that is in order. */
    ghost predicate Holding(o: Owned)
      reads this
    {
      && Consistent(o.call) && o.call.id in db.calls && db.calls[o.call.id] == o.call && o.call.id in db.trail
      && o.call.id in db.flags
      && o.call.created <= now && o.call.updated <= now
    }

    /** The owner's row is left in this status with this code, and otherwise as judged. */
    ghost predicate Left(o: Owned, status: Status, code: string)
      reads this
    {
      o.call.id in db.calls && EndsWith(db.calls[o.call.id], JudgementOf(o), status, code)
    }

    constructor (cfg: Config, w: nat, request: Request, now: int, db: Db, ghost start: State,
        ghost reached: State -> bool)
      requires start.db == db && start.claims == map[] && start.now == now && w !in start.writing
      requires w in start.executions && start.executions[w] == Execution(request, Fresh)
      requires StepClosed(cfg, reached) && reached(start)
      ensures this.cfg == cfg && this.w == w && this.request == request && this.now == now
      ensures this.reached == reached && this.at == start && this.db == db && Valid(Fresh)
    {
      this.cfg, this.w, this.request, this.now, this.db := cfg, w, request, now, db;
      this.reached, this.at := reached, start;
    }

    // ---------------------------------------------------------- ghost steps

    ghost method Moves(pc: Pc, m: Move, p: Place)
      requires Valid(pc) && PlaceAfter(cfg, at, Execution(request, pc), m) == Some(p)
      modifies this`at
      ensures Valid(p.pc) && at.locks == Arrive(old(at), w, p).locks
    {
      MoveStep(cfg, at, w, m, p);
      at := Arrive(at, w, p);
    }

    /** After the tables were written, the run is one commit longer. */
    ghost method Commits(o: Owned, c: Choice, deed: Deed, before: Db)
      requires StepClosed(cfg, reached) && reached(at) && at.db == before && at.now == now && at.claims == map[]
      requires w !in at.writing
      requires w in at.executions && at.executions[w] == Execution(request, Owning(o))
      requires DeedOf(cfg, before, o, c) == Some(deed) && o.call.updated <= c.stamp <= now
      requires c.Start? ==> now <= c.stamp + cfg.startLag
      requires deed.writes.call.id in before.trail && deed.writes.call.id in before.flags
      requires db == Write(before, deed.writes)
      modifies this`at
      ensures Valid(deed.next)
    {
      CommitStep(cfg, at, w, o, c, deed);
      at := Performed(at, w, o.call.id, deed);
    }

    // --------------------------------------------------------- repositories

    /** list_for_tool_call, in whatever order the rows come. */
    method ListFlags(c: nat) returns (listed: seq<RiskFlag>)
      requires c in db.flags
      ensures multiset(listed) == db.flags[c]
    {
      listed := [];
      var left := db.flags[c];
      while left != multiset{}
        invariant multiset(listed) + left == db.flags[c]
        decreases |left|
      {
        var flag :| flag in left;
        listed, left := listed + [flag], left - multiset{flag};
      }
    }

    /** _rule_names */
    method NamesOf(ids: seq<nat>) returns (names: seq<string>)
      ensures names == RuleNames(db.rules, ids)
    {
      names := [];
      for n := 0 to |ids|
        invariant names == RuleNames(db.rules, ids[..n])
      {
        assert ids[..n + 1][..n] == ids[..n];
        if ids[n] in db.rules { names := names + [db.rules[ids[n]].name]; }
      }
      assert ids[..|ids|] == ids;
    }

    /** list_enabled */
    method ListEnabled() returns (listing: seq<Rules.Rule>)
      requires forall r :: r in db.rules ==> db.rules[r].id == r
      ensures IsListing(db.rules, listing)
    {
      listing := [];
      var left := db.rules.Keys;
      while left != {}
        invariant left <= db.rules.Keys
        invariant forall i :: 0 <= i < |listing| ==>
          && listing[i].id in db.rules && db.rules[listing[i].id] == listing[i]
          && listing[i].enabled && listing[i].id !in left
        invariant Rules.DistinctIds(listing)
        invariant forall r :: r in db.rules && db.rules[r].enabled ==> r in left || db.rules[r] in listing
        decreases left
      {
        var r :| r in left;
        left := left - {r};
        if db.rules[r].enabled { listing := listing + [db.rules[r]]; }
      }
    }

    /** next_sequence_number */
    method NextSequenceNumber(session: string) returns (n: int)
      requires forall c :: c in db.calls ==> db.calls[c].sequence >= 1
      ensures IsNext(db.calls, session, n)
    {
      var current := 0;
      var left := db.calls.Keys;
      while left != {}
        invariant left <= db.calls.Keys && current >= 0
        invariant forall c :: c in db.calls && db.calls[c].session == session ==>
          c in left || db.calls[c].sequence <= current
        invariant current == 0
          || exists c :: c in db.calls && db.calls[c].session == session && db.calls[c].sequence == current
        decreases left
      {
        var c :| c in left;
        left := left - {c};
        if db.calls[c].session == session && db.calls[c].sequence > current { current := db.calls[c].sequence; }
      }
      n := current + 1;
    }

    // ------------------------------------------------------------ admission

    /** _existing_outcome: what a stored call answers, or nothing. */
    method ExistingOutcome() returns (found: Option<Answer>)
      requires Valid(Fresh) && Sound(db)
      modifies this`at
      ensures Valid(if found.Some? then Done(found.value, None) else Admitting)
      ensures at.locks == old(at.locks)
    {
      ghost var listed: seq<RiskFlag> := [];
      if request.key !in db.byKey {
        found := None;
      } else {
        var c := db.byKey[request.key];
        var existing := db.calls[c];
        var flags := ListFlags(c);
        listed := flags;
        if existing.hash != HashOf(cfg, request) {
          found := Some(Failure(IdempotencyConflict));
        } else if existing.tool !in db.tools {
          found := Some(Failure(ToolCallNotFound));
        } else {
          var answer := Outcome(c, flags);
          found := Some(answer);
        }
      }
      ghost var pc := if found.Some? then Done(found.value, None) else Admitting;
      assert AfterLookup(cfg, db, request, listed) == Some(pc);
      Moves(Fresh, Lookup(listed), Place(pc, Keep));
    }

    /** The status branches after the lookup. */
    method Outcome(c: nat, flags: seq<RiskFlag>) returns (answer: Answer)
      requires c in db.calls
      ensures answer == ReplayAnswer(db, c, flags)
    {
      var existing := db.calls[c];
      var names := NamesOf(existing.matched);
      if existing.status == Succeeded {
        if c !in db.results { return Failure(ExecutionInProgress); }
        return Success(existing, db.results[c].payload, names, flags, true);
      }
      if existing.status == Blocked { return BlockedBy(existing, names, flags, true); }
      if existing.status.Terminal() {
        return Failure(Terminal(ReplayError(if existing.error.Some? then existing.error.value else "")));
      }
      return Failure(ExecutionInProgress);
    }

    /** What a fresh call's execution knows, and that it is in the table. */
    ghost predicate JustMade(own: Owned, before: Db, id: nat)
      reads this
    {
      var session := request.identity.session;
      && Before(own, Received, Deciding) && Holding(own)
      && session in before.sessions && before.sessions[session] == Active && request.key !in before.byKey
      && ToolOf(request) in before.tools && own.tool == before.tools[ToolOf(request)] && own.tool.enabled
      && IsNext(before.calls, session, own.call.sequence)
      && own.call == NewCall(cfg, request, id, own.call.sequence, now) && db == Insert(before, own.call)
    }

    /** Which refusal for which reason: no session, one that is over, no such tool, one
        that is switched off, or a key in use, by a different request or by this one. */
    ghost predicate RefusedFor(answer: Answer)
      reads this
    {
      var session, tool := request.identity.session, ToolOf(request);
      && answer.Failure?
      && (answer.error == SessionNotFound <==> session !in db.sessions)
      && (answer.error == SessionNotActive <==> session in db.sessions && db.sessions[session] != Active)
      && (answer.error == ToolNotFound ==> tool !in db.tools)
      && (answer.error == ToolDisabled ==> tool in db.tools && !db.tools[tool].enabled)
      && (session in db.sessions && db.sessions[session] == Active && tool !in db.tools ==>
            answer.error == ToolNotFound)
      && (session in db.sessions && db.sessions[session] == Active && tool in db.tools && !db.tools[tool].enabled ==>
            answer.error == ToolDisabled)
      && (answer.error == IdempotencyConflict || answer.error == ExecutionInProgress ==>
            exists c :: c in db.calls && db.calls[c].key == request.key
              && (answer.error == ExecutionInProgress <==> db.calls[c].hash == HashOf(cfg, request)))
    }

    /** _create_received: everything under the session's row lock, one transaction. */
    method CreateReceived(id: nat) returns (pc: Pc)
      requires Valid(Admitting) && Sound(db) && id !in db.calls && request.identity.session !in at.locks
      modifies this
      ensures Valid(pc)
      ensures pc.Done? ==> db == old(db) && pc.made == None && RefusedFor(pc.answer)
      ensures !pc.Done? ==> pc.Owning? && JustMade(pc.own, old(db), id)
    {
      if request.identity.session !in db.sessions {
        pc := Fails(SessionNotFound);
        Moves(Admitting, LockSession, Place(pc, Keep));
      } else {
        Moves(Admitting, LockSession, Place(Locked, Take));
        pc := CreateLocked(id);
      }
    }

    /** What the insert leaves is what a fresh call's execution knows. */
    lemma InsertMakes(before: Db, id: nat, n: int)
      requires Sound(before) && id !in before.calls && request.identity.session in before.sessions
      requires Refusal(cfg, before, request) == None && IsNext(before.calls, request.identity.session, n)
      requires db == Insert(before, NewCall(cfg, request, id, n, now))
      ensures JustMade(Owned(NewCall(cfg, request, id, n, now), before.tools[ToolOf(request)], [], [], Deciding),
        before, id)
    {
    }

    method CreateLocked(id: nat) returns (pc: Pc)
      requires Valid(Locked) && Sound(db) && id !in db.calls && request.identity.session in db.sessions
      modifies this
      ensures Valid(pc)
      ensures pc.Done? ==> db == old(db) && pc.made == None && RefusedFor(pc.answer)
      ensures !pc.Done? ==> pc.Owning? && JustMade(pc.own, old(db), id)
    {
      var refusal := Refused();
      if refusal.Some? {
        pc := Fails(refusal.value);
        InspectRefuses(cfg, at, request, refusal.value);
        Moves(Locked, Inspect(1), Place(pc, Free));
        return;
      }
      var tool := db.tools[ToolOf(request)];
      var n := NextSequenceNumber(request.identity.session);
      InspectPasses(cfg, at, request, n);
      Moves(Locked, Inspect(n), Place(Numbered(tool, n), Keep));
      var call := NewCall(cfg, request, id, n, now);
      ghost var before := db;
      db := Insert(db, call);
      pc := Owning(Owned(call, tool, [], [], Deciding));
      Inserts(tool, n, id, before);
      InsertMakes(before, id, n);
    }

    /** After the row was written, the run is one insert longer. */
    ghost method Inserts(tool: Tool, n: int, id: nat, before: Db)
      requires StepClosed(cfg, reached) && reached(at) && at.db == before && at.now == now && at.claims == map[]
      requires w !in at.writing
      requires w in at.executions && at.executions[w] == Execution(request, Numbered(tool, n))
      requires id !in before.calls && request.key !in before.byKey
      requires IsNext(before.calls, request.identity.session, n)
      requires db == Insert(before, NewCall(cfg, request, id, n, now))
      modifies this`at
      ensures Valid(Owning(Owned(NewCall(cfg, request, id, n, now), tool, [], [], Deciding)))
    {
      InsertStep(cfg, at, w, request, tool, n, id, now);
      ghost var next := InsertedState(cfg, at, w, id, now);
      at := next;
    }

    /** The checks under the lock. */
    method Refused() returns (refusal: Option<PublicError>)
      requires Sound(db) && request.identity.session in db.sessions
      ensures refusal == Refusal(cfg, db, request)
    {
      if db.sessions[request.identity.session] != Active { return Some(SessionNotActive); }
      if ToolOf(request) !in db.tools { return Some(ToolNotFound); }
      if !db.tools[ToolOf(request)].enabled { return Some(ToolDisabled); }
      if request.key in db.byKey {
        var existing := db.calls[db.byKey[request.key]];
        if existing.hash != HashOf(cfg, request) { return Some(IdempotencyConflict); }
        return Some(ExecutionInProgress);
      }
      return None;
    }

    // ----------------------------------------------- the owner's transactions

    /** `update` and `create_many`: the row, the events, the flags and the result of
        one transaction. */
    method Persist(o: Owned, writes: Writes, ghost c: Choice, ghost deed: Deed)
      requires Valid(Owning(o)) && Holding(o) && writes.call.id == o.call.id
      requires DeedOf(cfg, db, o, c) == Some(deed) && deed.writes == writes && c.stamp == now
      modifies this
      ensures Valid(deed.next) && db == Write(old(db), writes)
    {
      ghost var before := db;
      var id := writes.call.id;
      db := db.(calls := db.calls[id := writes.call]);
      if writes.result.Some? { db := db.(results := db.results[id := writes.result.value]); }
      db := db.(flags := db.flags[id := db.flags[id] + multiset(writes.flags)]);
      db := db.(trail := db.trail[id := db.trail[id] + writes.events]);
      Commits(o, c, deed, before);
    }

    /** The copy an owner works on after a commit still has its row. */
    lemma StillHolding(o: Owned, after: Owned, before: Db, writes: Writes)
      requires o.call.id in before.calls && o.call.id in before.trail && o.call.id in before.flags
      requires writes.call.id == o.call.id && after.call == writes.call && db == Write(before, writes)
      requires Consistent(after.call) && after.call.created == o.call.created <= now && after.call.updated == now
      ensures Holding(after)
    {
    }

    /** received to validating, without an event. */
    method BeginValidation(o: Owned) returns (after: Owned)
      requires Valid(Owning(o)) && Holding(o) && Before(o, Received, Deciding)
      modifies this
      ensures Valid(Owning(after)) && Holding(after) && Before(after, Validating, Deciding)
      ensures after == o.(call := after.call) && after.call.id == o.call.id && db.rules == old(db).rules
      ensures after.call.matched == o.call.matched
    {
      var change := Plain(Validating, now, None);
      TransitionKeeps(o.call, change);
      after := o.(call := TransitionTo(o.call, change).call);
      ghost var before := db;
      ghost var deed := Deed(Writes(after.call, [], [], None), Owning(after), None);
      Persist(o, Writes(after.call, [], [], None), Validate(now), deed);
      StillHolding(o, after, before, Writes(after.call, [], [], None));
    }

    /** _reject */
    method Rejects(o: Owned, reason: RejectReason) returns (answer: Answer)
      requires Valid(Owning(o)) && Holding(o) && Before(o, Validating, Deciding)
      modifies this
      ensures answer == Failure(Terminal(RejectError(reason))) && Valid(Done(answer, Some(o.call.id)))
      ensures o.call.id in db.calls && db.calls[o.call.id].status == Rejected && db.calls[o.call.id].decision == Reject
      ensures db.calls[o.call.id].error ==
        Some(if reason.BadArguments? then "invalid_tool_arguments" else "tool_payload_too_deep")
    {
      var change := Plain(Rejected, now, Some(PublicCode(RejectError(reason))));
      CodesAreNotBlank(RejectError(reason));
      TransitionExactly(o.call, change);
      var call := TransitionTo(o.call, change).call;
      answer := Failure(Terminal(RejectError(reason)));
      ghost var deed := Deed(Writes(call, [CallFailed], [], None), Done(answer, Some(o.call.id)), None);
      Persist(o, Writes(call, [CallFailed], [], None), RejectCall(now, reason), deed);
    }

    lemma CodesAreNotBlank(e: TerminalError)
      ensures !Blank(PublicCode(e))
    {
    }

    /** _fail, for each reason there is after the executing commit. */
    method FailsWithCode(o: Owned, code: string, error: TerminalError) returns (answer: Answer)
      requires Valid(Owning(o)) && Holding(o) && o.call.status == Executing && !Blank(code)
      requires o.phase.Returned? && FailsWith(o.phase.outcome, code, error)
      modifies this
      ensures answer == Failure(Terminal(error)) && Valid(Done(answer, Some(o.call.id)))
      ensures Left(o, Failed, code)
    {
      var change := Plain(Failed, now, Some(code));
      TransitionExactly(o.call, change);
      var call := TransitionTo(o.call, change).call;
      answer := Failure(Terminal(error));
      ghost var deed := Deed(Writes(call, [CallFailed], [], None), Done(answer, Some(o.call.id)), None);
      Persist(o, Writes(call, [CallFailed], [], None), Fail(now, code, error), deed);
    }

    method RefusesAdapter(o: Owned) returns (answer: Answer)
      requires Valid(Owning(o)) && Holding(o) && Before(o, Executing, Deciding) && o.tool.adapter !in cfg.adapters
      modifies this
      ensures answer == Failure(Terminal(AdapterNotConfigured)) && Valid(Done(answer, Some(o.call.id)))
      ensures Left(o, Failed, "adapter_not_configured")
    {
      var change := Plain(Failed, now, Some(PublicCode(AdapterNotConfigured)));
      CodesAreNotBlank(AdapterNotConfigured);
      TransitionExactly(o.call, change);
      var call := TransitionTo(o.call, change).call;
      answer := Failure(Terminal(AdapterNotConfigured));
      ghost var deed := Deed(Writes(call, [CallFailed], [], None), Done(answer, Some(o.call.id)), None);
      Persist(o, Writes(call, [CallFailed], [], None), RefuseAdapter(now), deed);
    }

    method TimesOut(o: Owned) returns (answer: Answer)
      requires Valid(Owning(o)) && Holding(o) && o.call.status == Executing
      requires o.phase.Returned? && o.phase.outcome == Overran
      modifies this
      ensures answer == Failure(Terminal(ToolTimeout)) && Valid(Done(answer, Some(o.call.id)))
      ensures Left(o, TimedOut, "tool_timeout")
    {
      var change := Plain(TimedOut, now, Some(PublicCode(ToolTimeout)));
      CodesAreNotBlank(ToolTimeout);
      TransitionExactly(o.call, change);
      var call := TransitionTo(o.call, change).call;
      answer := Failure(Terminal(ToolTimeout));
      ghost var deed := Deed(Writes(call, [CallTimedOut], [], None), Done(answer, Some(o.call.id)), None);
      Persist(o, Writes(call, [CallTimedOut], [], None), TimeOut(now), deed);
    }

    /** evaluating to executing. */
    method StartsExecution(o: Owned) returns (after: Owned)
      requires Valid(Owning(o)) && Holding(o) && Before(o, Evaluating, Deciding)
      modifies this
      ensures Valid(Owning(after)) && Holding(after) && Before(after, Executing, Deciding)
      ensures after == o.(call := after.call) && after.call.id == o.call.id && db.rules == old(db).rules
      ensures JudgementOf(after) == JudgementOf(o)
    {
      var change := Change(Executing, now, None, Some(o.call.decision), None, None);
      TransitionExactly(o.call, change);
      TransitionKeeps(o.call, change);
      after := o.(call := TransitionTo(o.call, change).call);
      ghost var before := db;
      ghost var deed := Deed(Writes(after.call, [CallStarted], [], None), Owning(after), None);
      Persist(o, Writes(after.call, [CallStarted], [], None), Start(now), deed);
      StillHolding(o, after, before, Writes(after.call, [CallStarted], [], None));
    }

    // ------------------------------------------------------ rules and risk

    ghost predicate RulesInOrder(rules: map<nat, Rules.Rule>) {
      forall r :: r in rules ==> rules[r].id == r && Rules.ValidRule(cfg.matchers, rules[r])
    }

    /** list_enabled and evaluate_rules. */
    method Evaluate(subject: Rules.Subject)
      returns (e: Rules.Evaluation, ids: seq<nat>, names: seq<string>, listing: seq<Rules.Rule>,
          ghost reported: seq<Rules.Rule>)
      requires RulesInOrder(db.rules)
      ensures IsListing(db.rules, listing) && Rules.Evaluates(cfg.matchers, subject, listing, reported, e.action)
      ensures ids == Ids(reported) && names == Names(reported)
    {
      var enabled := ListEnabled();
      forall r | r in enabled ensures Rules.ValidRule(cfg.matchers, r) {
        assert r.id in db.rules && db.rules[r.id] == r;
      }
      e, reported := Rules.EvaluateRules(cfg.matchers, enabled, subject);
      listing := enabled;
      ids, names := [], [];
      for n := 0 to |e.matches|
        invariant |ids| == |names| == n
        invariant forall i :: 0 <= i < n ==> ids[i] == reported[i].id && names[i] == reported[i].name
      {
        ids, names := ids + [e.matches[n].rule], names + [e.matches[n].name];
      }
    }

    /** The events of _evaluate_input, in the order they are appended. */
    method InputEvents(marked: bool, matches: nat, blocked: bool) returns (events: seq<Event>)
      ensures events == EvaluationEvents(marked, matches, blocked)
    {
      events := [CallValidated, RedactionApplied, RiskClassified];
      if marked { events := events + [CallFlagged]; }
      ghost var front := events;
      for n := 0 to matches
        invariant events == front + Repeat(RuleMatched, n)
      {
        events := events + [RuleMatched];
      }
      if blocked { events := events + [CallBlocked]; }
    }

    /** The evaluating row, blocked at once when the rules say so. */
    method Judges(o: Owned, assessment: RiskAssessment, ids: seq<nat>, names: seq<string>, action: Rules.Action)
      returns (evaluating: ToolCall, call: ToolCall, next: Pc)
      requires Holding(o) && Before(o, Validating, Deciding) && o.call.matched == []
      ensures action == Rules.Block ==>
        next.Done? && Stopped(Judgement(assessment.level, assessment.flags, names, ids, assessment.flags != []),
                              next.answer, call)
      ensures action != Rules.Block ==>
        next.Owning? && JudgementOf(next.own)
          == Judgement(assessment.level, assessment.flags, names, ids, assessment.flags != [] || action == Rules.Flag)
      ensures var flagged := assessment.flags != [] || action == Rules.Flag;
        TransitionTo(o.call,
            Change(Evaluating, now, None, Some(if flagged then Flag else Allow), Some(assessment.level), Some(ids)))
          == Changed(evaluating)
      ensures SameCall(o.call, call) && call.updated == now && Consistent(call)
      ensures if action == Rules.Block then
          && TransitionTo(evaluating, Change(Blocked, now, Some("tool_call_blocked"), Some(Block), None, Some(ids)))
             == Changed(call)
          && next == Done(BlockedBy(call, names, assessment.flags, false), Some(o.call.id))
        else
          && call == evaluating && evaluating.status == Evaluating
          && next == Owning(Owned(evaluating, o.tool, names, assessment.flags, Deciding))
    {
      var flagged := assessment.flags != [] || action == Rules.Flag;
      var change := Change(Evaluating, now, None, Some(if flagged then Flag else Allow), Some(assessment.level),
          Some(ids));
      TransitionExactly(o.call, change);
      TransitionKeeps(o.call, change);
      evaluating := TransitionTo(o.call, change).call;
      if action == Rules.Block {
        var block := Change(Blocked, now, Some("tool_call_blocked"), Some(Block), None, Some(ids));
        TransitionExactly(evaluating, block);
        TransitionKeeps(evaluating, block);
        call := TransitionTo(evaluating, block).call;
        next := Done(BlockedBy(call, names, assessment.flags, false), Some(o.call.id));
      } else {
        call := evaluating;
        next := Owning(Owned(evaluating, o.tool, names, assessment.flags, Deciding));
      }
    }

    /** _evaluate_input */
    method EvaluateInput(o: Owned, arguments: JsonValues.Json, assessment: RiskAssessment) returns (next: Pc)
      requires Valid(Owning(o)) && Holding(o) && Before(o, Validating, Deciding) && RulesInOrder(db.rules)
      requires Highest(assessment.level, o.tool.base, assessment.flags) && SortedByCode(assessment.flags)
      requires o.call.matched == []
      modifies this
      ensures Valid(next) && db.rules == old(db).rules
      ensures !TreeRedaction.Storable(arguments) ==> next == Done(Lost, Some(o.call.id)) && db == old(db)
      ensures TreeRedaction.Storable(arguments) ==> InputDecided(o, arguments, assessment, next)
      ensures o.call.id in db.trail && o.call.id in old(db).trail
      ensures TreeRedaction.Storable(arguments) ==> (CallFlagged in db.trail[o.call.id] <==>
        || CallFlagged in old(db).trail[o.call.id]
        || (if next.Done? then assessment.flags != [] else next.own.call.decision == Flag))
    {
      var subject := Rules.Subject(o.tool.key.name, assessment.level, assessment.flags, arguments, false);
      var e, ids, names, listing;
      ghost var reported;
      e, ids, names, listing, reported := Evaluate(subject);
      if !TreeRedaction.Storable(arguments) {
        Escapes(o);
        return Done(Lost, Some(o.call.id));
      }
      next := CommitsJudgement(o, subject, assessment, ids, names, e.action,
                               Judge(now, assessment, arguments, listing, reported, e.action));
      JudgementStands(o, subject, ids, names, listing, reported, e.action, next);
    }

    /** What the commit leaves is what the enabled rules decide. */
    lemma JudgementStands(
      o: Owned, subject: Rules.Subject, ids: seq<nat>, names: seq<string>, listing: seq<Rules.Rule>,
      reported: seq<Rules.Rule>, action: Rules.Action, next: Pc)
      requires subject.tool == o.tool.key.name && !subject.resultPhase
      requires IsListing(db.rules, listing) && Rules.Evaluates(cfg.matchers, subject, listing, reported, action)
      requires ids == Ids(reported) && names == Names(reported) && RulesInOrder(db.rules)
      requires next.Done? <==> action == Rules.Block
      requires next.Done? ==>
        && next.made == Some(o.call.id) && o.call.id in db.calls
        && Stopped(Judgement(subject.risk, subject.flags, names, ids, subject.flags != []), next.answer,
                   db.calls[o.call.id])
      requires !next.Done? ==>
        && next.Owning? && Holding(next.own) && Before(next.own, Evaluating, Deciding)
        && next.own.tool == o.tool && next.own.call.id == o.call.id
        && JudgementOf(next.own)
           == Judgement(subject.risk, subject.flags, names, ids, subject.flags != [] || action == Rules.Flag)
      ensures InputDecided(o, subject.arguments, RiskAssessment(subject.risk, subject.flags), next)
    {
      ActionsMean(cfg, db.rules, subject, listing, reported, action);
      assert subject == Rules.Subject(o.tool.key.name, subject.risk, subject.flags, subject.arguments, false);
      assert RulesMet(cfg, db.rules, subject, names, ids);
      if next.Done? {
        var j := Judgement(subject.risk, subject.flags, names, ids,
                           subject.flags != [] || SomeRuleFlags(cfg, db.rules, subject));
        assert InputJudged(cfg, db.rules, subject, j) && Stopped(j, next.answer, db.calls[o.call.id]);
      }
    }

    /** The input was judged: blocked when some enabled rule stops it, with the answer
        and the row saying so, and otherwise evaluating, at the input's risk and flagged
        when a flag was raised or some enabled rule flags it. */
    ghost predicate InputDecided(o: Owned, arguments: JsonValues.Json, assessment: RiskAssessment, next: Pc)
      reads this
    {
      var subject := Rules.Subject(o.tool.key.name, assessment.level, assessment.flags, arguments, false);
      && (next.Done? <==> SomeRuleStops(cfg, db.rules, subject))
      && (next.Done? ==>
            && next.made == Some(o.call.id) && o.call.id in db.calls
            && exists j :: InputJudged(cfg, db.rules, subject, j) && Stopped(j, next.answer, db.calls[o.call.id]))
      && (!next.Done? ==>
            && next.Owning? && Holding(next.own) && Before(next.own, Evaluating, Deciding)
            && next.own.tool == o.tool && next.own.call.id == o.call.id
            && InputJudged(cfg, db.rules, subject, JudgementOf(next.own)))
    }

    /** An exception leaves the transaction, or the code before it: nothing is written. */
    ghost method Escapes(o: Owned)
      requires Valid(Owning(o))
      modifies this`at
      ensures Valid(Done(Lost, Some(o.call.id)))
    {
      Moves(Owning(o), Crash, Place(Done(Lost, Some(o.call.id)), Keep));
    }

    /** The transaction's writes, once the rules have spoken. */
    method CommitsJudgement(
      o: Owned, subject: Rules.Subject, assessment: RiskAssessment, ids: seq<nat>, names: seq<string>,
      action: Rules.Action, ghost c: Choice) returns (next: Pc)
      requires Valid(Owning(o)) && Holding(o) && Before(o, Validating, Deciding)
      requires Highest(assessment.level, o.tool.base, assessment.flags) && SortedByCode(assessment.flags)
      requires c.Judge? && c.stamp == now && c.assessment == assessment && c.action == action
      requires ids == Ids(c.reported) && names == Names(c.reported) && IsListing(db.rules, c.listing)
      requires subject == Rules.Subject(o.tool.key.name, assessment.level, assessment.flags, c.arguments, false)
      requires Rules.Evaluates(cfg.matchers, subject, c.listing, c.reported, action) && o.call.matched == []
      modifies this
      ensures Valid(next) && db.rules == old(db).rules
      ensures next.Done? <==> action == Rules.Block
      ensures next.Done? ==>
        && next.made == Some(o.call.id) && o.call.id in db.calls
        && Stopped(Judgement(assessment.level, assessment.flags, names, ids, assessment.flags != []), next.answer,
                   db.calls[o.call.id])
      ensures !next.Done? ==>
        && next.Owning? && Holding(next.own) && Before(next.own, Evaluating, Deciding) && next.own.tool == o.tool
        && next.own.call.id == o.call.id
        && JudgementOf(next.own)
           == Judgement(assessment.level, assessment.flags, names, ids, assessment.flags != [] || action == Rules.Flag)
      ensures o.call.id in db.trail && o.call.id in old(db).trail
      ensures CallFlagged in db.trail[o.call.id] <==>
        CallFlagged in old(db).trail[o.call.id] || assessment.flags != [] || action == Rules.Flag
    {
      var evaluating, call;
      evaluating, call, next := Judges(o, assessment, ids, names, action);
      var events := InputEvents(assessment.flags != [] || action == Rules.Flag, |ids|, action == Rules.Block);
      var writes := Writes(call, events, assessment.flags, None);
      ghost var deed := Deed(writes, next, Some(Verdict(subject, c.listing, action)));
      ghost var before := db;
      JudgeDeedIs(before, o, c, deed, ids, names, evaluating);
      Persist(o, writes, c, deed);
      MarksTrail(before, o.call.id, writes, assessment.flags != [] || action == Rules.Flag, |ids|,
                 action == Rules.Block);
      if next.Owning? { StillHolding(o, next.own, before, writes); }
    }

    /** The mark is in the trail afterwards when it was before or is set now. */
    lemma MarksTrail(before: Db, id: nat, writes: Writes, marked: bool, matches: nat, blocked: bool)
      requires id in before.trail && db.trail == before.trail[id := before.trail[id] + writes.events]
      requires writes.events == EvaluationEvents(marked, matches, blocked)
      ensures CallFlagged in db.trail[id] <==> CallFlagged in before.trail[id] || marked
    {
      ProtocolDecisions.EvaluationMarks(marked, matches, blocked);
      ProtocolDecisions.FlaggedInBoth(before.trail[id], writes.events);
    }

    lemma JudgeDeedIs(before: Db, o: Owned, c: Choice, deed: Deed, ids: seq<nat>, names: seq<string>,
        evaluating: ToolCall)
      requires c.Judge? && Before(o, Validating, Deciding) && ids == Ids(c.reported) && names == Names(c.reported)
      requires Highest(c.assessment.level, o.tool.base, c.assessment.flags) && SortedByCode(c.assessment.flags)
      requires IsListing(before.rules, c.listing)
      requires var subject := Rules.Subject(o.tool.key.name, c.assessment.level, c.assessment.flags, c.arguments,
        false);
        && Rules.Evaluates(cfg.matchers, subject, c.listing, c.reported, c.action)
        && deed.verdict == Some(Verdict(subject, c.listing, c.action))
      requires var flagged := c.assessment.flags != [] || c.action == Rules.Flag;
        && TransitionTo(o.call,
           Change(Evaluating, c.stamp, None, Some(if flagged then Flag else Allow), Some(c.assessment.level),
               Some(ids)))
             == Changed(evaluating)
        && deed.writes == Writes(deed.writes.call, EvaluationEvents(flagged, |ids|, c.action == Rules.Block),
           c.assessment.flags, None)
      requires if c.action == Rules.Block then
          && TransitionTo(evaluating, Change(Blocked, c.stamp, Some("tool_call_blocked"), Some(Block), None, Some(ids)))
               == Changed(deed.writes.call)
          && deed.next == Done(BlockedBy(deed.writes.call, names, c.assessment.flags, false), Some(o.call.id))
        else
          && deed.writes.call == evaluating
          && deed.next == Owning(Owned(evaluating, o.tool, names, c.assessment.flags, Deciding))
      ensures DeedOf(cfg, before, o, c) == Some(deed)
    {
    }

    // ------------------------------------------------------------- the adapter

    /** The adapter is called and comes back, or its time runs out. */
    method CallsAdapter(o: Owned, outcome: Produced) returns (after: Owned)
      requires Valid(Owning(o)) && Holding(o) && Before(o, Executing, Deciding) && o.tool.adapter in cfg.adapters
      modifies this`at
      ensures after == o.(phase := Returned(now, outcome)) && Valid(Owning(after)) && Holding(after)
    {
      InvokeStep(cfg, at, w, o);
      at := Invoked(cfg, at, w).value;
      var running := o.(phase := Running(now));
      after := o.(phase := Returned(now, outcome));
      Moves(Owning(running), Return(outcome), Place(Owning(after), Keep));
    }

    // -------------------------------------------------------------- the result

    /** The events of _finalize. */
    method ResultEvents(redacted: bool, matches: nat, marked: bool, completed: bool) returns (events: seq<Event>)
      ensures events == FinalEvents(redacted, matches, marked, completed)
    {
      events := if redacted then [RedactionApplied] else [];
      ghost var front := events;
      for n := 0 to matches
        invariant events == front + Repeat(RuleMatched, n)
      {
        events := events + [RuleMatched];
      }
      if marked { events := events + [CallFlagged]; }
      events := events + [if completed then CallCompleted else CallFailed];
    }

    /** The result breaks its schema. */
    method FinalizesInvalid(o: Owned, assessment: RiskAssessment, redacted: bool) returns (answer: Answer)
      requires Valid(Owning(o)) && Holding(o) && o.call.status == Executing
      requires o.phase.Returned? && o.phase.outcome == Delivered
      requires Highest(assessment.level, o.call.risk, assessment.flags) && SortedByCode(assessment.flags)
      modifies this
      ensures answer == Failure(Terminal(InvalidToolResult)) && Valid(Done(answer, Some(o.call.id)))
      ensures o.call.id in db.calls && BrokeSchema(JudgementOf(o), assessment, db.calls[o.call.id])
      ensures o.call.id in db.trail && o.call.id in old(db).trail
      ensures CallFlagged in db.trail[o.call.id] <==>
        CallFlagged in old(db).trail[o.call.id] || db.calls[o.call.id].decision == Flag
    {
      var decision := if assessment.flags != [] then Flag else o.call.decision;
      var change := Change(Failed, now, Some("invalid_tool_result"), Some(decision), Some(assessment.level),
          Some(o.call.matched));
      TransitionExactly(o.call, change);
      var call := TransitionTo(o.call, change).call;
      var marked := assessment.flags != [] || decision == Flag;
      var events := ResultEvents(redacted, 0, marked, false);
      var writes := Writes(call, events, assessment.flags, Some(StoredResult(JsonValues.Null, false)));
      answer := Failure(Terminal(InvalidToolResult));
      ghost var before := db;
      Persist(o, writes, FinishInvalid(now, assessment, redacted), Deed(writes, Done(answer, Some(o.call.id)), None));
      ProtocolDecisions.FinalMarks(redacted, 0, marked, false);
      ProtocolDecisions.FlaggedInBoth(before.trail[o.call.id], events);
    }

    /** The result phase: evaluate the rules, then finalise as succeeded. */
    method FinalizesSuccess(o: Owned, env: Surroundings, result: JsonValues.Json, assessment: RiskAssessment,
        redacted: bool)
      returns (answer: Answer)
      requires Valid(Owning(o)) && Holding(o) && o.call.status == Executing && RulesInOrder(db.rules)
      requires o.phase.Returned? && o.phase.outcome == Delivered
      requires Highest(assessment.level, o.call.risk, assessment.flags) && SortedByCode(assessment.flags)
      modifies this
      ensures Valid(Done(answer, Some(o.call.id))) && o.call.id in db.calls
      ensures if StorableResult(result) then
          Succeeds(cfg, old(db).rules, o.tool.key.name, env, JudgementOf(o), assessment, result, answer,
                   db.calls[o.call.id])
        else answer == Lost && db == old(db)
      ensures o.call.id in db.trail && o.call.id in old(db).trail
      ensures answer.Success? ==> (CallFlagged in db.trail[o.call.id] <==>
        CallFlagged in old(db).trail[o.call.id] || answer.call.decision == Flag)
    {
      var subject := ResultSubject(env, o.tool.key.name, assessment);
      var e, ids, names, listing;
      ghost var reported;
      e, ids, names, listing, reported := Evaluate(subject);
      var marked := assessment.flags != [] || e.action == Rules.Flag;
      var plan := Plan(result, assessment, redacted, ids, names, marked, Verdict(subject, listing, e.action));
      var ready := o.(phase := Finishing(o.phase.at, plan));
      PlanStands(o, env, result, assessment, redacted, listing, reported, e.action, ready);
      ghost var m :=
        Protocol.EvaluateResult(result, assessment, redacted, CleanArguments(env), listing, reported, e.action);
      Moves(Owning(o), m, Place(Owning(ready), Keep));
      if !StorableResult(result) {
        Escapes(ready);
        return Lost;
      }
      ghost var before := db;
      answer := Finalizes(ready);
      SuccessStands(o, env, result, assessment, before.rules, listing, reported, e.action, answer);
    }

    /** What the commit leaves is what the enabled rules decide. */
    lemma SuccessStands(
      o: Owned, env: Surroundings, result: JsonValues.Json, assessment: RiskAssessment, rules: map<nat, Rules.Rule>,
      listing: seq<Rules.Rule>, reported: seq<Rules.Rule>, action: Rules.Action, answer: Answer)
      requires RulesInOrder(rules) && IsListing(rules, listing) && answer.Success?
      requires Rules.Evaluates(cfg.matchers, ResultSubject(env, o.tool.key.name, assessment), listing, reported, action)
      requires answer.result == result && !answer.replayed
      requires answer.names == o.names + Names(reported) && answer.flags == o.flags + assessment.flags
      requires answer.call.status == Succeeded && answer.call.error.None? && answer.call.risk == assessment.level
      requires answer.call.matched == o.call.matched + Ids(reported)
      requires IsFlagged(answer.call.decision,
        o.call.decision == Flag || assessment.flags != [] || action == Rules.Flag)
      ensures Succeeds(cfg, rules, o.tool.key.name, env, JudgementOf(o), assessment, result, answer, answer.call)
    {
      var subject := ResultSubject(env, o.tool.key.name, assessment);
      ActionsMean(cfg, rules, subject, listing, reported, action);
      assert RulesMet(cfg, rules, subject, Names(reported), Ids(reported));
    }

    /** The evaluation the plan rests on is a move of the protocol. */
    lemma PlanStands(
      o: Owned, env: Surroundings, result: JsonValues.Json, assessment: RiskAssessment, redacted: bool,
      listing: seq<Rules.Rule>, reported: seq<Rules.Rule>, action: Rules.Action, ready: Owned)
      requires o.phase.Returned? && o.phase.outcome == Delivered && IsListing(db.rules, listing)
      requires Highest(assessment.level, o.call.risk, assessment.flags) && SortedByCode(assessment.flags)
      requires var subject := ResultSubject(env, o.tool.key.name, assessment);
        && Rules.Evaluates(cfg.matchers, subject, listing, reported, action)
        && ready == o.(phase := Finishing(o.phase.at,
             Plan(result, assessment, redacted, Ids(reported), Names(reported),
                  assessment.flags != [] || action == Rules.Flag, Verdict(subject, listing, action))))
      ensures AfterEvaluation(cfg, db, o,
        Protocol.EvaluateResult(result, assessment, redacted, CleanArguments(env), listing, reported, action))
          == Some(Owning(ready))
    {
    }

    /** _finalize as succeeded: flagged when the input was or the plan says so. */
    method Finalizes(o: Owned) returns (answer: Answer)
      requires Valid(Owning(o)) && Holding(o) && o.call.status == Executing && o.phase.Finishing?
      modifies this
      ensures Valid(Done(answer, Some(o.call.id))) && o.call.id in db.calls
      ensures answer.Success? && answer.result == o.phase.plan.result && !answer.replayed
      ensures answer.names == o.names + o.phase.plan.names && answer.flags == o.flags + o.phase.plan.assessment.flags
      ensures answer.call == db.calls[o.call.id] && answer.call.status == Succeeded && answer.call.error.None?
      ensures answer.call.risk == o.phase.plan.assessment.level
      ensures answer.call.matched == o.call.matched + o.phase.plan.matched
      ensures IsFlagged(answer.call.decision, o.call.decision == Flag || o.phase.plan.marked)
      ensures o.call.id in db.trail && o.call.id in old(db).trail
      ensures CallFlagged in db.trail[o.call.id] <==>
        CallFlagged in old(db).trail[o.call.id] || answer.call.decision == Flag
    {
      var plan := o.phase.plan;
      var decision := if plan.marked then Flag else o.call.decision;
      var change := Change(Succeeded, now, None, Some(decision), Some(plan.assessment.level),
          Some(o.call.matched + plan.matched));
      TransitionExactly(o.call, change);
      var call := TransitionTo(o.call, change).call;
      var events := ResultEvents(plan.redacted, |plan.names|, decision == Flag, true);
      var stored := StoredResult(plan.result, true);
      var writes := Writes(call, events, plan.assessment.flags, Some(stored));
      answer := Success(call, plan.result, o.names + plan.names, o.flags + plan.assessment.flags, false);
      ghost var before := db;
      Persist(o, writes, Finish(now), Deed(writes, Done(answer, Some(o.call.id)), None));
      ProtocolDecisions.FinalMarks(plan.redacted, |plan.names|, decision == Flag, true);
      ProtocolDecisions.FlaggedInBoth(before.trail[o.call.id], events);
    }

    /** The answer leaves without a commit, or an exception does. */
    method Leaves(o: Owned, error: Option<TerminalError>) returns (answer: Answer)
      requires Valid(Owning(o)) && o.phase.Returned?
      requires error.Some? ==> o.phase.outcome == Delivered && SanitizedLimit(error.value)
      modifies this`at
      ensures answer == if error.Some? then Failure(Terminal(error.value)) else Lost
      ensures Valid(Done(answer, Some(o.call.id)))
    {
      answer := if error.Some? then Failure(Terminal(error.value)) else Lost;
      Moves(Owning(o), if error.Some? then Abandon(error.value) else Crash, Place(Done(answer, Some(o.call.id)), Keep));
    }

    /** _canonical_result: the error for each reason a delivery is refused. */
    method RefusesDelivery(o: Owned, env: Surroundings, error: Payloads.PayloadError) returns (answer: Answer)
      requires Valid(Owning(o)) && Holding(o) && o.call.status == Executing
      requires o.phase.Returned? && o.phase.outcome == Delivered
      modifies this
      ensures Valid(Done(answer, Some(o.call.id)))
      ensures Left(o, Failed, RefusalCode(RefusalError(error)))
      ensures answer == Failure(Terminal(RefusalError(error)))
    {
      match error {
        case TooDeep => answer := FailsWithCode(o, "tool_payload_too_deep", ToolResultPayloadTooDeep);
        case NotJson => answer := FailsWithCode(o, "invalid_tool_result", InvalidToolResult);
        case TooLarge => answer := FailsWithCode(o, "tool_result_too_large", ToolResultTooLarge);
        case StringTooLong => answer := FailsWithCode(o, "tool_result_too_large", ToolResultTooLarge);
      }
    }

    /** Everything after the adapter delivered. */
    method Concludes(o: Owned, env: Surroundings) returns (answer: Answer)
      requires Valid(Owning(o)) && Holding(o) && o.call.status == Executing && RulesInOrder(db.rules)
      requires o.phase.Returned? && o.phase.outcome == Delivered && Payloads.Genuine(env.delivered)
      modifies this
      ensures Valid(Done(answer, Some(o.call.id))) && o.call.id in db.calls
      ensures Concluded(cfg, old(db).rules, o.tool.key.name, env, JudgementOf(o), answer, db.calls[o.call.id])
    {
      var canonical := Payloads.CanonicalizeJson(env.delivered, env.resultLimits);
      if canonical.Err? {
        answer := RefusesDelivery(o, env, canonical.error);
        RefusalHasReason(cfg, db.rules, o.tool.key.name, env, JudgementOf(o), canonical.error, answer,
                         db.calls[o.call.id]);
      } else {
        answer := ConcludesValue(o, env, canonical.value.value);
      }
    }

    /** The canonical result: redacted, measured again, classified, finalised. */
    method ConcludesValue(o: Owned, env: Surroundings, value: JsonValues.Json) returns (answer: Answer)
      requires Valid(Owning(o)) && Holding(o) && o.call.status == Executing && RulesInOrder(db.rules)
      requires o.phase.Returned? && o.phase.outcome == Delivered && Payloads.Genuine(env.delivered)
      requires Payloads.JsonCompatible(env.delivered) && value == Payloads.Erase(env.delivered)
      modifies this
      ensures Valid(Done(answer, Some(o.call.id))) && o.call.id in db.calls
      ensures ConcludedValue(cfg, old(db).rules, o.tool.key.name, env, JudgementOf(o), value, answer,
                             db.calls[o.call.id])
    {
      var clean, found := TreeRedaction.Redact(env.tree, value);
      if clean.None? {
        answer := FailsWithCode(o, "tool_payload_too_deep", ToolResultPayloadTooDeep);
        return;
      }
      answer := ConcludesRedacted(o, env, clean.value, found);
    }

    /** _canonical_sanitized_result: the redacted result, measured again. */
    method ConcludesRedacted(o: Owned, env: Surroundings, clean: JsonValues.Json, found: bool) returns (answer: Answer)
      requires Valid(Owning(o)) && Holding(o) && o.call.status == Executing && RulesInOrder(db.rules)
      requires o.phase.Returned? && o.phase.outcome == Delivered && Payloads.Genuine(env.delivered)
      requires Payloads.JsonCompatible(env.delivered) && clean == CleanResult(env)
      requires TreeRedaction.WithinLimits(env.tree, Payloads.Erase(env.delivered))
      requires found <==> TreeRedaction.Findings(env.tree, [], Payloads.Erase(env.delivered), false) != []
      modifies this
      ensures Valid(Done(answer, Some(o.call.id))) && o.call.id in db.calls
      ensures ConcludedValue(cfg, old(db).rules, o.tool.key.name, env, JudgementOf(o), Payloads.Erase(env.delivered),
                             answer, db.calls[o.call.id])
    {
      CleanIsGenuine(env);
      var sanitized := Payloads.CanonicalizeJson(Payloads.Lift(clean), env.resultLimits);
      if sanitized.Err? {
        answer := Leaves(o, SanitizedError(sanitized.error));
        SanitizedHasReason(cfg, db.rules, o.tool.key.name, env, JudgementOf(o), answer, db.calls[o.call.id]);
      } else {
        answer := ConcludesClean(o, env, clean, found);
      }
    }

    /** The sanitized result: classified, then finalised by its schema. */
    method ConcludesClean(o: Owned, env: Surroundings, clean: JsonValues.Json, found: bool) returns (answer: Answer)
      requires Valid(Owning(o)) && Holding(o) && o.call.status == Executing && RulesInOrder(db.rules)
      requires o.phase.Returned? && o.phase.outcome == Delivered && Payloads.JsonCompatible(env.delivered)
      requires clean == CleanResult(env)
      requires found <==> TreeRedaction.Findings(env.tree, [], Payloads.Erase(env.delivered), false) != []
      modifies this
      ensures Valid(Done(answer, Some(o.call.id))) && o.call.id in db.calls
      ensures ConcludedClean(cfg, old(db).rules, o.tool.key.name, env, JudgementOf(o), Payloads.Erase(env.delivered),
                             clean, answer, db.calls[o.call.id])
    {
      var assessment := ClassifyOutput(env.detectors, clean, found, o.call.risk);
      assert Assessed(env, o.call.risk, assessment);
      if env.outputValid(Payloads.Erase(env.delivered)) {
        answer := FinalizesSuccess(o, env, clean, assessment, found);
      } else {
        answer := FinalizesInvalid(o, assessment, found);
      }
    }

    /** From the executing commit on. */
    method Performs(o: Owned, env: Surroundings) returns (answer: Answer)
      requires Valid(Owning(o)) && Holding(o) && Before(o, Executing, Deciding) && RulesInOrder(db.rules)
      requires Payloads.Genuine(env.delivered)
      modifies this
      ensures Valid(Done(answer, Some(o.call.id))) && o.call.id in db.calls
      ensures Answered(cfg, old(db).rules, o.tool, env, JudgementOf(o), answer, db.calls[o.call.id])
    {
      if o.tool.adapter !in cfg.adapters {
        answer := RefusesAdapter(o);
        return;
      }
      var after := CallsAdapter(o, env.outcome);
      if env.outcome.Delivered? {
        answer := Concludes(after, env);
      } else {
        answer := Miscarries(after, env);
      }
    }

    /** The adapter ran out of time or raised. */
    method Miscarries(o: Owned, env: Surroundings) returns (answer: Answer)
      requires Valid(Owning(o)) && Holding(o) && o.call.status == Executing && o.tool.adapter in cfg.adapters
      requires o.phase.Returned? && o.phase.outcome == env.outcome && !env.outcome.Delivered?
      modifies this
      ensures Valid(Done(answer, Some(o.call.id))) && o.call.id in db.calls
      ensures Answered(cfg, old(db).rules, o.tool, env, JudgementOf(o), answer, db.calls[o.call.id])
    {
      match env.outcome {
        case Overran => answer := TimesOut(o);
        case RaisedCode(code) =>
          if Blank(code) {
            answer := Leaves(o, None);
          } else {
            answer := FailsWithCode(o, code, AdapterError(code));
          }
        case RaisedOther => answer := FailsWithCode(o, "tool_execution_failed", ToolExecutionFailed);
      }
    }

    /** From the received row to the executing commit, or an early end. */
    method Decides(o: Owned, env: Surroundings) returns (next: Pc)
      requires Valid(Owning(o)) && Holding(o) && Before(o, Received, Deciding) && RulesInOrder(db.rules)
      requires o.call.matched == []
      modifies this
      ensures Valid(next)
      ensures next.Done? ==>
        && next.made == Some(o.call.id) && o.call.id in db.calls
        && Replied(cfg, old(db).rules, o.tool, env, next.answer, db.calls[o.call.id])
      ensures !next.Done? ==>
        next.Owning? && Holding(next.own) && Before(next.own, Executing, Deciding) && RulesInOrder(db.rules)
        && next.own.call.id == o.call.id && next.own.tool == o.tool
        && db.rules == old(db).rules
        && forall answer, row :: Answered(cfg, db.rules, o.tool, env, JudgementOf(next.own), answer, row) ==>
             Replied(cfg, db.rules, o.tool, env, answer, row)
    {
      var validating := BeginValidation(o);
      if !env.inputValid(env.arguments) {
        var answer := Rejects(validating, BadArguments);
        return Done(answer, Some(o.call.id));
      }
      var clean, found := TreeRedaction.Redact(env.tree, env.arguments);
      if clean.None? {
        var answer := Rejects(validating, RejectReason.TooDeep);
        return Done(answer, Some(o.call.id));
      }
      if !clean.value.Obj? {
        var answer := Rejects(validating, BadArguments);
        return Done(answer, Some(o.call.id));
      }
      next := DecidesClean(validating, env, clean.value, found);
    }

    /** The clean arguments: classified and judged, then the executing commit. */
    method DecidesClean(o: Owned, env: Surroundings, clean: JsonValues.Json, found: bool) returns (next: Pc)
      requires Valid(Owning(o)) && Holding(o) && Before(o, Validating, Deciding) && RulesInOrder(db.rules)
      requires ArgumentError(env) == None && clean == CleanArguments(env) && o.call.matched == []
      requires found <==> TreeRedaction.Findings(env.tree, [], env.arguments, false) != []
      modifies this
      ensures Valid(next)
      ensures next.Done? ==>
        && next.made == Some(o.call.id) && o.call.id in db.calls
        && Replied(cfg, old(db).rules, o.tool, env, next.answer, db.calls[o.call.id])
      ensures !next.Done? ==>
        next.Owning? && Holding(next.own) && Before(next.own, Executing, Deciding) && RulesInOrder(db.rules)
        && next.own.call.id == o.call.id && next.own.tool == o.tool
        && db.rules == old(db).rules
        && forall answer, row :: Answered(cfg, db.rules, o.tool, env, JudgementOf(next.own), answer, row) ==>
             Replied(cfg, db.rules, o.tool, env, answer, row)
    {
      var assessment := ClassifyInput(env.detectors, o.tool.key.name, o.tool.base, env.arguments, found);
      next := EvaluateInput(o, clean, assessment);
      ghost var subject := Rules.Subject(o.tool.key.name, assessment.level, assessment.flags, clean, false);
      assert InputSubject(env, o.tool, subject);
      if next.Owning? {
        var executing := StartsExecution(next.own);
        next := Owning(executing);
      }
    }

    /** _execute after the arguments were made canonical: whatever the surroundings
        do, the transactions are a run of the protocol that ends in this answer. */
    method Execute(id: nat, env: Surroundings) returns (answer: Answer, made: Option<nat>)
      requires Valid(Fresh) && Sound(db) && RulesInOrder(db.rules)
      requires id !in db.calls && request.identity.session !in at.locks
      requires Payloads.Genuine(env.delivered)
      modifies this
      ensures Valid(Done(answer, made))
      ensures made.Some? ==>
        && ToolOf(request) in old(db).tools && made.value in db.calls
        && Replied(cfg, old(db).rules, old(db).tools[ToolOf(request)], env, answer, db.calls[made.value])
    {
      made := None;
      var found := ExistingOutcome();
      if found.Some? { return found.value, None; }
      var pc := CreateReceived(id);
      if pc.Done? { return pc.answer, None; }
      made := Some(pc.own.call.id);
      var next := Decides(pc.own, env);
      if next.Done? { return next.answer, next.made; }
      answer := Performs(next.own, env);
    }
  }

  /** What _canonical_arguments makes of a request before any lookup. */
  datatype Admission =
    | Admitted(request: Request, arguments: JsonValues.Json)
    | ArgumentsTooDeep
    | ArgumentsTooLarge
    | ArgumentsNotJson

  /** A request is made exactly of arguments within the limits, and its identity holds
      their canonical bytes. */
  method Admit(session: string, tool: ToolKey, key: nat, raw: Payloads.PyValue, limits: Payloads.Limits)
      returns (a: Admission)
    requires Payloads.Genuine(raw)
    ensures a.Admitted? <==> raw.PMapping? && Payloads.Acceptable(raw, limits)
    ensures a.ArgumentsTooDeep? && Payloads.JsonCompatible(raw) ==>
      JsonValues.Height(Payloads.Erase(raw)) > limits.maxDepth
    ensures a.ArgumentsTooLarge? && Payloads.JsonCompatible(raw) ==>
      || |CanonicalJson.CanonicalBytes(Payloads.Erase(raw))| > limits.maxBytes
      || !Payloads.TextsWithin(Payloads.Erase(raw), limits.maxStringLength)
    ensures a.ArgumentsNotJson? && Payloads.JsonCompatible(raw) ==>
      !raw.PMapping? || !Payloads.NumeralsWithin(Payloads.Erase(raw))
    ensures a.Admitted? ==>
      && a.arguments == Payloads.Erase(raw)
      && a.request == Request(RequestIdentity.Identity(session, tool.name, tool.version,
         CanonicalJson.CanonicalBytes(a.arguments)), key)
  {
    var payload := Payloads.CanonicalizeObject(raw, limits);
    match payload {
      case Ok(value) =>
        a := Admitted(Request(RequestIdentity.Identity(session, tool.name, tool.version, value.encoded), key),
            value.value);
      case Err(error) =>
        a := match error
             case TooDeep => ArgumentsTooDeep
             case NotJson => ArgumentsNotJson
             case _ => ArgumentsTooLarge;
    }
  }

  /** Two admitted requests under one key are one request exactly when session, tool
      and version agree and the arguments mean the same. */
  lemma AdmittedIdentity(s: string, t: ToolKey, raw: Payloads.PyValue, s': string, t': ToolKey,
      raw': Payloads.PyValue, limits: Payloads.Limits)
    requires Payloads.Genuine(raw) && Payloads.Acceptable(raw, limits) && Payloads.Genuine(raw')
      && Payloads.Acceptable(raw', limits)
    ensures
      RequestIdentity.Identity(s, t.name, t.version, CanonicalJson.CanonicalBytes(Payloads.Erase(raw)))
        == RequestIdentity.Identity(s', t'.name, t'.version, CanonicalJson.CanonicalBytes(Payloads.Erase(raw')))
      <==> s == s' && t == t' && JsonValues.Denote(Payloads.Erase(raw)) == JsonValues.Denote(Payloads.Erase(raw'))
  {
    Payloads.PayloadIdentity(raw, raw', limits);
  }

  /** Executing a request from a state a run has reached leads to a state a run
      reaches, so everything proved of runs holds of the code's own transactions: among
      it that the database bears out the answer. */
  method ExecuteReaches(
    cfg: Config, w: nat, request: Request, now: int, db: Db, id: nat, env: Surroundings, ghost start: State)
    returns (answer: Answer, made: Option<nat>, after: Db, ghost end: State)
    requires Reachable(cfg, start) && start.db == db && start.now == now && start.claims == map[]
    requires w in start.executions && start.executions[w] == Execution(request, Fresh)
    requires request.identity.session !in start.locks && id !in db.calls
    requires Sound(db) && forall r :: r in db.rules ==>
      db.rules[r].id == r && Rules.ValidRule(cfg.matchers, db.rules[r])
    requires Payloads.Genuine(env.delivered)
    ensures Reachable(cfg, end) && end.db == after
    ensures w in end.executions && end.executions[w] == Execution(request, Done(answer, made))
    ensures made.Some? ==>
      && ToolOf(request) in db.tools && made.value in after.calls
      && Replied(cfg, db.rules, db.tools[ToolOf(request)], env, answer, after.calls[made.value])
    ensures made.Some? ==> ProtocolReplay.Borne(cfg, after, made.value, answer)
    ensures made.Some? && after.calls[made.value].status == Validating ==> ProtocolRecovery.Stranded(end, made.value)
    ensures made.Some? && after.calls[made.value].status == Succeeded ==>
      made.value in after.trail
      && (CallFlagged in after.trail[made.value] <==> after.calls[made.value].decision == Flag)
  {
    ProtocolRecovery.ReachableWriters(cfg, start);
    ghost var reached := s => Reachable(cfg, s);
    ReachableIsClosed(cfg, reached);
    var call := new Call(cfg, w, request, now, db, start, reached);
    answer, made := call.Execute(id, env);
    after, end := call.db, call.at;
    if made.Some? { EndSays(cfg, end, w, made.value); }
  }

  lemma EndIsBorne(cfg: Config, end: State, w: nat, c: nat)
    requires Reachable(cfg, end) && w in end.executions
    requires end.executions[w].pc.Done? && end.executions[w].pc.made == Some(c)
    ensures c in end.db.calls && ProtocolReplay.Borne(cfg, end.db, c, end.executions[w].pc.answer)
  {
    ProtocolReplay.ReplayReachable(cfg, end);
    assert ProtocolSafety.Made(end.executions[w].pc, c);
  }

  lemma EndIsStranded(cfg: Config, end: State, w: nat, c: nat)
    requires Reachable(cfg, end) && w in end.executions && c in end.db.calls
    requires end.executions[w].pc.Done? && end.executions[w].pc.made == Some(c)
    ensures end.db.calls[c].status == Validating ==> ProtocolRecovery.Stranded(end, c)
  {
    ProtocolInduction.ReachableInv(cfg, end);
    assert ProtocolSafety.Made(end.executions[w].pc, c);
  }

  /** What every reachable state says of an execution that is over. */
  lemma EndSays(cfg: Config, end: State, w: nat, c: nat)
    requires Reachable(cfg, end) && w in end.executions
    requires end.executions[w].pc.Done? && end.executions[w].pc.made == Some(c)
    ensures c in end.db.calls && ProtocolReplay.Borne(cfg, end.db, c, end.executions[w].pc.answer)
    ensures end.db.calls[c].status == Validating ==> ProtocolRecovery.Stranded(end, c)
    ensures end.db.calls[c].status == Succeeded ==>
      c in end.db.trail && (CallFlagged in end.db.trail[c] <==> end.db.calls[c].decision == Flag)
  {
    EndIsBorne(cfg, end, w, c);
    EndIsStranded(cfg, end, w, c);
    if end.db.calls[c].status == Succeeded { ProtocolDecisions.SuccessIsJudged(cfg, end, c); }
  }

  lemma ReachableIsClosed(cfg: Config, reached: State -> bool)
    requires forall s :: reached(s) <==> Reachable(cfg, s)
    ensures StepClosed(cfg, reached)
  {
    forall s, a | reached(s) && Step(cfg, s, a).Some? ensures reached(Step(cfg, s, a).value) {
      ProtocolRace.Reaches(cfg, s, a, Step(cfg, s, a).value);
    }
  }
}
