/** What a client sees when it sends a request again: replays refine the first
    answer, and conflicts are exactly about different requests. */
module ProtocolReplay {
  import opened Options
  import opened RiskEngine
  import opened ToolCalls
  import opened Store
  import opened Protocol
  import opened ProtocolSafety
  import opened ProtocolInduction
  import opened ProtocolFrames
  import opened ProtocolTheorems
  import opened RequestIdentity
  import JsonValues
  import Rules = RuleEngine

  // ------------------------------------------------------ first answers

  /** The stored code is the public one, or the adapter's own. */
  predicate StoredAs(code: string, e: TerminalError) { code == PublicCode(e) || e == AdapterError(code) }

  predicate FailureStored(row: ToolCall, e: TerminalError) {
    && (row.status == Rejected || row.status == Failed || row.status == TimedOut)
    && row.error.Some? && StoredAs(row.error.value, e)
  }

  /** A row its execution left executing, before or after recovery. */
  predicate LeftBehind(row: ToolCall) {
    row.status == Executing || (row.status == Failed && row.error == Some(UNKNOWN_STATE))
  }

  ghost predicate NamesAndFlags(db: Db, c: nat, names: seq<string>, flags: seq<RiskFlag>)
    requires c in db.calls
  {
    && Known(db.rules, db.calls[c].matched) && names == RuleNames(db.rules, db.calls[c].matched)
    && c in db.flags && db.flags[c] == multiset(flags)
  }

  /** The database still bears out what the inserting execution answered. */
  ghost predicate Borne(cfg: Config, db: Db, c: nat, answer: Answer) {
    && c in db.calls
    && match answer
       case Success(call, result, names, flags, replayed) =>
         && db.calls[c] == call && call.status == Succeeded && !replayed
         && c in db.results && db.results[c] == StoredResult(result, true)
         && NamesAndFlags(db, c, names, flags)
       case BlockedBy(call, names, flags, replayed) =>
         && db.calls[c] == call && call.status == Blocked && !replayed
         && NamesAndFlags(db, c, names, flags)
       case Failure(error) =>
         && error.Terminal?
         && (FailureStored(db.calls[c], error.error) || (SanitizedLimit(error.error) && LeftBehind(db.calls[c])))
       case Lost => true
  }

  ghost predicate Answered(cfg: Config, s: State) {
    forall w :: w in s.executions && s.executions[w].pc.Done? && s.executions[w].pc.made.Some? ==>
      Borne(cfg, s.db, s.executions[w].pc.made.value, s.executions[w].pc.answer)
  }

  // ------------------------------------- answers are borne out from then on

  /** One call's records as they were, but for what recovery does to an executing row. */
  ghost predicate Rests(before: Db, after: Db, c: nat) {
    && (c in before.calls ==>
          && c in after.calls
          && (after.calls[c] == before.calls[c]
              || (before.calls[c].status == Executing
                  && after.calls[c] == Recovered(before.calls[c], after.calls[c].updated))))
    && (c in before.flags ==> c in after.flags && after.flags[c] == before.flags[c])
    && (c in before.results ==> c in after.results && after.results[c] == before.results[c])
    && Grown(before.rules, after.rules)
  }

  lemma BorneStays(cfg: Config, before: Db, after: Db, c: nat, answer: Answer)
    requires Borne(cfg, before, c, answer) && Rests(before, after, c)
    ensures Borne(cfg, after, c, answer)
  {
    if answer.Success? || answer.BlockedBy? { RuleNamesStay(before.rules, after.rules, before.calls[c].matched); }
  }

  /** Executions that were done stay done, on calls whose records rest. */
  lemma AnsweredStays(cfg: Config, s: State, s': State)
    requires Answered(cfg, s)
    requires forall w :: w in s'.executions && s'.executions[w].pc.Done? && s'.executions[w].pc.made.Some? ==>
      || (w in s.executions && s'.executions[w].pc == s.executions[w].pc
         && Rests(s.db, s'.db, s.executions[w].pc.made.value))
      || Borne(cfg, s'.db, s'.executions[w].pc.made.value, s'.executions[w].pc.answer)
    ensures Answered(cfg, s')
  {
    forall w | w in s'.executions && s'.executions[w].pc.Done? && s'.executions[w].pc.made.Some?
      ensures Borne(cfg, s'.db, s'.executions[w].pc.made.value, s'.executions[w].pc.answer)
    {
      if w in s.executions && s'.executions[w].pc == s.executions[w].pc
         && Rests(s.db, s'.db, s.executions[w].pc.made.value) {
        BorneStays(cfg, s.db, s'.db, s.executions[w].pc.made.value, s.executions[w].pc.answer);
      }
    }
  }

  // ----------------------------------------------------- the owner's answers

  lemma PlainBorne(cfg: Config, db: Db, o: Owned, code: string, error: TerminalError, deed: Deed)
    requires deed.next == Done(Failure(Terminal(error)), Some(o.call.id)) && deed.writes.call.id == o.call.id
    requires o.call.id in db.trail && o.call.id in db.flags && deed.writes.call.error == Some(code)
      && StoredAs(code, error)
    requires deed.writes.call.status == Rejected || deed.writes.call.status == Failed
      || deed.writes.call.status == TimedOut
    ensures Borne(cfg, Write(db, deed.writes), o.call.id, deed.next.answer)
  {
  }

  lemma FailCodes(outcome: Produced, code: string, error: TerminalError)
    requires FailsWith(outcome, code, error)
    ensures StoredAs(code, error)
  {
  }

  /** The owner's records of its call, in the database. */
  ghost predicate Records(db: Db, o: Owned) {
    && o.call.id in db.trail && o.call.id in db.flags && db.flags[o.call.id] == multiset(o.flags)
    && Ready(db.rules, o)
  }

  lemma JudgeBorne(cfg: Config, db: Db, o: Owned, c: Choice)
    requires Sound(db) && Records(db, o) && c.Judge? && JudgeDeed(cfg, db, o, c).Some?
    requires JudgeDeed(cfg, db, o, c).value.next.Done?
    ensures Borne(cfg, Write(db, JudgeDeed(cfg, db, o, c).value.writes), o.call.id,
      JudgeDeed(cfg, db, o, c).value.next.answer)
  {
    ReportedAreListed(cfg, db, o, c);
    NamesOfListed(db.rules, c.reported);
    var deed := JudgeDeed(cfg, db, o, c).value;
    assert Blank(o) && multiset(o.flags) == multiset{};
    assert deed.writes.call.matched == Ids(c.reported);
    assert multiset{} + multiset(c.assessment.flags) == multiset(c.assessment.flags);
  }

  /** What finalising writes and answers with. */
  lemma FinishIs(o: Owned, stamp: int)
    requires Consistent(o.call) && FinishDeed(o, stamp).Some?
    ensures var deed := FinishDeed(o, stamp).value;
      var plan := o.phase.plan;
      && deed.writes.call.id == o.call.id && deed.writes.call.status == Succeeded
      && deed.writes.call.matched == o.call.matched + plan.matched && deed.writes.flags == plan.assessment.flags
      && deed.writes.result == Some(StoredResult(plan.result, true))
      && deed.next.Done?
      && deed.next.answer ==
           Success(deed.writes.call, plan.result, o.names + plan.names, o.flags + plan.assessment.flags, false)
  {
  }

  lemma FinishBorne(cfg: Config, db: Db, o: Owned, stamp: int)
    requires Records(db, o) && FinishDeed(o, stamp).Some?
    ensures Borne(cfg, Write(db, FinishDeed(o, stamp).value.writes), o.call.id, FinishDeed(o, stamp).value.next.answer)
  {
    var plan := o.phase.plan;
    FinishIs(o, stamp);
    RuleNamesAppend(db.rules, o.call.matched, plan.matched);
    assert multiset(o.flags + plan.assessment.flags) == multiset(o.flags) + multiset(plan.assessment.flags);
  }

  lemma DeedBorne(cfg: Config, db: Db, o: Owned, c: Choice)
    requires Sound(db) && Records(db, o) && DeedOf(cfg, db, o, c).Some? && DeedOf(cfg, db, o, c).value.next.Done?
    ensures DeedOf(cfg, db, o, c).value.writes.call.id == o.call.id
    ensures Borne(cfg, Write(db, DeedOf(cfg, db, o, c).value.writes), o.call.id,
      DeedOf(cfg, db, o, c).value.next.answer)
  {
    var deed := DeedOf(cfg, db, o, c).value;
    match c
    case Validate(stamp) =>
    case RejectCall(stamp, reason) =>
      PlainBorne(cfg, db, o, PublicCode(RejectError(reason)), RejectError(reason), deed);
    case Judge(_, _, _, _, _, _) => JudgeBorne(cfg, db, o, c);
    case Start(stamp) =>
    case RefuseAdapter(stamp) => PlainBorne(cfg, db, o, PublicCode(AdapterNotConfigured), AdapterNotConfigured, deed);
    case TimeOut(stamp) => PlainBorne(cfg, db, o, PublicCode(ToolTimeout), ToolTimeout, deed);
    case Fail(stamp, code, error) =>
      FailCodes(o.phase.outcome, code, error);
      PlainBorne(cfg, db, o, code, error, deed);
    case FinishInvalid(_, _, _) => PlainBorne(cfg, db, o, PublicCode(InvalidToolResult), InvalidToolResult, deed);
    case Finish(stamp) => FinishBorne(cfg, db, o, stamp);
  }

  // ----------------------------------------------------- steps keep answers

  /** A done execution's call is in the database and nobody else's. */
  lemma DoneCall(cfg: Config, s: State, w: nat, c: nat)
    requires Makers(cfg, s) && w in s.executions && s.executions[w].pc.Done? && s.executions[w].pc.made == Some(c)
    ensures c in s.db.calls && c in s.past.maker && s.past.maker[c] == w
  {
    assert Made(s.executions[w].pc, c);
  }

  lemma PerformAnswered(cfg: Config, s: State, s': State, w: nat, o: Owned, deed: Deed)
    requires ProtocolInduction.Performs(cfg, s, s', w, o, deed) && Makers(cfg, s) && Answered(cfg, s)
    requires deed.next.Done? ==> Borne(cfg, Write(s.db, deed.writes), o.call.id, deed.next.answer)
    ensures Answered(cfg, s')
  {
    forall v | v in s'.executions && s'.executions[v].pc.Done? && s'.executions[v].pc.made.Some? && v != w
      ensures v in s.executions && s'.executions[v].pc == s.executions[v].pc
      ensures Rests(s.db, s'.db, s.executions[v].pc.made.value)
    {
      DoneCall(cfg, s, v, s.executions[v].pc.made.value);
    }
    AnsweredStays(cfg, s, s');
  }

  lemma CommitAnswered(cfg: Config, s: State, w: nat, choice: Choice, s': State)
    requires Inv(cfg, s) && Answered(cfg, s) && Committed(cfg, s, w, choice) == Some(s')
    ensures Answered(cfg, s')
  {
    var o, deed := CommitFacts(cfg, s, w, choice);
    OwnerRecords(cfg, s, w, o);
    if deed.next.Done? { DeedBorne(cfg, s.db, o, choice); }
    PerformAnswered(cfg, s, s', w, o, deed);
  }

  lemma OwnerRecords(cfg: Config, s: State, w: nat, o: Owned)
    requires w in s.executions && OwnerOk(cfg, s, w, s.executions[w].request, o)
    ensures Records(s.db, o)
  {
  }

  lemma GoAnswered(cfg: Config, s: State, w: nat, m: Move, s': State)
    requires Inv(cfg, s) && Answered(cfg, s) && Gone(cfg, s, w, m) == Some(s')
    ensures Answered(cfg, s')
  {
    var x := s.executions[w];
    var p := PlaceAfter(cfg, s, x, m).value;
    assert x.pc.Owning? ==> OwnerOk(cfg, s, w, x.request, x.pc.own);
    MoveBorne(cfg, s, w, x, m);
    ArriveFacts(s, w, p);
    ArriveAnswered(cfg, s, s', w, p);
  }

  lemma OwnerMoveBorne(cfg: Config, s: State, w: nat, request: Request, o: Owned, m: Move)
    requires OwnerMove(cfg, s, o, m).Some? && OwnerOk(cfg, s, w, request, o)
    ensures var pc := OwnerMove(cfg, s, o, m).value;
      pc.Done? && pc.made.Some? ==> Borne(cfg, s.db, pc.made.value, pc.answer)
  {
  }

  lemma MoveBorne(cfg: Config, s: State, w: nat, x: Execution, m: Move)
    requires PlaceAfter(cfg, s, x, m).Some?
    requires x.pc.Owning? ==> OwnerOk(cfg, s, w, x.request, x.pc.own)
    ensures var pc := PlaceAfter(cfg, s, x, m).value.pc;
      pc.Done? && pc.made.Some? ==> Borne(cfg, s.db, pc.made.value, pc.answer)
  {
    if x.pc.Owning? { OwnerMoveBorne(cfg, s, w, x.request, x.pc.own, m); }
  }

  lemma ArriveAnswered(cfg: Config, s: State, s': State, w: nat, p: Place)
    requires Arrived(s, s', w, p) && Answered(cfg, s)
    requires p.pc.Done? && p.pc.made.Some? ==> Borne(cfg, s.db, p.pc.made.value, p.pc.answer)
    ensures Answered(cfg, s')
  {
    AnsweredStays(cfg, s, s');
  }

  lemma InsertAnswered(cfg: Config, s: State, w: nat, id: nat, stamp: int, s': State)
    requires Makers(cfg, s) && Answered(cfg, s) && Inserted(cfg, s, w, id, stamp) == Some(s')
    ensures Answered(cfg, s')
  {
    forall v | v in s'.executions && s'.executions[v].pc.Done? && s'.executions[v].pc.made.Some?
      ensures v in s.executions && s'.executions[v].pc == s.executions[v].pc
      ensures Rests(s.db, s'.db, s.executions[v].pc.made.value)
    {
      assert v != w;
      DoneCall(cfg, s, v, s.executions[v].pc.made.value);
    }
    AnsweredStays(cfg, s, s');
  }

  lemma RecoverAnswered(cfg: Config, s: State, s': State, r: nat, batch: set<nat>)
    requires Answered(cfg, s) && Recovers(cfg, s, s', r, batch)
    ensures Answered(cfg, s')
  {
    forall c ensures Rests(s.db, s'.db, c) {
    }
    AnsweredStays(cfg, s, s');
  }

  /** No call and no flag or result changed; executions moved on without finishing. */
  lemma RestAnswered(cfg: Config, s: State, s': State)
    requires Answered(cfg, s) && s'.db.calls == s.db.calls && s'.db.flags == s.db.flags && s'.db.results == s.db.results
    requires Grown(s.db.rules, s'.db.rules)
    requires forall w :: w in s'.executions && s'.executions[w].pc.Done? ==>
      w in s.executions && s'.executions[w].pc == s.executions[w].pc
    ensures Answered(cfg, s')
  {
    AnsweredStays(cfg, s, s');
  }

  lemma NoneFinish(cfg: Config, s: State, a: Action, s': State)
    requires Step(cfg, s, a) == Some(s') && (a.Submit? || a.Flush? || a.Invoke?)
    ensures s'.db == s.db
    ensures forall w :: w in s'.executions && s'.executions[w].pc.Done? ==>
      w in s.executions && s'.executions[w].pc == s.executions[w].pc
  {
  }

  lemma RulesGrow(cfg: Config, s: State, a: Action, s': State)
    requires Step(cfg, s, a) == Some(s') && ProtocolFrames.Frame(a, s, s')
    ensures Grown(s.db.rules, s'.db.rules)
  {
  }

  lemma AnsweredKept(cfg: Config, s: State, a: Action, s': State)
    requires Inv(cfg, s) && Answered(cfg, s) && Step(cfg, s, a) == Some(s')
    ensures Answered(cfg, s')
  {
    match a
    case Go(w, m) => GoAnswered(cfg, s, w, m, s');
    case InsertCall(w, id, stamp) => InsertAnswered(cfg, s, w, id, stamp, s');
    case Commit(w, choice) => CommitAnswered(cfg, s, w, choice, s');
    case CommitBatch(r) =>
      CommitBatchFacts(cfg, s, r, s');
      RecoverAnswered(cfg, s, s', r, s.recoveries[r].phase.batch);
    case _ =>
      Framed(cfg, s, a, s');
      RulesGrow(cfg, s, a, s');
      if a.Submit? || a.Flush? || a.Invoke? { NoneFinish(cfg, s, a, s'); }
      RestAnswered(cfg, s, s');
  }

  // ------------------------------------------------------ requests and races

  ghost predicate Requests(s: State) {
    forall w :: w in s.executions ==> Encodable(IdentityComponents(s.executions[w].request.identity))
  }

  /** A numbered execution can lose its key to another session only. */
  ghost predicate Racing(s: State) {
    forall w :: w in s.executions && s.executions[w].pc.Numbered? ==>
      NotMine(s.db, s.executions[w].request)
  }

  ghost predicate NotMine(db: Db, request: Request) {
    request.key in db.byKey ==>
      && db.byKey[request.key] in db.calls
      && db.calls[db.byKey[request.key]].session != request.identity.session
  }

  /** Whoever was told of a conflict asked for something else than the key's call. */
  ghost predicate Conflicts(cfg: Config, s: State) {
    forall w :: w in s.executions && InConflict(s.executions[w].pc) ==> Differs(cfg, s.db, s.executions[w].request)
  }

  ghost predicate Differs(cfg: Config, db: Db, request: Request) {
    && request.key in db.byKey && db.byKey[request.key] in db.calls
    && (db.calls[db.byKey[request.key]].hash != HashOf(cfg, request)
        || db.calls[db.byKey[request.key]].session != request.identity.session)
  }

  lemma RequestsKept(cfg: Config, s: State, a: Action, s': State)
    requires Requests(s) && Step(cfg, s, a) == Some(s')
    ensures Requests(s')
  {
    Framed(cfg, s, a, s');
    if a.Submit? { SubmitEncodes(cfg, s, a, s'); }
  }

  lemma SubmitEncodes(cfg: Config, s: State, a: Action, s': State)
    requires a.Submit? && Step(cfg, s, a) == Some(s')
    ensures a.w in s'.executions && Encodable(IdentityComponents(s'.executions[a.w].request.identity))
  {
  }

  /** Keys stay with their calls, and calls keep what identifies them. */
  ghost predicate KeysStay(before: Db, after: Db) {
    forall k :: k in before.byKey && before.byKey[k] in before.calls ==>
      && k in after.byKey && after.byKey[k] == before.byKey[k] && before.byKey[k] in after.calls
      && SameCall(after.calls[before.byKey[k]], before.calls[before.byKey[k]])
  }

  lemma KeysAreKept(cfg: Config, s: State, a: Action, s': State)
    requires Inv(cfg, s) && Step(cfg, s, a) == Some(s')
    ensures KeysStay(s.db, s'.db)
  {
    Framed(cfg, s, a, s');
    RowsOnlyRise(cfg, s, a, s');
    if a.InsertCall? { InsertKeys(cfg, s, a.w, a.id, a.stamp, s'); }
    RisenKeys(s.db, s'.db);
  }

  lemma RisenKeys(before: Db, after: Db)
    requires Risen(before.calls, after.calls)
    requires forall k :: k in before.byKey ==> k in after.byKey && after.byKey[k] == before.byKey[k]
    ensures KeysStay(before, after)
  {
  }

  lemma InsertKeys(cfg: Config, s: State, w: nat, id: nat, stamp: int, s': State)
    requires Inserted(cfg, s, w, id, stamp) == Some(s')
    ensures forall k :: k in s.db.byKey ==> k in s'.db.byKey && s'.db.byKey[k] == s.db.byKey[k]
  {
  }

  lemma DiffersStays(cfg: Config, before: Db, after: Db, request: Request)
    requires Differs(cfg, before, request) && KeysStay(before, after)
    ensures Differs(cfg, after, request)
  {
  }

  lemma OwnerMoveAnswers(cfg: Config, s: State, o: Owned, m: Move)
    requires OwnerMove(cfg, s, o, m).Some?
    ensures !OwnerMove(cfg, s, o, m).value.Numbered? && !InConflict(OwnerMove(cfg, s, o, m).value)
  {
  }

  lemma LookupAnswers(cfg: Config, db: Db, request: Request, listed: seq<RiskFlag>)
    requires AfterLookup(cfg, db, request, listed).Some?
    ensures !AfterLookup(cfg, db, request, listed).value.Numbered?
    ensures InConflict(AfterLookup(cfg, db, request, listed).value) ==> Differs(cfg, db, request)
  {
  }

  lemma InspectionAnswers(cfg: Config, db: Db, request: Request, sequence: int)
    requires AfterInspection(cfg, db, request, sequence).Some?
    ensures AfterInspection(cfg, db, request, sequence).value.pc.Numbered? ==> request.key !in db.byKey
    ensures InConflict(AfterInspection(cfg, db, request, sequence).value.pc) ==> Differs(cfg, db, request)
  {
  }

  lemma PlaceConflicts(cfg: Config, s: State, x: Execution, m: Move)
    requires PlaceAfter(cfg, s, x, m).Some?
    requires x.pc.Numbered? ==> NotMine(s.db, x.request)
    ensures var pc := PlaceAfter(cfg, s, x, m).value.pc;
      && (pc.Numbered? ==> NotMine(s.db, x.request))
      && (InConflict(pc) ==> Differs(cfg, s.db, x.request))
  {
    match x.pc
    case Owning(o) => OwnerMoveAnswers(cfg, s, o, m);
    case Fresh => if m.Lookup? { LookupAnswers(cfg, s.db, x.request, m.listed); }
    case Locked => if m.Inspect? { InspectionAnswers(cfg, s.db, x.request, m.sequence); }
    case _ =>
  }

  lemma ArriveConflicts(cfg: Config, s: State, s': State, w: nat, p: Place)
    requires Arrived(s, s', w, p) && Racing(s) && Conflicts(cfg, s)
    requires p.pc.Numbered? ==> NotMine(s.db, s.executions[w].request)
    requires p.pc.Done? && p.pc.answer == Failure(IdempotencyConflict) ==> Differs(cfg, s.db, s.executions[w].request)
    ensures Racing(s') && Conflicts(cfg, s')
  {
  }

  lemma GoConflicts(cfg: Config, s: State, w: nat, m: Move, s': State)
    requires Sound(s.db) && Racing(s) && Conflicts(cfg, s) && Gone(cfg, s, w, m) == Some(s')
    ensures Racing(s') && Conflicts(cfg, s')
  {
    var p := PlaceAfter(cfg, s, s.executions[w], m).value;
    PlaceConflicts(cfg, s, s.executions[w], m);
    ArriveFacts(s, w, p);
    ArriveConflicts(cfg, s, s', w, p);
  }

  lemma InsertConflicts(cfg: Config, s: State, s': State, w: nat, call: ToolCall)
    requires Inserts(cfg, s, s', w, call) && Locking(s) && Racing(s) && Conflicts(cfg, s) && KeysStay(s.db, s'.db)
    ensures Racing(s') && Conflicts(cfg, s')
  {
    forall v | v in s'.executions && s'.executions[v].pc.Numbered? ensures NotMine(s'.db, s'.executions[v].request) {
      assert v != w && Waiting(s, v) && HoldsLock(s, v);
      assert s.executions[v].request.identity.session != call.session;
      assert NotMine(s.db, s.executions[v].request);
    }
    forall v | v in s'.executions && InConflict(s'.executions[v].pc)
      ensures Differs(cfg, s'.db, s'.executions[v].request)
    {
      DiffersStays(cfg, s.db, s'.db, s.executions[v].request);
    }
  }

  /** Executions moved neither into the numbered place nor into a conflict. */
  lemma RestConflicts(cfg: Config, s: State, s': State)
    requires Racing(s) && Conflicts(cfg, s) && KeysStay(s.db, s'.db) && s'.db.byKey == s.db.byKey
    requires forall w :: w in s'.executions && (s'.executions[w].pc.Numbered? || InConflict(s'.executions[w].pc)) ==>
      w in s.executions && s'.executions[w] == s.executions[w]
    ensures Racing(s') && Conflicts(cfg, s')
  {
    forall v | v in s'.executions && s'.executions[v].pc.Numbered? ensures NotMine(s'.db, s'.executions[v].request) {
      assert NotMine(s.db, s.executions[v].request);
    }
    forall v | v in s'.executions && InConflict(s'.executions[v].pc)
      ensures Differs(cfg, s'.db, s'.executions[v].request)
    {
      assert InConflict(s'.executions[v].pc);
      DiffersStays(cfg, s.db, s'.db, s.executions[v].request);
    }
  }

  predicate InConflict(pc: Pc) { pc.Done? && pc.answer == Failure(IdempotencyConflict) }

  lemma DeedsDoNotConflict(cfg: Config, db: Db, o: Owned, c: Choice)
    requires DeedOf(cfg, db, o, c).Some?
    ensures !InConflict(DeedOf(cfg, db, o, c).value.next) && !DeedOf(cfg, db, o, c).value.next.Numbered?
  {
  }

  lemma CommitMoves(cfg: Config, s: State, w: nat, choice: Choice, s': State)
    requires Committed(cfg, s, w, choice) == Some(s')
    ensures forall v :: v in s'.executions && (s'.executions[v].pc.Numbered? || InConflict(s'.executions[v].pc)) ==>
      v in s.executions && s'.executions[v] == s.executions[v]
  {
    DeedsDoNotConflict(cfg, s.db, s.executions[w].pc.own, choice);
  }

  lemma OthersMove(cfg: Config, s: State, a: Action, s': State)
    requires Step(cfg, s, a) == Some(s') && (a.Submit? || a.Flush? || a.Invoke?)
    ensures forall v :: v in s'.executions && (s'.executions[v].pc.Numbered? || InConflict(s'.executions[v].pc)) ==>
      v in s.executions && s'.executions[v] == s.executions[v]
  {
  }

  lemma ConflictsKept(cfg: Config, s: State, a: Action, s': State)
    requires Inv(cfg, s) && Racing(s) && Conflicts(cfg, s) && Step(cfg, s, a) == Some(s')
    ensures Racing(s') && Conflicts(cfg, s')
  {
    KeysAreKept(cfg, s, a, s');
    Framed(cfg, s, a, s');
    match a
    case Go(w, m) => GoConflicts(cfg, s, w, m, s');
    case InsertCall(w, id, stamp) =>
      InsertFacts(cfg, s, w, id, stamp, s');
      InsertConflicts(cfg, s, s', w, NewCall(cfg, s.executions[w].request, id, s.executions[w].pc.sequence, stamp));
    case Commit(w, choice) =>
      CommitMoves(cfg, s, w, choice, s');
      RestConflicts(cfg, s, s');
    case _ =>
      if a.Submit? || a.Flush? || a.Invoke? { OthersMove(cfg, s, a, s'); }
      RestConflicts(cfg, s, s');
  }

  // ------------------------------------------------------------------ runs

  ghost predicate ReplayInv(cfg: Config, s: State) {
    Inv(cfg, s) && Answered(cfg, s) && Requests(s) && Racing(s) && Conflicts(cfg, s)
  }

  lemma {:induction false} ReplayRun(cfg: Config, s: State, actions: seq<Action>)
    requires ReplayInv(cfg, s) && Run(cfg, s, actions).Some?
    ensures ReplayInv(cfg, Run(cfg, s, actions).value)
    decreases |actions|
  {
    if actions != [] {
      var next := Step(cfg, s, actions[0]).value;
      StepKeeps(cfg, s, actions[0], next);
      AnsweredKept(cfg, s, actions[0], next);
      RequestsKept(cfg, s, actions[0], next);
      ConflictsKept(cfg, s, actions[0], next);
      ReplayRun(cfg, next, actions[1..]);
    }
  }

  lemma ReplayReachable(cfg: Config, s: State)
    requires Reachable(cfg, s)
    ensures ReplayInv(cfg, s)
  {
    var actions :| Run(cfg, INITIAL, actions) == Some(s);
    InitiallyInv(cfg);
    ReplayRun(cfg, INITIAL, actions);
  }

  // ------------------------------------------------- conflicts, exactly

  /** The request of the execution that inserted the call with this key. */
  ghost function KeysOwner(s: State, key: nat): Request
    requires key in s.db.byKey && s.db.byKey[key] in s.past.maker
    requires s.past.maker[s.db.byKey[key]] in s.executions
  {
    s.executions[s.past.maker[s.db.byKey[key]]].request
  }

  lemma KeyHasOwner(cfg: Config, s: State, key: nat)
    requires Sound(s.db) && Makers(cfg, s) && key in s.db.byKey
    ensures s.db.byKey[key] in s.past.maker && s.past.maker[s.db.byKey[key]] in s.executions
    ensures IsFor(cfg, s.db.calls[s.db.byKey[key]], KeysOwner(s, key)) && KeysOwner(s, key).key == key
  {
  }

  /** Whenever any execution was told of an idempotency conflict, the call under its
      key was inserted for a different session, tool, version or arguments: an
      identical request is never refused so. */
  lemma ConflictMeansDifferent(cfg: Config, s: State, w: nat)
    requires Reachable(cfg, s) && w in s.executions && InConflict(s.executions[w].pc)
    ensures var request := s.executions[w].request;
      && request.key in s.db.byKey && s.db.byKey[request.key] in s.past.maker
      && s.past.maker[s.db.byKey[request.key]] in s.executions
      && KeysOwner(s, request.key).identity != request.identity
  {
    ReplayReachable(cfg, s);
    assert Differs(cfg, s.db, s.executions[w].request);
    KeyHasOwner(cfg, s, s.executions[w].request.key);
  }

  /** At the first lookup a used key is a conflict exactly when the request differs. */
  lemma LookupConflictExactly(cfg: Config, s: State, w: nat, listed: seq<RiskFlag>)
    requires Injective(cfg.digest) && Reachable(cfg, s) && w in s.executions
    requires s.executions[w].request.key in s.db.byKey
    requires AfterLookup(cfg, s.db, s.executions[w].request, listed).Some?
    ensures var request := s.executions[w].request;
      && s.db.byKey[request.key] in s.past.maker && s.past.maker[s.db.byKey[request.key]] in s.executions
      && (InConflict(AfterLookup(cfg, s.db, request, listed).value) <==>
         KeysOwner(s, request.key).identity != request.identity)
  {
    ReplayReachable(cfg, s);
    SameHashExactly(cfg, s, w);
    LookupComparesHashes(cfg, s.db, s.executions[w].request, listed);
  }

  lemma LookupComparesHashes(cfg: Config, db: Db, request: Request, listed: seq<RiskFlag>)
    requires AfterLookup(cfg, db, request, listed).Some? && request.key in db.byKey && db.byKey[request.key] in db.calls
    ensures InConflict(AfterLookup(cfg, db, request, listed).value) <==>
      db.calls[db.byKey[request.key]].hash != HashOf(cfg, request)
  {
  }

  lemma SameHashExactly(cfg: Config, s: State, w: nat)
    requires Injective(cfg.digest) && Sound(s.db) && Makers(cfg, s) && Requests(s) && w in s.executions
    requires s.executions[w].request.key in s.db.byKey
    ensures var request := s.executions[w].request;
      && s.db.byKey[request.key] in s.past.maker && s.past.maker[s.db.byKey[request.key]] in s.executions
      && (s.db.calls[s.db.byKey[request.key]].hash == HashOf(cfg, request) <==>
            KeysOwner(s, request.key).identity == request.identity)
  {
    var request := s.executions[w].request;
    KeyHasOwner(cfg, s, request.key);
    SameHashSameIdentity(cfg.digest, KeysOwner(s, request.key).identity, request.identity);
  }

  /** Under the session lock the same holds, and an identical request is told to wait. */
  lemma InspectionConflictExactly(cfg: Config, s: State, w: nat)
    requires Injective(cfg.digest) && Reachable(cfg, s) && w in s.executions && s.executions[w].pc.Locked?
    requires s.executions[w].request.key in s.db.byKey
    requires s.executions[w].request.identity.session in s.db.sessions
    requires forall k :: k in s.db.byKey ==> s.db.byKey[k] in s.db.calls
    requires s.db.sessions[s.executions[w].request.identity.session] == Active
    requires ToolOf(s.executions[w].request) in s.db.tools && s.db.tools[ToolOf(s.executions[w].request)].enabled
    ensures var request := s.executions[w].request;
      && s.db.byKey[request.key] in s.past.maker && s.past.maker[s.db.byKey[request.key]] in s.executions
      && Refusal(cfg, s.db, request) ==
           Some(if KeysOwner(s, request.key).identity == request.identity then ExecutionInProgress
               else IdempotencyConflict)
  {
    ReplayReachable(cfg, s);
    SameHashExactly(cfg, s, w);
  }

  // ----------------------------------------------------- replays, exactly

  /** A later lookup with the key and the hash of a call. */
  ghost predicate Repeats(cfg: Config, s: State, c: nat, request: Request, listed: seq<RiskFlag>) {
    && c in s.db.calls && c in s.db.flags && multiset(listed) == s.db.flags[c]
    && request.key == s.db.calls[c].key && HashOf(cfg, request) == s.db.calls[c].hash
  }

  /** Once a call has succeeded, every repeated request gets the same row, the same
      result and rule names, and the same flags up to order. */
  lemma SuccessReplays(cfg: Config, s: State, w: nat, c: nat, request: Request, listed: seq<RiskFlag>)
    requires Reachable(cfg, s) && w in s.executions && Repeats(cfg, s, c, request, listed)
    requires s.executions[w].pc.Done? && s.executions[w].pc.made == Some(c) && s.executions[w].pc.answer.Success?
    ensures var first := s.executions[w].pc.answer;
      && multiset(listed) == multiset(first.flags)
      && AfterLookup(cfg, s.db, request, listed) ==
           Some(Done(Success(first.call, first.result, first.names, listed, true), None))
  {
    ReplayReachable(cfg, s);
    assert Borne(cfg, s.db, c, s.executions[w].pc.answer);
  }

  lemma BlockReplays(cfg: Config, s: State, w: nat, c: nat, request: Request, listed: seq<RiskFlag>)
    requires Reachable(cfg, s) && w in s.executions && Repeats(cfg, s, c, request, listed)
    requires s.executions[w].pc.Done? && s.executions[w].pc.made == Some(c) && s.executions[w].pc.answer.BlockedBy?
    ensures var first := s.executions[w].pc.answer;
      && multiset(listed) == multiset(first.flags)
      && AfterLookup(cfg, s.db, request, listed) == Some(Done(BlockedBy(first.call, first.names, listed, true), None))
  {
    ReplayReachable(cfg, s);
    assert Borne(cfg, s.db, c, s.executions[w].pc.answer);
  }

  /** The code an adapter may store without changing what a replay says. */
  predicate AdapterCodeInUse(code: string) { code == "mock_query_not_supported" || code == "tool_execution_failed" }

  /** The codes an adapter's failure would share with the pipeline's own. */
  predicate Reserved(code: string) {
    || code == "invalid_tool_arguments" || code == "adapter_not_configured" || code == "tool_timeout"
    || code == "invalid_tool_result" || code == "tool_result_too_large" || code == "tool_payload_too_deep"
  }

  /** The replay table gives every public error back its own code. */
  lemma TableKeepsCodes(e: TerminalError)
    ensures PublicCode(ReplayError(PublicCode(e))) == PublicCode(e)
    ensures ReplayError(PublicCode(e)) == e <==> e != ToolPayloadTooDeep
  {
  }

  /** An adapter's code replays as the error it raised exactly when it is not one
      of the pipeline's own codes. */
  lemma AdapterCodesReplayExactly(code: string)
    ensures PublicCode(ReplayError(code)) == PublicCode(AdapterError(code)) <==> !Reserved(code)
    ensures AdapterCodeInUse(code) ==> !Reserved(code)
  {
  }

  /** A rejected, failed or timed-out call replays the public code of its first
      error, unless the adapter stored a reserved code; a call whose answer went out
      without a commit is in progress, and failed for good once recovered. */
  lemma FailureReplays(cfg: Config, s: State, w: nat, c: nat, request: Request, listed: seq<RiskFlag>, e: TerminalError)
    requires Reachable(cfg, s) && w in s.executions && Repeats(cfg, s, c, request, listed)
    requires s.executions[w].pc == Done(Failure(Terminal(e)), Some(c))
    ensures ReplaysFailure(s.db.calls[c], e, AfterLookup(cfg, s.db, request, listed))
  {
    ReplayReachable(cfg, s);
    assert Borne(cfg, s.db, c, Failure(Terminal(e)));
    if FailureStored(s.db.calls[c], e) {
      AfterStoredFailure(cfg, s, c, request, listed, e);
      if !Reserved(s.db.calls[c].error.value) || s.db.calls[c].error.value == PublicCode(e) {
        StoredCodesReplay(s.db.calls[c].error.value, e);
      }
    } else {
      AfterAbandoned(cfg, s, c, request, listed);
    }
  }

  ghost predicate ReplaysFailure(row: ToolCall, e: TerminalError, again: Option<Pc>) {
    || (&& FailureStored(row, e) && again == Some(Fails(Terminal(ReplayError(row.error.value))))
        && (row.error.value == PublicCode(e) || !Reserved(row.error.value) ==>
              PublicCode(ReplayError(row.error.value)) == PublicCode(e)))
    || (&& SanitizedLimit(e) && LeftBehind(row)
        && again == Some(Fails(if row.status == Executing then ExecutionInProgress else Terminal(ToolExecutionFailed))))
  }

  lemma StoredCodesReplay(code: string, e: TerminalError)
    requires StoredAs(code, e) && (code == PublicCode(e) || !Reserved(code))
    ensures PublicCode(ReplayError(code)) == PublicCode(e)
  {
    TableKeepsCodes(e);
    AdapterCodesReplayExactly(code);
  }

  lemma AfterStoredFailure(cfg: Config, s: State, c: nat, request: Request, listed: seq<RiskFlag>, e: TerminalError)
    requires Sound(s.db) && Repeats(cfg, s, c, request, listed) && FailureStored(s.db.calls[c], e)
    ensures AfterLookup(cfg, s.db, request, listed) == Some(Fails(Terminal(ReplayError(s.db.calls[c].error.value))))
  {
  }

  lemma AfterAbandoned(cfg: Config, s: State, c: nat, request: Request, listed: seq<RiskFlag>)
    requires Sound(s.db) && Repeats(cfg, s, c, request, listed) && LeftBehind(s.db.calls[c])
    ensures AfterLookup(cfg, s.db, request, listed) ==
      Some(Fails(if s.db.calls[c].status == Executing then ExecutionInProgress else Terminal(ToolExecutionFailed)))
  {
  }
}
