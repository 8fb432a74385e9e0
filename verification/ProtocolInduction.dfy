/** Every action keeps the invariant of ProtocolSafety. */
module ProtocolInduction {
  import opened Options
  import opened RiskEngine
  import opened ToolCalls
  import opened AuditTrail
  import opened Store
  import opened Protocol
  import opened ProtocolSafety
  import opened RequestIdentity
  import Rules = RuleEngine
  import Sorting

  lemma InitiallyInv(cfg: Config)
    ensures Inv(cfg, INITIAL)
  {
  }

  // ------------------------------------------------------------- database

  lemma CommitFacts(cfg: Config, s: State, w: nat, choice: Choice) returns (o: Owned, deed: Deed)
    requires Inv(cfg, s) && Committed(cfg, s, w, choice).Some?
    ensures w in s.executions && s.executions[w].pc == Owning(o) && o.call.id in s.db.calls && o.call.id !in s.claims
    ensures s.db.calls[o.call.id].status == Executing ==> s.db.calls[o.call.id] == o.call
    ensures OwnerOk(cfg, s, w, s.executions[w].request, o) && GoodDeed(cfg, s.db.rules, o, deed)
    ensures DeedOf(cfg, s.db, o, choice) == Some(deed) && deed.writes.call.id == o.call.id
    ensures o.call.updated <= deed.writes.call.updated <= s.now
    ensures Committed(cfg, s, w, choice).value == Performed(s, w, o.call.id, deed)
  {
    o := s.executions[w].pc.own;
    deed := DeedOf(cfg, s.db, o, choice).value;
    DeedIsGood(cfg, s.db, o, choice);
    StampIsUpdated(cfg, s.db, o, choice);
  }

  lemma StampIsUpdated(cfg: Config, db: Db, o: Owned, choice: Choice)
    requires DeedOf(cfg, db, o, choice).Some?
    ensures DeedOf(cfg, db, o, choice).value.writes.call.updated == choice.stamp
  {
  }

  // ----------------------------------------- one execution changes its place

  /** The next place of an owner differs in its phase only, and the adapter has been
      called before as after. */
  ghost predicate SameWork(o: Owned, after: Owned) {
    o.phase != Deciding && after == o.(phase := after.phase) && after.phase != Deciding
  }

  /** What every move has in common. */
  ghost predicate GoodPlace(cfg: Config, s: State, x: Execution, p: Place) {
    var session := x.request.identity.session;
    && (forall c :: Made(p.pc, c) <==> Made(x.pc, c))
    && (p.pc.Owning? ==> x.pc.Owning? && SameWork(x.pc.own, p.pc.own) && PlanOk(s.db.rules, p.pc.own))
    && (p.lock.Take? ==> session !in s.locks && session in s.db.sessions && p.pc.Locked?)
    && (p.lock.Free? ==> (x.pc.Locked? || x.pc.Numbered?) && p.pc.Done?)
    && (p.pc.Locked? ==> p.lock.Take?)
    && (p.pc.Numbered? ==>
          && x.pc.Locked? && p.lock.Keep? && session in s.db.sessions && s.db.sessions[session] == Active
          && ToolOf(x.request) in s.db.tools && p.pc.tool == s.db.tools[ToolOf(x.request)]
          && IsNext(s.db.calls, session, p.pc.sequence))
  }

  lemma PlaceIsGood(cfg: Config, s: State, x: Execution, m: Move)
    requires PlaceAfter(cfg, s, x, m).Some?
    requires x.pc.Owning? ==> PlanOk(s.db.rules, x.pc.own)
    ensures GoodPlace(cfg, s, x, PlaceAfter(cfg, s, x, m).value)
  {
    match x.pc
    case Owning(o) => OwnerMoveIsGood(cfg, s, o, m);
    case _ =>
  }

  lemma OwnerMoveIsGood(cfg: Config, s: State, o: Owned, m: Move)
    requires OwnerMove(cfg, s, o, m).Some?
    ensures var pc := OwnerMove(cfg, s, o, m).value;
      && ((pc.Done? && pc.made == Some(o.call.id))
          || (pc.Owning? && SameWork(o, pc.own) && PlanOk(s.db.rules, pc.own)))
  {
    if m.EvaluateResult? { EvaluationMatches(cfg, s.db, o, m); }
  }

  lemma EvaluationMatches(cfg: Config, db: Db, o: Owned, m: Move)
    requires m.EvaluateResult? && AfterEvaluation(cfg, db, o, m).Some?
    ensures Known(db.rules, Ids(m.reported)) && Names(m.reported) == RuleNames(db.rules, Ids(m.reported))
  {
    var subject := Rules.Subject(o.tool.key.name, m.assessment.level, m.assessment.flags, m.arguments, true);
    forall r | r in m.reported ensures r.id in db.rules && db.rules[r.id] == r {
      assert Rules.Reported(cfg.matchers, subject, m.listing, r);
    }
    NamesOfListed(db.rules, m.reported);
  }

  /** Everything but one execution, its place and its session's lock is as before. */
  ghost predicate Arrived(s: State, s': State, w: nat, p: Place) {
    && w in s.executions
    && s'.db == s.db && s'.past == s.past && s'.now == s.now && s'.claims == s.claims
    && s'.closers == s.closers && s'.recoveries == s.recoveries
    && s'.executions == s.executions[w := s.executions[w].(pc := p.pc)]
    && s'.locks == Arrive(s, w, p).locks
  }

  lemma ArriveFacts(s: State, w: nat, p: Place)
    requires w in s.executions
    ensures Arrived(s, Arrive(s, w, p), w, p)
  {
  }

  lemma LockingStays(cfg: Config, s: State, s': State, w: nat, p: Place)
    requires Locking(s) && Numbering(s.db.sessions, s.db.calls, s.past.order) && Arrived(s, s', w, p)
    requires GoodPlace(cfg, s, s.executions[w], p)
    requires forall t :: t in s.db.tools ==> s.db.tools[t].key == t
    ensures Locking(s')
  {
    var session := s.executions[w].request.identity.session;
    if Waiting(s, w) { assert HoldsLock(s, w); }
    forall v | Waiting(s', v) ensures HoldsLock(s', v) {
      if v == w {
        if p.pc.Numbered? { NextIsOneMore(s, session, p.pc.sequence); }
      } else {
        assert Waiting(s, v) && HoldsLock(s, v);
      }
    }
  }

  lemma NextIsOneMore(s: State, session: string, n: int)
    requires Numbering(s.db.sessions, s.db.calls, s.past.order) && session in s.past.order
      && IsNext(s.db.calls, session, n)
    ensures n == |s.past.order[session]| + 1
  {
    var mine := s.past.order[session];
    if |mine| > 0 { assert Listed(s.db.calls, s.past.order, session, |mine| - 1); }
    if n != 1 {
      var c :| c in s.db.calls && s.db.calls[c].session == session && s.db.calls[c].sequence == n - 1;
      assert InPlace(s.db.calls, s.past.order, c);
    }
  }

  lemma OwnersStay(cfg: Config, s: State, s': State, w: nat, p: Place)
    requires Owners(cfg, s) && Arrived(s, s', w, p) && GoodPlace(cfg, s, s.executions[w], p)
    ensures Owners(cfg, s')
  {
    forall v | v in s'.executions && s'.executions[v].pc.Owning?
      ensures OwnerOk(cfg, s', v, s'.executions[v].request, s'.executions[v].pc.own)
    {
      assert s.executions[v].pc.Owning?;
      assert OwnerOk(cfg, s, v, s.executions[v].request, s.executions[v].pc.own);
    }
  }

  /** Executions that keep making the same calls keep every call's maker. */
  lemma MakersAgain(cfg: Config, s: State, s': State)
    requires Makers(cfg, s) && s'.past.maker == s.past.maker && s'.db.calls.Keys == s.db.calls.Keys
    requires forall c :: c in s.db.calls ==> SameCall(s'.db.calls[c], s.db.calls[c])
    requires s'.executions.Keys == s.executions.Keys
    requires forall v :: v in s.executions ==> SameMaker(s.executions[v], s'.executions[v])
    ensures Makers(cfg, s')
  {
    forall v, c | v in s'.executions && Made(s'.executions[v].pc, c)
        ensures c in s'.past.maker && s'.past.maker[c] == v {
      assert SameMaker(s.executions[v], s'.executions[v]) && Made(s.executions[v].pc, c);
    }
    forall c | c in s'.past.maker
      ensures s'.past.maker[c] in s'.executions && Made(s'.executions[s'.past.maker[c]].pc, c)
      ensures IsFor(cfg, s'.db.calls[c], s'.executions[s'.past.maker[c]].request)
    {
      var v := s.past.maker[c];
      assert SameMaker(s.executions[v], s'.executions[v]) && Made(s.executions[v].pc, c);
    }
  }

  ghost predicate SameMaker(x: Execution, y: Execution) {
    x.request == y.request && forall c :: Made(y.pc, c) <==> Made(x.pc, c)
  }

  lemma MakersStay(cfg: Config, s: State, s': State, w: nat, p: Place)
    requires Makers(cfg, s) && Arrived(s, s', w, p) && GoodPlace(cfg, s, s.executions[w], p)
    ensures Makers(cfg, s')
  {
    MakersAgain(cfg, s, s');
  }

  lemma MoveKeeps(cfg: Config, s: State, w: nat, p: Place)
    requires Inv(cfg, s) && w in s.executions && GoodPlace(cfg, s, s.executions[w], p)
    ensures Inv(cfg, Arrive(s, w, p))
  {
    var s' := Arrive(s, w, p);
    ArriveFacts(s, w, p);
    LockingStays(cfg, s, s', w, p);
    OwnersStay(cfg, s, s', w, p);
    MakersStay(cfg, s, s', w, p);
    assert Log(cfg, s') && Claims(s');
  }

  lemma GoKeeps(cfg: Config, s: State, w: nat, m: Move, s': State)
    requires Inv(cfg, s) && Gone(cfg, s, w, m) == Some(s')
    ensures Inv(cfg, s')
  {
    var x := s.executions[w];
    assert x.pc.Owning? ==> OwnerOk(cfg, s, w, x.request, x.pc.own);
    PlaceIsGood(cfg, s, x, m);
    MoveKeeps(cfg, s, w, PlaceAfter(cfg, s, x, m).value);
  }

  // ------------------------------------------------- an owner's transaction

  /** Rewriting rows without touching what identifies them keeps every number. */
  lemma NumberingAgain(
    sessions: map<string, SessionStatus>, calls: map<nat, ToolCall>, after: map<nat, ToolCall>,
    order: map<string, seq<nat>>)
    requires Numbering(sessions, calls, order) && after.Keys == calls.Keys
    requires forall c :: c in calls ==> SameCall(after[c], calls[c])
    ensures Numbering(sessions, after, order)
  {
    forall sid, i: nat | sid in order && i < |order[sid]| ensures Listed(after, order, sid, i) {
      assert Listed(calls, order, sid, i) && SameCall(after[order[sid][i]], calls[order[sid][i]]);
    }
    forall c | c in after ensures InPlace(after, order, c) {
      assert InPlace(calls, order, c) && SameCall(after[c], calls[c]);
    }
  }

  /** The facts a transaction of execution w rests on. */
  ghost predicate Performs(cfg: Config, s: State, s': State, w: nat, o: Owned, deed: Deed) {
    && w in s.executions && s.executions[w].pc == Owning(o)
    && OwnerOk(cfg, s, w, s.executions[w].request, o) && GoodDeed(cfg, s.db.rules, o, deed)
    && o.call.updated <= deed.writes.call.updated <= s.now
    && deed.writes.call.id == o.call.id && o.call.id !in s.claims && o.call.id in s.db.calls
    && s' == Performed(s, w, o.call.id, deed)
  }

  /** The same without the reasons. */
  ghost predicate Replaces(s: State, s': State, w: nat, call: ToolCall, next: Pc) {
    && w in s.executions && s'.executions == s.executions[w := s.executions[w].(pc := next)]
    && call.id in s.db.calls && SameCall(call, s.db.calls[call.id]) && call.id !in s.claims
    && s'.db.calls == s.db.calls[call.id := call] && s'.db.calls.Keys == s.db.calls.Keys
    && s'.past.maker == s.past.maker && s'.claims == s.claims && s'.recoveries == s.recoveries && s'.now == s.now
    && forall c :: Made(next, c) <==> Made(s.executions[w].pc, c)
  }

  lemma PerformReplaces(cfg: Config, s: State, s': State, w: nat, o: Owned, deed: Deed)
    requires Performs(cfg, s, s', w, o, deed)
    ensures Replaces(s, s', w, deed.writes.call, deed.next)
  {
    DeedMakes(cfg, s.db.rules, o, deed);
  }

  lemma PerformLocking(cfg: Config, s: State, s': State, w: nat, o: Owned, deed: Deed)
    requires Performs(cfg, s, s', w, o, deed) && Locking(s)
    ensures Locking(s')
  {
    forall v | Waiting(s', v) ensures HoldsLock(s', v) {
      assert v != w && Waiting(s, v) && HoldsLock(s, v);
    }
  }

  lemma PerformOwners(cfg: Config, s: State, s': State, w: nat, o: Owned, deed: Deed)
    requires Performs(cfg, s, s', w, o, deed) && Owners(cfg, s)
    ensures Owners(cfg, s')
  {
    forall v | v in s'.executions && s'.executions[v].pc.Owning?
      ensures OwnerOk(cfg, s', v, s'.executions[v].request, s'.executions[v].pc.own)
    {
      if v == w {
        PerformOwner(cfg, s, s', w, o, deed);
      } else {
        assert OwnerOk(cfg, s, v, s.executions[v].request, s.executions[v].pc.own);
        assert s.executions[v].pc.own.call.id != o.call.id;
      }
    }
  }

  lemma PerformOwner(cfg: Config, s: State, s': State, w: nat, o: Owned, deed: Deed)
    requires Performs(cfg, s, s', w, o, deed) && deed.next.Owning?
    ensures OwnerOk(cfg, s', w, s'.executions[w].request, s'.executions[w].pc.own)
  {
  }

  lemma DeedMakes(cfg: Config, rules: map<nat, Rules.Rule>, o: Owned, deed: Deed)
    requires GoodDeed(cfg, rules, o, deed)
    ensures forall c :: Made(deed.next, c) <==> Made(Owning(o), c)
  {
  }

  lemma PerformNumbering(s: State, s': State, w: nat, call: ToolCall, next: Pc)
    requires Replaces(s, s', w, call, next) && Numbering(s.db.sessions, s.db.calls, s.past.order)
    ensures Numbering(s.db.sessions, s'.db.calls, s.past.order)
  {
    NumberingAgain(s.db.sessions, s.db.calls, s'.db.calls, s.past.order);
  }

  lemma PerformMakers(cfg: Config, s: State, s': State, w: nat, call: ToolCall, next: Pc)
    requires Replaces(s, s', w, call, next) && Makers(cfg, s)
    ensures Makers(cfg, s')
  {
    forall v | v in s.executions ensures SameMaker(s.executions[v], s'.executions[v]) {
      if v == w { assert s'.executions[v] == s.executions[v].(pc := next); }
    }
    MakersAgain(cfg, s, s');
  }

  lemma PerformLog(cfg: Config, s: State, s': State, w: nat, o: Owned, deed: Deed)
    requires Performs(cfg, s, s', w, o, deed) && Log(cfg, s)
    ensures Log(cfg, s')
  {
  }

  lemma PerformClaims(s: State, s': State, w: nat, call: ToolCall, next: Pc)
    requires Replaces(s, s', w, call, next) && Claims(s)
    ensures Claims(s')
  {
    forall r, c | InHand(s'.recoveries, r, c)
      ensures c in s'.claims && s'.claims[c] == r && c in Stale(s'.db, s'.recoveries[r].cutoff)
    {
      assert InHand(s.recoveries, r, c) && c != call.id;
    }
  }

  lemma CommitKeeps(cfg: Config, s: State, w: nat, choice: Choice, s': State)
    requires Inv(cfg, s) && Committed(cfg, s, w, choice) == Some(s')
    ensures Inv(cfg, s')
  {
    var o, deed := CommitFacts(cfg, s, w, choice);
    WriteSound(s.db, deed.writes);
    PerformLocking(cfg, s, s', w, o, deed);
    PerformOwners(cfg, s, s', w, o, deed);
    PerformReplaces(cfg, s, s', w, o, deed);
    PerformNumbering(s, s', w, deed.writes.call, deed.next);
    PerformMakers(cfg, s, s', w, deed.writes.call, deed.next);
    PerformLog(cfg, s, s', w, o, deed);
    PerformClaims(s, s', w, deed.writes.call, deed.next);
  }

  // ---------------------------------------------------- the adapter is called

  lemma InvokeOwners(cfg: Config, s: State, w: nat, s': State)
    requires Owners(cfg, s) && Invoked(cfg, s, w) == Some(s')
    ensures Owners(cfg, s')
  {
    forall v | v in s'.executions && s'.executions[v].pc.Owning?
      ensures OwnerOk(cfg, s', v, s'.executions[v].request, s'.executions[v].pc.own)
    {
      assert OwnerOk(cfg, s, v, s.executions[v].request, s.executions[v].pc.own);
      assert OwnerOk(cfg, s, w, s.executions[w].request, s.executions[w].pc.own);
    }
  }

  lemma InvokeMakers(cfg: Config, s: State, w: nat, s': State)
    requires Makers(cfg, s) && Invoked(cfg, s, w) == Some(s')
    ensures Makers(cfg, s')
  {
    MakersAgain(cfg, s, s');
  }

  lemma InvokeLog(cfg: Config, s: State, w: nat, s': State)
    requires Log(cfg, s) && Owners(cfg, s) && Invoked(cfg, s, w) == Some(s')
    ensures Log(cfg, s')
  {
    assert OwnerOk(cfg, s, w, s.executions[w].request, s.executions[w].pc.own);
    var id := s.executions[w].pc.own.call.id;
    assert s'.past.invoked == s.past.invoked + [id];
    assert MayHaveRun(s.db.calls[id].status);
  }

  lemma InvokeFacts(cfg: Config, s: State, w: nat, s': State)
    requires Invoked(cfg, s, w) == Some(s')
    ensures s'.db == s.db && s'.now == s.now && s'.claims == s.claims && s'.recoveries == s.recoveries
    ensures s'.past.order == s.past.order && s'.past.ended == s.past.ended
  {
  }

  lemma InvokeKeeps(cfg: Config, s: State, w: nat, s': State)
    requires Inv(cfg, s) && Invoked(cfg, s, w) == Some(s')
    ensures Inv(cfg, s')
  {
    InvokeFacts(cfg, s, w, s');
    InvokeOwners(cfg, s, w, s');
    InvokeMakers(cfg, s, w, s');
    InvokeLog(cfg, s, w, s');
    InvokeLocking(cfg, s, w, s');
    ClaimsAgain(s, s');
  }

  lemma InvokeLocking(cfg: Config, s: State, w: nat, s': State)
    requires Locking(s) && Invoked(cfg, s, w) == Some(s')
    ensures Locking(s')
  {
    forall v | Waiting(s', v) ensures HoldsLock(s', v) {
      assert v != w && Waiting(s, v) && HoldsLock(s, v);
    }
  }

  // -------------------------------------------------------- a call is inserted

  /** The facts a successful insert rests on. */
  ghost predicate Inserts(cfg: Config, s: State, s': State, w: nat, call: ToolCall) {
    && w in s.executions && s.executions[w].pc.Numbered? && Waiting(s, w) && HoldsLock(s, w)
    && var request := s.executions[w].request;
    && var session := request.identity.session;
    && call.id !in s.db.calls && call.key !in s.db.byKey && call.updated == call.created <= s.now
    && call == NewCall(cfg, request, call.id, |s.past.order[session]| + 1, call.created)
    && s'.db == Insert(s.db, call) && s'.now == s.now && s'.claims == s.claims
    && s'.closers == s.closers && s'.recoveries == s.recoveries && s'.locks == Release(s.locks, session)
    && s'.executions == s.executions[w := Execution(request,
       Owning(Owned(call, s.executions[w].pc.tool, [], [], Deciding)))]
    && s'.past == s.past.(maker := s.past.maker[call.id := w],
                          order := s.past.order[session := s.past.order[session] + [call.id]])
  }

  lemma InsertFacts(cfg: Config, s: State, w: nat, id: nat, stamp: int, s': State)
    requires Locking(s) && Inserted(cfg, s, w, id, stamp) == Some(s')
    ensures Inserts(cfg, s, s', w, NewCall(cfg, s.executions[w].request, id, s.executions[w].pc.sequence, stamp))
  {
    assert Waiting(s, w);
  }

  lemma InsertNumbering(cfg: Config, s: State, s': State, w: nat, call: ToolCall)
    requires Inserts(cfg, s, s', w, call) && Numbering(s.db.sessions, s.db.calls, s.past.order)
    ensures Numbering(s'.db.sessions, s'.db.calls, s'.past.order)
  {
    var order, after := s.past.order, s'.past.order;
    forall sid, i: nat | sid in after && i < |after[sid]| ensures Listed(s'.db.calls, after, sid, i) {
      if sid in order && i < |order[sid]| { assert Listed(s.db.calls, order, sid, i); }
    }
    forall c | c in s'.db.calls ensures InPlace(s'.db.calls, after, c) {
      if c != call.id { assert InPlace(s.db.calls, order, c); }
    }
  }

  lemma InsertLocking(cfg: Config, s: State, s': State, w: nat, call: ToolCall)
    requires Inserts(cfg, s, s', w, call) && Locking(s)
    ensures Locking(s')
  {
    forall v | Waiting(s', v) ensures HoldsLock(s', v) {
      assert v != w && Waiting(s, v) && HoldsLock(s, v);
      assert s.executions[v].request.identity.session != call.session;
    }
  }

  lemma InsertOwners(cfg: Config, s: State, s': State, w: nat, call: ToolCall)
    requires Inserts(cfg, s, s', w, call) && Owners(cfg, s) && Sound(s.db) && Log(cfg, s)
    ensures Owners(cfg, s')
  {
    forall v | v in s'.executions && s'.executions[v].pc.Owning?
      ensures OwnerOk(cfg, s', v, s'.executions[v].request, s'.executions[v].pc.own)
    {
      if v == w {
        InsertOwner(cfg, s, s', w, call);
      } else {
        assert OwnerOk(cfg, s, v, s.executions[v].request, s.executions[v].pc.own);
      }
    }
  }

  lemma InsertOwner(cfg: Config, s: State, s': State, w: nat, call: ToolCall)
    requires Inserts(cfg, s, s', w, call) && Sound(s.db) && Log(cfg, s)
    ensures OwnerOk(cfg, s', w, s'.executions[w].request, s'.executions[w].pc.own)
  {
    assert RuleNames(s.db.rules, []) == [];
    assert multiset(s'.executions[w].pc.own.flags) == multiset{};
  }

  lemma InsertLog(cfg: Config, s: State, s': State, w: nat, call: ToolCall)
    requires Inserts(cfg, s, s', w, call) && Log(cfg, s)
    ensures Log(cfg, s')
  {
  }

  lemma InsertSealed(cfg: Config, s: State, s': State, w: nat, call: ToolCall)
    requires Inserts(cfg, s, s', w, call) && Sealed(s.db.sessions, s.past.order, s.past.ended)
    ensures Sealed(s'.db.sessions, s'.past.order, s'.past.ended)
  {
  }

  lemma InsertMakers(cfg: Config, s: State, s': State, w: nat, call: ToolCall)
    requires Inserts(cfg, s, s', w, call) && Makers(cfg, s)
    ensures Makers(cfg, s')
  {
    forall v, c | v in s'.executions && Made(s'.executions[v].pc, c)
        ensures c in s'.past.maker && s'.past.maker[c] == v {
      if v != w { assert Made(s.executions[v].pc, c); }
    }
    forall c | c in s'.past.maker
      ensures s'.past.maker[c] in s'.executions && Made(s'.executions[s'.past.maker[c]].pc, c)
      ensures IsFor(cfg, s'.db.calls[c], s'.executions[s'.past.maker[c]].request)
    {
      if c != call.id { assert Made(s.executions[s.past.maker[c]].pc, c); }
    }
  }

  lemma InsertClaims(cfg: Config, s: State, s': State, w: nat, call: ToolCall)
    requires Inserts(cfg, s, s', w, call) && Claims(s)
    ensures Claims(s')
  {
    forall r, c | InHand(s'.recoveries, r, c)
      ensures c in s'.claims && s'.claims[c] == r && c in Stale(s'.db, s'.recoveries[r].cutoff)
    {
      assert InHand(s.recoveries, r, c) && c in Stale(s.db, s.recoveries[r].cutoff);
    }
  }

  lemma InsertKeeps(cfg: Config, s: State, w: nat, id: nat, stamp: int, s': State)
    requires Inv(cfg, s) && Inserted(cfg, s, w, id, stamp) == Some(s')
    ensures Inv(cfg, s')
  {
    InsertFacts(cfg, s, w, id, stamp, s');
    var call := NewCall(cfg, s.executions[w].request, id, s.executions[w].pc.sequence, stamp);
    InsertSound(s.db, call);
    InsertNumbering(cfg, s, s', w, call);
    InsertSealed(cfg, s, s', w, call);
    InsertLocking(cfg, s, s', w, call);
    InsertOwners(cfg, s, s', w, call);
    InsertMakers(cfg, s, s', w, call);
    InsertClaims(cfg, s, s', w, call);
    InsertLog(cfg, s, s', w, call);
  }

  // ------------------------------------------------- everything else stays

  /** Rules are only ever added to or edited under their names. */
  ghost predicate Grown(before: map<nat, Rules.Rule>, after: map<nat, Rules.Rule>) {
    forall r :: r in before ==> r in after && after[r].name == before[r].name
  }

  /** Executions, calls and their tables are as before. */
  ghost predicate CallsStay(s: State, s': State) {
    && s'.executions == s.executions && s'.db.calls == s.db.calls && s'.db.trail == s.db.trail
    && s'.db.flags == s.db.flags && s'.db.results == s.db.results && s'.db.byKey == s.db.byKey
    && s'.past.maker == s.past.maker && s'.past.invoked == s.past.invoked && s'.past.verdicts == s.past.verdicts
    && Grown(s.db.rules, s'.db.rules) && s.now <= s'.now
  }

  lemma OwnersAgain(cfg: Config, s: State, s': State)
    requires Owners(cfg, s) && CallsStay(s, s')
    ensures Owners(cfg, s')
  {
    forall v | v in s'.executions && s'.executions[v].pc.Owning?
      ensures OwnerOk(cfg, s', v, s'.executions[v].request, s'.executions[v].pc.own)
    {
      var o := s.executions[v].pc.own;
      assert OwnerOk(cfg, s, v, s.executions[v].request, o);
      RuleNamesStay(s.db.rules, s'.db.rules, o.call.matched);
      if o.phase.Finishing? { RuleNamesStay(s.db.rules, s'.db.rules, o.phase.plan.matched); }
    }
  }

  lemma StayKeeps(cfg: Config, s: State, s': State)
    requires Inv(cfg, s) && CallsStay(s, s') && Sound(s'.db) && Locking(s') && Claims(s')
    requires s'.db.sessions == s.db.sessions && s'.past.order == s.past.order && s'.past.ended == s.past.ended
    ensures Inv(cfg, s')
  {
    OwnersAgain(cfg, s, s');
    MakersStayToo(cfg, s, s');
    LogAgain(cfg, s, s');
  }

  lemma ClaimsAgain(s: State, s': State)
    requires Claims(s) && s'.claims == s.claims && s'.recoveries == s.recoveries && s'.db.calls == s.db.calls
    requires s.now <= s'.now
    ensures Claims(s')
  {
    forall r, c | InHand(s'.recoveries, r, c)
      ensures c in s'.claims && s'.claims[c] == r && c in Stale(s'.db, s'.recoveries[r].cutoff)
    {
      assert InHand(s.recoveries, r, c) && c in Stale(s.db, s.recoveries[r].cutoff);
    }
  }

  lemma MakersStayToo(cfg: Config, s: State, s': State)
    requires Makers(cfg, s) && CallsStay(s, s')
    ensures Makers(cfg, s')
  {
    MakersAgain(cfg, s, s');
  }

  lemma LogAgain(cfg: Config, s: State, s': State)
    requires Log(cfg, s) && CallsStay(s, s')
    ensures Log(cfg, s')
  {
  }

  lemma LockingAgain(s: State, s': State)
    requires Locking(s) && s'.executions == s.executions && s'.closers == s.closers && s'.locks == s.locks
    requires s'.db.sessions == s.db.sessions && s'.past.order == s.past.order
    requires forall t :: t in s.db.tools ==> t in s'.db.tools
    ensures Locking(s')
  {
    forall v | Waiting(s', v) ensures HoldsLock(s', v) {
      assert Waiting(s, v) && HoldsLock(s, v);
    }
  }

  lemma SubmitKeeps(cfg: Config, s: State, w: nat, request: Request, s': State)
    requires Inv(cfg, s) && Submitted(s, w, request) == Some(s')
    ensures Inv(cfg, s')
  {
    SubmitLocking(cfg, s, w, request, s');
    SubmitOwners(cfg, s, w, request, s');
    SubmitMakers(cfg, s, w, request, s');
    ClaimsAgain(s, s');
    assert Log(cfg, s');
  }

  lemma SubmitLocking(cfg: Config, s: State, w: nat, request: Request, s': State)
    requires Locking(s) && Submitted(s, w, request) == Some(s')
    ensures Locking(s')
  {
    forall v | Waiting(s', v) ensures HoldsLock(s', v) {
      assert Waiting(s, v) && HoldsLock(s, v);
    }
  }

  lemma SubmitOwners(cfg: Config, s: State, w: nat, request: Request, s': State)
    requires Owners(cfg, s) && Submitted(s, w, request) == Some(s')
    ensures Owners(cfg, s')
  {
    forall v | v in s'.executions && s'.executions[v].pc.Owning?
      ensures OwnerOk(cfg, s', v, s'.executions[v].request, s'.executions[v].pc.own)
    {
      assert OwnerOk(cfg, s, v, s.executions[v].request, s.executions[v].pc.own);
    }
  }

  lemma SubmitMakers(cfg: Config, s: State, w: nat, request: Request, s': State)
    requires Makers(cfg, s) && w !in s.executions && s'.executions == s.executions[w := Execution(request, Fresh)]
    requires s'.past.maker == s.past.maker && s'.db.calls == s.db.calls
    ensures Makers(cfg, s')
  {
    forall v, c | v in s'.executions && Made(s'.executions[v].pc, c)
        ensures c in s'.past.maker && s'.past.maker[c] == v {
      assert v != w && Made(s.executions[v].pc, c);
    }
    forall c | c in s'.past.maker
      ensures s'.past.maker[c] in s'.executions && Made(s'.executions[s'.past.maker[c]].pc, c)
      ensures IsFor(cfg, s'.db.calls[c], s'.executions[s'.past.maker[c]].request)
    {
      assert s.past.maker[c] != w && Made(s.executions[s.past.maker[c]].pc, c);
    }
  }

  // ----------------------------------------------------- session completion

  lemma CloseLockKeeps(cfg: Config, s: State, k: nat, session: string, status: SessionStatus, s': State)
    requires Inv(cfg, s) && CloseLocked(s, k, session, status) == Some(s')
    ensures Inv(cfg, s')
  {
    forall v | Waiting(s', v) ensures HoldsLock(s', v) {
      assert Waiting(s, v) && HoldsLock(s, v);
    }
    ClaimsAgain(s, s');
    StayKeeps(cfg, s, s');
  }

  lemma CloseFreesLocking(s: State, s': State, k: nat)
    requires Locking(s) && k in s.closers && s.closers[k].HoldingSession?
    requires s'.executions == s.executions && s'.closers == s.closers[k := Closed] && s'.past.order == s.past.order
    requires s'.locks == Release(s.locks, s.closers[k].session) && s'.db.tools == s.db.tools
    requires s'.db.sessions.Keys == s.db.sessions.Keys
    requires forall sid :: sid in s.db.sessions && sid != s.closers[k].session ==>
      s'.db.sessions[sid] == s.db.sessions[sid]
    ensures Locking(s')
  {
    forall v | Waiting(s', v) ensures HoldsLock(s', v) {
      assert Waiting(s, v) && HoldsLock(s, v);
      assert s.executions[v].request.identity.session != s.closers[k].session;
    }
  }

  lemma CloseCrashKeeps(cfg: Config, s: State, k: nat, s': State)
    requires Inv(cfg, s) && CloseCrashed(s, k) == Some(s')
    ensures Inv(cfg, s')
  {
    CloseFreesLocking(s, s', k);
    ClaimsAgain(s, s');
    StayKeeps(cfg, s, s');
  }

  /** A completion that found the session active. */
  ghost predicate Completes(s: State, s': State, k: nat, session: string, status: SessionStatus) {
    && status != Active && session in s.db.sessions && s.db.sessions[session] == Active && session in s.past.order
    && s'.db == s.db.(sessions := s.db.sessions[session := status])
    && s'.past == s.past.(ended := s.past.ended[session := |s.past.order[session]|])
  }

  lemma CloseFacts(s: State, k: nat, s': State)
    requires CloseCommitted(s, k) == Some(s') && Locking(s)
    requires forall sid :: sid in s.db.sessions <==> sid in s.past.order
    ensures k in s.closers && s.closers[k].HoldingSession?
    ensures (s'.db == s.db && s'.past == s.past) || Completes(s, s', k, s.closers[k].session, s.closers[k].status)
    ensures s'.closers == s.closers[k := Closed] && s'.locks == Release(s.locks, s.closers[k].session)
    ensures s'.executions == s.executions && s'.claims == s.claims && s'.recoveries == s.recoveries && s'.now == s.now
  {
  }

  lemma CompletesTables(s: State, s': State, k: nat, session: string, status: SessionStatus)
    requires Sound(s.db) && Numbering(s.db.sessions, s.db.calls, s.past.order)
    requires Sealed(s.db.sessions, s.past.order, s.past.ended)
    requires Completes(s, s', k, session, status)
    ensures Sound(s'.db) && Numbering(s'.db.sessions, s'.db.calls, s'.past.order)
    ensures Sealed(s'.db.sessions, s'.past.order, s'.past.ended)
  {
  }

  lemma CloseCommitKeeps(cfg: Config, s: State, k: nat, s': State)
    requires Inv(cfg, s) && CloseCommitted(s, k) == Some(s')
    ensures Inv(cfg, s')
  {
    CloseFacts(s, k, s');
    if s'.db != s.db { CompletesTables(s, s', k, s.closers[k].session, s.closers[k].status); }
    CloseFreesLocking(s, s', k);
    OwnersAgain(cfg, s, s');
    MakersStayToo(cfg, s, s');
    LogAgain(cfg, s, s');
    ClaimsAgain(s, s');
  }

  // --------------------------------------------------------------- recovery

  lemma StartRecoveryKeeps(cfg: Config, s: State, r: nat, s': State)
    requires Inv(cfg, s) && RecoveryStarted(cfg, s, r) == Some(s')
    ensures Inv(cfg, s')
  {
    LockingAgain(s, s');
    StartClaims(cfg, s, r, s');
    StayKeeps(cfg, s, s');
  }

  lemma StartClaims(cfg: Config, s: State, r: nat, s': State)
    requires Claims(s) && RecoveryStarted(cfg, s, r) == Some(s')
    ensures Claims(s')
  {
    forall q, c | InHand(s'.recoveries, q, c)
      ensures c in s'.claims && s'.claims[c] == q && c in Stale(s'.db, s'.recoveries[q].cutoff)
    {
      assert q != r && InHand(s.recoveries, q, c);
    }
  }

  /** Rows nobody holds are locked for the run. */
  ghost predicate Locks(s: State, s': State, r: nat, batch: set<nat>) {
    && r in s.recoveries && s.recoveries[r].phase.Idle? && batch <= Unclaimed(s, s.recoveries[r].cutoff)
    && s'.db == s.db && s'.now == s.now
    && s'.recoveries == s.recoveries[r := s.recoveries[r].(phase := Claimed(batch))]
    && (forall c :: c in s'.claims <==> (c in s.claims || c in batch))
    && forall c :: c in s'.claims ==> s'.claims[c] == if c in batch then r else s.claims[c]
  }

  lemma ClaimFacts(cfg: Config, s: State, r: nat, batch: set<nat>, s': State)
    requires BatchClaimed(cfg, s, r, batch) == Some(s')
    ensures Locks(s, s', r, batch)
  {
  }

  lemma ClaimClaims(s: State, r: nat, batch: set<nat>, s': State)
    requires Claims(s) && Locks(s, s', r, batch)
    ensures Claims(s')
  {
    var cutoff := s.recoveries[r].cutoff;
    forall q, c | InHand(s'.recoveries, q, c)
      ensures c in s'.claims && s'.claims[c] == q && c in Stale(s'.db, s'.recoveries[q].cutoff)
    {
      if q == r {
        assert c in Unclaimed(s, cutoff);
      } else {
        assert InHand(s.recoveries, q, c);
      }
    }
  }

  lemma ClaimKeeps(cfg: Config, s: State, r: nat, batch: set<nat>, s': State)
    requires Inv(cfg, s) && BatchClaimed(cfg, s, r, batch) == Some(s')
    ensures Inv(cfg, s')
  {
    LockingAgain(s, s');
    ClaimFacts(cfg, s, r, batch, s');
    ClaimClaims(s, r, batch, s');
    StayKeeps(cfg, s, s');
  }

  lemma CrashRecoveryClaims(s: State, r: nat, s': State)
    requires Claims(s) && RecoveryCrashed(s, r) == Some(s')
    ensures Claims(s')
  {
    forall q, c | InHand(s'.recoveries, q, c)
      ensures c in s'.claims && s'.claims[c] == q && c in Stale(s'.db, s'.recoveries[q].cutoff)
    {
      assert q != r && InHand(s.recoveries, q, c);
    }
  }

  lemma CrashRecoveryKeeps(cfg: Config, s: State, r: nat, s': State)
    requires Inv(cfg, s) && RecoveryCrashed(s, r) == Some(s')
    ensures Inv(cfg, s')
  {
    LockingAgain(s, s');
    CrashRecoveryClaims(s, r, s');
    StayKeeps(cfg, s, s');
  }

  /** What a committed batch does to the calls. */
  ghost predicate Recovers(cfg: Config, s: State, s': State, r: nat, batch: set<nat>) {
    && r in s.recoveries && s.recoveries[r].phase == Claimed(batch)
    && (forall c :: c in batch ==> c in s.db.calls && c in s.db.trail && c in Stale(s.db, s.recoveries[r].cutoff))
    && s.recoveries[r].cutoff <= s.recoveries[r].now <= s.now
    && s'.db == RecoverAll(s.db, batch, s.recoveries[r].now)
    && s'.executions == s.executions && s'.now == s.now && s'.locks == s.locks && s'.closers == s.closers
    && s'.past == s.past.(moved := s'.past.moved)
    && s'.claims == s.claims - batch
    && s'.recoveries.Keys == s.recoveries.Keys && s'.recoveries[r].cutoff == s.recoveries[r].cutoff
    && s'.recoveries[r].now == s.recoveries[r].now && !s'.recoveries[r].phase.Claimed?
    && forall q :: q in s.recoveries && q != r ==> s'.recoveries[q] == s.recoveries[q]
  }

  lemma CommitBatchFacts(cfg: Config, s: State, r: nat, s': State)
    requires Claims(s) && BatchCommitted(cfg, s, r) == Some(s')
    ensures Recovers(cfg, s, s', r, s.recoveries[r].phase.batch)
  {
    var batch := s.recoveries[r].phase.batch;
    forall c | c in batch ensures c in Stale(s.db, s.recoveries[r].cutoff) {
      assert InHand(s.recoveries, r, c);
    }
  }

  lemma RecoverOwners(cfg: Config, s: State, s': State, r: nat, batch: set<nat>)
    requires Owners(cfg, s) && Recovers(cfg, s, s', r, batch)
    ensures Owners(cfg, s')
  {
    forall v | v in s'.executions && s'.executions[v].pc.Owning?
      ensures OwnerOk(cfg, s', v, s'.executions[v].request, s'.executions[v].pc.own)
    {
      var o := s.executions[v].pc.own;
      assert OwnerOk(cfg, s, v, s.executions[v].request, o);
      assert s.db.calls[o.call.id].status == Executing ==> s.db.calls[o.call.id] == o.call;
    }
  }

  lemma RecoverClaims(cfg: Config, s: State, s': State, r: nat, batch: set<nat>)
    requires Claims(s) && Recovers(cfg, s, s', r, batch)
    ensures Claims(s')
  {
    forall q, c | InHand(s'.recoveries, q, c)
      ensures c in s'.claims && s'.claims[c] == q && c in Stale(s'.db, s'.recoveries[q].cutoff)
    {
      assert q != r && InHand(s.recoveries, q, c);
      assert c in batch ==> InHand(s.recoveries, r, c);
    }
  }

  lemma RecoverLog(cfg: Config, s: State, s': State, r: nat, batch: set<nat>)
    requires Log(cfg, s) && Recovers(cfg, s, s', r, batch)
    ensures Log(cfg, s')
  {
  }

  lemma RecoverNumbering(cfg: Config, s: State, s': State, r: nat, batch: set<nat>)
    requires Numbering(s.db.sessions, s.db.calls, s.past.order) && Recovers(cfg, s, s', r, batch)
    ensures Numbering(s'.db.sessions, s'.db.calls, s'.past.order)
  {
    RecoveredSameCall(s.db, batch, s.recoveries[r].now);
    NumberingAgain(s.db.sessions, s.db.calls, s'.db.calls, s.past.order);
  }

  lemma RecoverMakers(cfg: Config, s: State, s': State, r: nat, batch: set<nat>)
    requires Makers(cfg, s) && Recovers(cfg, s, s', r, batch)
    ensures Makers(cfg, s')
  {
    RecoveredSameCall(s.db, batch, s.recoveries[r].now);
    MakersAgain(cfg, s, s');
  }

  lemma RecoveredSameCall(db: Db, batch: set<nat>, now: int)
    requires forall c :: c in batch ==> c in db.calls && c in db.trail
    ensures forall c :: c in db.calls ==> SameCall(RecoverAll(db, batch, now).calls[c], db.calls[c])
    ensures RecoverAll(db, batch, now).calls.Keys == db.calls.Keys
  {
  }

  lemma CommitBatchKeeps(cfg: Config, s: State, r: nat, s': State)
    requires Inv(cfg, s) && BatchCommitted(cfg, s, r) == Some(s')
    ensures Inv(cfg, s')
  {
    var batch := s.recoveries[r].phase.batch;
    CommitBatchFacts(cfg, s, r, s');
    RecoverAllSound(s.db, batch, s.recoveries[r].now);
    RecoverNumbering(cfg, s, s', r, batch);
    RecoverOwners(cfg, s, s', r, batch);
    RecoverMakers(cfg, s, s', r, batch);
    RecoverLog(cfg, s, s', r, batch);
    RecoverClaims(cfg, s, s', r, batch);
    LockingAgain(s, s');
  }

  // ------------------------------------------------ time and administration

  lemma TickKeeps(cfg: Config, s: State, d: nat, s': State)
    requires Inv(cfg, s) && Ticked(cfg, s, d) == Some(s')
    ensures Inv(cfg, s')
  {
    LockingAgain(s, s');
    ClaimsAgain(s, s');
    StayKeeps(cfg, s, s');
  }

  lemma FlushKeeps(cfg: Config, s: State, w: nat, s': State)
    requires Inv(cfg, s) && Flushed(cfg, s, w) == Some(s')
    ensures Inv(cfg, s')
  {
    LockingAgain(s, s');
    ClaimsAgain(s, s');
    StayKeeps(cfg, s, s');
  }

  lemma PutRuleSound(cfg: Config, s: State, rule: Rules.Rule, s': State)
    requires Sound(s.db) && RulePut(cfg, s, rule) == Some(s')
    ensures Sound(s'.db)
  {
    forall c | c in s.db.calls ensures Known(s'.db.rules, s.db.calls[c].matched) {
      assert Known(s.db.rules, s.db.calls[c].matched);
    }
  }

  lemma PutToolSound(s: State, tool: Tool, s': State)
    requires Sound(s.db) && ToolPut(s, tool) == Some(s')
    ensures Sound(s'.db)
  {
  }

  lemma PutRuleKeeps(cfg: Config, s: State, rule: Rules.Rule, s': State)
    requires Inv(cfg, s) && RulePut(cfg, s, rule) == Some(s')
    ensures Inv(cfg, s')
  {
    PutRuleSound(cfg, s, rule, s');
    LockingAgain(s, s');
    ClaimsAgain(s, s');
    StayKeeps(cfg, s, s');
  }

  lemma PutToolKeeps(cfg: Config, s: State, tool: Tool, s': State)
    requires Inv(cfg, s) && ToolPut(s, tool) == Some(s')
    ensures Inv(cfg, s')
  {
    PutToolSound(s, tool, s');
    LockingAgain(s, s');
    ClaimsAgain(s, s');
    StayKeeps(cfg, s, s');
  }

  lemma CreateSessionTables(s: State, session: string, s': State)
    requires SessionCreated(s, session) == Some(s') && Sound(s.db)
    requires Numbering(s.db.sessions, s.db.calls, s.past.order) && Sealed(s.db.sessions, s.past.order, s.past.ended)
    ensures Sound(s'.db) && Sealed(s'.db.sessions, s'.past.order, s'.past.ended)
  {
  }

  lemma CreateSessionNumbering(s: State, session: string, s': State)
    requires SessionCreated(s, session) == Some(s') && Numbering(s.db.sessions, s.db.calls, s.past.order)
    ensures Numbering(s'.db.sessions, s'.db.calls, s'.past.order)
  {
    var order, after := s.past.order, s'.past.order;
    forall sid, i: nat | sid in after && i < |after[sid]| ensures Listed(s'.db.calls, after, sid, i) {
      assert sid != session && Listed(s.db.calls, order, sid, i);
    }
    forall c | c in s'.db.calls ensures InPlace(s'.db.calls, after, c) {
      assert InPlace(s.db.calls, order, c);
    }
  }

  lemma CreateSessionLocking(s: State, session: string, s': State)
    requires SessionCreated(s, session) == Some(s') && Locking(s)
    ensures Locking(s')
  {
    forall v | Waiting(s', v) ensures HoldsLock(s', v) {
      assert Waiting(s, v) && HoldsLock(s, v);
    }
  }

  lemma CreateSessionFacts(s: State, session: string, s': State)
    requires SessionCreated(s, session) == Some(s')
    ensures CallsStay(s, s') && s'.claims == s.claims && s'.recoveries == s.recoveries
  {
  }

  lemma CreateSessionKeeps(cfg: Config, s: State, session: string, s': State)
    requires Inv(cfg, s) && SessionCreated(s, session) == Some(s')
    ensures Inv(cfg, s')
  {
    CreateSessionFacts(s, session, s');
    CreateSessionTables(s, session, s');
    CreateSessionNumbering(s, session, s');
    CreateSessionLocking(s, session, s');
    OwnersAgain(cfg, s, s');
    MakersStayToo(cfg, s, s');
    LogAgain(cfg, s, s');
    ClaimsAgain(s, s');
  }

  // ------------------------------------------------------------------ runs

  lemma RecoveryStepKeeps(cfg: Config, s: State, a: Action, s': State)
    requires Inv(cfg, s) && Step(cfg, s, a) == Some(s')
    requires a.StartRecovery? || a.Claim? || a.CommitBatch? || a.CrashRecovery?
    ensures Inv(cfg, s')
  {
    match a
    case StartRecovery(r) => StartRecoveryKeeps(cfg, s, r, s');
    case Claim(r, batch) => ClaimKeeps(cfg, s, r, batch, s');
    case CommitBatch(r) => CommitBatchKeeps(cfg, s, r, s');
    case CrashRecovery(r) => CrashRecoveryKeeps(cfg, s, r, s');
  }

  lemma CloseStepKeeps(cfg: Config, s: State, a: Action, s': State)
    requires Inv(cfg, s) && Step(cfg, s, a) == Some(s')
    requires a.LockForClose? || a.CommitClose? || a.CrashClose?
    ensures Inv(cfg, s')
  {
    match a
    case LockForClose(k, session, status) => CloseLockKeeps(cfg, s, k, session, status, s');
    case CommitClose(k) => CloseCommitKeeps(cfg, s, k, s');
    case CrashClose(k) => CloseCrashKeeps(cfg, s, k, s');
  }

  lemma AdministrationKeeps(cfg: Config, s: State, a: Action, s': State)
    requires Inv(cfg, s) && Step(cfg, s, a) == Some(s')
    requires a.PutRule? || a.PutTool?
    ensures Inv(cfg, s')
  {
    match a
    case PutRule(rule) => PutRuleKeeps(cfg, s, rule, s');
    case PutTool(tool) => PutToolKeeps(cfg, s, tool, s');
  }

  lemma WorldStepKeeps(cfg: Config, s: State, a: Action, s': State)
    requires Inv(cfg, s) && Step(cfg, s, a) == Some(s')
    requires a.Flush? || a.Tick? || a.CreateSession?
    ensures Inv(cfg, s')
  {
    match a
    case Flush(w) => FlushKeeps(cfg, s, w, s');
    case Tick(d) => TickKeeps(cfg, s, d, s');
    case CreateSession(session) => CreateSessionKeeps(cfg, s, session, s');
  }

  lemma ExecutionStepKeeps(cfg: Config, s: State, a: Action, s': State)
    requires Inv(cfg, s) && Step(cfg, s, a) == Some(s')
    requires a.Submit? || a.Go? || a.InsertCall? || a.Commit? || a.Invoke?
    ensures Inv(cfg, s')
  {
    match a
    case Submit(w, request) => SubmitKeeps(cfg, s, w, request, s');
    case Go(w, move) => GoKeeps(cfg, s, w, move, s');
    case InsertCall(w, id, stamp) => InsertKeeps(cfg, s, w, id, stamp, s');
    case Commit(w, choice) => CommitKeeps(cfg, s, w, choice, s');
    case Invoke(w) => InvokeKeeps(cfg, s, w, s');
  }

  /** Every action keeps the invariant. */
  lemma StepKeeps(cfg: Config, s: State, a: Action, s': State)
    requires Inv(cfg, s) && Step(cfg, s, a) == Some(s')
    ensures Inv(cfg, s')
  {
    if a.Submit? || a.Go? || a.InsertCall? || a.Commit? || a.Invoke? {
      ExecutionStepKeeps(cfg, s, a, s');
    } else if a.StartRecovery? || a.Claim? || a.CommitBatch? || a.CrashRecovery? {
      RecoveryStepKeeps(cfg, s, a, s');
    } else if a.LockForClose? || a.CommitClose? || a.CrashClose? {
      CloseStepKeeps(cfg, s, a, s');
    } else if a.PutRule? || a.PutTool? {
      AdministrationKeeps(cfg, s, a, s');
    } else {
      WorldStepKeeps(cfg, s, a, s');
    }
  }

  lemma {:induction false} RunKeeps(cfg: Config, s: State, actions: seq<Action>)
    requires Inv(cfg, s) && Run(cfg, s, actions).Some?
    ensures Inv(cfg, Run(cfg, s, actions).value)
    decreases |actions|
  {
    if actions != [] {
      var next := Step(cfg, s, actions[0]).value;
      StepKeeps(cfg, s, actions[0], next);
      RunKeeps(cfg, next, actions[1..]);
    }
  }

  lemma ReachableInv(cfg: Config, s: State)
    requires Reachable(cfg, s)
    ensures Inv(cfg, s)
  {
    var actions :| Run(cfg, INITIAL, actions) == Some(s);
    InitiallyInv(cfg);
    RunKeeps(cfg, INITIAL, actions);
  }
}
