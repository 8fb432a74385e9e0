/** What every run of the execution protocol guarantees, whatever the timing. */
module ProtocolTheorems {
  import opened Options
  import opened RiskEngine
  import opened ToolCalls
  import opened Store
  import opened Protocol
  import opened ProtocolSafety
  import opened ProtocolInduction
  import opened ProtocolFrames
  import Rules = RuleEngine
  import Sorting

  // ---------------------------------------------------- at most once

  /** The adapter is called at most once per idempotency key, only for calls that
      were committed as executing after an input evaluation no block rule matched,
      and never for a rejected or blocked call. */
  lemma AtMostOncePerKey(cfg: Config, s: State)
    requires Reachable(cfg, s)
    ensures forall c :: c in s.past.invoked ==>
      && c in s.db.calls && MayHaveRun(s.db.calls[c].status) && Cleared(cfg, s.past.verdicts, c)
      && s.db.calls[c].status != Rejected && s.db.calls[c].status != Blocked
    ensures forall i, j :: 0 <= i < j < |s.past.invoked| ==>
      s.db.calls[s.past.invoked[i]].key != s.db.calls[s.past.invoked[j]].key
  {
    ReachableInv(cfg, s);
    LogIsClear(cfg, s);
    LogByKey(cfg, s);
  }

  lemma LogIsClear(cfg: Config, s: State)
    requires Log(cfg, s)
    ensures forall c :: c in s.past.invoked ==>
      && c in s.db.calls && MayHaveRun(s.db.calls[c].status) && Cleared(cfg, s.past.verdicts, c)
      && s.db.calls[c].status != Rejected && s.db.calls[c].status != Blocked
  {
  }

  lemma LogByKey(cfg: Config, s: State)
    requires Sound(s.db) && Log(cfg, s)
    ensures forall i, j :: 0 <= i < j < |s.past.invoked| ==>
      s.db.calls[s.past.invoked[i]].key != s.db.calls[s.past.invoked[j]].key
  {
    forall i, j | 0 <= i < j < |s.past.invoked|
      ensures s.db.calls[s.past.invoked[i]].key != s.db.calls[s.past.invoked[j]].key
    {
      var a, b := s.past.invoked[i], s.past.invoked[j];
      assert a in s.past.invoked && b in s.past.invoked && a != b;
      assert s.db.byKey[s.db.calls[a].key] == a && s.db.byKey[s.db.calls[b].key] == b;
    }
  }

  /** The adapter log grows only when the execution that inserted the call invokes
      it, and the row is then committed as executing, or recovery has taken it. */
  lemma OnlyTheInserterInvokes(cfg: Config, s: State, a: Action, s': State)
    requires Reachable(cfg, s) && Step(cfg, s, a) == Some(s')
    ensures s'.past.invoked != s.past.invoked ==> a.Invoke? && InvokedBy(s, a.w, s')
  {
    Framed(cfg, s, a, s');
    if a.Invoke? {
      ReachableInv(cfg, s);
      InvokeIsOwn(cfg, s, a.w, s');
    }
  }

  ghost predicate InvokedBy(s: State, w: nat, s': State) {
    exists c :: c in s.past.maker && s'.past.invoked == s.past.invoked + [c] && s.past.maker[c] == w && c in s.db.calls
      && (s.db.calls[c].status == Executing || s.db.calls[c].error == Some(UNKNOWN_STATE))
  }

  lemma InvokeIsOwn(cfg: Config, s: State, w: nat, s': State)
    requires Owners(cfg, s) && Invoked(cfg, s, w) == Some(s')
    ensures InvokedBy(s, w, s')
  {
    assert OwnerOk(cfg, s, w, s.executions[w].request, s.executions[w].pc.own);
    var c := s.executions[w].pc.own.call.id;
    assert c in s.past.maker && s.past.maker[c] == w;
  }

  // -------------------------------------------------- numbering and ends

  /** A session's calls carry exactly the numbers 1 to n, one each. */
  lemma NumberedWithoutGaps(cfg: Config, s: State, session: string)
    requires Reachable(cfg, s) && session in s.db.sessions
    ensures session in s.past.order && OneToN(s.db.calls, session, |s.past.order[session]|)
  {
    ReachableInv(cfg, s);
    NumbersOf(s.db.sessions, s.db.calls, s.past.order, session);
  }

  ghost predicate OneToN(calls: map<nat, ToolCall>, session: string, n: nat) {
    && (forall k: int :: 1 <= k <= n <==> NumberTaken(calls, session, k))
    && (forall c, d :: c in calls && d in calls && c != d && calls[c].session == session == calls[d].session ==>
          calls[c].sequence != calls[d].sequence)
  }

  lemma NumbersOf(sessions: map<string, SessionStatus>, calls: map<nat, ToolCall>, order: map<string, seq<nat>>,
      session: string)
    requires Numbering(sessions, calls, order) && session in order
    ensures OneToN(calls, session, |order[session]|)
  {
    forall k: int ensures 1 <= k <= |order[session]| <==> NumberTaken(calls, session, k) {
      if 1 <= k <= |order[session]| { assert Listed(calls, order, session, k - 1); }
      if NumberTaken(calls, session, k) {
        var c :| c in calls && calls[c].session == session && calls[c].sequence == k;
        assert InPlace(calls, order, c);
      }
    }
    forall c, d | c in calls && d in calls && c != d && calls[c].session == session == calls[d].session
      ensures calls[c].sequence != calls[d].sequence
    {
      assert InPlace(calls, order, c) && InPlace(calls, order, d);
    }
  }

  /** The numbered insert never runs into the unique pair: a rolled-back insert uses no number. */
  lemma NumberIsFree(cfg: Config, s: State, w: nat)
    requires Reachable(cfg, s) && w in s.executions && s.executions[w].pc.Numbered?
    ensures s.executions[w].pc.sequence >= 1
    ensures !NumberTaken(s.db.calls, s.executions[w].request.identity.session, s.executions[w].pc.sequence)
  {
    ReachableInv(cfg, s);
    assert Waiting(s, w);
    assert HoldsLock(s, w);
    NumberedWithoutGaps(cfg, s, s.executions[w].request.identity.session);
  }

  /** Two executions are never between lock and commit for one session. */
  lemma OneAdmissionAtATime(cfg: Config, s: State, v: nat, w: nat)
    requires Reachable(cfg, s) && Waiting(s, v) && Waiting(s, w)
    requires s.executions[v].request.identity.session == s.executions[w].request.identity.session
    ensures v == w
  {
    ReachableInv(cfg, s);
    assert HoldsLock(s, v) && HoldsLock(s, w);
  }

  /** A session that has ended gains no call, in any continuation. */
  lemma {:induction false} NoCallAfterTheEnd(cfg: Config, s: State, actions: seq<Action>, session: string)
    requires Inv(cfg, s) && Run(cfg, s, actions).Some?
    requires session in s.db.sessions && s.db.sessions[session] != Active
    ensures Frozen(s, Run(cfg, s, actions).value, session)
    decreases |actions|
  {
    if actions == [] {
      AllListed(s, session);
    } else {
      var next := Step(cfg, s, actions[0]).value;
      StepKeeps(cfg, s, actions[0], next);
      EndedStays(cfg, s, actions[0], next, session);
      NoCallAfterTheEnd(cfg, next, actions[1..], session);
    }
  }

  /** The later state has the same ending and the same calls for the session. */
  ghost predicate Frozen(s: State, s': State, session: string) {
    && session in s.db.sessions && session in s'.db.sessions && s'.db.sessions[session] == s.db.sessions[session]
    && session in s.past.order && session in s'.past.order && s'.past.order[session] == s.past.order[session]
    && forall c :: c in s'.db.calls && s'.db.calls[c].session == session ==> c in s.past.order[session]
  }

  lemma AllListed(s: State, session: string)
    requires Numbering(s.db.sessions, s.db.calls, s.past.order) && session in s.db.sessions
    ensures Frozen(s, s, session)
  {
    forall c | c in s.db.calls && s.db.calls[c].session == session ensures c in s.past.order[session] {
      assert InPlace(s.db.calls, s.past.order, c);
    }
  }

  lemma EndedStays(cfg: Config, s: State, a: Action, s': State, session: string)
    requires Inv(cfg, s) && Step(cfg, s, a) == Some(s')
    requires session in s.db.sessions && s.db.sessions[session] != Active
    ensures session in s'.db.sessions && s'.db.sessions[session] == s.db.sessions[session]
    ensures session in s'.past.order && s'.past.order[session] == s.past.order[session]
  {
    Framed(cfg, s, a, s');
    match a
    case InsertCall(w, id, stamp) => InsertElsewhere(cfg, s, w, id, stamp, s', session);
    case CommitClose(k) => CloseElsewhere(s, k, s', session);
    case CreateSession(other) =>
    case _ =>
  }

  lemma InsertElsewhere(cfg: Config, s: State, w: nat, id: nat, stamp: int, s': State, session: string)
    requires Locking(s) && Inserted(cfg, s, w, id, stamp) == Some(s')
    requires session in s.db.sessions && s.db.sessions[session] != Active && session in s.past.order
    ensures session in s'.past.order && s'.past.order[session] == s.past.order[session]
  {
    assert Waiting(s, w);
    assert HoldsLock(s, w);
  }

  lemma CloseElsewhere(s: State, k: nat, s': State, session: string)
    requires CloseCommitted(s, k) == Some(s')
    requires session in s.db.sessions && s.db.sessions[session] != Active
    ensures session in s'.db.sessions && s'.db.sessions[session] == s.db.sessions[session]
  {
  }

  // ----------------------------------------------------------- what rises

  /** Step by step, no row is lost, its identity never changes, its risk never
      falls and a flag or block never turns back to allow. */
  lemma RowsOnlyRise(cfg: Config, s: State, a: Action, s': State)
    requires Inv(cfg, s) && Step(cfg, s, a) == Some(s')
    ensures Risen(s.db.calls, s'.db.calls)
  {
    Framed(cfg, s, a, s');
    match a
    case Commit(w, choice) => CommitRises(cfg, s, w, choice, s');
    case CommitBatch(r) => BatchRises(cfg, s, r, s');
    case InsertCall(w, id, stamp) => InsertRises(cfg, s, w, id, stamp, s');
    case _ => SameRise(s.db.calls, s'.db.calls);
  }

  lemma SameRise(before: map<nat, ToolCall>, after: map<nat, ToolCall>)
    requires before == after
    ensures Risen(before, after)
  {
  }

  lemma BatchRises(cfg: Config, s: State, r: nat, s': State)
    requires Claims(s) && BatchCommitted(cfg, s, r) == Some(s')
    ensures Risen(s.db.calls, s'.db.calls)
  {
    CommitBatchFacts(cfg, s, r, s');
    RecoverRises(cfg, s, s', r, s.recoveries[r].phase.batch);
  }

  lemma RecoverRises(cfg: Config, s: State, s': State, r: nat, batch: set<nat>)
    requires Recovers(cfg, s, s', r, batch)
    ensures Risen(s.db.calls, s'.db.calls)
  {
    RecoveredSameCall(s.db, batch, s.recoveries[r].now);
  }

  lemma PerformRises(cfg: Config, s: State, s': State, w: nat, o: Owned, deed: Deed)
    requires ProtocolInduction.Performs(cfg, s, s', w, o, deed)
    ensures Risen(s.db.calls, s'.db.calls)
  {
  }

  ghost predicate Risen(before: map<nat, ToolCall>, after: map<nat, ToolCall>) {
    forall c :: c in before ==> c in after && SameCall(after[c], before[c]) && Rises(before[c], after[c])
  }

  lemma CommitRises(cfg: Config, s: State, w: nat, choice: Choice, s': State)
    requires Inv(cfg, s) && Committed(cfg, s, w, choice) == Some(s')
    ensures Risen(s.db.calls, s'.db.calls)
  {
    var o, deed := CommitFacts(cfg, s, w, choice);
    PerformRises(cfg, s, s', w, o, deed);
  }

  lemma InsertRises(cfg: Config, s: State, w: nat, id: nat, stamp: int, s': State)
    requires Inserted(cfg, s, w, id, stamp) == Some(s')
    ensures Risen(s.db.calls, s'.db.calls)
  {
  }

  /** The same over a whole run: any later row of a call is at or above any earlier one. */
  lemma {:induction false} HistoryOnlyRises(cfg: Config, s: State, actions: seq<Action>, c: nat)
    requires Inv(cfg, s) && Run(cfg, s, actions).Some? && c in s.db.calls
    ensures var s' := Run(cfg, s, actions).value;
      && Inv(cfg, s') && c in s'.db.calls && Consistent(s'.db.calls[c])
      && SameCall(s'.db.calls[c], s.db.calls[c]) && Rises(s.db.calls[c], s'.db.calls[c])
    decreases |actions|
  {
    if actions != [] {
      var next := Step(cfg, s, actions[0]).value;
      StepKeeps(cfg, s, actions[0], next);
      RowsOnlyRise(cfg, s, actions[0], next);
      HistoryOnlyRises(cfg, next, actions[1..], c);
    }
  }
}
