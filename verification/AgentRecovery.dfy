/** Agent runs and model calls against recovery: rows that their owner rewrites with no
    status guard (infrastructure/repositories/sqlalchemy.py), while recovery fails the
    stale ones (application/recovery.py). */
module AgentRecovery {
  import opened Options

  /** A run progresses while it works and reads its row before it finishes it; a model
      call is only ended. */
  datatype Kind = RunRows | CallRows

  /** lag: from a row's stamp to the start of the timed scope, none for a run, whose
      scope opens first. timeout: agent_run_timeout_seconds or the provider's. work: what
      may follow the scope. */
  datatype Config = Config(kind: Kind, lag: nat, timeout: nat, work: nat, staleAfter: nat, batchSize: nat)

  datatype Cause = ByOwner | ByRecovery

  datatype Row = Open(stamp: int) | Closed(stamp: int, cause: Cause)

  /** read: _finish_run has read an open row and not yet written it. */
  datatype Owner = Owner(begun: int, left: Option<int>, read: bool)

  datatype Phase = Idle | Claimed(batch: set<nat>) | Over

  datatype Recovery = Recovery(now: int, phase: Phase)

  datatype State = State(
    now: int, rows: map<nat, Row>, owners: map<nat, Owner>, claims: map<nat, nat>, recoveries: map<nat, Recovery>)

  const INITIAL := State(0, map[], map[], map[], map[])

  datatype Action =
    | Begin(i: nat, begun: int, stamp: int)
    | Progress(i: nat, stamp: int)
    | Leave(i: nat)
    | Read(i: nat)
    | Finish(i: nat)
    | Die(i: nat)
    | StartRecovery(r: nat)
    | Claim(r: nat, batch: set<nat>)
    | CommitBatch(r: nat)
    | CrashRecovery(r: nat)
    | Tick(d: nat)

  function Deadline(cfg: Config, o: Owner): int {
    match o.left
    case None => o.begun + cfg.timeout
    case Some(at) => at + cfg.work
  }

  ghost function Stale(rows: map<nat, Row>, cutoff: int): set<nat> {
    set i | i in rows && rows[i].Open? && rows[i].stamp < cutoff
  }

  function Cutoff(cfg: Config, rec: Recovery): int { rec.now - cfg.staleAfter }

  /** One committed transaction, wait or death. An owner's writes wait while recovery
      holds the row; they never look at the row's status. */
  ghost function Step(cfg: Config, s: State, a: Action): Option<State> {
    match a
    case Begin(i, begun, stamp) =>
      if i in s.rows || begun > s.now || stamp > s.now || begun > stamp + cfg.lag
          || s.now > begun + cfg.timeout then None
      else Some(s.(rows := s.rows[i := Open(stamp)], owners := s.owners[i := Owner(begun, None, false)]))
    case Progress(i, stamp) =>
      if !(cfg.kind.RunRows? && i in s.owners && s.owners[i].left.None? && !s.owners[i].read) then None
      else if !(i in s.rows && i !in s.claims && s.owners[i].begun <= stamp <= s.now) then None
      else Some(s.(rows := s.rows[i := Open(stamp)]))
    case Leave(i) =>
      if !(i in s.owners && s.owners[i].left.None?) then None
      else Some(s.(owners := s.owners[i := Owner(s.owners[i].begun, Some(s.now), false)]))
    case Read(i) =>
      if !(cfg.kind.RunRows? && i in s.owners && !s.owners[i].read && i in s.rows) then None
      else if s.rows[i].Open? then Some(s.(owners := s.owners[i := s.owners[i].(read := true)]))
      else Some(s.(owners := s.owners - {i}))
    case Finish(i) =>
      if !(i in s.owners && i in s.rows && i !in s.claims && (cfg.kind.RunRows? ==> s.owners[i].read)) then None
      else Some(s.(rows := s.rows[i := Closed(s.now, ByOwner)], owners := s.owners - {i}))
    case Die(i) =>
      if i in s.owners then Some(s.(owners := s.owners - {i})) else None
    case StartRecovery(r) =>
      if r in s.recoveries then None else Some(s.(recoveries := s.recoveries[r := Recovery(s.now, Idle)]))
    case Claim(r, batch) => Claims(cfg, s, r, batch)
    case CommitBatch(r) => Commits(cfg, s, r)
    case CrashRecovery(r) =>
      if !(r in s.recoveries && s.recoveries[r].phase.Claimed?) then None
      else Some(s.(claims := s.claims - s.recoveries[r].phase.batch,
          recoveries := s.recoveries[r := s.recoveries[r].(phase := Over)]))
    case Tick(d) =>
      if forall i :: i in s.owners ==> s.now + d <= Deadline(cfg, s.owners[i]) then Some(s.(now := s.now + d)) else None
  }

  function Marked(batch: set<nat>, r: nat): map<nat, nat> { map i | i in batch :: r }

  /** Skips locked rows: a batch that falls short leaves out only rows whose owner may
      be writing them. */
  ghost function Claims(cfg: Config, s: State, r: nat, batch: set<nat>): Option<State> {
    if !(r in s.recoveries && s.recoveries[r].phase.Idle?) then None
    else
      var free := Stale(s.rows, Cutoff(cfg, s.recoveries[r])) - s.claims.Keys;
      if && batch <= free && |batch| <= cfg.batchSize
         && (|batch| < cfg.batchSize ==> forall i :: i in free && i !in batch ==> i in s.owners) then
        Some(s.(claims := s.claims + Marked(batch, r),
                recoveries := s.recoveries[r := s.recoveries[r].(phase := Claimed(batch))]))
      else None
  }

  ghost function Commits(cfg: Config, s: State, r: nat): Option<State> {
    if !(r in s.recoveries && s.recoveries[r].phase.Claimed?) then None
    else
      var rec := s.recoveries[r];
      var batch := rec.phase.batch;
      Some(s.(rows := map i | i in s.rows :: if i in batch then Closed(rec.now, ByRecovery) else s.rows[i],
              claims := s.claims - batch,
              recoveries := s.recoveries[r := rec.(phase := if |batch| < cfg.batchSize then Over else Idle)]))
  }

  ghost function Run(cfg: Config, s: State, actions: seq<Action>): Option<State>
    decreases |actions|
  {
    if actions == [] then Some(s)
    else match Step(cfg, s, actions[0])
      case None => None
      case Some(next) => Run(cfg, next, actions[1..])
  }

  ghost predicate Reachable(cfg: Config, s: State) { exists actions :: Run(cfg, INITIAL, actions) == Some(s) }

  // -------------------------------------------------------------- invariant

  /** An owner this far is out of recovery's reach: inside its scope, or anywhere. */
  predicate Covered(cfg: Config, o: Owner) {
    || (o.left.None? && cfg.staleAfter >= cfg.lag + cfg.timeout)
    || cfg.staleAfter >= cfg.lag + cfg.timeout + cfg.work
  }

  ghost predicate OwnerOk(cfg: Config, s: State, i: nat)
    requires i in s.owners
  {
    var o := s.owners[i];
    && i in s.rows && s.now <= Deadline(cfg, o) && o.begun <= s.rows[i].stamp + cfg.lag
    && (o.left.Some? ==> o.left.value <= o.begun + cfg.timeout)
    && (Covered(cfg, o) ==> s.rows[i].Open? && i !in s.claims)
  }

  ghost predicate InHand(s: State, r: nat, i: nat) {
    r in s.recoveries && s.recoveries[r].phase.Claimed? && i in s.recoveries[r].phase.batch
  }

  predicate Held(s: State, r: nat, i: nat)
    requires r in s.recoveries
  {
    && i in s.claims && s.claims[i] == r
    && i in s.rows && s.rows[i].Open? && s.rows[i].stamp <= s.recoveries[r].now
  }

  ghost predicate Inv(cfg: Config, s: State) {
    && (forall i :: i in s.owners ==> OwnerOk(cfg, s, i))
    && (forall i :: i in s.claims ==> InHand(s, s.claims[i], i))
    && (forall r :: r in s.recoveries ==> s.recoveries[r].now <= s.now)
    && forall r, i :: InHand(s, r, i) ==> Held(s, r, i)
  }

  lemma InitiallyInv(cfg: Config)
    ensures Inv(cfg, INITIAL)
  {
  }

  /** A covered owner's row is not yet stale for any recovery run. */
  lemma CoveredIsFresh(cfg: Config, s: State, i: nat, r: nat)
    requires Inv(cfg, s) && i in s.owners && Covered(cfg, s.owners[i]) && r in s.recoveries
    ensures i !in Stale(s.rows, Cutoff(cfg, s.recoveries[r]))
  {
    assert OwnerOk(cfg, s, i);
  }

  lemma OwnerStepKeepsOwner(cfg: Config, s: State, a: Action, s': State, i: nat)
    requires Inv(cfg, s) && Step(cfg, s, a) == Some(s') && i in s'.owners
    requires a.Begin? || a.Progress? || a.Leave? || a.Read? || a.Finish? || a.Die?
    ensures OwnerOk(cfg, s', i)
  {
    if i != a.i {
      assert s'.owners[i] == s.owners[i] && OwnerOk(cfg, s, i);
    } else {
      match a
      case Begin(_, begun, stamp) =>
        assert i !in s.claims;
        assert s'.owners[i] == Owner(begun, None, false) && s'.rows[i] == Open(stamp);
      case Progress(_, stamp) =>
        assert OwnerOk(cfg, s, i) && s'.owners[i] == s.owners[i] && s'.rows[i] == Open(stamp);
      case _ => assert OwnerOk(cfg, s, i);
    }
  }

  lemma OwnerStepKeeps(cfg: Config, s: State, a: Action, s': State)
    requires Inv(cfg, s) && Step(cfg, s, a) == Some(s')
    requires a.Begin? || a.Progress? || a.Leave? || a.Read? || a.Finish? || a.Die?
    ensures Inv(cfg, s')
  {
    forall i | i in s'.owners ensures OwnerOk(cfg, s', i) {
      OwnerStepKeepsOwner(cfg, s, a, s', i);
    }
    forall r, i | InHand(s', r, i) ensures Held(s', r, i) {
      assert InHand(s, r, i);
    }
    forall i | i in s'.claims ensures InHand(s', s'.claims[i], i) {
      assert InHand(s, s.claims[i], i);
    }
  }

  lemma ClaimKeeps(cfg: Config, s: State, r: nat, batch: set<nat>, s': State)
    requires Inv(cfg, s) && Claims(cfg, s, r, batch) == Some(s')
    ensures Inv(cfg, s')
  {
    forall i | i in s'.owners ensures OwnerOk(cfg, s', i) {
      assert OwnerOk(cfg, s, i);
      if Covered(cfg, s.owners[i]) { CoveredIsFresh(cfg, s, i, r); }
    }
    forall q, i | InHand(s', q, i) ensures Held(s', q, i) {
      if q != r { assert InHand(s, q, i); }
    }
    forall i | i in s'.claims ensures InHand(s', s'.claims[i], i) {
      if i !in batch { assert InHand(s, s.claims[i], i); }
    }
  }

  lemma CommitKeeps(cfg: Config, s: State, r: nat, s': State)
    requires Inv(cfg, s) && Commits(cfg, s, r) == Some(s')
    ensures Inv(cfg, s')
  {
    forall i | i in s'.owners ensures OwnerOk(cfg, s', i) {
      assert OwnerOk(cfg, s, i);
      if i in s.recoveries[r].phase.batch { assert InHand(s, r, i); }
    }
    forall q, i | InHand(s', q, i) ensures Held(s', q, i) {
      assert q != r && InHand(s, q, i);
      if i in s.recoveries[r].phase.batch { assert InHand(s, r, i); }
    }
    forall i | i in s'.claims ensures InHand(s', s'.claims[i], i) {
      assert InHand(s, s.claims[i], i);
    }
  }

  lemma RestKeeps(cfg: Config, s: State, a: Action, s': State)
    requires Inv(cfg, s) && Step(cfg, s, a) == Some(s') && (a.StartRecovery? || a.CrashRecovery? || a.Tick?)
    ensures Inv(cfg, s')
  {
    forall i | i in s'.owners ensures OwnerOk(cfg, s', i) {
      assert OwnerOk(cfg, s, i);
    }
    forall q, i | InHand(s', q, i) ensures Held(s', q, i) {
      assert InHand(s, q, i);
      if a.CrashRecovery? && i in s.recoveries[a.r].phase.batch { assert InHand(s, a.r, i); }
    }
    forall i | i in s'.claims ensures InHand(s', s'.claims[i], i) {
      assert InHand(s, s.claims[i], i);
    }
  }

  lemma StepKeeps(cfg: Config, s: State, a: Action, s': State)
    requires Inv(cfg, s) && Step(cfg, s, a) == Some(s')
    ensures Inv(cfg, s')
  {
    match a
    case Claim(r, batch) => ClaimKeeps(cfg, s, r, batch, s');
    case CommitBatch(r) => CommitKeeps(cfg, s, r, s');
    case StartRecovery(r) => RestKeeps(cfg, s, a, s');
    case CrashRecovery(r) => RestKeeps(cfg, s, a, s');
    case Tick(d) => RestKeeps(cfg, s, a, s');
    case _ => OwnerStepKeeps(cfg, s, a, s');
  }

  lemma {:induction false} RunKeeps(cfg: Config, s: State, actions: seq<Action>)
    requires Inv(cfg, s) && Run(cfg, s, actions).Some?
    ensures Inv(cfg, Run(cfg, s, actions).value)
    decreases |actions|
  {
    if actions != [] {
      var next := Step(cfg, s, actions[0]).value;
      StepKeeps(cfg, s, actions[0], next);
      RunKeeps(cfg, next, actions[1..]);
    }
  }

  lemma ReachableInv(cfg: Config, s: State)
    requires Reachable(cfg, s)
    ensures Inv(cfg, s)
  {
    var actions :| Run(cfg, INITIAL, actions) == Some(s);
    InitiallyInv(cfg);
    RunKeeps(cfg, INITIAL, actions);
  }

  // ------------------------------------------------------------ what stays

  /** Some ended row is different afterwards. */
  ghost predicate Overwrites(s: State, s': State) {
    exists i :: i in s.rows && s.rows[i].Closed? && (i !in s'.rows || s'.rows[i] != s.rows[i])
  }

  /** Some ended row is open again. */
  ghost predicate Reopens(s: State, s': State) {
    exists i :: i in s.rows && s.rows[i].Closed? && i in s'.rows && s'.rows[i].Open?
  }

  lemma NoOverwrite(cfg: Config, s: State, a: Action, s': State)
    requires Inv(cfg, s) && Step(cfg, s, a) == Some(s') && cfg.staleAfter >= cfg.lag + cfg.timeout + cfg.work
    ensures !Overwrites(s, s')
  {
    match a
    case Progress(i, stamp) => assert OwnerOk(cfg, s, i);
    case Finish(i) => assert OwnerOk(cfg, s, i);
    case CommitBatch(r) =>
      forall i | i in s.recoveries[r].phase.batch ensures i in s.rows && s.rows[i].Open? {
        assert InHand(s, r, i);
      }
    case _ =>
  }

  lemma NoReopening(cfg: Config, s: State, a: Action, s': State)
    requires Inv(cfg, s) && Step(cfg, s, a) == Some(s')
    requires cfg.kind.CallRows? || cfg.staleAfter >= cfg.lag + cfg.timeout
    ensures !Reopens(s, s')
  {
    if a.Progress? { assert OwnerOk(cfg, s, a.i); }
  }

  // ---------------------------------------------------------------- the race

  lemma {:induction false} RunsOn(cfg: Config, s0: State, actions: seq<Action>, s: State, a: Action, s': State)
    requires Run(cfg, s0, actions) == Some(s) && Step(cfg, s, a) == Some(s')
    ensures Run(cfg, s0, actions + [a]) == Some(s')
    decreases |actions|
  {
    if actions == [] {
      assert actions + [a] == [a] && [a][1..] == [];
      assert Run(cfg, s', []) == Some(s');
    } else {
      RunsOn(cfg, Step(cfg, s0, actions[0]).value, actions[1..], s, a, s');
      assert (actions + [a])[1..] == actions[1..] + [a];
    }
  }

  lemma Reaches(cfg: Config, s: State, a: Action, s': State)
    requires Reachable(cfg, s) && Step(cfg, s, a) == Some(s')
    ensures Reachable(cfg, s')
  {
    var actions :| Run(cfg, INITIAL, actions) == Some(s);
    RunsOn(cfg, INITIAL, actions, s, a, s');
  }

  /** The owner as late in its scope as it may be. */
  lemma ReachesEndOfScope(cfg: Config) returns (s: State)
    ensures Reachable(cfg, s)
    ensures s == State(cfg.lag + cfg.timeout, map[0 := Open(0)], map[0 := Owner(cfg.lag, None, false)], map[], map[])
  {
    assert Run(cfg, INITIAL, []) == Some(INITIAL);
    var s1 := INITIAL.(now := cfg.lag);
    Reaches(cfg, INITIAL, Tick(cfg.lag), s1);
    var s2 := s1.(rows := map[0 := Open(0)], owners := map[0 := Owner(cfg.lag, None, false)]);
    assert Step(cfg, s1, Begin(0, cfg.lag, 0)) == Some(s2);
    Reaches(cfg, s1, Begin(0, cfg.lag, 0), s2);
    s := s2.(now := cfg.lag + cfg.timeout);
    Reaches(cfg, s2, Tick(cfg.timeout), s);
  }

  /** The owner as late after its scope as it may be, about to write its row. */
  lemma ReachesEndOfWindow(cfg: Config) returns (s: State, o: Owner)
    ensures Reachable(cfg, s)
    ensures s == State(cfg.lag + cfg.timeout + cfg.work, map[0 := Open(0)], map[0 := o], map[], map[])
    ensures cfg.kind.RunRows? ==> o.read
  {
    var s1 := ReachesEndOfScope(cfg);
    o := Owner(cfg.lag, Some(cfg.lag + cfg.timeout), false);
    var s2 := s1.(owners := map[0 := o]);
    assert s1.owners[0 := o] == map[0 := o];
    Reaches(cfg, s1, Leave(0), s2);
    var s3 := s2.(now := cfg.lag + cfg.timeout + cfg.work);
    Reaches(cfg, s2, Tick(cfg.work), s3);
    s := s3;
    if cfg.kind.RunRows? {
      o := o.(read := true);
      s := s3.(owners := map[0 := o]);
      assert s3.owners[0 := o] == map[0 := o];
      Reaches(cfg, s3, Read(0), s);
    }
  }

  /** Recovery claims the one row there is. */
  lemma ClaimsTheRow(cfg: Config, s: State, now: int, o: Owner)
    requires s == State(now, map[0 := Open(0)], map[0 := o], map[], map[0 := Recovery(now, Idle)])
    requires cfg.staleAfter < now && cfg.batchSize >= 1
    ensures Claims(cfg, s, 0, {0})
      == Some(s.(claims := map[0 := 0], recoveries := map[0 := Recovery(now, Claimed({0}))]))
  {
    var free := Stale(s.rows, Cutoff(cfg, s.recoveries[0])) - s.claims.Keys;
    assert free == {0};
    assert s.claims + Marked({0}, 0) == map[0 := 0];
    assert s.recoveries[0 := Recovery(now, Claimed({0}))] == map[0 := Recovery(now, Claimed({0}))];
  }

  lemma FailsTheRow(cfg: Config, s: State, now: int, o: Owner)
    requires s == State(now, map[0 := Open(0)], map[0 := o], map[0 := 0], map[0 := Recovery(now, Claimed({0}))])
    ensures Commits(cfg, s, 0).Some?
    ensures var s' := Commits(cfg, s, 0).value;
      s'.now == now && s'.rows == map[0 := Closed(now, ByRecovery)] && s'.owners == map[0 := o] && s'.claims == map[]
  {
  }

  /** Recovery takes the row under its owner. */
  lemma ReachesRecovered(cfg: Config, s: State, now: int, o: Owner) returns (s': State)
    requires Reachable(cfg, s) && s == State(now, map[0 := Open(0)], map[0 := o], map[], map[])
    requires cfg.staleAfter < now && cfg.batchSize >= 1
    ensures Reachable(cfg, s') && s'.now == now && s'.rows == map[0 := Closed(now, ByRecovery)]
    ensures s'.owners == map[0 := o] && s'.claims == map[]
  {
    var s1 := s.(recoveries := map[0 := Recovery(now, Idle)]);
    assert Step(cfg, s, StartRecovery(0)) == Some(s1);
    Reaches(cfg, s, StartRecovery(0), s1);
    ClaimsTheRow(cfg, s1, now, o);
    var s2 := s1.(claims := map[0 := 0], recoveries := map[0 := Recovery(now, Claimed({0}))]);
    assert Step(cfg, s1, Claim(0, {0})) == Some(s2);
    Reaches(cfg, s1, Claim(0, {0}), s2);
    FailsTheRow(cfg, s2, now, o);
    s' := Commits(cfg, s2, 0).value;
    assert Step(cfg, s2, CommitBatch(0)) == Some(s');
    Reaches(cfg, s2, CommitBatch(0), s');
  }

  lemma OverwriteBelow(cfg: Config) returns (s: State, a: Action, s': State)
    requires cfg.staleAfter < cfg.lag + cfg.timeout + cfg.work && cfg.batchSize >= 1
    ensures Reachable(cfg, s) && Step(cfg, s, a) == Some(s') && Overwrites(s, s')
  {
    var s1, o := ReachesEndOfWindow(cfg);
    s := ReachesRecovered(cfg, s1, cfg.lag + cfg.timeout + cfg.work, o);
    a := Finish(0);
    s' := Step(cfg, s, a).value;
    assert s.rows[0].Closed? && s'.rows[0] != s.rows[0];
  }

  lemma ReopeningBelow(cfg: Config) returns (s: State, a: Action, s': State)
    requires cfg.kind.RunRows? && cfg.staleAfter < cfg.lag + cfg.timeout && cfg.batchSize >= 1
    ensures Reachable(cfg, s) && Step(cfg, s, a) == Some(s') && Reopens(s, s')
  {
    var now := cfg.lag + cfg.timeout;
    var s1 := ReachesEndOfScope(cfg);
    s := ReachesRecovered(cfg, s1, now, Owner(cfg.lag, None, false));
    a := Progress(0, now);
    s' := Step(cfg, s, a).value;
    assert s.rows[0].Closed? && s'.rows[0].Open?;
  }

  ghost predicate EndedRowsStay(cfg: Config) {
    forall s, a :: Reachable(cfg, s) && Step(cfg, s, a).Some? ==> !Overwrites(s, Step(cfg, s, a).value)
  }

  ghost predicate EndedRowsStayEnded(cfg: Config) {
    forall s, a :: Reachable(cfg, s) && Step(cfg, s, a).Some? ==> !Reopens(s, Step(cfg, s, a).value)
  }

  /** No ended run or model call is ever written over if and only if rows go stale no
      sooner than their scope and the work after it can take. */
  lemma ThresholdIsExact(cfg: Config)
    requires cfg.batchSize >= 1
    ensures EndedRowsStay(cfg) <==> cfg.staleAfter >= cfg.lag + cfg.timeout + cfg.work
  {
    if cfg.staleAfter >= cfg.lag + cfg.timeout + cfg.work {
      forall s, a | Reachable(cfg, s) && Step(cfg, s, a).Some? ensures !Overwrites(s, Step(cfg, s, a).value) {
        ReachableInv(cfg, s);
        NoOverwrite(cfg, s, a, Step(cfg, s, a).value);
      }
    } else {
      var s, a, s' := OverwriteBelow(cfg);
    }
  }

  /** No recovered agent run is ever written back to running if and only if runs go
      stale no sooner than the run's timeout; a model call's row never reopens. */
  lemma ReopeningIsExact(cfg: Config)
    requires cfg.batchSize >= 1
    ensures EndedRowsStayEnded(cfg) <==> (cfg.kind.CallRows? || cfg.staleAfter >= cfg.lag + cfg.timeout)
  {
    if cfg.kind.CallRows? || cfg.staleAfter >= cfg.lag + cfg.timeout {
      forall s, a | Reachable(cfg, s) && Step(cfg, s, a).Some? ensures !Reopens(s, Step(cfg, s, a).value) {
        ReachableInv(cfg, s);
        NoReopening(cfg, s, a, Step(cfg, s, a).value);
      }
    } else {
      var s, a, s' := ReopeningBelow(cfg);
    }
  }

  /** Recovery never holds a row whose owner is inside its scope, when rows go stale no
      sooner than that scope can last. */
  lemma RecoverySparesTheWorking(cfg: Config, s: State, i: nat)
    requires Reachable(cfg, s) && i in s.owners && s.owners[i].left.None? && cfg.staleAfter >= cfg.lag + cfg.timeout
    ensures i !in s.claims && i in s.rows && s.rows[i].Open?
  {
    ReachableInv(cfg, s);
    assert OwnerOk(cfg, s, i);
  }
}
