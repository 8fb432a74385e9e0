/** The agent-run and model-call entities (domain/agents/loop.py). */
module AgentRuns {
  import opened Options

  datatype RunStatus = Created | Running | RunCompleted | RunFailed | Cancelled | LimitReached {
    predicate Terminal() { RunCompleted? || RunFailed? || Cancelled? || LimitReached? }
  }

  datatype AgentRun = AgentRun(
    id: nat, status: RunStatus, turns: nat, toolCalls: nat, finished: Option<int>, error: Option<string>,
    answer: Option<string>, updated: int)

  predicate Consistent(r: AgentRun) {
    && (r.status.Terminal() <==> r.finished.Some?)
    && (r.status == RunCompleted ==> r.error.None?)
  }

  function Start(r: AgentRun, now: int): Option<AgentRun> {
    if r.status != Created then None else Some(r.(status := Running, updated := now))
  }

  function Progress(r: AgentRun, turns: nat, toolCalls: nat, now: int): Option<AgentRun> {
    if r.status != Running then None else Some(r.(turns := turns, toolCalls := toolCalls, updated := now))
  }

  function Finish(
    r: AgentRun, status: RunStatus, answer: Option<string>, error: Option<string>, now: int): Option<AgentRun>
  {
    if r.status != Running || !status.Terminal() || (status == RunCompleted && error.Some?) then None
    else Some(r.(status := status, answer := answer, error := error, finished := Some(now), updated := now))
  }

  /** One change of a run's row. */
  datatype Change =
    | Begin(now: int)
    | Advance(turns: nat, toolCalls: nat, now: int)
    | Close(status: RunStatus, answer: Option<string>, error: Option<string>, now: int)

  function Changed(r: AgentRun, c: Change): Option<AgentRun> {
    match c
    case Begin(now) => Start(r, now)
    case Advance(turns, toolCalls, now) => Progress(r, turns, toolCalls, now)
    case Close(status, answer, error, now) => Finish(r, status, answer, error, now)
  }

  function Life(r: AgentRun, changes: seq<Change>): Option<AgentRun>
    decreases |changes|
  {
    if changes == [] then Some(r)
    else match Changed(r, changes[0])
      case None => None
      case Some(next) => Life(next, changes[1..])
  }

  /** The counts of the last advance, or those of the start. */
  function LastCounts(r: AgentRun, changes: seq<Change>): (nat, nat) {
    if changes == [] then (r.turns, r.toolCalls)
    else
      var last := changes[|changes| - 1];
      if last.Advance? then (last.turns, last.toolCalls) else LastCounts(r, changes[..|changes| - 1])
  }

  /** A life from the running state: advances, then at most one close, and nothing after. */
  lemma {:induction false} RunningLife(r: AgentRun, changes: seq<Change>)
    requires Consistent(r) && r.status == Running && Life(r, changes).Some?
    ensures var end := Life(r, changes).value;
      && Consistent(end) && end.id == r.id && end.status != Created
      && (end.status.Terminal() <==> changes != [] && changes[|changes| - 1].Close?)
      && (end.turns, end.toolCalls) == LastCounts(r, changes)
    ensures forall i :: 0 <= i < |changes| - 1 ==> changes[i].Advance?
    ensures forall i :: 0 <= i < |changes| ==> !changes[i].Begin?
    decreases |changes|
  {
    if changes != [] {
      var next := Changed(r, changes[0]).value;
      if changes[0].Close? {
        assert LastCounts(r, changes) == LastCounts(r, changes[..|changes| - 1]);
      } else {
        RunningLife(next, changes[1..]);
        CountsCarry(r, next, changes);
        forall i | 0 <= i < |changes| ensures !changes[i].Begin? && (i < |changes| - 1 ==> changes[i].Advance?) {
          if i > 0 { assert changes[i] == changes[1..][i - 1]; }
        }
      }
    }
  }

  lemma {:induction false} CountsCarry(r: AgentRun, next: AgentRun, changes: seq<Change>)
    requires changes != [] && changes[0].Advance? && next.turns == changes[0].turns
      && next.toolCalls == changes[0].toolCalls
    ensures LastCounts(r, changes) == LastCounts(next, changes[1..])
    decreases |changes|
  {
    if |changes| > 1 && !changes[|changes| - 1].Advance? {
      var front := changes[..|changes| - 1];
      CountsCarry(r, next, front);
      assert changes[1..][..|changes[1..]| - 1] == front[1..];
    }
  }

  /** Every life of a created run begins with its one start, goes on with advances,
      closes at most once and then stays; it keeps the constraints, is terminal
      exactly when it was closed, and holds the counts of its last advance. */
  lemma RunHistory(r: AgentRun, changes: seq<Change>)
    requires Consistent(r) && r.status == Created && Life(r, changes).Some? && changes != []
    ensures var end := Life(r, changes).value;
      && Consistent(end) && end.id == r.id
      && (end.status.Terminal() <==> changes[|changes| - 1].Close?)
      && (end.turns, end.toolCalls) == LastCounts(r, changes)
    ensures changes[0].Begin? && forall i :: 0 < i < |changes| - 1 ==> changes[i].Advance?
    ensures forall i :: 0 < i < |changes| ==> !changes[i].Begin?
  {
    var next := Changed(r, changes[0]).value;
    RunningLife(next, changes[1..]);
    forall i | 0 < i < |changes| ensures !changes[i].Begin? && (i < |changes| - 1 ==> changes[i].Advance?) {
      assert changes[i] == changes[1..][i - 1];
    }
    StartCarries(r, next, changes);
  }

  lemma {:induction false} StartCarries(r: AgentRun, next: AgentRun, changes: seq<Change>)
    requires changes != [] && changes[0].Begin? && next.turns == r.turns && next.toolCalls == r.toolCalls
    ensures LastCounts(r, changes) == LastCounts(next, changes[1..])
    decreases |changes|
  {
    var front := changes[..|changes| - 1];
    if |changes| == 1 {
      assert front == [];
    } else if !changes[|changes| - 1].Advance? {
      StartCarries(r, next, front);
      assert changes[1..][..|changes[1..]| - 1] == front[1..];
    }
  }

  datatype ModelStatus = Started | ModelCompleted | ModelFailed | ModelTimedOut

  datatype ModelCall = ModelCall(
    id: nat, run: nat, turn: nat, status: ModelStatus, requested: nat, error: Option<string>, started: int,
    finished: Option<int>)

  predicate ModelConsistent(c: ModelCall) { c.turn >= 1 && (c.status == Started <==> c.finished.None?) }

  /** replace(call, status, error_code, finished_at) */
  function EndModelCall(c: ModelCall, status: ModelStatus, requested: nat, error: Option<string>, now: int): ModelCall {
    c.(status := status, requested := requested, error := error, finished := Some(now))
  }
}
