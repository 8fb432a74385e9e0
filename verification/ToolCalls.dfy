/** The tool-call entity and its life cycle (domain/tool_calls/models.py). */
module ToolCalls {
  import opened Options
  import opened RiskEngine
  import opened Text

  datatype Status =
    | Received | Validating | Rejected | Evaluating | Blocked | Executing | Succeeded | Failed | TimedOut
  {
    predicate Terminal() { Rejected? || Blocked? || Succeeded? || Failed? || TimedOut? }

    /** How far along the life cycle: every transition climbs. */
    function Stage(): nat {
      match this
      case Received => 0
      case Validating => 1
      case Evaluating => 2
      case Executing => 3
      case _ => 4
    }
  }

  datatype Decision = Allow | Flag | Block | Reject

  predicate Allowed(before: Status, after: Status) {
    match before
    case Received => after == Validating
    case Validating => after == Rejected || after == Evaluating
    case Evaluating => after == Blocked || after == Executing
    case Executing => after == Succeeded || after == Failed || after == TimedOut
    case _ => false
  }

  /** The eight edges, one by one. */
  lemma EdgesExactly(a: Status, b: Status)
    ensures Allowed(a, b) <==>
      (a, b) in {(Received, Validating), (Validating, Rejected), (Validating, Evaluating), (Evaluating, Blocked),
                 (Evaluating, Executing), (Executing, Succeeded), (Executing, Failed), (Executing, TimedOut)}
    ensures a.Terminal() <==> forall c :: !Allowed(a, c)
  {
    assert Allowed(Received, Validating) && Allowed(Validating, Rejected) && Allowed(Evaluating, Blocked)
      && Allowed(Executing, Failed);
  }

  /** Times are milliseconds of one clock; a tool is its unique name and version. */
  datatype ToolKey = ToolKey(name: string, version: string)

  datatype ToolCall = ToolCall(
    id: nat, session: string, tool: ToolKey, sequence: int, hash: string, key: nat,
    status: Status, decision: Decision, risk: RiskLevel, matched: seq<nat>,
    started: Option<int>, finished: Option<int>, duration: Option<int>, error: Option<string>,
    created: int, updated: int)

  /** What __post_init__ and the table's check constraints demand of a row. */
  predicate Consistent(c: ToolCall) {
    && c.sequence >= 1
    && c.updated >= c.created
    && (c.duration.Some? ==> c.duration.value >= 0)
    && (c.status.Terminal() <==> c.finished.Some?)
    && (c.status == Rejected <==> c.decision == Reject)
    && (c.status == Blocked <==> c.decision == Block)
    && (c.error.Some? ==> !Blank(c.error.value))
  }

  datatype Change = Change(
    status: Status, now: int, error: Option<string>, decision: Option<Decision>, risk: Option<RiskLevel>,
    matched: Option<seq<nat>>)

  /** A change that names nothing but the status, the time and the error. */
  function Plain(status: Status, now: int, error: Option<string>): Change {
    Change(status, now, error, None, None, None)
  }

  datatype Transition = Changed(call: ToolCall) | InvalidTransition | InvalidCall

  /** The record transition_to builds before its own checks run again. */
  function Rewritten(c: ToolCall, d: Change): ToolCall {
    var started := if d.status == Executing then Some(d.now) else c.started;
    var finished := if d.status.Terminal() then Some(d.now) else None;
    var duration :=
      if finished.Some? && started.Some? then
        Some(if finished.value - started.value < 0 then 0 else finished.value - started.value)
      else c.duration;
    var decision :=
      if d.status == Rejected then Reject
      else if d.status == Blocked then Block
      else if d.decision.Some? then d.decision.value
      else c.decision;
    c.(status := d.status, decision := decision,
       risk := if d.risk.Some? then d.risk.value else c.risk,
       matched := if d.matched.Some? && d.matched.value != [] then d.matched.value else c.matched,
       started := started, finished := finished, duration := duration, error := d.error, updated := d.now)
  }

  function TransitionTo(c: ToolCall, d: Change): Transition {
    if c.status.Terminal() then InvalidTransition
    else if !Allowed(c.status, d.status) then InvalidTransition
    else if !Consistent(Rewritten(c, d)) then InvalidCall
    else Changed(Rewritten(c, d))
  }

  /** The condition a caller can check before asking for a change. */
  predicate Acceptable(c: ToolCall, d: Change) {
    && d.now >= c.created
    && (d.error.Some? ==> !Blank(d.error.value))
    && (d.status == Rejected || d.status == Blocked || d.decision.None? || d.decision.value == Allow
        || d.decision.value == Flag)
  }

  /** A call already in order changes exactly when the edge exists and the change is acceptable. */
  lemma TransitionExactly(c: ToolCall, d: Change)
    requires Consistent(c)
    ensures TransitionTo(c, d).Changed? <==> Allowed(c.status, d.status) && Acceptable(c, d)
    ensures TransitionTo(c, d) == InvalidTransition <==> !Allowed(c.status, d.status)
  {
  }

  /** What no transition touches, what every transition settles, and that the
      life cycle only climbs. */
  lemma TransitionKeeps(c: ToolCall, d: Change)
    requires Consistent(c) && TransitionTo(c, d).Changed?
    ensures var r := TransitionTo(c, d).call;
      && Consistent(r) && r.status == d.status && r.updated == d.now && r.error == d.error
      && r.status.Stage() > c.status.Stage()
      && SameCall(c, r)
      && (r.status.Terminal() <==> r.finished == Some(d.now))
      && (c.decision == Flag && d.decision != Some(Allow) ==> r.decision != Allow)
  {
  }

  /** The columns `update` never writes. */
  predicate SameCall(a: ToolCall, b: ToolCall) {
    && a.id == b.id && a.session == b.session && a.tool == b.tool && a.sequence == b.sequence
    && a.hash == b.hash && a.key == b.key && a.created == b.created
  }

  /** Risk never falls, and a raised mark is never taken back. */
  predicate Rises(a: ToolCall, b: ToolCall) {
    && a.risk.Rank() <= b.risk.Rank()
    && (a.decision != Allow ==> b.decision != Allow)
  }

  /** What a whole life is: changes applied one after the other. */
  function Apply(c: ToolCall, changes: seq<Change>): Transition
    decreases |changes|
  {
    if changes == [] then Changed(c)
    else match TransitionTo(c, changes[0])
      case Changed(next) => Apply(next, changes[1..])
      case failed => failed
  }

  /** No life has more than four changes, and nothing follows a terminal one. */
  lemma {:induction false} LivesAreShort(c: ToolCall, changes: seq<Change>)
    requires Consistent(c) && Apply(c, changes).Changed?
    ensures Consistent(Apply(c, changes).call) && SameCall(c, Apply(c, changes).call)
    ensures |changes| + c.status.Stage() <= Apply(c, changes).call.status.Stage() <= 4
    ensures forall i :: 0 <= i < |changes| - 1 ==> !changes[i].status.Terminal()
    decreases |changes|
  {
    if changes != [] {
      var next := TransitionTo(c, changes[0]).call;
      TransitionKeeps(c, changes[0]);
      LivesAreShort(next, changes[1..]);
      if |changes| > 1 {
        assert TransitionTo(next, changes[1]).Changed?;
        forall i | 0 <= i < |changes| - 1 ensures !changes[i].status.Terminal() {
          if i > 0 { assert changes[i] == changes[1..][i - 1]; }
        }
      }
    }
  }

  // ------------------------------------------------------ what a life keeps

  /** A life is begun when it comes to executing, and lasts from there to its end. */
  predicate Timed(c: ToolCall, begun: Option<int>) {
    && c.started == begun
    && c.duration ==
         if c.status.Terminal() && begun.Some? then Some(if c.updated < begun.value then 0 else c.updated - begun.value)
         else None
  }

  /** When the life comes to executing, if it does. */
  function Began(changes: seq<Change>): Option<int> {
    if changes == [] then None
    else if changes[0].status == Executing then Some(changes[0].now)
    else Began(changes[1..])
  }

  /** From any point of a life on. */
  lemma {:induction false} LifeGoesOn(c: ToolCall, changes: seq<Change>, begun: Option<int>)
    requires Apply(c, changes).Changed? && Timed(c, begun)
    requires c.status.Stage() < 3 ==> begun.None?
    ensures Timed(Apply(c, changes).call, if begun.Some? then begun else Began(changes))
    decreases |changes|
  {
    if changes != [] {
      var d := changes[0];
      var next := TransitionTo(c, d).call;
      var since := if d.status == Executing then Some(d.now) else begun;
      LifeGoesOn(next, changes[1..], since);
    }
  }

  /** In every life of a fresh call: it is started when it comes to executing and at
      that change's time, and an ended call that was started has lasted from then to
      its end, never less than nothing. */
  lemma LifeIsTimed(c: ToolCall, changes: seq<Change>)
    requires c.status == Received && c.started.None? && c.duration.None? && Apply(c, changes).Changed?
    ensures Timed(Apply(c, changes).call, Began(changes))
  {
    LifeGoesOn(c, changes, None);
  }
}
