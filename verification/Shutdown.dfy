/** Graceful shutdown (shutdown.py): tracked request tasks and draining, every
    interleaving of what runs between two suspensions of the event loop. */
module Shutdown {
  import opened Options

  // -------------------------------------------------------- the lock blocks

  /** The two fields guarded by the condition. */
  datatype Guarded = Guarded(accepting: bool, tasks: set<nat>)

  /** The locked block of `track` on the way in. */
  function Entered(g: Guarded, task: nat): Guarded {
    if g.accepting then g.(tasks := g.tasks + {task}) else g
  }

  /** The locked block on the way out. */
  function Left(g: Guarded, task: nat): Guarded { g.(tasks := g.tasks - {task}) }

  /** The start of `drain`. */
  function Closed(g: Guarded): Guarded { g.(accepting := false) }

  class ShutdownManager {
    var accepting: bool
    var tasks: set<nat>

    function Value(): Guarded
      reads this
    {
      Guarded(accepting, tasks)
    }

    constructor ()
      ensures Value() == Guarded(true, {})
    {
      accepting, tasks := true, {};
    }

    method Enter(task: nat) returns (accepted: bool)
      modifies this
      ensures accepted == old(accepting) && Value() == Entered(old(Value()), task)
    {
      if !accepting { return false; }
      tasks := tasks + {task};
      return true;
    }

    method Leave(task: nat)
      modifies this`tasks
      ensures Value() == Left(old(Value()), task)
    {
      tasks := tasks - {task};
    }

    /** Stop accepting; whether there is anything to wait for. */
    method BeginDrain() returns (idle: bool)
      modifies this`accepting
      ensures Value() == Closed(old(Value())) && (idle <==> tasks == {})
    {
      accepting := false;
      return tasks == {};
    }
  }

  // ------------------------------------------------------ tasks and drainers

  /** Where a request task is suspended. Entering and Leaving: waiting for the lock;
      Refusing: serving the refusal inside the locked block, so holding it; Inside:
      tracked; Abandoned: cancelled while waiting to leave, and so never taken out. */
  datatype Place = Outside | Entering | Refusing | Refused | Inside | Leaving | Removed | Abandoned

  /** Where a call of `drain` is suspended. Captured: the tasks left after the grace
      period, all cancelled and being gathered. */
  datatype Drain = Asked | Waiting | Captured(left: set<nat>) | Returned

  /** holder: the task suspended inside a locked block. removals counts how often
      each task was taken out of the set. */
  datatype State = State(
    guarded: Guarded, holder: Option<nat>, places: map<nat, Place>, drains: map<nat, Drain>, removals: map<nat, nat>)

  const INITIAL := State(Guarded(true, {}), None, map[], map[], map[])

  datatype Action =
    | Arrive(t: nat)
    | Acquire(t: nat)
    | FinishRefusal(t: nat)
    | Finish(t: nat)
    | AcquireToLeave(t: nat)
    | AskDrain(d: nat)
    | BeginDrain(d: nat)
    | WakeIdle(d: nat)
    | GraceOver(d: nat)
    | Gathered(d: nat)
    | Interrupt(t: nat)

  function PlaceOf(s: State, t: nat): Place { if t in s.places then s.places[t] else Outside }

  function Put(s: State, t: nat, p: Place): State { s.(places := s.places[t := p]) }

  function Removals(s: State, t: nat): nat { if t in s.removals then s.removals[t] else 0 }

  /** The locked block on the way in: the second look at the flag, and a refusal is
      served with the lock held. */
  function EntryBlock(s: State, t: nat): State {
    if s.guarded.accepting then Put(s, t, Inside).(guarded := Entered(s.guarded, t))
    else Put(s, t, Refusing).(holder := Some(t))
  }

  function ExitBlock(s: State, t: nat): State {
    Put(s, t, Removed).(guarded := Left(s.guarded, t), removals := s.removals[t := Removals(s, t) + 1])
  }

  /** Where a cancellation leaves a suspended task: one that is tracked unwinds
      later, through its way out. */
  function CancelledPlace(p: Place): Place {
    match p
    case Entering => Refused
    case Refusing => Refused
    case Leaving => Abandoned
    case _ => p
  }

  /** Every task of the set is cancelled, with no suspension in between. */
  function CancelAll(s: State, tasks: set<nat>): State {
    s.(places := map t | t in s.places :: if t in tasks then CancelledPlace(s.places[t]) else s.places[t],
       holder := if s.holder.Some? && s.holder.value in tasks then None else s.holder)
  }

  /** One step runs from one suspension to the next. Acquiring a free lock does not
      suspend, so a block is entered at once; a held lock makes its caller wait.
      Waiting for the condition gives the lock back. */
  function Step(s: State, a: Action): Option<State> {
    match a
    case Arrive(t) =>
      if !PlaceOf(s, t).Outside? then None
      else if !s.guarded.accepting then Some(Put(s, t, Refused))
      else Some(if s.holder.Some? then Put(s, t, Entering) else EntryBlock(s, t))
    case Acquire(t) =>
      if !PlaceOf(s, t).Entering? || s.holder.Some? then None else Some(EntryBlock(s, t))
    case FinishRefusal(t) =>
      if !PlaceOf(s, t).Refusing? then None else Some(Put(s, t, Refused).(holder := None))
    case Finish(t) =>
      if !PlaceOf(s, t).Inside? then None
      else Some(if s.holder.Some? then Put(s, t, Leaving) else ExitBlock(s, t))
    case AcquireToLeave(t) =>
      if !PlaceOf(s, t).Leaving? || s.holder.Some? then None else Some(ExitBlock(s, t))
    case AskDrain(d) =>
      if d in s.drains then None else Some(s.(drains := s.drains[d := Asked]))
    case BeginDrain(d) =>
      if !(d in s.drains && s.drains[d].Asked?) || s.holder.Some? then None
      else
        var next := if s.guarded.tasks == {} then Returned else Waiting;
        Some(s.(guarded := Closed(s.guarded), drains := s.drains[d := next]))
    case WakeIdle(d) =>
      if !(d in s.drains && s.drains[d].Waiting?) || s.holder.Some? || s.guarded.tasks != {} then None
      else Some(s.(drains := s.drains[d := Returned]))
    case GraceOver(d) =>
      if !(d in s.drains && s.drains[d].Waiting?) || s.holder.Some? then None
      else Some(CancelAll(s, s.guarded.tasks).(drains := s.drains[d := Captured(s.guarded.tasks)]))
    case Gathered(d) =>
      if !(d in s.drains && s.drains[d].Captured?) then None
      else if forall t :: t in s.drains[d].left ==> PlaceOf(s, t).Removed? || PlaceOf(s, t).Abandoned?
      then Some(s.(drains := s.drains[d := Returned]))
      else None
    case Interrupt(t) => Some(CancelAll(s, {t}))
  }

  // -------------------------------------------------------------- invariant

  /** Nobody is ever suspended waiting for the lock or holding it. */
  ghost predicate Uncontended(s: State) {
    && s.holder.None?
    && forall t :: t in s.places ==>
         s.places[t] == Refused || s.places[t] == Inside || s.places[t] == Removed || s.places[t] == Outside
  }

  /** The set holds exactly the tasks that are inside; whoever left did so once. */
  ghost predicate Tracking(s: State) {
    && (forall t :: t in s.guarded.tasks <==> PlaceOf(s, t).Inside?)
    && (forall t :: Removals(s, t) == if PlaceOf(s, t).Removed? then 1 else 0)
  }

  /** What draining can rely on. */
  ghost predicate Draining(s: State) {
    && (forall d :: d in s.drains && !s.drains[d].Asked? ==> !s.guarded.accepting)
    && (forall d :: d in s.drains && s.drains[d].Captured? ==> s.guarded.tasks <= s.drains[d].left)
    && (forall d :: d in s.drains && s.drains[d].Returned? ==> s.guarded.tasks == {})
  }

  ghost predicate Inv(s: State) { Uncontended(s) && Tracking(s) && Draining(s) }

  /** Closing is for good, and then nobody is accepted any more. */
  ghost predicate ClosesForGood(s: State, s': State) {
    !s.guarded.accepting ==> !s'.guarded.accepting && s'.guarded.tasks <= s.guarded.tasks
  }

  /** With nobody at the lock a cancellation changes no place: the task unwinds by
      itself. */
  lemma CancelLater(s: State, tasks: set<nat>)
    requires Uncontended(s)
    ensures CancelAll(s, tasks) == s
  {
    assert CancelAll(s, tasks).places == s.places;
  }

  /** A task's own step: everything else stays. */
  ghost predicate OneMoves(s: State, s': State, t: nat, p: Place) {
    && s'.holder == s.holder && s'.drains == s.drains && s'.places == s.places[t := p]
    && s'.guarded.accepting == s.guarded.accepting
    && (forall u :: u != t ==> Removals(s', u) == Removals(s, u) && (u in s'.guarded.tasks <==> u in s.guarded.tasks))
  }

  lemma TaskMoves(s: State, a: Action, s': State) returns (p: Place)
    requires Inv(s) && Step(s, a) == Some(s') && (a.Arrive? || a.Finish?)
    ensures OneMoves(s, s', a.t, p) && (p == Refused || p == Inside || p == Removed)
    ensures (a.t in s'.guarded.tasks <==> p == Inside) && Removals(s', a.t) == (if p == Removed then 1 else 0)
    ensures ClosesForGood(s, s')
  {
    p := s'.places[a.t];
  }

  lemma TaskKeeps(s: State, s': State, t: nat, p: Place)
    requires Inv(s) && OneMoves(s, s', t, p) && (p == Refused || p == Inside || p == Removed)
    requires (t in s'.guarded.tasks <==> p == Inside) && Removals(s', t) == (if p == Removed then 1 else 0)
    requires ClosesForGood(s, s')
    ensures Inv(s')
  {
    forall u ensures u in s'.guarded.tasks <==> PlaceOf(s', u).Inside? {
      if u != t { assert PlaceOf(s', u) == PlaceOf(s, u); }
    }
    forall u ensures Removals(s', u) == if PlaceOf(s', u).Removed? then 1 else 0 {
      if u != t { assert PlaceOf(s', u) == PlaceOf(s, u) && Removals(s', u) == Removals(s, u); }
    }
  }

  lemma DrainKeeps(s: State, a: Action, s': State)
    requires Inv(s) && Step(s, a) == Some(s')
    requires a.AskDrain? || a.BeginDrain? || a.WakeIdle? || a.GraceOver? || a.Gathered?
    ensures Inv(s') && ClosesForGood(s, s')
  {
    if a.GraceOver? { CancelLater(s, s.guarded.tasks); }
    forall t ensures PlaceOf(s', t) == PlaceOf(s, t) && Removals(s', t) == Removals(s, t) {
    }
    if a.Gathered? {
      assert forall t :: t in s.guarded.tasks ==> PlaceOf(s, t).Inside?;
    }
  }

  lemma StepKeeps(s: State, a: Action, s': State)
    requires Inv(s) && Step(s, a) == Some(s')
    ensures Inv(s') && ClosesForGood(s, s')
  {
    match a
    case Arrive(t) =>
      var p := TaskMoves(s, a, s');
      TaskKeeps(s, s', t, p);
    case Finish(t) =>
      var p := TaskMoves(s, a, s');
      TaskKeeps(s, s', t, p);
    case Interrupt(t) => CancelLater(s, {t});
    case Acquire(t) => assert false;
    case FinishRefusal(t) => assert false;
    case AcquireToLeave(t) => assert false;
    case _ => DrainKeeps(s, a, s');
  }

  // -------------------------------------------------------------- all runs

  function Run(s: State, actions: seq<Action>): Option<State>
    decreases |actions|
  {
    if actions == [] then Some(s)
    else match Step(s, actions[0])
      case None => None
      case Some(next) => Run(next, actions[1..])
  }

  lemma {:induction false} RunKeeps(s: State, actions: seq<Action>)
    requires Inv(s) && Run(s, actions).Some?
    ensures Inv(Run(s, actions).value) && ClosesForGood(s, Run(s, actions).value)
    decreases |actions|
  {
    if actions != [] {
      var next := Step(s, actions[0]).value;
      StepKeeps(s, actions[0], next);
      RunKeeps(next, actions[1..]);
    }
  }

  /** In no run is the lock ever contended: nobody waits for it, the refusal under it
      is never served, and no task is cancelled on its way out. */
  lemma LockIsNeverContended(actions: seq<Action>, t: nat)
    requires Run(INITIAL, actions).Some?
    ensures var s := Run(INITIAL, actions).value;
      && s.holder.None? && !PlaceOf(s, t).Entering? && !PlaceOf(s, t).Refusing? && !PlaceOf(s, t).Leaving?
      && !PlaceOf(s, t).Abandoned?
  {
    RunKeeps(INITIAL, actions);
  }

  /** Once draining began, in any continuation the tracked set never grows and no
      task that was not inside then is ever accepted. */
  lemma NobodyEntersAfterClosing(actions: seq<Action>, more: seq<Action>)
    requires Run(INITIAL, actions).Some? && !Run(INITIAL, actions).value.guarded.accepting
    requires Run(Run(INITIAL, actions).value, more).Some?
    ensures var s := Run(INITIAL, actions).value;
      var s' := Run(s, more).value;
      && !s'.guarded.accepting && s'.guarded.tasks <= s.guarded.tasks
      && forall t :: PlaceOf(s', t).Inside? ==> PlaceOf(s, t).Inside?
  {
    var s := Run(INITIAL, actions).value;
    RunKeeps(INITIAL, actions);
    RunKeeps(s, more);
    forall t | PlaceOf(Run(s, more).value, t).Inside? ensures PlaceOf(s, t).Inside? {
      assert t in Run(s, more).value.guarded.tasks;
    }
  }

  /** In any run `drain` returns only when no tracked task remains: the set is empty,
      nobody is inside, and nobody will be. */
  lemma DrainedMeansEmpty(actions: seq<Action>, d: nat)
    requires Run(INITIAL, actions).Some?
    requires d in Run(INITIAL, actions).value.drains && Run(INITIAL, actions).value.drains[d].Returned?
    ensures var s := Run(INITIAL, actions).value;
      && !s.guarded.accepting && s.guarded.tasks == {} && forall t :: !PlaceOf(s, t).Inside?
  {
    RunKeeps(INITIAL, actions);
    var s := Run(INITIAL, actions).value;
    forall t ensures !PlaceOf(s, t).Inside? {
      assert t in s.guarded.tasks <==> PlaceOf(s, t).Inside?;
    }
  }

  /** A task is in the set exactly while it is inside, and every accepted task that
      is over was taken out exactly once. */
  lemma RemovedExactlyOnce(actions: seq<Action>, t: nat)
    requires Run(INITIAL, actions).Some?
    ensures var s := Run(INITIAL, actions).value;
      && (t in s.guarded.tasks <==> PlaceOf(s, t).Inside?)
      && Removals(s, t) == (if PlaceOf(s, t).Removed? then 1 else 0)
      && (!PlaceOf(s, t).Inside? && Accepted(INITIAL, actions, t) ==> Removals(s, t) == 1)
  {
    RunKeeps(INITIAL, actions);
    if Accepted(INITIAL, actions, t) { AcceptedEnds(INITIAL, actions, t); }
  }

  /** At some point of the run the task was inside. */
  predicate Accepted(s: State, actions: seq<Action>, t: nat)
    decreases |actions|
  {
    || PlaceOf(s, t).Inside?
    || (actions != [] && Step(s, actions[0]).Some? && Accepted(Step(s, actions[0]).value, actions[1..], t))
  }

  lemma {:induction false} AcceptedEnds(s: State, actions: seq<Action>, t: nat)
    requires Inv(s) && Run(s, actions).Some? && (Accepted(s, actions, t) || PlaceOf(s, t).Removed?)
    ensures PlaceOf(Run(s, actions).value, t).Inside? || PlaceOf(Run(s, actions).value, t).Removed?
    decreases |actions|
  {
    if actions != [] {
      var next := Step(s, actions[0]).value;
      StepKeeps(s, actions[0], next);
      if PlaceOf(s, t).Inside? || PlaceOf(s, t).Removed? { InsideStays(s, actions[0], next, t); }
      if PlaceOf(next, t).Inside? { assert Accepted(next, actions[1..], t); }
      AcceptedEnds(next, actions[1..], t);
    }
  }

  lemma InsideStays(s: State, a: Action, s': State, t: nat)
    requires Inv(s) && Step(s, a) == Some(s') && (PlaceOf(s, t).Inside? || PlaceOf(s, t).Removed?)
    ensures PlaceOf(s', t).Inside? || PlaceOf(s', t).Removed?
  {
    match a
    case Arrive(u) => var p := TaskMoves(s, a, s');
    case Finish(u) => var p := TaskMoves(s, a, s');
    case Interrupt(u) => CancelLater(s, {u});
    case GraceOver(d) => CancelLater(s, s.guarded.tasks);
    case _ =>
  }
}
