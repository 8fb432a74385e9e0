/** The audit events of one tool call: the words the pipeline can leave behind,
    and what a word says about the call. */
module AuditTrail {
  import opened Options
  import opened ToolCalls

  datatype Event =
    | CallReceived | CallValidated | RedactionApplied | RiskClassified | CallFlagged | RuleMatched | CallBlocked
    | CallStarted | CallCompleted | CallFailed | CallTimedOut | CallRecovered

  /** The language, as the stories it tells. */
  datatype Story =
    | Begun
    | RejectedEarly
    | Judged(flagged: bool, rules: nat, ending: Ending)

  datatype Ending = Undecided | BlockedByRule | Started(outcome: Outcome)

  datatype Outcome =
    | Pending
    | RanOut
    | Interrupted
    | Ended(redacted: bool, resultRules: nat, resultFlagged: bool, completed: bool)

  function Repeat(e: Event, n: nat): (r: seq<Event>)
    ensures |r| == n && forall i :: 0 <= i < n ==> r[i] == e
  {
    seq(n, _ => e)
  }

  function When(b: bool, e: Event): seq<Event> { if b then [e] else [] }

  /** RECEIVED (FAILED | VALIDATED REDACTION RISK FLAGGED? RULE* ending)? */
  function Word(s: Story): seq<Event> {
    match s
    case Begun => [CallReceived]
    case RejectedEarly => [CallReceived, CallFailed]
    case Judged(flagged, rules, ending) =>
      [CallReceived] + Judgement(flagged, rules) + EndingWord(ending)
  }

  function Judgement(flagged: bool, rules: nat): seq<Event> {
    [CallValidated, RedactionApplied, RiskClassified] + When(flagged, CallFlagged) + Repeat(RuleMatched, rules)
  }

  /** (BLOCKED | STARTED outcome)? */
  function EndingWord(e: Ending): seq<Event> {
    match e
    case Undecided => []
    case BlockedByRule => [CallBlocked]
    case Started(outcome) => [CallStarted] + OutcomeWord(outcome)
  }

  /** (TIMED_OUT | RECOVERED | REDACTION? RULE* FLAGGED? (COMPLETED | FAILED))? */
  function OutcomeWord(o: Outcome): seq<Event> {
    match o
    case Pending => []
    case RanOut => [CallTimedOut]
    case Interrupted => [CallRecovered]
    case Ended(redacted, rules, flagged, completed) =>
      When(redacted, RedactionApplied) + Repeat(RuleMatched, rules) + When(flagged, CallFlagged)
      + [if completed then CallCompleted else CallFailed]
  }

  /** The statuses a call may have when its events tell this story. */
  predicate Fits(s: Story, status: Status) {
    match s
    case Begun => status == Received || status == Validating
    case RejectedEarly => status == Rejected
    case Judged(_, _, ending) =>
      match ending
      case Undecided => status == Evaluating
      case BlockedByRule => status == Blocked
      case Started(outcome) =>
        match outcome
        case Pending => status == Executing
        case RanOut => status == TimedOut
        case Interrupted => status == Failed
        case Ended(_, _, _, completed) => status == if completed then Succeeded else Failed
  }

  /** The word belongs to the language and its story fits the status. */
  ghost predicate Tells(word: seq<Event>, status: Status) {
    exists s :: TellsBy(word, status, s)
  }

  ghost predicate TellsBy(word: seq<Event>, status: Status, s: Story) { Word(s) == word && Fits(s, status) }

  // ------------------------------------------------- what a word says

  predicate IsTerminal(e: Event) {
    e.CallBlocked? || e.CallCompleted? || e.CallFailed? || e.CallTimedOut? || e.CallRecovered?
  }

  /** The terminal status a word decides, read off the word alone. */
  function Decides(word: seq<Event>): Option<Status> {
    if word == [] then None
    else match word[|word| - 1]
      case CallBlocked => Some(Blocked)
      case CallCompleted => Some(Succeeded)
      case CallTimedOut => Some(TimedOut)
      case CallRecovered => Some(Failed)
      case CallFailed => Some(if CallStarted in word then Failed else Rejected)
      case _ => None
  }

  function TerminalEvents(word: seq<Event>): nat {
    if word == [] then 0
    else TerminalEvents(word[..|word| - 1]) + if IsTerminal(word[|word| - 1]) then 1 else 0
  }

  lemma {:induction false} TerminalEventsAdd(a: seq<Event>, b: seq<Event>)
    ensures TerminalEvents(a + b) == TerminalEvents(a) + TerminalEvents(b)
  {
    if b == [] {
      assert a + b == a;
    } else {
      var front := b[..|b| - 1];
      TerminalEventsAdd(a, front);
      assert (a + b)[..|a + b| - 1] == a + front;
    }
  }

  lemma {:induction false} NoTerminalEvents(word: seq<Event>)
    requires forall i :: 0 <= i < |word| ==> !IsTerminal(word[i])
    ensures TerminalEvents(word) == 0
  {
    if word != [] { NoTerminalEvents(word[..|word| - 1]); }
  }

  lemma OneEvent(e: Event)
    ensures TerminalEvents([e]) == if IsTerminal(e) then 1 else 0
  {
    assert [e][..0] == [];
  }

  lemma JudgementIsOpen(flagged: bool, rules: nat)
    ensures TerminalEvents([CallReceived] + Judgement(flagged, rules)) == 0
    ensures CallStarted !in [CallReceived] + Judgement(flagged, rules)
    ensures forall e :: e in [CallReceived] + Judgement(flagged, rules) ==> !IsTerminal(e)
  {
    NoTerminalEvents([CallReceived] + Judgement(flagged, rules));
  }

  /** A word decides the terminal status, and a call is terminal exactly when its
      word has a terminal event; it never has two. */
  lemma WordDecides(word: seq<Event>, status: Status)
    requires Tells(word, status)
    ensures Decides(word) == if status.Terminal() then Some(status) else None
    ensures TerminalEvents(word) == if status.Terminal() then 1 else 0
  {
    var s :| TellsBy(word, status, s);
    assert Word(s) == word && Fits(s, status);
    StoryDecides(s);
    FitsDecides(s, status);
  }

  lemma FitsDecides(s: Story, status: Status)
    requires Fits(s, status)
    ensures StoryStatus(s) == if status.Terminal() then Some(status) else None
  {
  }

  /** The terminal status of a story, if it has come to one. */
  function StoryStatus(s: Story): Option<Status> {
    match s
    case Begun => None
    case RejectedEarly => Some(Rejected)
    case Judged(_, _, ending) => EndingStatus(ending)
  }

  lemma StoryDecides(s: Story)
    ensures Decides(Word(s)) == StoryStatus(s)
    ensures TerminalEvents(Word(s)) == if StoryStatus(s).Some? then 1 else 0
  {
    match s
    case Begun => OneEvent(CallReceived);
    case RejectedEarly => RejectionDecides();
    case Judged(flagged, rules, ending) => JudgedDecides(flagged, rules, ending);
  }

  lemma RejectionDecides()
    ensures TerminalEvents([CallReceived, CallFailed]) == 1
    ensures Decides([CallReceived, CallFailed]) == Some(Rejected)
  {
    OneEvent(CallReceived);
    OneEvent(CallFailed);
    TerminalEventsAdd([CallReceived], [CallFailed]);
    assert [CallReceived, CallFailed] == [CallReceived] + [CallFailed];
  }

  lemma JudgedDecides(flagged: bool, rules: nat, ending: Ending)
    ensures var word := Word(Judged(flagged, rules, ending));
      && TerminalEvents(word) == (if ending.Undecided? || ending == Started(Pending) then 0 else 1)
      && Decides(word) == EndingStatus(ending)
  {
    var front := [CallReceived] + Judgement(flagged, rules);
    JudgementIsOpen(flagged, rules);
    TerminalEventsAdd(front, EndingWord(ending));
    EndingDecides(front, ending);
    if ending.Undecided? {
      assert front + [] == front;
      var last := front[|front| - 1];
      assert !IsTerminal(last);
    }
  }

  function EndingStatus(e: Ending): Option<Status> {
    match e
    case Undecided => None
    case BlockedByRule => Some(Blocked)
    case Started(outcome) => OutcomeStatus(outcome)
  }

  lemma EndingDecides(front: seq<Event>, ending: Ending)
    requires CallStarted !in front && front != []
    ensures TerminalEvents(EndingWord(ending)) == if ending.Undecided? || ending == Started(Pending) then 0 else 1
    ensures ending.BlockedByRule? ==> Decides(front + EndingWord(ending)) == Some(Blocked)
    ensures ending.Started? ==> Decides(front + EndingWord(ending)) == OutcomeStatus(ending.outcome)
  {
    OneEvent(CallBlocked);
    OneEvent(CallStarted);
    if ending.Started? {
      var tail := OutcomeWord(ending.outcome);
      TerminalEventsAdd([CallStarted], tail);
      OutcomeIsOne(ending.outcome);
      var word := front + EndingWord(ending);
      assert word == front + [CallStarted] + tail;
      assert word[|front|] == CallStarted;
      assert tail != [] ==> word[|word| - 1] == tail[|tail| - 1];
    }
  }

  function OutcomeStatus(o: Outcome): Option<Status> {
    match o
    case Pending => None
    case RanOut => Some(TimedOut)
    case Interrupted => Some(Failed)
    case Ended(_, _, _, completed) => Some(if completed then Succeeded else Failed)
  }

  lemma OutcomeIsOne(o: Outcome)
    ensures TerminalEvents(OutcomeWord(o)) == if o.Pending? then 0 else 1
  {
    match o
    case Pending =>
    case RanOut => OneEvent(CallTimedOut);
    case Interrupted => OneEvent(CallRecovered);
    case Ended(redacted, rules, flagged, completed) =>
      var last := if completed then CallCompleted else CallFailed;
      var front := When(redacted, RedactionApplied) + Repeat(RuleMatched, rules) + When(flagged, CallFlagged);
      NoTerminalEvents(front);
      OneEvent(last);
      TerminalEventsAdd(front, [last]);
  }

  // ------------------------------------------------------ growing a word

  /** What evaluating the input appends. */
  function EvaluationEvents(flagged: bool, rules: nat, blocked: bool): seq<Event> {
    Judgement(flagged, rules) + When(blocked, CallBlocked)
  }

  /** What finalising appends. */
  function FinalEvents(redacted: bool, rules: nat, flagged: bool, completed: bool): seq<Event> {
    OutcomeWord(Ended(redacted, rules, flagged, completed))
  }

  lemma ReceivedTells()
    ensures Tells([CallReceived], Received)
  {
    assert TellsBy([CallReceived], Received, Begun);
  }

  lemma ValidatingTells(word: seq<Event>)
    requires Tells(word, Received)
    ensures Tells(word, Validating)
  {
    var s :| TellsBy(word, Received, s);
    assert TellsBy(word, Validating, s);
  }

  lemma RejectionTells(word: seq<Event>)
    requires Tells(word, Validating)
    ensures Tells(word + [CallFailed], Rejected)
  {
    assert word + [CallFailed] == Word(RejectedEarly);
    assert TellsBy(word + [CallFailed], Rejected, RejectedEarly);
  }

  lemma EvaluationTells(word: seq<Event>, flagged: bool, rules: nat, blocked: bool)
    requires Tells(word, Validating)
    ensures Tells(word + EvaluationEvents(flagged, rules, blocked), if blocked then Blocked else Evaluating)
  {
    var s := Judged(flagged, rules, if blocked then BlockedByRule else Undecided);
    assert word + EvaluationEvents(flagged, rules, blocked) == Word(s);
    assert TellsBy(word + EvaluationEvents(flagged, rules, blocked), if blocked then Blocked else Evaluating, s);
  }

  lemma StartTells(word: seq<Event>)
    requires Tells(word, Evaluating)
    ensures Tells(word + [CallStarted], Executing)
  {
    var s :| TellsBy(word, Evaluating, s);
    var t := s.(ending := Started(Pending));
    assert word + [CallStarted] == Word(t);
    assert TellsBy(word + [CallStarted], Executing, t);
  }

  lemma OutcomeTells(word: seq<Event>, outcome: Outcome, status: Status)
    requires Tells(word, Executing) && OutcomeStatus(outcome) == Some(status)
    ensures Tells(word + OutcomeWord(outcome), status)
  {
    var s :| TellsBy(word, Executing, s);
    var t := s.(ending := Started(outcome));
    var front, tail := [CallReceived] + Judgement(s.flagged, s.rules), OutcomeWord(outcome);
    Regroup(front, [CallStarted], tail);
    assert word == front + ([CallStarted] + []) && [CallStarted] + [] == [CallStarted];
    assert TellsBy(word + tail, status, t);
  }

  lemma Regroup(a: seq<Event>, b: seq<Event>, c: seq<Event>)
    ensures (a + b) + c == a + (b + c)
  {
  }

  /** The order of the events of an evaluation. */
  lemma EvaluationOrder(flagged: bool, rules: nat, blocked: bool)
    ensures var events := EvaluationEvents(flagged, rules, blocked);
      var after := if flagged then 4 else 3;
      && |events| == after + rules + (if blocked then 1 else 0)
      && events[0] == CallValidated && events[1] == RedactionApplied && events[2] == RiskClassified
      && (flagged ==> events[3] == CallFlagged)
      && (forall i :: after <= i < after + rules ==> events[i] == RuleMatched)
      && (blocked ==> events[after + rules] == CallBlocked)
  {
  }

  /** The order of the events of a result. */
  lemma FinalOrder(redacted: bool, rules: nat, flagged: bool, completed: bool)
    ensures var events := FinalEvents(redacted, rules, flagged, completed);
      var first := if redacted then 1 else 0;
      && |events| == first + rules + (if flagged then 1 else 0) + 1
      && (redacted ==> events[0] == RedactionApplied)
      && (forall i :: first <= i < first + rules ==> events[i] == RuleMatched)
      && (flagged ==> events[first + rules] == CallFlagged)
      && events[|events| - 1] == if completed then CallCompleted else CallFailed
  {
  }
}
