/** The bounded agent loop (application/agent_runs.py) against any provider: one run
    from its creation to its end. */
module AgentLoop {
  import opened Options
  import opened AgentRuns
  import JsonValues
  import Text

  // --------------------------------------------------------- conversations

  datatype Role = System | User | Assistant | Tool

  datatype Requested = Requested(name: string, arguments: JsonValues.Json, id: Option<string>)

  datatype Message = Message(role: Role, content: string, calls: seq<Requested>, callId: Option<string>)

  /** An assistant message with k calls, k at least 1, and then their k answers, each
      under its call's identifier, in order. */
  predicate Round(ms: seq<Message>) {
    && ms != [] && ms[0].role == Assistant && |ms[0].calls| >= 1 && |ms| == 1 + |ms[0].calls|
    && forall i :: 0 <= i < |ms[0].calls| ==>
         ms[1 + i].role == Tool && ms[0].calls[i].id.Some? && ms[1 + i].callId == ms[0].calls[i].id
  }

  predicate Rounds(ms: seq<Message>)
    decreases |ms|
  {
    || ms == []
    || (var k := 1 + |ms[0].calls|;
        k <= |ms| && Round(ms[..k]) && Rounds(ms[k..]))
  }

  /** SYSTEM USER (ASSISTANT TOOL+)* */
  predicate Conversation(ms: seq<Message>) {
    |ms| >= 2 && ms[0].role == System && ms[1].role == User && Rounds(ms[2..])
  }

  lemma {:induction false} RoundsAppend(ms: seq<Message>, round: seq<Message>)
    requires Rounds(ms) && Round(round)
    ensures Rounds(ms + round)
    decreases |ms|
  {
    if ms == [] {
      assert ms + round == round;
      var k := 1 + |round[0].calls|;
      assert round[..k] == round && round[k..] == [];
    } else {
      var k := 1 + |ms[0].calls|;
      RoundsAppend(ms[k..], round);
      assert (ms + round)[..k] == ms[..k] && (ms + round)[k..] == ms[k..] + round;
    }
  }

  lemma ConversationAppends(ms: seq<Message>, round: seq<Message>)
    requires Conversation(ms) && Round(round)
    ensures Conversation(ms + round)
  {
    RoundsAppend(ms[2..], round);
    assert (ms + round)[2..] == ms[2..] + round;
  }

  // ------------------------------------------------- settings, surroundings

  /** size is the length of a message's JSON encoding; redact is the redactor on one
      text, None when it exceeds its limits. */
  datatype Settings = Settings(
    maxTurns: nat, maxToolCalls: nat, maxToolsPerTurn: nat, maxMessageBytes: nat, maxConversationBytes: nat,
    storeAnswer: bool, size: Message -> nat, redact: string -> Option<string>)

  /** What a provider call comes to. */
  datatype Reply =
    | RunDeadline
    | ProviderTimeout
    | ProviderError(code: string)
    | Malformed
    | Response(content: Option<string>, calls: seq<Requested>)

  /** What executing one requested tool comes to: an answer for the conversation, the
      run's deadline, or an unexpected exception. */
  datatype Execution = Answered(arguments: JsonValues.Json, payload: string) | DispatchDeadline | DispatchCrash

  /** The provider and the tools, turn by turn and call by call, and whether the
      application still accepts work. */
  datatype Surroundings = Surroundings(
    accepting: nat -> bool, reply: nat -> Reply, execute: (nat, nat) -> Execution, bound: set<string>,
    toolsTranslate: bool)

  datatype Trouble = Limit(code: string) | Failure(code: string) | Deadline | Unexpected

  datatype Checked<T> = Fine(value: T) | Raised(trouble: Trouble)

  /** answer: the redacted final answer. */
  datatype Outcome = Completed(answer: string) | Failed(trouble: Trouble)

  /** What start's handlers write for each kind of trouble. */
  function EndStatus(t: Trouble): RunStatus { if t.Limit? then LimitReached else RunFailed }

  function EndCode(t: Trouble): string {
    match t
    case Limit(code) => code
    case Failure(code) => code
    case Deadline => "agent_run_timeout"
    case Unexpected => "agent_provider_error"
  }

  // ---------------------------------------------------------------- limits

  function Total(settings: Settings, ms: seq<Message>): nat {
    if ms == [] then 0 else Total(settings, ms[..|ms| - 1]) + settings.size(ms[|ms| - 1])
  }

  /** Every message and the whole are within their byte limits. */
  predicate Within(settings: Settings, ms: seq<Message>) {
    && (forall i :: 0 <= i < |ms| ==> settings.size(ms[i]) <= settings.maxMessageBytes)
    && Total(settings, ms) <= settings.maxConversationBytes
  }

  // ---------------------------------------------- what a run should come to

  function Cleaned(settings: Settings, text: string): Checked<string> {
    match settings.redact(text)
    case Some(clean) => Fine(clean)
    case None => Raised(Limit("agent_message_too_large"))
  }

  /** The provider's identifier, or one made from the turn and the index. */
  function CallId(turn: nat, index: nat, requested: Requested): string {
    if requested.id.Some? && requested.id.value != "" then requested.id.value
    else "turn-" + Text.Decimal(turn) + "-call-" + Text.Decimal(index)
  }

  lemma DashComesAfter(digits: string, rest: string, n: nat)
    requires Text.AllDigits(digits) && n < |digits| + |rest| && (digits + rest)[n] == '-'
    ensures n >= |digits|
  {
  }

  lemma DigitsEnd(a: string, b: string, x: string, y: string)
    requires Text.AllDigits(a) && Text.AllDigits(x) && a + "-call-" + b == x + "-call-" + y
    ensures a == x && b == y
  {
    var whole := a + "-call-" + b;
    assert whole == a + ("-call-" + b) == x + ("-call-" + y);
    assert whole[|a|] == '-' && whole[|x|] == '-';
    DashComesAfter(x, "-call-" + y, |a|);
    DashComesAfter(a, "-call-" + b, |x|);
    assert whole[..|a|] == a && (x + "-call-" + y)[..|x|] == x;
    assert whole[|a| + 6..] == b && (x + "-call-" + y)[|x| + 6..] == y;
  }

  predicate Anonymous(requested: Requested) { requested.id.None? || requested.id.value == "" }

  /** The provider's own identifier is kept; the made ones differ from call to call. */
  lemma CallIdsSay(turn: nat, index: nat, requested: Requested, turn': nat, index': nat, requested': Requested)
    ensures !Anonymous(requested) ==> Some(CallId(turn, index, requested)) == requested.id
    ensures Anonymous(requested) && Anonymous(requested') && (turn, index) != (turn', index') ==>
      CallId(turn, index, requested) != CallId(turn', index', requested')
  {
    if Anonymous(requested) && Anonymous(requested')
      && CallId(turn, index, requested) == CallId(turn', index', requested')
    {
      var a, b, x, y := Text.Decimal(turn), Text.Decimal(index), Text.Decimal(turn'), Text.Decimal(index');
      assert CallId(turn, index, requested)[5..] == a + "-call-" + b;
      assert CallId(turn', index', requested')[5..] == x + "-call-" + y;
      DigitsEnd(a, b, x, y);
      Text.DecimalValue(turn);
      Text.DecimalValue(turn');
      Text.DecimalValue(index);
      Text.DecimalValue(index');
    }
  }

  /** One requested call as the conversation will show it, and its answer. */
  function Shown(
    settings: Settings, env: Surroundings, turn: nat, index: nat, requested: Requested): Checked<(Requested, Message)>
  {
    var execution :=
      if requested.name in env.bound then env.execute(turn, index) else Answered(JsonValues.Obj([]), UNKNOWN_TOOL);
    match execution
    case DispatchDeadline => Raised(Deadline)
    case DispatchCrash => Raised(Unexpected)
    case Answered(arguments, payload) =>
      var id := CallId(turn, index, requested);
      var message := Message(Tool, payload, [], Some(id));
      if settings.size(message) > settings.maxMessageBytes then Raised(Limit("agent_message_too_large"))
      else Fine((Requested(requested.name, arguments, Some(id)), message))
  }

  const UNKNOWN_TOOL := "{\"error_code\":\"unknown_tool\",\"status\":\"rejected\"}"

  /** A tool that is not bound is never executed: it is answered as unknown, under the
      call's identifier and with no arguments shown. */
  lemma UnknownTools(settings: Settings, env: Surroundings, turn: nat, index: nat, requested: Requested)
    requires requested.name !in env.bound
    ensures var shown := Shown(settings, env, turn, index, requested);
      && (shown.Fine? ==>
            && shown.value.0 == Requested(requested.name, JsonValues.Obj([]), Some(CallId(turn, index, requested)))
            && shown.value.1.content == "{\"error_code\":\"unknown_tool\",\"status\":\"rejected\"}")
      && (shown.Raised? ==> shown.trouble == Limit("agent_message_too_large"))
  {
  }

  /** The first n calls of a turn, unless one of them raised, and how many were begun. */
  function ShownFirst(settings: Settings, env: Surroundings, turn: nat, calls: seq<Requested>, n: nat)
    : (r: (Checked<seq<(Requested, Message)>>, nat))
    requires n <= |calls|
    ensures r.1 <= n && (r.0.Fine? ==> r.1 == n == |r.0.value|)
  {
    if n == 0 then (Fine([]), 0)
    else match ShownFirst(settings, env, turn, calls, n - 1)
      case (Raised(t), begun) => (Raised(t), begun)
      case (Fine(front), begun) =>
        match Shown(settings, env, turn, n, calls[n - 1])
        case Raised(t) => (Raised(t), begun + 1)
        case Fine(one) => (Fine(front + [one]), begun + 1)
  }

  /** What raised among the first calls is what the whole turn raises. */
  lemma {:induction false} RaisedEarly(settings: Settings, env: Surroundings, turn: nat, calls: seq<Requested>,
      n: nat, m: nat)
    requires n <= m <= |calls| && ShownFirst(settings, env, turn, calls, n).0.Raised?
    ensures ShownFirst(settings, env, turn, calls, m) == ShownFirst(settings, env, turn, calls, n)
    decreases m
  {
    if n < m { RaisedEarly(settings, env, turn, calls, n, m - 1); }
  }

  function CallsOf(shown: seq<(Requested, Message)>): (r: seq<Requested>)
    ensures |r| == |shown| && forall i :: 0 <= i < |r| ==> r[i] == shown[i].0
  {
    seq(|shown|, i requires 0 <= i < |shown| => shown[i].0)
  }

  function AnswersOf(shown: seq<(Requested, Message)>): (r: seq<Message>)
    ensures |r| == |shown| && forall i :: 0 <= i < |r| ==> r[i] == shown[i].1
  {
    seq(|shown|, i requires 0 <= i < |shown| => shown[i].1)
  }

  /** The round a turn adds, and the dispatches begun for it. */
  function RoundOf(settings: Settings, env: Surroundings, turn: nat, content: string, calls: seq<Requested>)
    : (Checked<seq<Message>>, nat)
  {
    match ShownFirst(settings, env, turn, calls, |calls|)
    case (Raised(t), begun) => (Raised(t), begun)
    case (Fine(shown), begun) =>
      match Cleaned(settings, content)
      case Raised(t) => (Raised(t), begun)
      case Fine(clean) => (Fine([Message(Assistant, clean, CallsOf(shown), None)] + AnswersOf(shown)), begun)
  }

  /** The conversation after a turn with tool calls, and the dispatches begun so far. */
  function AfterTurn(
    settings: Settings, env: Surroundings, turn: nat, messages: seq<Message>, content: string, calls: seq<Requested>,
    dispatched: nat) : (Checked<seq<Message>>, nat)
  {
    if |calls| > settings.maxToolsPerTurn then (Raised(Limit("agent_tools_per_turn_limit_reached")), dispatched)
    else if dispatched + |calls| > settings.maxToolCalls
        then (Raised(Limit("agent_tool_call_limit_reached")), dispatched)
    else match RoundOf(settings, env, turn, content, calls)
      case (Raised(t), begun) => (Raised(t), dispatched + begun)
      case (Fine(round), begun) =>
        (match Overlong(settings, messages + round)
         case Some(t) => Raised(t)
         case None => Fine(messages + round), dispatched + begun)
  }

  /** The first limit a conversation breaks. */
  function Overlong(settings: Settings, ms: seq<Message>): Option<Trouble> {
    if exists i :: 0 <= i < |ms| && settings.size(ms[i]) > settings.maxMessageBytes
    then Some(Limit("agent_message_too_large"))
    else if Total(settings, ms) > settings.maxConversationBytes then Some(Limit("agent_conversation_too_large"))
    else None
  }

  function AnswerOutcome(settings: Settings, content: string): Outcome {
    match Cleaned(settings, content)
    case Raised(t) => Failed(t)
    case Fine(answer) =>
      if settings.size(Message(Assistant, answer, [], None)) > settings.maxMessageBytes
      then Failed(Limit("agent_message_too_large"))
      else Completed(answer)
  }

  function ReplyTrouble(reply: Reply): Trouble
    requires !reply.Response?
  {
    match reply
    case RunDeadline => Deadline
    case ProviderTimeout => Failure("ollama_timeout")
    case ProviderError(code) => Failure(code)
    case Malformed => Failure("invalid_provider_response")
  }

  function ContentOf(reply: Reply): string
    requires reply.Response?
  {
    if reply.content.Some? then reply.content.value else ""
  }

  /** Stands for the fixed text of the system message. */
  const SYSTEM_PROMPT := "toolwatch-agent-system-v1"

  /** The first two messages, unless the tools, the prompt or the limits forbid them. */
  function Opened(settings: Settings, env: Surroundings, prompt: string): Checked<seq<Message>> {
    if !env.toolsTranslate then Raised(Failure("agent_tool_schema_error"))
    else match Cleaned(settings, prompt)
      case Raised(t) => Raised(t)
      case Fine(clean) =>
        var messages := [Message(System, SYSTEM_PROMPT, [], None), Message(User, clean, [], None)];
        match Overlong(settings, messages)
        case Some(t) => Raised(t)
        case None => Fine(messages)
  }

  /** How a whole run ends, from its prompt. */
  function Ending(settings: Settings, env: Surroundings, prompt: string): End {
    match Opened(settings, env, prompt)
    case Raised(t) => End(Failed(t), [], 0)
    case Fine(messages) => Play(settings, env, 1, messages, 0)
  }

  /** How a run ends, the conversations it sends from here on, and the dispatches begun in all. */
  datatype End = End(outcome: Outcome, sent: seq<seq<Message>>, dispatched: nat)

  /** The run from this turn on, as a function of the surroundings. */
  function Play(settings: Settings, env: Surroundings, turn: nat, messages: seq<Message>, dispatched: nat): End
    requires turn <= settings.maxTurns + 1
    decreases settings.maxTurns + 1 - turn
  {
    if turn == settings.maxTurns + 1 then End(Failed(Limit("agent_turn_limit_reached")), [], dispatched)
    else if !env.accepting(turn) then End(Failed(Failure("application_shutting_down")), [], dispatched)
    else
      var reply := env.reply(turn);
      if !reply.Response? then End(Failed(ReplyTrouble(reply)), [messages], dispatched)
      else if reply.calls == [] then End(AnswerOutcome(settings, ContentOf(reply)), [messages], dispatched)
      else match AfterTurn(settings, env, turn, messages, ContentOf(reply), reply.calls, dispatched)
        case (Raised(t), begun) => End(Failed(t), [messages], begun)
        case (Fine(longer), begun) =>
          var rest := Play(settings, env, turn + 1, longer, begun);
          rest.(sent := [messages] + rest.sent)
  }

  /** What the run comes to from this turn on, case by case. */
  lemma PlayStep(settings: Settings, env: Surroundings, turn: nat, messages: seq<Message>, dispatched: nat)
    requires turn <= settings.maxTurns
    ensures var e := Play(settings, env, turn, messages, dispatched);
      var reply := env.reply(turn);
      && (!env.accepting(turn) ==> e == End(Failed(Failure("application_shutting_down")), [], dispatched))
      && (env.accepting(turn) && !reply.Response? ==> e == End(Failed(ReplyTrouble(reply)), [messages], dispatched))
      && (env.accepting(turn) && reply.Response? && reply.calls == [] ==>
            e == End(AnswerOutcome(settings, ContentOf(reply)), [messages], dispatched))
      && (env.accepting(turn) && reply.Response? && reply.calls != [] ==>
            var (next, begun) := AfterTurn(settings, env, turn, messages, ContentOf(reply), reply.calls, dispatched);
            if next.Raised? then e == End(Failed(next.trouble), [messages], begun)
            else GoesOn(e, messages, Play(settings, env, turn + 1, next.value, begun)))
  {
  }

  /** What the first part sent comes before what the rest sends. */
  predicate Continues(whole: End, sent: seq<seq<Message>>, rest: End) {
    whole.outcome == rest.outcome && whole.dispatched == rest.dispatched && whole.sent == sent + rest.sent
  }

  /** The run stops here: this is its outcome, and all it still sent. */
  predicate StopsWith(e: End, outcome: Outcome, before: seq<seq<Message>>, after: seq<seq<Message>>, dispatched: nat) {
    e.outcome == outcome && e.dispatched == dispatched && after == before + e.sent
  }

  /** The run sends these messages and goes on. */
  predicate GoesOn(e: End, messages: seq<Message>, rest: End) { e == rest.(sent := [messages] + rest.sent) }

  lemma ContinuesOn(whole: End, sent: seq<seq<Message>>, e: End, messages: seq<Message>, rest: End)
    requires Continues(whole, sent, e) && GoesOn(e, messages, rest)
    ensures Continues(whole, sent + [messages], rest)
  {
    assert sent + ([messages] + rest.sent) == (sent + [messages]) + rest.sent;
  }

  // ------------------------------------------- bounds for every provider

  lemma ShownGrows(settings: Settings, env: Surroundings, turn: nat, calls: seq<Requested>, n: nat,
      shown: seq<(Requested, Message)>)
    requires n < |calls| && ShownFirst(settings, env, turn, calls, n) == (Fine(shown), n)
    ensures ShownFirst(settings, env, turn, calls, n + 1) ==
      match Shown(settings, env, turn, n + 1, calls[n])
      case Raised(t) => (Raised(t), n + 1)
      case Fine(one) => (Fine(shown + [one]), n + 1)
  {
  }

  lemma PairsAppend(shown: seq<(Requested, Message)>, one: (Requested, Message))
    ensures CallsOf(shown + [one]) == CallsOf(shown) + [one.0] && AnswersOf(shown + [one]) == AnswersOf(shown) + [one.1]
  {
  }

  lemma {:induction false} ShownArePaired(settings: Settings, env: Surroundings, turn: nat, calls: seq<Requested>,
      n: nat)
    requires n <= |calls| && ShownFirst(settings, env, turn, calls, n).0.Fine?
    ensures var shown := ShownFirst(settings, env, turn, calls, n).0.value; forall i :: 0 <= i < n ==> Paired(shown[i])
  {
    if n > 0 { ShownArePaired(settings, env, turn, calls, n - 1); }
  }

  lemma RoundsAreRounds(settings: Settings, env: Surroundings, turn: nat, content: string, calls: seq<Requested>)
    requires calls != []
    ensures var (r, begun) := RoundOf(settings, env, turn, content, calls);
      begun <= |calls| && (r.Fine? ==> Round(r.value) && begun == |calls|)
  {
    if ShownFirst(settings, env, turn, calls, |calls|).0.Fine? { ShownArePaired(settings, env, turn, calls, |calls|); }
  }

  lemma NotOverlong(settings: Settings, ms: seq<Message>)
    requires Overlong(settings, ms).None?
    ensures Within(settings, ms)
  {
  }

  /** A turn that goes on adds one round within the limits; none begins more
      dispatches than allowed. */
  lemma TurnIsBounded(
    settings: Settings, env: Surroundings, turn: nat, messages: seq<Message>, content: string, calls: seq<Requested>,
    dispatched: nat)
    requires Conversation(messages) && calls != [] && dispatched <= settings.maxToolCalls
    ensures var (r, begun) := AfterTurn(settings, env, turn, messages, content, calls, dispatched);
      && dispatched <= begun <= settings.maxToolCalls
      && (r.Fine? ==> Conversation(r.value) && Within(settings, r.value) && messages <= r.value)
      && (r.Fine? ==> begun == dispatched + |calls|)
  {
    RoundsAreRounds(settings, env, turn, content, calls);
    var (round, _) := RoundOf(settings, env, turn, content, calls);
    if round.Fine? {
      ConversationAppends(messages, round.value);
      if Overlong(settings, messages + round.value).None? { NotOverlong(settings, messages + round.value); }
    }
  }

  /** Sent before conversations that carry on from it. */
  lemma {:induction false} SentFirst(settings: Settings, messages: seq<Message>, rest: seq<seq<Message>>)
    requires Conversation(messages) && Within(settings, messages)
    requires SentWell(settings, rest) && (rest != [] ==> messages <= rest[0])
    ensures SentWell(settings, [messages] + rest)
    decreases |rest|
  {
    if rest == [] {
      SendsWell(settings, [], messages);
      assert [messages] + rest == [] + [messages];
    } else {
      var last := |rest| - 1;
      SentFirst(settings, messages, rest[..last]);
      var front := [messages] + rest[..last];
      assert front[|front| - 1] == if last == 0 then messages else rest[..last][last - 1];
      SendsWell(settings, front, rest[last]);
      assert front + [rest[last]] == [messages] + rest;
    }
  }

  /** What holds of every end of a run with this many turns left. */
  predicate Bounded(settings: Settings, turns: nat, messages: seq<Message>, dispatched: nat, e: End) {
    && |e.sent| <= turns && dispatched <= e.dispatched <= settings.maxToolCalls
    && SentWell(settings, e.sent) && (e.sent != [] ==> e.sent[0] == messages)
    && (e.outcome.Completed? ==> e.sent != [])
  }

  lemma BoundedOn(
    settings: Settings, turns: nat, messages: seq<Message>, dispatched: nat, longer: seq<Message>, begun: nat,
    rest: End)
    requires Conversation(messages) && Within(settings, messages) && messages <= longer && dispatched <= begun
    requires Bounded(settings, turns, longer, begun, rest)
    ensures Bounded(settings, turns + 1, messages, dispatched, rest.(sent := [messages] + rest.sent))
  {
    SentFirst(settings, messages, rest.sent);
  }

  /** This turn's reply asks for tools, and the conversation can go on after them. */
  predicate Continuing(settings: Settings, env: Surroundings, turn: nat, messages: seq<Message>, dispatched: nat) {
    && turn <= settings.maxTurns && env.accepting(turn) && env.reply(turn).Response? && env.reply(turn).calls != []
    && AfterTurn(settings, env, turn, messages, ContentOf(env.reply(turn)), env.reply(turn).calls, dispatched).0.Fine?
  }

  /** A run that stops at this turn has sent at most this conversation. */
  lemma PlayStops(settings: Settings, env: Surroundings, turn: nat, messages: seq<Message>, dispatched: nat)
    requires turn <= settings.maxTurns + 1 && dispatched <= settings.maxToolCalls && Conversation(messages)
    requires !Continuing(settings, env, turn, messages, dispatched)
    ensures var e := Play(settings, env, turn, messages, dispatched);
      && (e.sent == [] || (e.sent == [messages] && turn <= settings.maxTurns))
      && (e.outcome.Completed? ==> e.sent != [])
      && dispatched <= e.dispatched <= settings.maxToolCalls
  {
    if turn <= settings.maxTurns && env.reply(turn).Response? && env.reply(turn).calls != [] {
      TurnIsBounded(settings, env, turn, messages, ContentOf(env.reply(turn)), env.reply(turn).calls, dispatched);
    }
  }

  /** A run that goes on sends this conversation and then what the longer one leads to. */
  lemma PlayGoesOn(settings: Settings, env: Surroundings, turn: nat, messages: seq<Message>, dispatched: nat)
    returns (longer: seq<Message>, begun: nat)
    requires dispatched <= settings.maxToolCalls && Conversation(messages)
    requires Continuing(settings, env, turn, messages, dispatched)
    ensures GoesOn(Play(settings, env, turn, messages, dispatched), messages,
      Play(settings, env, turn + 1, longer, begun))
    ensures dispatched <= begun <= settings.maxToolCalls
    ensures Conversation(longer) && Within(settings, longer) && messages <= longer
  {
    var (next, count) := AfterTurn(settings, env, turn, messages, ContentOf(env.reply(turn)), env.reply(turn).calls,
        dispatched);
    TurnIsBounded(settings, env, turn, messages, ContentOf(env.reply(turn)), env.reply(turn).calls, dispatched);
    longer, begun := next.value, count;
  }

  lemma StopIsBounded(settings: Settings, turns: nat, messages: seq<Message>, dispatched: nat, e: End)
    requires Conversation(messages) && Within(settings, messages) && dispatched <= e.dispatched <= settings.maxToolCalls
    requires e.sent == [] || (e.sent == [messages] && turns >= 1)
    requires e.outcome.Completed? ==> e.sent != []
    ensures Bounded(settings, turns, messages, dispatched, e)
  {
    SentFirst(settings, messages, []);
    assert [messages] + [] == [messages];
  }

  /** Whatever the provider and the tools do: no more provider calls than turns are
      left, no more dispatches than allowed, every conversation sent well formed and
      within its limits, each carrying on the one before. */
  lemma {:induction false} PlayIsBounded(settings: Settings, env: Surroundings, turn: nat, messages: seq<Message>,
      dispatched: nat)
    requires turn <= settings.maxTurns + 1 && dispatched <= settings.maxToolCalls
    requires Conversation(messages) && Within(settings, messages)
    ensures Bounded(settings, settings.maxTurns + 1 - turn, messages, dispatched,
      Play(settings, env, turn, messages, dispatched))
    decreases settings.maxTurns + 1 - turn
  {
    if Continuing(settings, env, turn, messages, dispatched) {
      var longer, begun := PlayGoesOn(settings, env, turn, messages, dispatched);
      PlayIsBounded(settings, env, turn + 1, longer, begun);
      BoundedOn(settings, settings.maxTurns - turn, messages, dispatched, longer, begun,
          Play(settings, env, turn + 1, longer, begun));
    } else {
      PlayStops(settings, env, turn, messages, dispatched);
      StopIsBounded(settings, settings.maxTurns + 1 - turn, messages, dispatched,
          Play(settings, env, turn, messages, dispatched));
    }
  }

  // ----------------------------------------------------- why a run stops

  /** The reply asks for no tools, and this is what the redactor makes of its text,
      within the message limit. */
  predicate AnswersWith(settings: Settings, reply: Reply, answer: string) {
    && reply.Response? && reply.calls == []
    && settings.redact(if reply.content.Some? then reply.content.value else "") == Some(answer)
    && settings.size(Message(Assistant, answer, [], None)) <= settings.maxMessageBytes
  }

  /** Some requested tool of this turn ran into the run's deadline. */
  predicate DispatchTimedOut(env: Surroundings, turn: nat) {
    env.reply(turn).Response? && exists i :: 0 <= i < |env.reply(turn).calls| && OneTimedOut(env, turn, i)
  }

  predicate OneTimedOut(env: Surroundings, turn: nat, i: nat)
    requires env.reply(turn).Response? && i < |env.reply(turn).calls|
  {
    env.reply(turn).calls[i].name in env.bound && env.execute(turn, i + 1) == DispatchDeadline
  }

  /** What a run that stopped after this provider call says of it. */
  predicate EndsFor(settings: Settings, env: Surroundings, last: nat, e: End) {
    match e.outcome
    case Completed(answer) => 1 <= last <= settings.maxTurns && AnswersWith(settings, env.reply(last), answer)
    case Failed(Limit(code)) =>
      && (code == "agent_turn_limit_reached" ==> last == settings.maxTurns)
      && (code == "agent_tools_per_turn_limit_reached" ==>
            env.reply(last).Response? && |env.reply(last).calls| > settings.maxToolsPerTurn)
      && (code == "agent_tool_call_limit_reached" ==>
            env.reply(last).Response? && e.dispatched + |env.reply(last).calls| > settings.maxToolCalls)
    case Failed(Deadline) => env.reply(last) == RunDeadline || DispatchTimedOut(env, last)
    case _ => true
  }

  lemma ShownRaises(settings: Settings, env: Surroundings, turn: nat, calls: seq<Requested>, n: nat)
    requires n <= |calls| && env.reply(turn).Response? && env.reply(turn).calls == calls
    requires ShownFirst(settings, env, turn, calls, n).0.Raised?
    ensures var t := ShownFirst(settings, env, turn, calls, n).0.trouble;
      && (t.Limit? ==> t.code == "agent_message_too_large")
      && (t.Deadline? ==> DispatchTimedOut(env, turn))
  {
    if n > 0 {
      if ShownFirst(settings, env, turn, calls, n - 1).0.Raised? {
        ShownRaises(settings, env, turn, calls, n - 1);
      } else if Shown(settings, env, turn, n, calls[n - 1]) == Raised(Deadline) {
        assert OneTimedOut(env, turn, n - 1);
      }
    }
  }

  lemma TurnRaises(settings: Settings, env: Surroundings, turn: nat, messages: seq<Message>, dispatched: nat)
    requires env.reply(turn).Response? && env.reply(turn).calls != []
    requires 1 <= turn <= settings.maxTurns
    ensures var (r, begun) := AfterTurn(settings, env, turn, messages, ContentOf(env.reply(turn)),
        env.reply(turn).calls, dispatched);
      r.Raised? ==> EndsFor(settings, env, turn, End(Failed(r.trouble), [messages], begun))
  {
    var calls := env.reply(turn).calls;
    assert |"agent_message_too_large"| != |"agent_turn_limit_reached"|;
    if ShownFirst(settings, env, turn, calls, |calls|).0.Raised? {
      ShownRaises(settings, env, turn, calls, |calls|);
    }
  }

  /** A run that stops at this turn says why. */
  lemma StopEndsFor(settings: Settings, env: Surroundings, turn: nat, messages: seq<Message>, dispatched: nat)
    requires 1 <= turn <= settings.maxTurns + 1 && !Continuing(settings, env, turn, messages, dispatched)
    ensures var e := Play(settings, env, turn, messages, dispatched);
      EndsFor(settings, env, turn - 1 + |e.sent|, e)
  {
    if turn <= settings.maxTurns && env.accepting(turn) && env.reply(turn).Response? && env.reply(turn).calls != [] {
      TurnRaises(settings, env, turn, messages, dispatched);
    }
  }

  /** The two ends come to the same, after the same last turn. */
  predicate SameEnd(e: End, turn: nat, rest: End, last: nat) {
    e.outcome == rest.outcome && e.dispatched == rest.dispatched && turn + |e.sent| == last + |rest.sent|
  }

  lemma PlaysOn(settings: Settings, env: Surroundings, turn: nat, messages: seq<Message>, dispatched: nat)
    returns (longer: seq<Message>, begun: nat)
    requires Continuing(settings, env, turn, messages, dispatched)
    ensures SameEnd(Play(settings, env, turn, messages, dispatched), turn,
                    Play(settings, env, turn + 1, longer, begun), turn + 1)
  {
    var (next, count) := AfterTurn(settings, env, turn, messages, ContentOf(env.reply(turn)),
        env.reply(turn).calls, dispatched);
    longer, begun := next.value, count;
  }

  /** Every run has a turn at which it stops. */
  lemma {:induction false} LastTurn(
    settings: Settings, env: Surroundings, turn: nat, messages: seq<Message>, dispatched: nat)
    returns (last: nat, ms: seq<Message>, d: nat)
    requires 1 <= turn <= settings.maxTurns + 1
    ensures turn <= last <= settings.maxTurns + 1 && !Continuing(settings, env, last, ms, d)
    ensures SameEnd(Play(settings, env, turn, messages, dispatched), turn, Play(settings, env, last, ms, d), last)
    decreases settings.maxTurns + 1 - turn
  {
    if Continuing(settings, env, turn, messages, dispatched) {
      var longer, begun := PlaysOn(settings, env, turn, messages, dispatched);
      last, ms, d := LastTurn(settings, env, turn + 1, longer, begun);
    } else {
      last, ms, d := turn, messages, dispatched;
    }
  }

  /** A completed run answers with what the redactor makes of the last reply, which
      asked for no tools; a limit or the deadline ends a run for its own reason. */
  lemma RunEndsFor(settings: Settings, env: Surroundings, prompt: string)
    requires Opened(settings, env, prompt).Fine?
    ensures var e := Ending(settings, env, prompt); EndsFor(settings, env, |e.sent|, e)
  {
    var last, ms, d := LastTurn(settings, env, 1, Opened(settings, env, prompt).value, 0);
    StopEndsFor(settings, env, last, ms, d);
  }

  predicate Ended(c: ModelCall) { c.status != Started }

  /** Model calls are in order and numbered 1, 2, 3 and so on. */
  predicate Turns(models: seq<ModelCall>) {
    forall i :: 0 <= i < |models| ==> models[i].turn == i + 1 && ModelConsistent(models[i])
  }

  /** What the row of a provider call says of the reply. */
  predicate Records(reply: Reply, row: ModelCall) {
    match reply
    case RunDeadline => row.status == ModelTimedOut && row.error == Some("agent_run_timeout")
    case ProviderTimeout => row.status == ModelTimedOut && row.error == Some("ollama_timeout")
    case ProviderError(code) => row.status == ModelFailed && row.error == Some(code)
    case Malformed => row.status == ModelFailed && row.error == Some("invalid_provider_response")
    case Response(_, calls) => row.status == ModelCompleted && row.error == None && row.requested == |calls|
  }

  /** Every one of these rows has ended as its provider's reply makes it end. */
  predicate AllEnded(env: Surroundings, models: seq<ModelCall>) {
    forall i :: 0 <= i < |models| ==> Ended(models[i]) && Records(env.reply(i + 1), models[i])
  }

  /** Every conversation sent was well formed and within the limits, and carried on
      the one before. */
  predicate SentWell(settings: Settings, sent: seq<seq<Message>>)
    decreases |sent|
  {
    || sent == []
    || (var last := |sent| - 1;
        && SentWell(settings, sent[..last])
        && Conversation(sent[last]) && Within(settings, sent[last])
        && CarriesOn(sent[..last], sent[last]))
  }

  /** What was sent last is how these messages begin. */
  predicate CarriesOn(sent: seq<seq<Message>>, messages: seq<Message>) {
    sent != [] ==> sent[|sent| - 1] <= messages
  }

  lemma {:induction false} EachWasSentWell(settings: Settings, sent: seq<seq<Message>>, i: nat)
    requires SentWell(settings, sent) && i < |sent|
    ensures Conversation(sent[i]) && Within(settings, sent[i]) && (i > 0 ==> sent[i - 1] <= sent[i])
    decreases |sent|
  {
    var last := |sent| - 1;
    if i < last {
      EachWasSentWell(settings, sent[..last], i);
    } else if i > 0 {
      assert sent[..last][i - 1] == sent[i - 1];
    }
  }

  lemma SendsWell(settings: Settings, sent: seq<seq<Message>>, messages: seq<Message>)
    requires SentWell(settings, sent) && Conversation(messages) && Within(settings, messages)
      && CarriesOn(sent, messages)
    ensures SentWell(settings, sent + [messages])
  {
    assert (sent + [messages])[..|sent|] == sent;
  }

  /** A call and its answer under one identifier. */
  predicate Paired(one: (Requested, Message)) {
    one.1.role == Tool && one.0.id.Some? && one.1.callId == one.0.id
  }

  class AgentRunService {
    const settings: Settings
    const env: Surroundings
    const now: int
    /** The run's row, its model calls' rows, the conversations sent, the dispatches
        begun and the run's terminal events. */
    var run: AgentRun
    var models: seq<ModelCall>
    var sent: seq<seq<Message>>
    var dispatched: nat
    var endings: nat

    constructor (settings: Settings, env: Surroundings, now: int, id: nat)
      ensures this.settings == settings && this.env == env && this.now == now
      ensures run == AgentRun(id, Created, 0, 0, None, None, None, now)
      ensures models == [] && sent == [] && dispatched == 0 && endings == 0
    {
      this.settings, this.env, this.now := settings, env, now;
      run := AgentRun(id, Created, 0, 0, None, None, None, now);
      models, sent, dispatched, endings := [], [], 0, 0;
    }

    /** What holds of the records at any time: ended is how many model calls are over. */
    ghost predicate InOrder(ended: nat)
      reads this
    {
      && AgentRuns.Consistent(run) && run.status != Created
      && ended <= |models| && Turns(models) && AllEnded(env, models[..ended]) && |models| <= settings.maxTurns
      && |sent| == |models| && SentWell(settings, sent)
      && dispatched <= settings.maxToolCalls && run.toolCalls <= dispatched
      && endings == (if run.status.Terminal() then 1 else 0)
      && (run.status != RunCompleted ==> run.answer.None?)
    }

    /** No provider call is under way. */
    ghost predicate Orderly()
      reads this
    {
      InOrder(|models|)
    }

    /** The run ended as this trouble ends it. */
    predicate EndedBy(t: Trouble)
      reads this
    {
      run.status == EndStatus(t) && run.error == Some(EndCode(t))
    }

    /** The run completed with this answer, stored if the settings say so, and with
        the counts of what it did. */
    predicate CompletedWith(answer: string)
      reads this
    {
      && run.status == RunCompleted && run.toolCalls == dispatched && run.turns == |models|
      && run.answer == if settings.storeAnswer then Some(answer) else None
    }

    // -------------------------------------------------------------- run row

    /** _finish_run: an ended run is left as it is. */
    method FinishRun(status: RunStatus, answer: Option<string>, error: Option<string>)
      requires Orderly() && status.Terminal() && (if status == RunCompleted then error.None? else answer.None?)
      modifies this`run, this`endings
      ensures Orderly() && run.status.Terminal()
      ensures if old(run).status.Terminal() then run == old(run)
        else
          && run.status == status && run.error == error
          && run.turns == old(run).turns && run.toolCalls == old(run).toolCalls
          && run.answer == (if settings.storeAnswer then answer else None)
    {
      if run.status.Terminal() { return; }
      run := Finish(run, status, if settings.storeAnswer then answer else None, error, now).value;
      endings := endings + 1;
    }

    // ----------------------------------------------------------- text checks

    method RedactText(text: string) returns (r: Checked<string>)
      ensures r == Cleaned(settings, text)
    {
      match settings.redact(text) {
        case Some(clean) => r := Fine(clean);
        case None => r := Raised(Limit("agent_message_too_large"));
      }
    }

    /** _validate_conversation: the running total over validated messages. */
    method ValidateConversation(ms: seq<Message>) returns (trouble: Option<Trouble>)
      ensures trouble.None? <==> Within(settings, ms)
      ensures trouble == Overlong(settings, ms)
    {
      var total := 0;
      for n := 0 to |ms|
        invariant total == Total(settings, ms[..n])
        invariant forall i :: 0 <= i < n ==> settings.size(ms[i]) <= settings.maxMessageBytes
      {
        assert ms[..n + 1][..n] == ms[..n];
        if settings.size(ms[n]) > settings.maxMessageBytes { return Some(Limit("agent_message_too_large")); }
        total := total + settings.size(ms[n]);
      }
      assert ms[..|ms|] == ms;
      if total > settings.maxConversationBytes { return Some(Limit("agent_conversation_too_large")); }
      return None;
    }

    // --------------------------------------------------------- provider calls

    /** The row of a provider call, and the conversation sent with it. */
    method BeginCall(turn: nat, messages: seq<Message>)
      requires Orderly() && turn == |models| + 1 <= settings.maxTurns
      requires Conversation(messages) && Within(settings, messages) && CarriesOn(sent, messages)
      modifies this`models, this`sent
      ensures |models| == turn && InOrder(turn - 1) && sent == old(sent) + [messages]
    {
      assert models[..|models|] == models;
      models := models + [ModelCall(|models|, run.id, turn, Started, 0, None, now, None)];
      sent := sent + [messages];
      assert models[..turn - 1] == old(models);
      SendsWell(settings, old(sent), messages);
    }

    /** Replace the last model call's row by its ended form. */
    method EndCall(status: ModelStatus, requested: nat, error: Option<string>)
      requires models != [] && status != Started && InOrder(|models| - 1)
      requires Records(env.reply(|models|), EndModelCall(models[|models| - 1], status, requested, error, now))
      modifies this`models
      ensures |models| == |old(models)| && Orderly()
    {
      var last := |models| - 1;
      assert forall i :: 0 <= i < last ==> models[..last][i] == models[i];
      models := models[last := EndModelCall(models[last], status, requested, error, now)];
      assert models[..|models|] == models;
    }

    /** _fail_model_call, and _fail_run for the provider's own failures. */
    method FailCall(status: ModelStatus, code: string, t: Trouble) returns (r: Checked<Reply>)
      requires models != [] && status != Started && InOrder(|models| - 1)
      requires run.status == Running && !t.Limit? && EndCode(t) == code
      requires Records(env.reply(|models|), EndModelCall(models[|models| - 1], status, 0, Some(code), now))
      modifies this`models, this`run, this`endings
      ensures Orderly() && |models| == |old(models)| && r == Raised(t)
      ensures run == old(run) || EndedBy(t)
    {
      EndCall(status, 0, Some(code));
      if t.Failure? { FinishRun(RunFailed, None, Some(code)); }
      r := Raised(t);
    }

    /** _complete_model_call: one row started and ended, one conversation sent. */
    method CompleteModelCall(turn: nat, messages: seq<Message>) returns (r: Checked<Reply>)
      requires Orderly() && run.status == Running && turn == |models| + 1 <= settings.maxTurns
      requires Conversation(messages) && Within(settings, messages) && CarriesOn(sent, messages)
      modifies this`models, this`sent, this`run, this`endings
      ensures Orderly()
      ensures r.Fine? ==> r.value.Response? && run == old(run) && |models| == turn && env.reply(turn) == r.value
      ensures sent == if env.accepting(turn) then old(sent) + [messages] else old(sent)
      ensures r == if !env.accepting(turn) then Raised(Failure("application_shutting_down"))
                   else if env.reply(turn).Response? then Fine(env.reply(turn))
                   else Raised(ReplyTrouble(env.reply(turn)))
      ensures r.Raised? ==> !r.trouble.Limit? && (run == old(run) || EndedBy(r.trouble))
    {
      if !env.accepting(turn) { return Raised(Failure("application_shutting_down")); }
      BeginCall(turn, messages);
      match env.reply(turn) {
        case RunDeadline => r := FailCall(ModelTimedOut, EndCode(Deadline), Deadline);
        case ProviderTimeout => r := FailCall(ModelTimedOut, "ollama_timeout", Failure("ollama_timeout"));
        case ProviderError(code) => r := FailCall(ModelFailed, code, Failure(code));
        case Malformed => r := FailCall(ModelFailed, "invalid_provider_response", Failure("invalid_provider_response"));
        case Response(content, calls) =>
          EndCall(ModelCompleted, |calls|, None);
          r := Fine(env.reply(turn));
      }
    }

    // --------------------------------------------------------------- dispatch

    /** _dispatch: the call as the conversation will show it, and its answer. */
    method Dispatch(turn: nat, index: nat, requested: Requested) returns (r: Checked<(Requested, Message)>)
      requires Orderly() && run.status == Running && dispatched < settings.maxToolCalls
      modifies this`dispatched
      ensures Orderly() && dispatched == old(dispatched) + 1
      ensures r == Shown(settings, env, turn, index, requested)
    {
      dispatched := dispatched + 1;
      var id := CallId(turn, index, requested);
      var arguments, payload;
      if requested.name !in env.bound {
        arguments, payload := JsonValues.Obj([]), UNKNOWN_TOOL;
      } else {
        match env.execute(turn, index) {
          case DispatchDeadline => return Raised(Deadline);
          case DispatchCrash => return Raised(Unexpected);
          case Answered(safe, text) => arguments, payload := safe, text;
        }
      }
      var message := Message(Tool, payload, [], Some(id));
      if settings.size(message) > settings.maxMessageBytes { return Raised(Limit("agent_message_too_large")); }
      return Fine((Requested(requested.name, arguments, Some(id)), message));
    }

    /** One turn's calls, dispatched in order until one raises. */
    method DispatchCalls(turn: nat, calls: seq<Requested>)
        returns (r: Checked<(seq<Requested>, seq<Message>)>, ghost shown: seq<(Requested, Message)>)
      requires Orderly() && run.status == Running && dispatched + |calls| <= settings.maxToolCalls
      modifies this`dispatched
      ensures Orderly() && dispatched == old(dispatched) + ShownFirst(settings, env, turn, calls, |calls|).1
      ensures r.Fine? ==>
        && ShownFirst(settings, env, turn, calls, |calls|).0 == Fine(shown)
        && r.value.0 == CallsOf(shown) && r.value.1 == AnswersOf(shown)
      ensures r.Raised? ==> ShownFirst(settings, env, turn, calls, |calls|).0 == Raised(r.trouble)
    {
      var safeCalls: seq<Requested> := [];
      var answers: seq<Message> := [];
      shown := [];
      for n := 0 to |calls|
        invariant Orderly() && dispatched == old(dispatched) + n
        invariant |shown| == n && ShownFirst(settings, env, turn, calls, n) == (Fine(shown), n)
        invariant safeCalls == CallsOf(shown) && answers == AnswersOf(shown)
      {
        ShownGrows(settings, env, turn, calls, n, shown);
        var one := Dispatch(turn, n + 1, calls[n]);
        if one.Raised? {
          RaisedEarly(settings, env, turn, calls, n + 1, |calls|);
          return Raised(one.trouble), shown;
        }
        PairsAppend(shown, one.value);
        safeCalls, answers := safeCalls + [one.value.0], answers + [one.value.1];
        shown := shown + [one.value];
      }
      return Fine((safeCalls, answers)), shown;
    }

    /** The round a turn's dispatches make. */
    method DispatchAll(turn: nat, content: string, calls: seq<Requested>) returns (r: Checked<seq<Message>>)
      requires Orderly() && run.status == Running && calls != [] && dispatched + |calls| <= settings.maxToolCalls
      modifies this`dispatched
      ensures Orderly()
      ensures r == RoundOf(settings, env, turn, content, calls).0
      ensures dispatched == old(dispatched) + RoundOf(settings, env, turn, content, calls).1
    {
      ghost var shown;
      var both;
      both, shown := DispatchCalls(turn, calls);
      if both.Raised? { return Raised(both.trouble); }
      var clean := RedactText(content);
      if clean.Raised? { return Raised(clean.trouble); }
      return Fine([Message(Assistant, clean.value, both.value.0, None)] + both.value.1);
    }

    // --------------------------------------------------------------- the loop

    /** _limit_run */
    method LimitRun(code: string) returns (outcome: Outcome)
      requires Orderly()
      modifies this`run, this`endings
      ensures Orderly() && run.status.Terminal() && outcome == Failed(Limit(code))
      ensures old(run).status == Running ==> EndedBy(Limit(code))
      ensures run.toolCalls == old(run).toolCalls
    {
      FinishRun(LimitReached, None, Some(code));
      outcome := Failed(Limit(code));
    }

    /** The end of the loop: the answer is checked, the counts are persisted and the
        run completes. */
    method Answer(turn: nat, content: string) returns (outcome: Outcome)
      requires Orderly() && run.status == Running && |models| == turn
      modifies this`run, this`endings
      ensures Orderly() && outcome == AnswerOutcome(settings, content)
      ensures outcome.Completed? ==> CompletedWith(outcome.answer)
      ensures !outcome.Completed? ==> outcome.trouble.Limit? && run == old(run)
    {
      var answer := RedactText(content);
      if answer.Raised? { return Failed(answer.trouble); }
      if settings.size(Message(Assistant, answer.value, [], None)) > settings.maxMessageBytes {
        return Failed(Limit("agent_message_too_large"));
      }
      run := Progress(run, turn, dispatched, now).value;
      FinishRun(RunCompleted, Some(answer.value), None);
      return Completed(answer.value);
    }

    /** The checks, the dispatches and the new round of one turn with tool calls. */
    method TakeTurn(turn: nat, messages: seq<Message>, content: string, calls: seq<Requested>)
      returns (r: Checked<seq<Message>>)
      requires Orderly() && run.status == Running && |models| == turn && calls != []
      requires Conversation(messages)
      modifies this
      ensures Orderly() && models == old(models) && sent == old(sent)
      ensures (r, dispatched) == AfterTurn(settings, env, turn, messages, content, calls, old(dispatched))
      ensures r.Fine? ==>
        && run.status == Running && run.toolCalls == dispatched == old(dispatched) + |calls| && run.turns == turn
        && Conversation(r.value) && Within(settings, r.value) && messages <= r.value
      ensures r.Raised? ==> run.status == Running || EndedBy(r.trouble)
    {
      TurnIsBounded(settings, env, turn, messages, content, calls, dispatched);
      if |calls| > settings.maxToolsPerTurn {
        var limited := LimitRun("agent_tools_per_turn_limit_reached");
        return Raised(limited.trouble);
      }
      if dispatched + |calls| > settings.maxToolCalls {
        var limited := LimitRun("agent_tool_call_limit_reached");
        return Raised(limited.trouble);
      }
      var round := DispatchAll(turn, content, calls);
      if round.Raised? { return Raised(round.trouble); }
      var trouble := ValidateConversation(messages + round.value);
      if trouble.Some? { return Raised(trouble.value); }
      run := Progress(run, turn, dispatched, now).value;
      return Fine(messages + round.value);
    }

    /** The body of the loop: one provider call and what it leads to. */
    method OneTurn(turn: nat, messages: seq<Message>) returns (outcome: Option<Outcome>, longer: seq<Message>)
      requires Orderly() && run.status == Running && 1 <= turn == |models| + 1 <= settings.maxTurns
      requires run.toolCalls == dispatched && Conversation(messages) && Within(settings, messages)
        && CarriesOn(sent, messages)
      modifies this
      ensures Orderly()
      ensures outcome.Some? ==>
        StopsWith(Play(settings, env, turn, messages, old(dispatched)), outcome.value, old(sent), sent, dispatched)
      ensures outcome.Some? ==>
        && (outcome.value.Completed? ==> CompletedWith(outcome.value.answer))
        && (outcome.value.Failed? ==> run.status == Running || EndedBy(outcome.value.trouble))
      ensures outcome.None? ==>
        && run.status == Running && run.toolCalls == dispatched && |models| == turn
        && Conversation(longer) && Within(settings, longer) && messages <= longer && sent == old(sent) + [messages]
        && GoesOn(Play(settings, env, turn, messages, old(dispatched)), messages,
           Play(settings, env, turn + 1, longer, dispatched))
    {
      longer := messages;
      var response := CompleteModelCall(turn, messages);
      PlayStep(settings, env, turn, messages, dispatched);
      if response.Raised? { return Some(Failed(response.trouble)), messages; }
      var content := ContentOf(response.value);
      if response.value.calls == [] {
        var answered := Answer(turn, content);
        return Some(answered), messages;
      }
      var next := TakeTurn(turn, messages, content, response.value.calls);
      if next.Raised? { return Some(Failed(next.trouble)), messages; }
      return None, next.value;
    }

    /** _run from the started row on. */
    method Loop(first: seq<Message>) returns (outcome: Outcome)
      requires Orderly() && run.status == Running && models == [] && sent == [] && dispatched == 0 && run.toolCalls == 0
      requires Conversation(first) && Within(settings, first)
      modifies this
      ensures Orderly()
      ensures End(outcome, sent, dispatched) == Play(settings, env, 1, first, 0)
      ensures outcome.Completed? ==> CompletedWith(outcome.answer)
      ensures outcome.Failed? ==> run.status == Running || EndedBy(outcome.trouble)
    {
      var messages := first;
      for turn := 1 to settings.maxTurns + 1
        invariant Orderly() && run.status == Running && |models| == turn - 1
        invariant run.toolCalls == dispatched && Conversation(messages) && Within(settings, messages)
        invariant CarriesOn(sent, messages)
        invariant Continues(Play(settings, env, 1, first, 0), sent, Play(settings, env, turn, messages, dispatched))
      {
        ghost var before, rest := sent, Play(settings, env, turn, messages, dispatched);
        var ended, longer := OneTurn(turn, messages);
        if ended.Some? { return ended.value; }
        ContinuesOn(Play(settings, env, 1, first, 0), before, rest, messages,
            Play(settings, env, turn + 1, longer, dispatched));
        messages := longer;
      }
      outcome := LimitRun("agent_turn_limit_reached");
    }

    /** The first two messages, within the limits. */
    method Opening(prompt: string) returns (r: Checked<seq<Message>>)
      ensures r == Opened(settings, env, prompt)
      ensures r.Fine? ==> Conversation(r.value) && Within(settings, r.value)
    {
      if !env.toolsTranslate { return Raised(Failure("agent_tool_schema_error")); }
      var clean := RedactText(prompt);
      if clean.Raised? { return Raised(clean.trouble); }
      var messages := [Message(System, SYSTEM_PROMPT, [], None), Message(User, clean.value, [], None)];
      assert messages[2..] == [];
      var trouble := ValidateConversation(messages);
      if trouble.Some? { return Raised(trouble.value); }
      return Fine(messages);
    }

    /** start: the run begins, loops, and whatever is raised ends it with the status and
        code of what was raised. */
    method StartRun(prompt: string) returns (outcome: Outcome)
      requires run.status == Created && run.toolCalls == 0 && run.turns == 0
      requires run.finished.None? && run.error.None? && run.answer.None?
      requires models == [] && sent == [] && dispatched == 0 && endings == 0
      modifies this
      ensures Orderly() && run.status.Terminal() && endings == 1
      ensures End(outcome, sent, dispatched) == Ending(settings, env, prompt)
      ensures outcome.Completed? ==>
        && CompletedWith(outcome.answer) && |models| >= 1
        && AnswersWith(settings, env.reply(|models|), outcome.answer)
      ensures outcome.Failed? ==> EndedBy(outcome.trouble) && run.answer.None?
      ensures outcome == Failed(Deadline) ==> run.status == RunFailed && run.error == Some("agent_run_timeout")
      ensures outcome == Failed(Unexpected) ==> run.status == RunFailed && run.error == Some("agent_provider_error")
      ensures outcome.Failed? && outcome.trouble.Limit? ==>
        run.status == LimitReached && run.error == Some(outcome.trouble.code)
      ensures outcome.Failed? && outcome.trouble.Failure? ==>
        run.status == RunFailed && run.error == Some(outcome.trouble.code)
    {
      if Opened(settings, env, prompt).Fine? { RunEndsFor(settings, env, prompt); }
      run := Start(run, now).value;
      var opening := Opening(prompt);
      if opening.Raised? {
        outcome := Failed(opening.trouble);
      } else {
        outcome := Loop(opening.value);
      }
      if outcome.Failed? {
        FinishRun(EndStatus(outcome.trouble), None, Some(EndCode(outcome.trouble)));
      }
    }
  }
}
