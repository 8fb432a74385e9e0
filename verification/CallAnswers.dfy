/** What one call is answered with and how its row is left, as its surroundings
    determine it (application/tool_calls.py _execute). */
module CallAnswers {
  import opened Options
  import opened RiskEngine
  import opened ToolCalls
  import opened Store
  import opened Protocol
  import opened Text
  import JsonValues
  import Payloads
  import StringRedaction
  import TreeRedaction
  import Rules = RuleEngine

  // --------------------------------------------------------- surroundings

  /** The settings of the checks around the database, the canonical arguments, and
      what the adapter does: it delivers a Python value, or fails, or overruns. */
  datatype Surroundings = Surroundings(
    detectors: Detectors, tree: TreeRedaction.Config, resultLimits: Payloads.Limits,
    arguments: JsonValues.Json, inputValid: JsonValues.Json -> bool,
    outcome: Produced, delivered: Payloads.PyValue, outputValid: JsonValues.Json -> bool)

  function CleanArguments(env: Surroundings): JsonValues.Json { TreeRedaction.Redacted(env.tree, env.arguments, false) }

  /** The error before evaluation, if the arguments lead to one. */
  function ArgumentError(env: Surroundings): Option<TerminalError> {
    if !env.inputValid(env.arguments) then Some(InvalidToolArguments)
    else if !TreeRedaction.WithinLimits(env.tree, env.arguments) then Some(ToolPayloadTooDeep)
    else if !CleanArguments(env).Obj? then Some(InvalidToolArguments)
    else None
  }

  /** What the input is judged against. */
  ghost predicate InputSubject(env: Surroundings, tool: Tool, subject: Rules.Subject) {
    var found := TreeRedaction.Findings(env.tree, [], env.arguments, false) != [];
    && subject.tool == tool.key.name && !subject.resultPhase && subject.arguments == CleanArguments(env)
    && Assesses(RiskAssessment(subject.risk, subject.flags), tool.base,
                code => InputRaises(env.detectors, tool.key.name, env.arguments, found, code), Input)
  }

  /** What the result is judged against. */
  function ResultSubject(env: Surroundings, tool: string, assessment: RiskAssessment): Rules.Subject {
    Rules.Subject(tool, assessment.level, assessment.flags, CleanArguments(env), true)
  }

  /** Some enabled rule blocks this input. */
  ghost predicate SomeRuleStops(cfg: Config, rules: map<nat, Rules.Rule>, subject: Rules.Subject) {
    exists r :: r in rules && rules[r].enabled && Rules.Stops(cfg.matchers, subject, rules[r])
  }

  /** Some enabled rule flags this. */
  ghost predicate SomeRuleFlags(cfg: Config, rules: map<nat, Rules.Rule>, subject: Rules.Subject) {
    exists r :: r in rules && rules[r].enabled && Rules.Applies(cfg.matchers, subject, rules[r])
                  && rules[r].action == Rules.Flag
  }

  /** A block action means that some enabled rule stops the input, and a flag action,
      where nothing blocks, that some enabled rule flags it. */
  lemma ActionsMean(
    cfg: Config, rules: map<nat, Rules.Rule>, subject: Rules.Subject, listing: seq<Rules.Rule>,
    reported: seq<Rules.Rule>, action: Rules.Action)
    requires IsListing(rules, listing) && Rules.Evaluates(cfg.matchers, subject, listing, reported, action)
    requires forall r :: r in rules ==> rules[r].id == r
    ensures action == Rules.Block <==> SomeRuleStops(cfg, rules, subject)
    ensures action != Rules.Block ==> (action == Rules.Flag <==> SomeRuleFlags(cfg, rules, subject))
    ensures subject.resultPhase ==> action != Rules.Block
  {
    BlockMeansStop(cfg, rules, subject, listing, reported, action);
    FlagMeansRule(cfg, rules, subject, listing, reported, action);
  }

  lemma BlockMeansStop(
    cfg: Config, rules: map<nat, Rules.Rule>, subject: Rules.Subject, listing: seq<Rules.Rule>,
    reported: seq<Rules.Rule>, action: Rules.Action)
    requires IsListing(rules, listing) && Rules.Evaluates(cfg.matchers, subject, listing, reported, action)
    requires forall r :: r in rules ==> rules[r].id == r
    ensures action == Rules.Block <==> SomeRuleStops(cfg, rules, subject)
  {
    if action == Rules.Block {
      var r :| r in listing && Rules.Stops(cfg.matchers, subject, r);
      assert r.id in rules && rules[r.id] == r;
    }
    if SomeRuleStops(cfg, rules, subject) {
      var r :| r in rules && rules[r].enabled && Rules.Stops(cfg.matchers, subject, rules[r]);
      assert rules[r] in listing;
    }
  }

  lemma FlagMeansRule(
    cfg: Config, rules: map<nat, Rules.Rule>, subject: Rules.Subject, listing: seq<Rules.Rule>,
    reported: seq<Rules.Rule>, action: Rules.Action)
    requires IsListing(rules, listing) && Rules.Evaluates(cfg.matchers, subject, listing, reported, action)
    requires forall r :: r in rules ==> rules[r].id == r
    ensures action != Rules.Block ==> (action == Rules.Flag <==> SomeRuleFlags(cfg, rules, subject))
  {
    if action == Rules.Flag {
      var r :| r in listing && Rules.Applies(cfg.matchers, subject, r) && r.action == Rules.Flag;
      assert r.id in rules && rules[r.id] == r;
    }
    if SomeRuleFlags(cfg, rules, subject) {
      var r :| r in rules && rules[r].enabled && Rules.Applies(cfg.matchers, subject, rules[r])
        && rules[r].action == Rules.Flag;
      assert rules[r] in listing;
    }
  }

  /** Whatever its base level, a query that drops is stopped by an enabled block rule
      for the tool that asks for a critical risk, and so by every lower threshold. */
  lemma DroppingIsStopped(
    cfg: Config, rules: map<nat, Rules.Rule>, tool: Tool, env: Surroundings, subject: Rules.Subject, query: string,
    r: nat, threshold: string)
    requires InputSubject(env, tool, subject) && tool.key.name == "database.query"
    requires Member(env.arguments, "query") == Some(JsonValues.Str(query))
    requires SqlOperation(env.detectors, query) == "DROP"
    requires r in rules && rules[r].enabled && rules[r].action == Rules.Block
    requires Rules.ValidRule(cfg.matchers, rules[r]) && cfg.matchers.glob("database.query", rules[r].pattern)
    requires rules[r].conditions == [JsonValues.Field("risk_at_least", JsonValues.Str(threshold))]
    ensures SomeRuleStops(cfg, rules, subject)
  {
    var found := TreeRedaction.Findings(env.tree, [], env.arguments, false) != [];
    QueryLevel(RiskAssessment(subject.risk, subject.flags), env.detectors, tool.base, env.arguments, query, found);
    Rules.OneCondition(cfg.matchers, subject, rules[r], "risk_at_least", JsonValues.Str(threshold));
    assert subject.risk == Critical;
    assert Rules.Stops(cfg.matchers, subject, rules[r]);
  }

  // ------------------------------------------------------------ judgements

  /** What is known of a call once its input was judged. */
  datatype Judgement = Judgement(
    risk: RiskLevel, flags: seq<RiskFlag>, names: seq<string>, matched: seq<nat>, marked: bool)

  function JudgementOf(o: Owned): Judgement {
    Judgement(o.call.risk, o.flags, o.names, o.call.matched, o.call.decision == Flag)
  }

  predicate IsFlagged(decision: Decision, marked: bool) { decision == if marked then Flag else Allow }

  /** The row still says what the input's judgement said. */
  predicate Keeps(row: ToolCall, j: Judgement) {
    row.risk == j.risk && row.matched == j.matched && IsFlagged(row.decision, j.marked)
  }

  /** The row ended in this status with this code and the input's judgement. */
  predicate EndsWith(row: ToolCall, j: Judgement, status: Status, code: string) {
    row.status == status && row.error == Some(code) && Keeps(row, j)
  }

  /** The judgement of an input: its own risk and flags, the names of the rules that
      met it, and marked when a flag was raised or some enabled rule flags it. */
  ghost predicate InputJudged(
    cfg: Config, rules: map<nat, Rules.Rule>, subject: Rules.Subject, j: Judgement)
  {
    && j.risk == subject.risk && j.flags == subject.flags
    && (j.marked <==> subject.flags != [] || SomeRuleFlags(cfg, rules, subject))
    && RulesMet(cfg, rules, subject, j.names, j.matched)
  }

  /** The rules the evaluation reports, by name and by identifier. */
  ghost predicate RulesMet(
    cfg: Config, rules: map<nat, Rules.Rule>, subject: Rules.Subject, names: seq<string>, matched: seq<nat>)
  {
    exists listing, reported, action ::
      && IsListing(rules, listing) && Rules.Evaluates(cfg.matchers, subject, listing, reported, action)
      && names == Names(reported) && matched == Ids(reported)
  }

  // ------------------------------------------------------------ the answer

  /** Why a delivered value is not taken, and the error for each reason. */
  ghost predicate RefusedWith(v: Payloads.PyValue, limits: Payloads.Limits, e: TerminalError) {
    && !Payloads.Acceptable(v, limits)
    && (e == ToolResultPayloadTooDeep || e == ToolResultTooLarge || e == InvalidToolResult)
    && (e == ToolResultPayloadTooDeep && Payloads.JsonCompatible(v) ==>
          JsonValues.Height(Payloads.Erase(v)) > limits.maxDepth)
    && (e == InvalidToolResult && Payloads.JsonCompatible(v) ==> !Payloads.NumeralsWithin(Payloads.Erase(v)))
  }

  /** The code stored for each of these errors. */
  function RefusalCode(e: TerminalError): string {
    if e == ToolResultPayloadTooDeep then "tool_payload_too_deep"
    else if e == ToolResultTooLarge then "tool_result_too_large"
    else "invalid_tool_result"
  }

  function CleanResult(env: Surroundings): JsonValues.Json
    requires Payloads.JsonCompatible(env.delivered)
  {
    TreeRedaction.Redacted(env.tree, Payloads.Erase(env.delivered), false)
  }

  /** What the adapter's delivery is answered with, and how its row is left: refused,
      too deep for the redactor, beyond the limits once sanitized, against its schema,
      too deep to be stored, or the sanitized value. */
  ghost predicate Concluded(
    cfg: Config, rules: map<nat, Rules.Rule>, tool: string, env: Surroundings, j: Judgement, answer: Answer,
    row: ToolCall)
  {
    if !Payloads.Acceptable(env.delivered, env.resultLimits) then
      exists e ::
        && RefusedWith(env.delivered, env.resultLimits, e) && answer == Failure(Terminal(e))
        && EndsWith(row, j, Failed, RefusalCode(e))
    else ConcludedValue(cfg, rules, tool, env, j, Payloads.Erase(env.delivered), answer, row)
  }

  /** The same for a canonical result. */
  ghost predicate ConcludedValue(
    cfg: Config, rules: map<nat, Rules.Rule>, tool: string, env: Surroundings, j: Judgement,
    value: JsonValues.Json, answer: Answer, row: ToolCall)
  {
    var clean := TreeRedaction.Redacted(env.tree, value, false);
    if !TreeRedaction.WithinLimits(env.tree, value) then
      answer == Failure(Terminal(ToolResultPayloadTooDeep)) && EndsWith(row, j, Failed, "tool_payload_too_deep")
    else if !Payloads.Acceptable(Payloads.Lift(clean), env.resultLimits) then
      && row.status == Executing && Keeps(row, j)
      && (answer == Failure(Terminal(ToolResultTooLarge)) || answer == Failure(Terminal(ToolResultPayloadTooDeep))
          || answer == Lost)
    else ConcludedClean(cfg, rules, tool, env, j, value, clean, answer, row)
  }

  /** The same for a sanitized result within the limits: its metadata is refused
      beyond the persisted depth, and the exception escapes. */
  ghost predicate ConcludedClean(
    cfg: Config, rules: map<nat, Rules.Rule>, tool: string, env: Surroundings, j: Judgement,
    value: JsonValues.Json, clean: JsonValues.Json, answer: Answer, row: ToolCall)
  {
    exists assessment :: Assessed(env, j.risk, assessment) &&
      if !env.outputValid(value) then
        answer == Failure(Terminal(InvalidToolResult)) && BrokeSchema(j, assessment, row)
      else if !StorableResult(clean) then answer == Lost && row.status == Executing && Keeps(row, j)
      else Succeeds(cfg, rules, tool, env, j, assessment, clean, answer, row)
  }

  /** The row of a result that breaks its schema: failed, at the output's risk, and
      flagged when the input was or the output raised a flag. */
  predicate BrokeSchema(j: Judgement, assessment: RiskAssessment, row: ToolCall) {
    && row.status == Failed && row.error == Some("invalid_tool_result") && row.matched == j.matched
    && row.risk == assessment.level && IsFlagged(row.decision, j.marked || assessment.flags != [])
  }

  /** The answer and the row of a success: the sanitized result, at the output's risk,
      flagged exactly when the input was, the output raised a flag, or some enabled rule
      flags the output, and otherwise allowed; the flags and rules of both phases. */
  ghost predicate Succeeds(
    cfg: Config, rules: map<nat, Rules.Rule>, tool: string, env: Surroundings, j: Judgement,
    assessment: RiskAssessment, clean: JsonValues.Json, answer: Answer, row: ToolCall)
  {
    var subject := ResultSubject(env, tool, assessment);
    && answer.Success? && answer.result == clean && !answer.replayed && answer.call == row
    && row.status == Succeeded && row.error.None? && row.risk == assessment.level
    && IsFlagged(row.decision, j.marked || assessment.flags != [] || SomeRuleFlags(cfg, rules, subject))
    && answer.flags == j.flags + assessment.flags
    && exists names, matched ::
         && RulesMet(cfg, rules, subject, names, matched)
         && answer.names == j.names + names && row.matched == j.matched + matched
  }

  /** ToolResultMetadata takes the payload. */
  predicate StorableResult(v: JsonValues.Json) {
    TreeRedaction.DomainAccepts(v, 0, TreeRedaction.MAX_PERSISTED_DEPTH)
  }

  /** The output classifier's assessment of the clean result. */
  ghost predicate Assessed(env: Surroundings, risk: RiskLevel, assessment: RiskAssessment) {
    && Payloads.JsonCompatible(env.delivered)
    && var found := TreeRedaction.Findings(env.tree, [], Payloads.Erase(env.delivered), false) != [];
       Assesses(assessment, risk, c => OutputRaises(env.detectors, CleanResult(env), found, c), Output)
  }

  /** _canonical_sanitized_result: the limits raise, anything else escapes as it is. */
  function SanitizedError(error: Payloads.PayloadError): Option<TerminalError> {
    match error
    case TooDeep => Some(ToolResultPayloadTooDeep)
    case NotJson => None
    case _ => Some(ToolResultTooLarge)
  }

  /** The error for each reason a delivery is refused. */
  function RefusalError(error: Payloads.PayloadError): TerminalError {
    match error
    case TooDeep => ToolResultPayloadTooDeep
    case NotJson => InvalidToolResult
    case _ => ToolResultTooLarge
  }

  lemma RefusalHasReason(
    cfg: Config, rules: map<nat, Rules.Rule>, tool: string, env: Surroundings, j: Judgement,
    error: Payloads.PayloadError, answer: Answer, row: ToolCall)
    requires !Payloads.Acceptable(env.delivered, env.resultLimits)
    requires error == Payloads.TooDeep && Payloads.JsonCompatible(env.delivered) ==>
      JsonValues.Height(Payloads.Erase(env.delivered)) > env.resultLimits.maxDepth
    requires error == Payloads.NotJson && Payloads.JsonCompatible(env.delivered) ==>
      !Payloads.NumeralsWithin(Payloads.Erase(env.delivered))
    requires answer == Failure(Terminal(RefusalError(error)))
    requires EndsWith(row, j, Failed, RefusalCode(RefusalError(error)))
    ensures Concluded(cfg, rules, tool, env, j, answer, row)
  {
    assert RefusedWith(env.delivered, env.resultLimits, answer.error.error);
  }

  lemma SanitizedHasReason(
    cfg: Config, rules: map<nat, Rules.Rule>, tool: string, env: Surroundings, j: Judgement, answer: Answer,
    row: ToolCall)
    requires Payloads.JsonCompatible(env.delivered)
    requires TreeRedaction.WithinLimits(env.tree, Payloads.Erase(env.delivered))
    requires !Payloads.Acceptable(Payloads.Lift(CleanResult(env)), env.resultLimits)
    requires row.status == Executing && Keeps(row, j)
    requires answer == Failure(Terminal(ToolResultTooLarge)) || answer == Failure(Terminal(ToolResultPayloadTooDeep))
      || answer == Lost
    ensures ConcludedValue(cfg, rules, tool, env, j, Payloads.Erase(env.delivered), answer, row)
  {
  }

  lemma CleanIsGenuine(env: Surroundings)
    requires Payloads.Genuine(env.delivered) && Payloads.JsonCompatible(env.delivered)
    ensures Payloads.Genuine(Payloads.Lift(CleanResult(env)))
  {
    Payloads.ErasedIsProper(env.delivered);
    TreeRedaction.RedactedProper(env.tree, Payloads.Erase(env.delivered), false);
    Payloads.LiftErases(CleanResult(env));
  }

  /** A result that is answered and stored is the sanitized delivery: shape kept,
      sensitive values replaced, in every text the matches replaced and the rest kept,
      and no text with a credential, token or key. */
  lemma AnsweredResultIsSanitized(
    cfg: Config, rules: map<nat, Rules.Rule>, tool: string, env: Surroundings, j: Judgement, answer: Answer,
    row: ToolCall)
    requires Concluded(cfg, rules, tool, env, j, answer, row) && answer.Success?
    requires StringRedaction.Valid(env.tree.redactor)
    ensures Payloads.JsonCompatible(env.delivered)
    ensures TreeRedaction.Sanitizes(env.tree, Payloads.Erase(env.delivered), false, answer.result)
  {
    TreeRedaction.RedactedSanitizes(env.tree, Payloads.Erase(env.delivered), false);
  }

  /** With the JSON depth or the redaction depth at most 20, or fewer than 22 nodes to
      visit, no accepted and redacted result is too deep to be stored. */
  lemma ResultsAreStorable(env: Surroundings)
    requires Payloads.Genuine(env.delivered) && Payloads.Acceptable(env.delivered, env.resultLimits)
    requires TreeRedaction.WithinLimits(env.tree, Payloads.Erase(env.delivered))
    requires env.resultLimits.maxDepth <= 20 || env.tree.maxDepth <= 20 || env.tree.maxNodes < 22
    ensures StorableResult(CleanResult(env))
  {
    TreeRedaction.PersistedDepthExactly(env.tree, env.resultLimits.maxDepth);
  }

  /** What a started call is answered with and left as, by what its adapter does. */
  ghost predicate Answered(
    cfg: Config, rules: map<nat, Rules.Rule>, tool: Tool, env: Surroundings, j: Judgement, answer: Answer,
    row: ToolCall)
  {
    if tool.adapter !in cfg.adapters then
      answer == Failure(Terminal(AdapterNotConfigured)) && EndsWith(row, j, Failed, "adapter_not_configured")
    else match env.outcome
      case Overran => answer == Failure(Terminal(ToolTimeout)) && EndsWith(row, j, TimedOut, "tool_timeout")
      case RaisedCode(code) =>
        if Blank(code) then answer == Lost && row.status == Executing && Keeps(row, j)
        else answer == Failure(Terminal(AdapterError(code))) && EndsWith(row, j, Failed, code)
      case RaisedOther =>
        answer == Failure(Terminal(ToolExecutionFailed)) && EndsWith(row, j, Failed, "tool_execution_failed")
      case Delivered => Concluded(cfg, rules, tool.key.name, env, j, answer, row)
  }

  /** The input was stopped: the answer and the row say by which rules. */
  predicate Stopped(j: Judgement, answer: Answer, row: ToolCall) {
    && answer.BlockedBy? && !answer.replayed && answer.call == row
    && answer.flags == j.flags && answer.names == j.names
    && row.status == Blocked && row.decision == Block && row.error == Some("tool_call_blocked")
    && row.risk == j.risk && row.matched == j.matched
  }

  /** What a call that was inserted is answered with and left as, whatever its
      surroundings. Arguments that cannot be stored once redacted make the exception
      escape, and the row stays validating. */
  ghost predicate Replied(
    cfg: Config, rules: map<nat, Rules.Rule>, tool: Tool, env: Surroundings, answer: Answer, row: ToolCall)
  {
    match ArgumentError(env)
    case Some(error) =>
      && answer == Failure(Terminal(error)) && row.status == Rejected && row.decision == Reject
      && row.error == Some(if error == InvalidToolArguments then "invalid_tool_arguments" else "tool_payload_too_deep")
    case None =>
      if !TreeRedaction.Storable(CleanArguments(env)) then answer == Lost && row.status == Validating
      else
        exists subject, j ::
          && InputSubject(env, tool, subject) && InputJudged(cfg, rules, subject, j)
          && if SomeRuleStops(cfg, rules, subject) then Stopped(j, answer, row)
             else Answered(cfg, rules, tool, env, j, answer, row)
  }
}
