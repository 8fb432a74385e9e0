/** What reaches the provider: every user and assistant text of every conversation sent
    came out of the redactor (application/agent_runs.py _redact_text). */
module SentTexts {
  import opened Options
  import opened AgentLoop
  import StringRedaction
  import TreeRedaction
  import JsonValues

  /** The text came out of the redactor. */
  ghost predicate CameClean(settings: Settings, text: string) { exists t :: settings.redact(t) == Some(text) }

  /** Written by the user or the model, not the fixed prompt or a tool's answer. */
  predicate Free(m: Message) { m.role == User || m.role == Assistant }

  ghost predicate CleanTexts(settings: Settings, ms: seq<Message>) {
    forall i :: 0 <= i < |ms| && Free(ms[i]) ==> CameClean(settings, ms[i].content)
  }

  lemma CleanedCameClean(settings: Settings, text: string)
    requires Cleaned(settings, text).Fine?
    ensures CameClean(settings, Cleaned(settings, text).value)
  {
  }

  lemma RoundIsClean(settings: Settings, env: Surroundings, turn: nat, content: string, calls: seq<Requested>)
    requires RoundOf(settings, env, turn, content, calls).0.Fine?
    ensures CleanTexts(settings, RoundOf(settings, env, turn, content, calls).0.value)
  {
    ShownArePaired(settings, env, turn, calls, |calls|);
    CleanedCameClean(settings, content);
  }

  lemma TurnIsClean(
    settings: Settings, env: Surroundings, turn: nat, messages: seq<Message>, content: string, calls: seq<Requested>,
    dispatched: nat)
    requires CleanTexts(settings, messages)
    requires AfterTurn(settings, env, turn, messages, content, calls, dispatched).0.Fine?
    ensures CleanTexts(settings, AfterTurn(settings, env, turn, messages, content, calls, dispatched).0.value)
  {
    RoundIsClean(settings, env, turn, content, calls);
  }

  lemma {:induction false} PlayIsClean(
    settings: Settings, env: Surroundings, turn: nat, messages: seq<Message>, dispatched: nat)
    requires turn <= settings.maxTurns + 1 && CleanTexts(settings, messages)
    ensures forall ms :: ms in Play(settings, env, turn, messages, dispatched).sent ==> CleanTexts(settings, ms)
    decreases settings.maxTurns + 1 - turn
  {
    if turn <= settings.maxTurns && env.accepting(turn) && env.reply(turn).Response? && env.reply(turn).calls != [] {
      var content, calls := ContentOf(env.reply(turn)), env.reply(turn).calls;
      var (next, begun) := AfterTurn(settings, env, turn, messages, content, calls, dispatched);
      if next.Fine? {
        TurnIsClean(settings, env, turn, messages, content, calls, dispatched);
        PlayIsClean(settings, env, turn + 1, next.value, begun);
      }
    }
  }

  /** Whatever the provider and the tools do, every user and assistant text that a run
      sends came out of the redactor. */
  lemma RunSendsCleanTexts(settings: Settings, env: Surroundings, prompt: string)
    ensures forall ms :: ms in Ending(settings, env, prompt).sent ==> CleanTexts(settings, ms)
  {
    if Opened(settings, env, prompt).Fine? {
      CleanedCameClean(settings, prompt);
      PlayIsClean(settings, env, 1, Opened(settings, env, prompt).value, 0);
    }
  }

  /** The run's redactor is the walk on a text by itself. */
  ghost predicate Redacts(settings: Settings, c: TreeRedaction.Config) {
    forall t :: settings.redact(t) ==
      if TreeRedaction.WithinLimits(c, JsonValues.Str(t))
      then Some(StringRedaction.RedactString(c.redactor, t).text) else None
  }

  /** So no user or assistant text sent holds a credential, a token or a private key. */
  lemma SentTextsHoldNoSecret(settings: Settings, env: Surroundings, prompt: string, c: TreeRedaction.Config)
    requires Redacts(settings, c) && StringRedaction.Valid(c.redactor)
    ensures forall ms, m :: ms in Ending(settings, env, prompt).sent && m in ms && Free(m) ==>
      TreeRedaction.NoSecrets(c, m.content)
  {
    RunSendsCleanTexts(settings, env, prompt);
    forall ms, m | ms in Ending(settings, env, prompt).sent && m in ms && Free(m)
      ensures TreeRedaction.NoSecrets(c, m.content)
    {
      assert CameClean(settings, m.content);
      var t :| settings.redact(t) == Some(m.content);
      StringRedaction.RedactionLeavesNoMatch(c.redactor, t);
    }
  }

  /** Nor does the final answer, which is what a completed run stores and returns. */
  lemma AnswerHoldsNoSecret(settings: Settings, env: Surroundings, prompt: string, c: TreeRedaction.Config)
    requires Redacts(settings, c) && StringRedaction.Valid(c.redactor)
    requires Ending(settings, env, prompt).outcome.Completed?
    ensures TreeRedaction.NoSecrets(c, Ending(settings, env, prompt).outcome.answer)
  {
    RunEndsFor(settings, env, prompt);
    var reply := env.reply(|Ending(settings, env, prompt).sent|);
    StringRedaction.RedactionLeavesNoMatch(c.redactor, if reply.content.Some? then reply.content.value else "");
  }
}
