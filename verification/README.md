# Verification of ToolWatch's execution core

ToolWatch is a proxy that carries each tool call of an AI agent through a persisted
state machine: a call is received, validated, evaluated, executed and ended in separately
committed transactions, with the adapter's side effect between two of them, while other
executions, session completions and recovery runs work on the same database. This project
models that core and proves what it promises.

Assumptions, made once: the digests and the key derived from one are injective functions;
the database gives row locks, unique constraints and atomic commit or rollback; time is an
integer clock in milliseconds. They appear as parameters and hypotheses, never as axioms.

## Contents

| area | modules |
|---|---|
| Execution protocol | `ToolCalls` (the entity), `AuditTrail` (the language of audit words), `Store` (the database and its transactions), `Protocol` (the labelled transition system), `ProtocolSafety`, `ProtocolInduction`, `ProtocolFrames`, `ProtocolTheorems`, `ProtocolTiming`, `ProtocolRace`, `ProtocolReplay`, `ProtocolRecovery`, `ProtocolDecisions` (what decides a decision), `CallAnswers` (what a call is answered with and left as), `ToolCallService` (the code's transactions, a run of the system), `RecoveryLoop` |
| Request identity | `Text`, `JsonValues`, `JsonText`, `CanonicalJson`, `Payloads`, `RequestIdentity` |
| Redaction | `Substitution`, `StringRedaction`, `RedactedText` (what the string pass means), `TreeRedaction`, `StoredArguments` (the size of what is stored) |
| Risk and rules | `Sorting`, `RiskEngine`, `RuleEngine` |
| Agents and shutdown | `AgentRuns`, `AgentRecovery` (their rows against recovery), `AgentLoop`, `SentTexts` (what reaches the provider), `ToolTranslation`, `Shutdown` |

One action of the protocol is one committed transaction, one wait or one crash. A run is any
sequence of actions from the empty database; the invariants are proved for every action, so
the theorems hold of every interleaving of any number of workers. An execution's own copy of
its call and the row are kept apart, because `update` writes whatever the row's status is.

## What the proofs show about the code

- Terminal rows are final in every run exactly when the stale threshold is at least the
  longest window of a live execution: the lag before the adapter starts, the largest adapter
  timeout and the work after it (`ProtocolRace.ThresholdIsExact`). Below it, a run of nineteen
  actions lets an execution overwrite the row that recovery failed.
- A succeeded call is flagged exactly when its input or its result raised a flag or met an
  enabled flag rule, in every reachable state and whatever recovery did to the row in between
  (`ProtocolDecisions.SuccessIsJudged`).
- A limit failure on the sanitized result leaves the row executing; a replay is told that it
  is in progress until recovery fails it (`ProtocolReplay.FailureReplays`).
- An adapter's own error code replays as it was first reported exactly when it is not one of
  six codes the pipeline uses itself; the argument depth error keeps its code but comes back
  as the result depth error (`AdapterCodesReplayExactly`, `TableKeepsCodes`).
- Without a crash of recovery nothing stays stale at a finished recovery run's cutoff exactly
  when the stale threshold covers the longest window of a live execution
  (`ProtocolRecovery.NothingStaleExactly`). Below it a claim can skip a row that its owner's
  open transaction holds; the owner then dies, its update is rolled back, and the row stays
  executing although recovery finished and everybody is done. Whatever the settings, every row
  stale for a recovery run that has yet to look again ends terminal when no worker dies holding
  rows (`StaleRowsEndTerminal`).
- Arguments that pass every limit can still fail the check on the stored object, because
  replacing short secrets makes them grow past 65,536 bytes, or because they are deeper than 20
  (`StoredArguments.AcceptedButNotStorable`). The exception escapes and the row stays
  validating, which nobody ever changes again: recovery takes executing rows only, and every
  replay is told that the call is in progress (`ProtocolRecovery.StrandedForever`). A result
  deeper than 20 leaves its row executing in the same way (`ToolCallService.Call.Execute`).
- No ended agent run or model call is written over exactly when the stale threshold covers
  the timed scope and the work after it (`AgentRecovery.ThresholdIsExact`), and no recovered
  run is written back to running exactly when it covers the run's timeout
  (`ReopeningIsExact`).
- The shutdown lock is never contended: the coroutines run one at a time and nobody suspends
  while holding it, so the refusal under the lock is never served, nobody is cancelled on the
  way out, and `drain` returns only with an empty set (`Shutdown.LockIsNeverContended`,
  `Shutdown.DrainedMeansEmpty`).
- Redaction is idempotent exactly when no fingerprint is shown in the replacement: with a key
  and the prefix a sensitive field is fingerprinted again each time
  (`TreeRedaction.IdempotentExactly`, `FingerprintedAgain`).
- Every payload that is accepted and redacted passes the persisted depth check exactly when the
  JSON depth or the redaction depth is at most 20, or the redactor may visit fewer than 22
  nodes (`TreeRedaction.PersistedDepthExactly`).

## Model

| member | source | states |
|---|---|---|
| `ProtocolTheorems.AtMostOncePerKey` | src/toolwatch/application/tool_calls.py:286-325 | In every reachable state the adapter log holds at most one invocation per idempotency key, each of a call whose input evaluation had no applying block rule; no rejected or blocked call is in it |
| `ProtocolTheorems.OnlyTheInserterInvokes` | src/toolwatch/application/tool_calls.py:298-325 | The log grows only by the execution that inserted the call, whose row is then committed as executing or already recovered |
| `ProtocolTheorems.NumberedWithoutGaps` | src/toolwatch/infrastructure/repositories/sqlalchemy.py:449-454 | In every reachable state a session's calls carry exactly the numbers 1 to n, one each |
| `ProtocolTheorems.NumberIsFree` | src/toolwatch/application/tool_calls.py:655-676 | The number an execution holds under the session lock is free: the unique pair never fails and a rolled-back insert uses no number |
| `ProtocolTheorems.OneAdmissionAtATime` | src/toolwatch/application/tool_calls.py:639-654 | Two executions are never between lock and commit of one session |
| `ProtocolTheorems.NoCallAfterTheEnd` | src/toolwatch/application/sessions.py:120-139 | Once a session's terminal transition is committed, no continuation adds a call to it or changes its status |
| `ProtocolTheorems.RowsOnlyRise` | src/toolwatch/application/tool_calls.py:701-757 | Every step keeps each row's identity, never lowers its risk and never turns a flag back to allow |
| `ProtocolTheorems.HistoryOnlyRises` | src/toolwatch/domain/tool_calls/models.py:95-119 | The same over whole histories, with every row meeting the entity's constraints |
| `ProtocolInduction.StepKeeps` | src/toolwatch/application/tool_calls.py:170-487 | Every action keeps the whole invariant: sound tables, numbering, locks, ownership, adapter log and recovery claims |
| `ProtocolInduction.ReachableInv` | src/toolwatch/application/tool_calls.py:632-676 | Every state a run reaches satisfies the invariant |
| `ProtocolSafety.DeedIsGood` | src/toolwatch/application/tool_calls.py:766-888 | Every owner transaction keeps what identifies the call, climbs the life cycle, raises risk, and passes evaluation only with no applying block rule |
| `ProtocolFrames.Framed` | src/toolwatch/infrastructure/repositories/sqlalchemy.py:456-482 | Which action touches which table: rows change by insert, owner commit and recovery only |
| `ProtocolTiming.LiveIsFresh` | src/toolwatch/application/recovery.py:105-109 | Under an ample threshold a live execution's row is never older than the threshold |
| `ProtocolTiming.ClaimTimely` | src/toolwatch/infrastructure/repositories/sqlalchemy.py:484-500 | A recovery claim takes no row of a live execution |
| `ProtocolTiming.RecoverySparesTheLiving` | src/toolwatch/application/recovery.py:124-157 | In every reachable state no recovery run holds a row whose execution is still at work, and the row is that execution's copy |
| `ProtocolTiming.TerminalRowsAreFinal` | src/toolwatch/infrastructure/repositories/sqlalchemy.py:466-482 | Although update has no status guard, in every run no persisted terminal row ever changes |
| `ProtocolTiming.AuditTrailDecides` | src/toolwatch/application/tool_calls.py:812-861 | In every reachable state a call's audit events are a word of the language, the word decides whether and how the call ended, and a terminal call has exactly one terminal event |
| `ProtocolTiming.DeedTells` | src/toolwatch/application/tool_calls.py:719-758 | Whatever an owner transaction appends continues the call's story to its new status |
| `ProtocolTiming.AdapterWindowsClose` | src/toolwatch/application/tool_calls.py:890-901 | In every reachable state a running adapter has run no longer than the configured maximum, nor than its tool's own positive timeout, nor, without one, than the default |
| `ProtocolDecisions.SuccessIsJudged` | src/toolwatch/application/tool_calls.py:438-447 | In every reachable state a succeeded call is flagged exactly when its input or its result raised a flag or met an applying flag rule, and otherwise allowed; its trail is marked exactly then, its risk is the result's, and its flags are those of both |
| `ProtocolDecisions.OthersAreJudged` | src/toolwatch/application/tool_calls.py:701-757 | Every other call whose input passed has the input's decision, marked too by the flags of a result that broke its schema |
| `ProtocolDecisions.JudgedKept` | src/toolwatch/application/tool_calls.py:766-866 | Every action keeps it, recovery and interleaved owners included |
| `ProtocolRace.ThresholdIsExact` | src/toolwatch/application/recovery.py:105-157 | Terminal rows stay in every run if and only if the stale threshold covers the longest window of a live execution |
| `ProtocolRace.BelowTheThreshold` | src/toolwatch/application/tool_calls.py:321-341 | Below the threshold a concrete run overwrites the row recovery made terminal |
| `ProtocolReplay.ConflictMeansDifferent` | src/toolwatch/application/tool_calls.py:597-607 | Whenever an execution was told of an idempotency conflict, at the lookups or at the insert, the key's call was inserted for a different session, tool, version or arguments |
| `ProtocolReplay.LookupConflictExactly` | src/toolwatch/application/tool_calls.py:603-607 | At the first lookup a used key is a conflict exactly when the request differs |
| `ProtocolReplay.InspectionConflictExactly` | src/toolwatch/application/tool_calls.py:650-654 | Under the session lock a used key is a conflict exactly when the request differs, and in progress otherwise |
| `ProtocolReplay.SuccessReplays` | src/toolwatch/application/tool_calls.py:608-625 | After success every repeated request gets the same row, the first answer's own result and rule names, and its flags up to order |
| `ProtocolReplay.BlockReplays` | src/toolwatch/application/tool_calls.py:626-627 | A blocked call replays the same row, rule names and flags up to order |
| `ProtocolReplay.FailureReplays` | src/toolwatch/application/tool_calls.py:628-630 | A rejected, failed or timed-out call replays its first public code unless the adapter stored a reserved one; an abandoned call is in progress until recovered |
| `ProtocolReplay.TableKeepsCodes` | src/toolwatch/application/tool_calls.py:916-927 | The replay table gives every public code back, and every error but the argument depth error |
| `ProtocolReplay.AdapterCodesReplayExactly` | src/toolwatch/application/tool_calls.py:342-351 | An adapter's code replays as first reported exactly when it is not one of the pipeline's own codes |
| `ProtocolReplay.DeedBorne` | src/toolwatch/application/tool_calls.py:465-487 | The answer an execution gives at its last commit is borne out by what it committed |
| `ProtocolRecovery.StaleOnlyShrinks` | src/toolwatch/infrastructure/repositories/sqlalchemy.py:484-500 | What is stale at a fixed cutoff only shrinks, at every step of anyone |
| `ProtocolRecovery.EveryRoundMakesProgress` | src/toolwatch/application/recovery.py:126-157 | A committed batch takes exactly its rows out of the stale set; whenever the loop goes round again the set is smaller |
| `ProtocolRecovery.CountsAddUp` | src/toolwatch/application/recovery.py:132-157 | In any run the workers' counts sum to the number of rows moved, moved rows are terminal, and each has exactly one recovered event |
| `ProtocolRecovery.StaleRowsEndTerminal` | src/toolwatch/application/recovery.py:124-157 | At any point of any run, every row stale for a recovery run that has yet to look again is terminal once that run finished, no other is under way and no owner's transaction is open, if no recovery worker and no owner inside its transaction dies |
| `ProtocolRecovery.NothingStaleIsLeft` | src/toolwatch/application/recovery.py:124-157 | Without a crash of recovery, with an ample threshold, no row is stale at any run's cutoff once recovery is over, whatever the owners do |
| `ProtocolRecovery.NothingStaleExactly` | src/toolwatch/infrastructure/repositories/sqlalchemy.py:484-500 | That holds of every run if and only if the threshold covers the longest window of a live execution, also when it is asked only once everybody is done; below it a claim skips a row whose owner dies in its transaction |
| `ProtocolRecovery.StrandedForever` | src/toolwatch/application/recovery.py:124-157 | A call that stopped short of executing, its execution over, never changes again, whatever anybody does, and each repeated request is told that it is in progress |
| `ProtocolRecovery.RerunReturnsNothing` | src/toolwatch/application/recovery.py:155-157 | A rerun at a cutoff where nothing is stale claims nothing, moves nothing and returns 0, now or later |
| `AgentRecovery.ThresholdIsExact` | src/toolwatch/infrastructure/repositories/sqlalchemy.py:157-235 | In every run no ended agent run or model call is written over if and only if the stale threshold covers its lag, its timeout and the work after it |
| `AgentRecovery.ReopeningIsExact` | src/toolwatch/application/agent_runs.py:678-725 | No ended run becomes running again if and only if the threshold covers lag and timeout; a model call never reopens |
| `AgentRecovery.RecoverySparesTheWorking` | src/toolwatch/application/recovery.py:159-225 | With that threshold recovery never holds a row whose owner is inside its timed scope, and the row is still open |
| `Store.InsertSound` | src/toolwatch/infrastructure/database/models/tool_calls.py:29-60 | Inserting a call with a free id and key keeps rows, unique index and check constraints in agreement |
| `Store.WriteSound` | src/toolwatch/infrastructure/repositories/sqlalchemy.py:466-482 | So does an owner's update that keeps the identifying columns |
| `Store.RecoverAllSound` | src/toolwatch/application/recovery.py:132-141 | So does failing a batch of executing rows |
| `Store.RuleNamesStay` | src/toolwatch/application/tool_calls.py:904-913 | Names once known stay as rules are edited, since edits keep names |
| `ToolCallService.ExecuteReaches` | src/toolwatch/application/tool_calls.py:170-487 | From a state a run reached, executing one request reaches a state a run reaches, with this answer, borne out by the database, and this row; a call left validating is stranded, and a succeeded one is marked in its trail exactly when it is flagged |
| `ToolCallService.Call.Execute` | src/toolwatch/application/tool_calls.py:170-487 | Whatever the surroundings do, the code's transactions are protocol steps ending in this answer, and an inserted call is answered, and its row left with status, code, decision, risk and rules, as its arguments, the enabled rules, the adapter, the result checks and the checks on what is stored determine |
| `ToolCallService.Call.ExistingOutcome` | src/toolwatch/application/tool_calls.py:597-630 | The replay lookup is the protocol's lookup, branch by branch |
| `ToolCallService.Call.CreateReceived` | src/toolwatch/application/tool_calls.py:632-676 | Admission inserts the next number for an active session, an enabled tool and an unused key, or refuses, changes nothing and says for which reason |
| `ToolCallService.Call.EvaluateInput` | src/toolwatch/application/tool_calls.py:678-764 | One transaction judges the input: blocked exactly when some enabled rule stops it, otherwise at the input's risk and flagged exactly when a flag was raised or some enabled rule flags it, marked in the trail exactly then; arguments that cannot be stored undo the transaction |
| `CallAnswers.ActionsMean` | src/toolwatch/application/tool_calls.py:693-748 | A block action means that some enabled rule in the table stops the input, and, where nothing blocks, a flag action that some enabled rule flags it; a result is never blocked |
| `CallAnswers.DroppingIsStopped` | src/toolwatch/security/risk.py:138-146 | Whatever its base level, a query that drops is stopped by an enabled block rule for the tool with any risk threshold |
| `ToolCallService.Call.Performs` | src/toolwatch/application/tool_calls.py:298-356 | From the executing commit on, the answer and the row's status are those the adapter's registration, outcome and delivery determine |
| `ToolCallService.Call.Persist` | src/toolwatch/infrastructure/repositories/sqlalchemy.py:466-482 | The row, events, flags and result of one transaction are written and nothing else |
| `ToolCallService.Call.Finalizes` | src/toolwatch/application/tool_calls.py:794-866 | A successful result is committed as the succeeded row and answered, not as a replay, with this row, this result, the output's risk, the names, flags and rules of input and result together, flagged when the input was or the result is, and marked in the trail exactly then |
| `ToolCallService.Call.FinalizesSuccess` | src/toolwatch/application/tool_calls.py:418-473 | The result phase: flagged exactly when the input was, the output raised a flag or some enabled rule flags it; a result too deep to be stored changes nothing |
| `ToolCallService.Call.FinalizesInvalid` | src/toolwatch/application/tool_calls.py:388-416 | A result that breaks its schema fails the call at the output's risk, flagged exactly when the input was or the output raised a flag |
| `ToolCallService.Call.Concludes` | src/toolwatch/application/tool_calls.py:358-473 | Canonicalisation, redaction, second measuring, schema and the depth of what is stored decide the answer and the row exactly, its decision included |
| `ToolCallService.Call.ConcludesValue` | src/toolwatch/application/tool_calls.py:372-388 | The same from the canonical value on: too deep to redact, or too large once redacted with the row left executing, or judged |
| `ToolCallService.Call.ConcludesClean` | src/toolwatch/application/tool_calls.py:388-473 | The sanitized result is answered exactly when the delivered value meets its schema and its metadata takes it; beyond depth 20 the exception escapes and the row stays executing |
| `CallAnswers.ResultsAreStorable` | src/toolwatch/domain/tool_calls/models.py:195-203 | That cannot happen with a JSON depth or redaction depth of at most 20 |
| `CallAnswers.AnsweredResultIsSanitized` | src/toolwatch/application/tool_calls.py:372-387 | A result that is answered and stored is the sanitized delivery: shape kept, sensitive values replaced, in every text the matches replaced and the rest kept, no text with a secret |
| `ToolCallService.Admit` | src/toolwatch/application/tool_calls.py:545-559 | A request exists exactly for arguments within the limits, its identity holds their canonical bytes, and each error names a limit that is broken |
| `ToolCallService.AdmittedIdentity` | src/toolwatch/application/tool_calls.py:545-559 | Two admitted requests are one exactly when session, tool and version agree and the arguments mean the same |
| `ToolCallService.Call.NamesOf` | src/toolwatch/application/tool_calls.py:904-913 | The loop yields the names behind the identifiers, skipping missing rules |
| `ToolCallService.Call.ListEnabled` | src/toolwatch/infrastructure/repositories/sqlalchemy.py:817-819 | The listing holds every enabled rule once |
| `ToolCallService.Call.ListFlags` | src/toolwatch/infrastructure/repositories/sqlalchemy.py:752-758 | The listing holds the stored flags of the call, whatever the order |
| `ToolCallService.Call.NextSequenceNumber` | src/toolwatch/infrastructure/repositories/sqlalchemy.py:449-454 | The result is one more than the highest number in the session |
| `ToolCallService.Call.InputEvents` | src/toolwatch/application/tool_calls.py:719-757 | The appended events are the evaluation part of the audit language |
| `ToolCallService.Call.ResultEvents` | src/toolwatch/application/tool_calls.py:828-859 | The appended events are the final part of the audit language |
| `RecoveryLoop.Table.ClaimStale` | src/toolwatch/infrastructure/repositories/sqlalchemy.py:484-500 | A claim takes the oldest stale rows, up to the limit, and all of them when it is short |
| `RecoveryLoop.Table.Recover` | src/toolwatch/application/recovery.py:124-157 | The batch loop ends with every row stale at the start failed and logged once, no other row changed, and the count saying how many |
| `RecoveryLoop.RunRecovery` | src/toolwatch/application/recovery.py:100-122 | Tool calls, model calls and agent runs are each swept at their own cutoff; the call table ends as the protocol's recovery of all stale rows leaves it, and every row goes through its own transition to failed, with its own code; disabled recovery changes nothing |
| `ToolCalls.TransitionExactly` | src/toolwatch/domain/tool_calls/models.py:130-176 | A call in order changes exactly when the edge exists and the change is acceptable, and an invalid transition is reported exactly when it does not |
| `ToolCalls.TransitionKeeps` | src/toolwatch/domain/tool_calls/models.py:148-176 | A transition keeps the constraints and the identity, settles finished_at exactly for terminal statuses and climbs the life cycle |
| `ToolCalls.LivesAreShort` | src/toolwatch/domain/tool_calls/models.py:57-66 | No life has more than four transitions, and only the last can be terminal |
| `ToolCalls.LifeIsTimed` | src/toolwatch/domain/tool_calls/models.py:148-176 | In every life of a fresh call, started_at is the time of its change to executing, and an ended call that was started has lasted from then to its end, never less than nothing |
| `ToolCalls.EdgesExactly` | src/toolwatch/domain/tool_calls/models.py:57-66 | The eight edges, and that exactly the terminal statuses have none |
| `AuditTrail.WordDecides` | src/toolwatch/application/tool_calls.py:812-861 | A word of the language decides the terminal status and has one terminal event exactly when there is one |
| `AuditTrail.EvaluationTells` | src/toolwatch/application/tool_calls.py:719-757 | Evaluation continues a validating story to evaluating or blocked |
| `AuditTrail.OutcomeTells` | src/toolwatch/application/recovery.py:142-152 | An outcome, recovery included, continues an executing story to its terminal status |
| `AuditTrail.EvaluationOrder` | src/toolwatch/application/tool_calls.py:719-757 | The events of an evaluation, place by place |
| `AuditTrail.FinalOrder` | src/toolwatch/application/tool_calls.py:828-859 | The events of a result, place by place |
| `JsonText.PrintParse` | src/toolwatch/security/payloads.py:68-74 | Parsing the printed text of a printable value yields the value (RFC 8259, sections 2 to 7) |
| `JsonText.PrintedForm` | src/toolwatch/security/payloads.py:68-74 | Commas and colons separate, and there is no white space |
| `JsonText.KnownEscapes` | src/toolwatch/security/payloads.py:68-74 | The escapes of section 7 of RFC 8259, short where there is a short one |
| `Text.EncodeInjective` | src/toolwatch/security/payloads.py:68-74 | UTF-8 encoding loses nothing |
| `Text.KnownEncodings` | src/toolwatch/security/payloads.py:68-74 | The encodings of the examples in section 7 of RFC 3629 |
| `Text.LeqExactly` | src/toolwatch/security/payloads.py:68-74 | In text order a prefix comes first, and otherwise the first difference decides |
| `Text.NumeralRoundTrip` | src/toolwatch/security/payloads.py:68-74 | Decimal numerals read back as their integers |
| `Text.BlankExactly` | src/toolwatch/domain/common.py:38-42 | Stripping leaves nothing exactly when every character is white space |
| `CanonicalJson.CanonicalRoundTrip` | src/toolwatch/security/payloads.py:68-74 | Parsing the canonical text yields a value with the meaning of the original |
| `CanonicalJson.SameBytesSameMeaning` | src/toolwatch/security/payloads.py:52-83 | Two values have equal canonical bytes exactly when they are equal up to object key order |
| `CanonicalJson.CanonicalKeepsMeaning` | src/toolwatch/security/payloads.py:68-74 | Sorting keys keeps every object's key-to-value map |
| `CanonicalJson.CanonicalKeysAscend` | src/toolwatch/security/payloads.py:68-74 | In a canonical value the keys of every object strictly ascend in text order |
| `Payloads.Normalize` | src/toolwatch/security/payloads.py:127-170 | Normalisation succeeds exactly within depth, string and key limits on JSON-compatible input and yields the erased value |
| `Payloads.NormalizeMapping` | src/toolwatch/security/payloads.py:146-159 | The dict loop accepts exactly fitting string-keyed entries and keeps them |
| `Payloads.CanonicalizeJson` | src/toolwatch/security/payloads.py:52-83 | Acceptance holds exactly within all limits, the byte limit included, and yields value, bytes and size |
| `Payloads.TextsWithinExactly` | src/toolwatch/security/payloads.py:127-170 | The limit on texts is one on every key and every string, wherever it stands |
| `Payloads.CanonicalizeObject` | src/toolwatch/security/payloads.py:86-103 | The same for objects only |
| `Payloads.PayloadIdentity` | src/toolwatch/security/payloads.py:52-83 | Two accepted payloads have equal bytes exactly when their values mean the same |
| `Payloads.LiftErases` | src/toolwatch/security/payloads.py:127-170 | Every proper JSON value is a value Python code can hand back in: it is accepted as JSON and normalises to itself |
| `RequestIdentity.DigestComponents` | src/toolwatch/security/payloads.py:115-124 | The digest loop hashes the length-prefixed frame, and fails exactly when a component is 2^64 bytes or longer |
| `RequestIdentity.FrameInjective` | src/toolwatch/security/payloads.py:116-123 | The framing is uniquely decodable |
| `RequestIdentity.IdentityFrame` | src/toolwatch/security/payloads.py:106-123 | The frame holds session, tool, version and arguments in this order, each after eight bytes that read, the first weighing most, as its length |
| `RequestIdentity.SameHashSameIdentity` | src/toolwatch/security/payloads.py:106-124 | Under an injective digest, hashes agree exactly when session, tool, version and argument bytes do |
| `RequestIdentity.SameHashSameRequest` | src/toolwatch/security/payloads.py:106-124 | The same for argument values, up to object key order |
| `RequestIdentity.SameKeySameAgentCall` | src/toolwatch/application/agent_runs.py:139-166 | Agent keys agree exactly when run, turn, index, provider id, tool and arguments do |
| `Substitution.SubstituteCleans` | src/toolwatch/security/redaction.py:151-158 | A leftmost-greedy pass with harmless replacements leaves no match |
| `Substitution.SubstituteClean` | src/toolwatch/security/redaction.py:151-158 | A pass over text without a match changes nothing |
| `StringRedaction.RedactionLeavesNoMatch` | src/toolwatch/security/redaction.py:132-158 | After the authorization and JWT passes neither pattern nor the private-key marker matches |
| `RedactedText.RedactionKeepsTheRest` | src/toolwatch/security/redaction.py:132-158 | A text is left alone when empty or already redacted, replaced as a whole when it holds a key marker, and otherwise each pass replaces its leftmost greedy matches and keeps what is between them; the findings are the matches' groups, in order, under their detectors |
| `RedactedText.RedactionIsDetermined` | src/toolwatch/security/redaction.py:132-158 | Only one text and one list of findings are that |
| `RedactedText.WholeOnlyForKeys` | src/toolwatch/security/redaction.py:139-144 | A key is reported, and the whole text replaced, exactly when a marker stands in it |
| `RedactedText.AuthorizationExactly` | src/toolwatch/security/redaction.py:146-151 | The credential pattern matches a keyword, white space and a credential as long as it goes |
| `RedactedText.JwtExactly` | src/toolwatch/security/redaction.py:153-158 | The token pattern matches three stretches of at least four token characters joined by dots |
| `Substitution.SubstituteSplits` | src/toolwatch/security/redaction.py:151-158 | A substitution is told by cuts: each is the match at its place, none begins before, between or after them |
| `Substitution.CutsAreUnique` | src/toolwatch/security/redaction.py:151-158 | And by one list of cuts only |
| `StringRedaction.RedactionIsIdempotent` | src/toolwatch/security/redaction.py:132-158 | A second run changes nothing and finds nothing |
| `StringRedaction.RedactionGrowth` | src/toolwatch/security/redaction.py:132-158 | With a ten-character replacement a text grows by at most the factor 10/7 |
| `StringRedaction.DefaultRedactorIsValid` | src/toolwatch/security/redaction.py:67-88 | The default replacement satisfies the hypotheses of these results |
| `TreeRedaction.Walk.Visit` | src/toolwatch/security/redaction.py:96-130 | The walk fails exactly when the node count or the depth passes its limit, and otherwise yields the redacted value and its findings |
| `TreeRedaction.RedactedSanitizes` | src/toolwatch/security/redaction.py:104-127 | Every key, list length and non-string scalar outside sensitive fields is kept, every non-empty sensitive value is replaced, in every text the matches are replaced and the rest is kept, and no text keeps a secret |
| `TreeRedaction.FindingsExactly` | src/toolwatch/security/redaction.py:96-130 | The walk reports exactly the sensitive values and the matches in texts, each at its path |
| `TreeRedaction.NothingFoundNothingChanged` | src/toolwatch/security/redaction.py:96-130 | A value in which nothing is found is left as it is |
| `TreeRedaction.StableSecretIsStable` | src/toolwatch/security/redaction.py:201-205 | Two structured secrets are the same text exactly when they mean the same |
| `TreeRedaction.RedactedHeight` | src/toolwatch/security/redaction.py:104-127 | Redaction never increases depth |
| `TreeRedaction.DepthLimitUnreachable` | src/toolwatch/security/redaction.py:98-102 | A redaction depth of at least the JSON depth is never exceeded after canonicalisation |
| `TreeRedaction.IdempotentExactly` | src/toolwatch/security/redaction.py:207-220 | Tree redaction is idempotent if and only if no fingerprint is shown, that is unless the prefix is on and there is a key |
| `TreeRedaction.FingerprintedAgain` | src/toolwatch/security/redaction.py:207-220 | With both, a sensitive field is redacted differently the second time, its replacement fingerprinted in turn |
| `TreeRedaction.RedactedProper` | src/toolwatch/security/redaction.py:104-127 | Redaction keeps keys distinct and texts printable, so its result can be canonicalised |
| `TreeRedaction.DefaultIsIdempotent` | src/toolwatch/security/redaction.py:216-220 | It is in the default configuration |
| `TreeRedaction.DomainAcceptsExactly` | src/toolwatch/domain/common.py:76-110 | The persisted payload check accepts exactly values within its depth |
| `TreeRedaction.PersistedDepthExactly` | src/toolwatch/domain/tool_calls/models.py:195-203 | Every payload accepted by canonicalisation and redacted within the redactor's limits passes that check if and only if the JSON depth or the redaction depth is at most 20 or fewer than 22 nodes may be visited |
| `TreeRedaction.RedactedWithinReach` | src/toolwatch/security/redaction.py:96-127 | What comes out is no deeper than the walk went, and every level cost a visit |
| `StoredArguments.AcceptedButNotStorable` | src/toolwatch/domain/common.py:45-65 | With the default limits an object of 2850 to 4680 one-letter tokens is accepted and redacted, and its redacted form is refused |
| `StoredArguments.SecretsStorableExactly` | src/toolwatch/domain/common.py:45-65 | Such an object can be stored exactly while n times the replacement's length and 13, plus 7, is at most 65,536 |
| `Sorting.SortIsCanonical` | src/toolwatch/security/rules.py:31-31 | Without ties a sorted listing depends on its elements only |
| `RiskEngine.ClassifyInput` | src/toolwatch/security/risk.py:37-67 | The level is the maximum of the base and the severities of the returned flags, which are one per raised code in code order |
| `RiskEngine.ClassifyOutput` | src/toolwatch/security/risk.py:70-99 | The same for output |
| `RiskEngine.ClassifySql` | src/toolwatch/security/risk.py:102-165 | Which codes SQL text raises, code by code |
| `RiskEngine.QueryLevel` | src/toolwatch/security/risk.py:102-165 | A query is critical exactly when it destroys or holds several statements, else high when it writes, is unknown or holds a secret, else at the base, and never below the base |
| `RiskEngine.QueryCodes` | src/toolwatch/security/risk.py:117-165 | Which codes a query raises, word by word |
| `RiskEngine.NoQueryLevel` | src/toolwatch/security/risk.py:102-115 | Without a query the level is the higher of base and high |
| `RiskEngine.EmailLevel` | src/toolwatch/security/risk.py:37-67 | email.send is at medium, at high with a secret, never below the base |
| `RiskEngine.TextLevel` | src/toolwatch/security/risk.py:37-67 | Any other tool is critical for an internal target, else high for a command, a traversal or a secret, else at the base |
| `RiskEngine.OutputLevel` | src/toolwatch/security/risk.py:70-99 | A result with a secret or an injection is high, any other keeps the input's level |
| `RiskEngine.FlagsSay` | src/toolwatch/security/risk.py:37-99 | Which flags are critical, which medium, and that none is low |
| `RiskEngine.CodesFollowTexts` | src/toolwatch/security/risk.py:229-233 | The order of the flags is the text order of their codes |
| `RiskEngine.FlattenStrings` | src/toolwatch/security/risk.py:198-209 | The stack loop ends on every value and yields its strings in reverse document order, each once |
| `RiskEngine.StringsExactly` | src/toolwatch/security/risk.py:198-209 | These strings are exactly the texts that stand anywhere in the value |
| `RiskEngine.Deduplicate` | src/toolwatch/security/risk.py:229-233 | The result is the first flag of each code, strictly sorted by code |
| `RiskEngine.SameCodesSameLevel` | src/toolwatch/security/risk.py:64-67 | Deduplication does not change the level |
| `RuleEngine.JsonPathValue` | src/toolwatch/domain/security.py:226-245 | The loop resolves the path, a missing value being null |
| `RuleEngine.PathsFromTheRoot` | src/toolwatch/domain/security.py:226-245 | A path leads where its components lead, written after a root and a dot, after a root, or without a root; null when they lead nowhere |
| `RuleEngine.RootIsTheValue` | src/toolwatch/domain/security.py:226-232 | The root alone is the value itself |
| `RuleEngine.RootMember` | src/toolwatch/domain/security.py:233-240 | The path from the root to a key is the member under it, null without one |
| `RuleEngine.RootElement` | src/toolwatch/domain/security.py:238-243 | The path from the root to an index is the element there, null beyond the end |
| `RuleEngine.RootRuleStops` | src/toolwatch/security/rules.py:61-102 | A block rule on such a key stops an input exactly when the member equals the target, or is a text that matches the expression |
| `RuleEngine.RiskThresholds` | src/toolwatch/domain/security.py:220-224 | Which risks meet which threshold, level by level |
| `RuleEngine.FlagConditions` | src/toolwatch/security/rules.py:84-87 | A flag condition asks for a flag of that code, in its own phase only |
| `RuleEngine.ToolConditions` | src/toolwatch/security/rules.py:73-79 | A tool condition asks for the name, or for a name the expression matches |
| `RuleEngine.PathsCompose` | src/toolwatch/domain/security.py:232-245 | Following one path and then another is following both |
| `RuleEngine.SplitInvertsJoin` | src/toolwatch/domain/security.py:232-232 | Splitting at dots loses nothing and leaves no dot |
| `RuleEngine.JoinInvertsSplit` | src/toolwatch/domain/security.py:232-232 | Dotless parts joined by dots split into themselves |
| `RuleEngine.ConditionsMatch` | src/toolwatch/security/rules.py:61-102 | The early-exit loop says whether every stored condition holds |
| `RuleEngine.EvaluateRules` | src/toolwatch/security/rules.py:19-58 | The sorted early-exit loop returns the maximum action over all applying rules and reports exactly the applying rules no block precedes, in order |
| `RuleEngine.PriorityDecides` | src/toolwatch/security/rules.py:31-58 | Matches come by falling priority, then by name; nothing below an applying block rule is reported, and everything above all of them is |
| `RuleEngine.EvaluationIsOrderFree` | src/toolwatch/security/rules.py:31-58 | With distinct identifiers the evaluation does not depend on the order of the rules |
| `RuleEngine.BlockComesLast` | src/toolwatch/security/rules.py:53-58 | The result phase never blocks and keeps all matches; an input-phase block is the last match |
| `AgentRuns.RunHistory` | src/toolwatch/domain/agents/loop.py:205-241 | Every life of a run begins with its one start, ends at most once and then stays; it keeps the constraints, is terminal exactly when it was closed, and holds the counts of its last advance |
| `AgentLoop.AgentRunService.StartRun` | src/toolwatch/application/agent_runs.py:203-259 | The outcome, the conversations sent and the dispatches are those the surroundings determine; model calls are numbered 1, 2, 3 within the turn limit, each row ended as its reply makes it end, dispatches stay within theirs, there is one terminal event, a completed run stores the redacted text of the last reply if the settings say so, and any other ends without an answer, with the status and code of what was raised |
| `AgentLoop.RunEndsFor` | src/toolwatch/application/agent_runs.py:305-361 | A completed run answers with what the redactor makes of the last reply, which asked for no tools; a limit or the deadline ends a run for its own reason |
| `AgentLoop.AgentRunService.Loop` | src/toolwatch/application/agent_runs.py:284-361 | The loop is the run function of the surroundings; on completion the persisted tool-call count equals the dispatches and the turn count the model calls |
| `AgentLoop.AgentRunService.CompleteModelCall` | src/toolwatch/application/agent_runs.py:503-639 | Every provider call leaves one ended row and one sent conversation, whatever the provider does |
| `AgentLoop.AgentRunService.Dispatch` | src/toolwatch/application/agent_runs.py:363-501 | One dispatch is counted, and it yields the shown call and its answer or raises, as tool, deadline and message limit determine |
| `AgentLoop.AgentRunService.DispatchAll` | src/toolwatch/application/agent_runs.py:335-347 | A turn's dispatches make one round: k calls and their k answers in order |
| `AgentLoop.AgentRunService.ValidateConversation` | src/toolwatch/application/agent_runs.py:858-886 | The running total accepts exactly conversations within both byte limits |
| `AgentLoop.AgentRunService.FinishRun` | src/toolwatch/application/agent_runs.py:684-725 | An ended run is left as it is; a running one ends with this status and code |
| `AgentLoop.PlayIsBounded` | src/toolwatch/application/agent_runs.py:305-361 | For every provider and every tool: no more provider calls than turns, no more dispatches than allowed, every conversation sent well formed, within its byte limits and carrying on the one before |
| `AgentLoop.EachWasSentWell` | src/toolwatch/application/agent_runs.py:858-863 | Each single conversation sent was well formed and within the limits |
| `SentTexts.RunSendsCleanTexts` | src/toolwatch/application/agent_runs.py:298-355 | Whatever the provider and the tools do, every user and assistant text of every conversation sent came out of the redactor |
| `SentTexts.SentTextsHoldNoSecret` | src/toolwatch/application/agent_runs.py:843-850 | So none of them holds a credential, a token or a private key |
| `SentTexts.AnswerHoldsNoSecret` | src/toolwatch/application/agent_runs.py:315-328 | Nor does the final answer, which is what is stored and returned |
| `AgentLoop.CallIdsSay` | src/toolwatch/application/agent_runs.py:372-373 | The provider's own call identifiers are kept, and the made ones differ from call to call |
| `AgentLoop.UnknownTools` | src/toolwatch/application/agent_runs.py:374-413 | A tool that is not bound is never executed, shown without arguments and answered as unknown |
| `AgentLoop.TurnIsBounded` | src/toolwatch/application/agent_runs.py:330-358 | A turn that goes on adds one round of k calls and k answers and begins k dispatches |
| `AgentLoop.AgentRunService.TakeTurn` | src/toolwatch/application/agent_runs.py:330-358 | One turn's limits, dispatches, round and persisted counts, as the surroundings determine |
| `AgentLoop.RoundsAppend` | src/toolwatch/application/agent_runs.py:348-355 | Appending a round keeps a conversation well formed |
| `ToolTranslation.BuildProviderTools` | src/toolwatch/application/agent_runs.py:105-136 | Translation succeeds exactly when the enabled tools fit the limit and stay valid and distinct after normalisation, and follows sorted order |
| `ToolTranslation.TranslatedInOrder` | src/toolwatch/application/agent_runs.py:112-115 | The translated tools are exactly the enabled ones, by name and then by version |
| `ToolTranslation.NormalizedExactly` | src/toolwatch/application/agent_runs.py:119-128 | Allowed characters are kept, every other becomes an underscore |
| `ToolTranslation.BindingsInvert` | src/toolwatch/application/agent_runs.py:119-128 | Each provider name leads back to its one source tool, and every enabled tool is reached |
| `ToolTranslation.TranslationIsOrderFree` | src/toolwatch/application/agent_runs.py:112-115 | The translation does not depend on the input order |
| `Shutdown.NobodyEntersAfterClosing` | src/toolwatch/shutdown.py:31-52 | Once draining began the tracked set never grows and nobody else is accepted |
| `Shutdown.LockIsNeverContended` | src/toolwatch/shutdown.py:31-62 | In no run is the lock waited for, the refusal under it served, or a task cancelled on its way out |
| `Shutdown.DrainedMeansEmpty` | src/toolwatch/shutdown.py:48-62 | In any run drain returns only when the set is empty and nobody is inside |
| `Shutdown.RemovedExactlyOnce` | src/toolwatch/shutdown.py:41-46 | A task is in the set exactly while inside, and every accepted task that is over was removed exactly once |
| `Shutdown.ShutdownManager.Enter` | src/toolwatch/shutdown.py:36-40 | The locked block accepts exactly while accepting, and tracks the task |

## Left out

- URL credentials and configured redaction patterns: they depend on library parsing and on
  arbitrary expressions, so the redaction results are about the other passes.
- Unicode case folding, word characters and white space: parameters of the string patterns
  with the few facts the proofs need; the splitting of field names in `_is_sensitive_name` is
  one predicate on names.
- Floating point: a finite float is the token that prints it.
- Lone surrogates: one value that cannot be encoded; among several errors of one payload the
  first reported may differ.
- JSON schema validation, wildcard and regular-expression matching, and Python's equality of
  JSON values (`1 == 1.0 == True`): uninterpreted predicates.
- `str.isdigit` and `int` on digits other than 0 to 9 in rule paths.
- SQL comment stripping and splitting: parameters of the classifier.
- The 10,000 limit of `list_enabled`; the order in which flags are listed on replay.
- Arguments, hashes of arguments, agent-run and parent identifiers of a call row; the size of
  a payload in result rows. Redacted arguments are a free input of rule evaluation in the
  protocol, and a check on what is stored that fails is its crash of an execution.
- An owner's open transaction is modelled where it matters to recovery, from the update that
  ends an executing call to its commit or rollback; the owner's other commits are single steps.
  A claim may choose any stale rows; oldest first is in `RecoveryLoop`.
- Deadlines are hypotheses on time passing: the protocol does not let the clock pass the lag
  before the adapter, its timeout, or the bound on the work after it; `AgentRecovery` does the
  same for the timed scope of a run or model call and the work after it.
- TreeRedaction.IdempotentExactly: the replacement text is one the passes leave alone, and for
  the fingerprint some secret and its replacement differ in the first eight digits.
- Settings that store no sanitized arguments or results: their validator refuses them
  (src/toolwatch/config.py:105-108), so every result is stored.
- Agent runs before they are running (created, never recovered) and what rows of runs and
  model calls hold besides status and stamp: not in `AgentRecovery`.
- ToolCallService.Call.Execute: one execution with nobody interleaving and no time passing;
  the races and crashes are in the protocol. The request and the argument value come in
  separately; `Admit` says how the one is made of the other. `Persist` writes the evaluating
  and the blocked row of one transaction once.
- AgentLoop.AgentRunService.StartRun: the run's deadline is observed at provider calls and
  dispatches only, cancellation from outside is not modelled, recovery of the run is in
  `AgentRecovery` and not interleaved here, and a message's size is a parameter.
- SentTexts.SentTextsHoldNoSecret: about user and assistant texts; a tool's answer is the JSON
  text of a sanitized result, and its arguments are those of the stored call.
- RecoveryLoop.RunRecovery: one worker on its own tables; a model call's recovered event is
  always written, its run being there by the foreign key.
- Session creation, listing and reading, agent-run reading, tool and rule administration
  beyond what the protocol needs: no hard invariant.
- HTTP, dashboard, command line, telemetry, settings and database drivers: no hard invariant.
- That a cancelled task finishes: `drain` waits for it, and the model lets it take any time.
