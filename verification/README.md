# Verification model of the incident pipeline

The repository analyses production incidents. An API transaction stores an incident and an
outbox event together; dispatchers publish events to a partitioned log; a worker consumes them
and runs a controlled agent that plans, calls read-only tools, and ends with a cited answer that
a person reviews. This project models that system in Dafny and proves what it promises.

`dafny verify dfyconfig.toml` checks everything. The files, from the bottom up:

| file | models |
|---|---|
| Bounds.dfy, Dict.dfy, Json.dfy, Text.dfy | slices, Python dictionaries in insertion order, JSON values, words and joining |
| Sanitization.dfy | redaction and size bounds before anything is stored or shown to the model |
| GrammarSchema.dfy | the JSON-schema-to-grammar translation and the meaning of the keywords it keeps |
| Chunking.dfy, Ingestion.dfy, Retrieval.dfy | the knowledge index: chunks, transactions, cosine ranking |
| AgentModels.dfy, AgentTools.dfy, Planner.dfy | tool results and their storage, one tool call, the planner's output |
| AgentRecords.dfy | the rows one execution owns, the guards rebuilt from them, every commit |
| AgentRuns.dfy, AgentGrounding.dfy, AgentHistories.dfy, AgentResume.dfy, AgentCompletion.dfy, AgentRepeats.dfy | what all histories of an execution keep |
| AgentAnswers.dfy, AgentDialogue.dfy | what a stored answer owes the resolver's words; what the models and tools told an attempt, and the rows that follow |
| AgentWorkflow.dfy | the agent loop, its failure handlers and the review guard, as classes that commit |
| Outbox.dfy | the outbox table, the dispatcher and the transaction that creates incidents |
| Delivery.dfy, Worker.dfy, Recovery.dfy | the pipeline as interleaved steps of all actors with crashes, the worker among them, and how it can always go on |

Two state machines carry the main results. In `AgentRecords` a history is a sequence of commits;
planner, resolver, tools, clock, crashes and database failures are arbitrary, and
`AgentWorkflow.ControlledAgentWorkflow` is proved to make only the commits the machine allows.
In `Delivery` a history interleaves API requests, dispatchers, broker, workers, agents and
human reviews, with a crash possible between any two steps; the state of every incident's agent in
it is the state of the first machine, and `Worker.KafkaIncidentWorker` is proved to make only
its steps. From every state it can reach, every incident can still be brought to its end
(`Recovery.NothingIsStuck`).

Whatever the environment decides is an arbitrary value that the classes record as they receive it:
replies of the planner, the resolver, the tools and the broker, and failures of the database and
the embedding provider. The contracts of the operations say what they make of what they were told.

What the pipeline keeps, what never changes again, how often an execution can fail and what
interruptions leave out need nothing of the redaction patterns. Where they matter, the hypotheses
are named: `AgentTools.Rules` (plain identifiers pass unchanged, no text is erased, and an
identifier such as `token:5` stays one and is redacted alike the second time; the repository's
patterns and `str(int)` are such), `AgentTools.GoodReply` (source identifiers follow the
manifest's pattern, keys fit 64 bits), `AgentModels.ValidLimits` (the ranges and cross-field
rules of app/core/config.py:243-333), `Ingestion.Injective` (the content hash has no
collisions), and `Retrieval.RootOf` (the square root of the two norms is exact). Redacting twice
is not always redacting once: cutting at 2000 characters next to a non-ASCII letter can expose a
new match. Every statement that turns on this is an if-and-only-if over the texts at hand
(`Sanitization.TextsSettle`), or carries the condition on the rows (`AgentRuns.Stable`).

What the code does that its documentation or configuration does not suggest, each stated as a
lemma with its exact condition: a call budget of one is accepted by the configuration but no
execution can then complete (`AgentCompletion.CanCompleteIff`); the grammar of a list of literals
refuses one of them exactly when an object in it has a key the grammar does not know
(`GrammarSchema.EnumSoundIff`), `prefixItems` beside `items` is unsound exactly when a leading
value can fail the translation of `items` (`PrefixItemsSoundIff`, `PositionalSoundIff`), and
`const` beside `enum` is dropped (`ConstBesideEnum`); a cycle of definitions the schema reaches
never ends (`RankedIff`); a source without words is ingested again on every pass
(`Ingestion.UpToDateMeans`); after a restart a call whose argument texts do not settle is counted
under another signature, so the limit on repeated calls holds of a call exactly when its texts
settle or the call budget leaves no room for more (`AgentRepeats.LimitHoldsIff`,
`AgentRuns.GuardAfterRestart`), which spares the repository's tools, as the search has a guard of
its own and the others take numbers (`AgentRepeats.PlainCallsStayWithin`); a failure recorded
after the commit of the final row took effect and was reported failed reopens an execution that
awaits review, and nothing else reopens one (`AgentHistories.TerminalIsFinal`,
`Delivery.ReviewedIsFinalIff`): its next answer is grounded like the first, but a second final row
and a second decision may be stored (`AgentHistories.FinalRowsAreCounted`).

## Model

| member | source | states |
|---|---|---|
| Delivery.NoIncidentIsLost | app/services/incidents.py:31-52 | in every reachable state each incident has exactly one outbox row, and its event is unpublished, or in its partition at or above the committed offset, or marked processed |
| Recovery.NothingIsStuck | app/workers/runner.py:162-263 | from every reachable state, whatever crashed, was lost or failed late, every incident can still get through: some continuation publishes its event, marks it and commits its partition to the end |
| Delivery.CommittedIsDurable | app/workers/processor.py:63-135 | every event below a committed offset has a marker, in the partition of its incident; "completed" means the execution awaits or passed review with a completed resolution, "failed" that execution and resolution failed; also after offset commits and final commits that took effect and were reported failed |
| Delivery.CommittedIsGrounded | app/agent/workflow.py:749-808 | and the resolution behind every "completed" marker is grounded in the evidence stored with it, in every reachable state |
| Delivery.OccurrencesAreBounded | app/events/dispatcher.py:73-117 | an event occurs in the log, or is still to arrive there after its send was reported failed, at most once per recorded attempt, per attempt lost to a crash, and per send in flight; none is in flight once it is published |
| Delivery.PublishedIsFrozen | app/repositories/outbox.py:33-43 | from the moment published_at is set the row never changes and the event is never sent again, over any continuation; occurrences grow only by sends of before that arrive late |
| Delivery.SafeKept | app/workers/runner.py:173-260 | one step of any actor keeps the whole pipeline invariant, whatever the redaction patterns do: row pairing, lock discipline, log origin, offsets behind markers, truthful markers, agent rows that correspond and are audited, attempt accounting |
| Delivery.PossibleIsSafe | app/workers/runner.py:173-260 | hence every reachable state satisfies it |
| Delivery.PossibleIsSound | app/agent/workflow.py:203-437 | in every reachable state the rows of every incident correspond, are audited, stay within the repeated-call limit, are explained, and are grounded whenever they await or passed review |
| Delivery.PossibleIsClosed | app/agent/workflow.py:1062-1110 | and one final row and at most one decision are stored for every incident on which no failure was recorded late, whatever happened to the others |
| Delivery.SettledIsFinal | app/agent/workflow.py:466-487 | on every run a failed execution, and every finished one whose event is marked, never changes again but for its review and comments, and its marker stays |
| Delivery.ReviewedIsFinalIff | app/agent/workflow.py:1136-1182 | an execution that awaits or passed review keeps its rows, resolution and decision exactly as long as no failure is recorded late on its own incident |
| Delivery.NeverLate | app/agent/workflow.py:402-403 | once its event is marked no agent works on an incident, so no failure is recorded late on it |
| Delivery.TruthfulKept | app/workers/processor.py:97-124 | markers keep telling how the execution ended, through reviews and redeliveries |
| Delivery.ConsumedKept | app/workers/runner.py:216-260 | everything below the committed offset, and every handled message, keeps its marker under polls, seeks, commits, commits that fail or only seem to, and crashes; the consumer is at most one message behind its offset |
| Delivery.PublishedKept | app/events/dispatcher.py:114-117 | a row is marked published only when its event is in the log, also for sends reported failed |
| Recovery.DispatchRecorded | app/events/dispatcher.py:73-117 | recording an attempt marks the row published exactly when the send was acknowledged, counts one attempt, gives the lock back and touches no other row |
| Delivery.VerdictStands | app/agent/workflow.py:466-487 | no later commit but a late failure changes the verdict of a finished execution |
| Worker.KafkaIncidentWorker.Run | app/workers/runner.py:162-263 | any number of polls, among arbitrary steps of the others, is a history of the pipeline, with late failures among its steps; between polls the position is the committed offset, or the message before it when the last commit took effect and was reported failed; while no message has to be retried and the broker takes every commit, each message received moves the committed offset by one |
| Worker.KafkaIncidentWorker.PollOnce | app/workers/runner.py:173-260 | a message that was handled has its offset committed, and is left behind exactly when the broker accepts; one that must be retried is sought back to, and only an event without a marker is ever retried, when a transaction failed or the agent put its incident off |
| Worker.KafkaIncidentWorker.Handle | app/workers/runner.py:38-101 | garbage is malformed, a marked event a duplicate, any other event inserts the marker its outcome names, and only such an event can be left to be sought back |
| Worker.KafkaIncidentWorker.Process | app/workers/processor.py:52-148 | the marker is inserted at most once and agrees with how the workflow returned; the message stays in hand only when the agent deferred its incident or a transaction failed |
| Worker.KafkaIncidentWorker.Resolve | app/workers/processor.py:92-96 | the workflow's commits, also those that took effect and were reported failed, are steps of the pipeline; a delivery that finds the execution finished changes nothing |
| Worker.AgentStepsLead | app/workers/processor.py:92-96 | any legal commits of the agent while a message is in hand are legal steps of the pipeline |
| Worker.OthersDisturbNothing | app/workers/runner.py:104-137 | steps of other actors keep a consumer's position, offset, message, markers and verdicts |
| Outbox.OutboxDispatcher.DispatchEvent | app/events/dispatcher.py:48-139 | one unlocked unpublished row gets one send and one recorded attempt: published now and never due again if the send was acknowledged, otherwise unpublished and due exactly when the delay is over; a published row is in the log; nothing else changes |
| Outbox.OutboxDispatcher.DispatchPending | app/events/dispatcher.py:141-156 | with the clock still and one dispatcher exactly the first due rows are sent, once each: the whole batch if every send is acknowledged, otherwise up to the first that is not, and every other row is as it was |
| Outbox.OutboxDispatcher.RetryLoop | app/events/dispatcher.py:208-214 | after as many polls as rows were due, each was sent exactly once, whatever row keeps failing, and no other row changed |
| Outbox.OneMoreAttempt | app/repositories/outbox.py:45-56 | an attempt removes the head of the due rows and no other |
| Outbox.DueIff | app/repositories/outbox.py:45-56 | a row is listed exactly when it is unpublished and its time has come |
| Outbox.DelayDoubles | app/events/dispatcher.py:178-180 | the retry delay doubles with each attempt from two seconds and stays at sixty from the sixth |
| Outbox.IncidentService.AnalyzeAndPersist | app/services/incidents.py:22-100 | a request succeeds unless staging the incident, staging the event or committing fails, and then sends its event once; otherwise nothing stays staged, and neither row is stored or both are and the commit only seemed to fail |
| AgentGrounding.RunsAreCore | app/agent/workflow.py:203-437 | the rows of every history keep corresponding statuses, numbering, counts, budgets, mandatory order and the repeated-call limit, whatever the redaction patterns do |
| AgentGrounding.CoreKept | app/agent/workflow.py:885-1110 | every commit keeps that, a failure recorded late included |
| AgentGrounding.RunsAreSound | app/agent/workflow.py:203-437 | the rows of every history also stay explained, and grounded whenever they await or passed review |
| AgentGrounding.SoundKept | app/agent/workflow.py:885-1110 | every commit, by the loop, a failure handler, a late failure or a review, keeps the whole execution invariant |
| AgentGrounding.RunsAreClosed | app/agent/workflow.py:1062-1110 | a history without a late failure has one final row exactly when it awaits or passed review, the last row, and at most one decision |
| AgentGrounding.GroundedKept | app/agent/workflow.py:1039-1110 | an answer that awaits or passed review stays grounded in the rows of its execution, and one written after a late failure is grounded anew |
| AgentGrounding.ValidatedIsGrounded | app/agent/workflow.py:749-808 | a validated answer cites each chunk once, only chunks a search or persisted-context step showed, each stored in the context; evidence forces a citation; no evidence forces confidence at most 0.5, escalation, review and a limitation; no dangerous action |
| AgentAnswers.AcceptedIff | app/agent/workflow.py:749-796 | an answer passes the guards exactly when it names no tool twice and only succeeded ones, cites no chunk twice, only allowed ones and some if there are any, and no action contains one of six phrases |
| AgentAnswers.AnswersAreRendered | app/agent/workflow.py:797-808 | in every history the stored answer is the resolver's of the last final commit, word for word but for the tools; without evidence to cite its confidence is capped at 0.5, escalation and review are set and its limitations kept or one added |
| AgentGrounding.AllowedIsShown | app/agent/workflow.py:762-766 | every citation the guard allows was shown by a search or context result |
| AgentGrounding.ContextIsShown | app/agent/workflow.py:1274-1288 | the context stored with a resolution holds exactly the chunks some result showed |
| AgentAnswers.ContextIsLastShown | app/agent/workflow.py:1274-1288 | with each further result the stored chunks are those it lists last, as it lists them, and of all other chunks the ones stored before |
| AgentRuns.LeadsToSource | app/agent/tools.py:371-400 | a runbook reference leads back to the result that shows its chunk, however often summaries copied it |
| AgentRuns.RecordToolKeepsTrace | app/agent/workflow.py:918-968 | a recorded tool row reads back to the result it came from, and stays explained by its chunks or by earlier rows |
| AgentRuns.RestoredEvidence | app/agent/workflow.py:554-564 | storing and reading back keeps the kind, source and chunk of every reference and which chunks the data identifies |
| AgentRuns.AuditKept | app/agent/workflow.py:918-1012 | step numbers are 1..n with n the step count within the budget; the call count is the number of succeeded rows within the budget; runbook search succeeds at most once; the first two successes are get_incident and retrieve_runbooks |
| AgentRuns.LockstepKept | app/agent/workflow.py:489-541 | execution and resolution exist together, their statuses correspond, attempts never exceed retries plus one |
| AgentRuns.FinishedKept | app/agent/workflow.py:1062-1110 | one final row exists, the last, exactly when the status is awaiting review, approved or rejected, unless a failure is recorded late |
| AgentRuns.DecidedKept | app/repositories/agent.py:39-75 | at most one review decision is stored and it is the one the status shows, unless a failure is recorded late |
| AgentRuns.StoredSignature | app/agent/workflow.py:1245-1247 | a stored copy of a call has the signature of the call for the attempt that wrote it, and for one that loaded it exactly when the texts of its arguments settle |
| AgentRuns.RepeatsKept | app/agent/workflow.py:274-290 | over all attempts no signature has more succeeded rows than allowed, counting every row whose own stored arguments are stable, whatever the other rows hold |
| AgentRuns.GuardAfterRestart | app/agent/workflow.py:225-290 | under every limit and after any rows, a call that succeeded as often as allowed is refused by the attempt that made it, and by one that loaded its rows exactly when its texts settle |
| AgentRuns.AdmittedUntilLimit | app/agent/workflow.py:274-290 | and a call other than the search is never refused as a repeat before it succeeded as often as allowed |
| AgentRuns.SignatureIff | app/agent/workflow.py:1245-1247 | two calls have one signature exactly when they name one tool and their arguments are stored alike |
| AgentRuns.OrderKept | app/agent/workflow.py:1249-1258 | the required-tool rule makes the first two succeeded tools the mandatory ones |
| AgentHistories.TerminalIsFinal | app/agent/workflow.py:466-487 | FAILED never changes; awaiting review changes only to approved or rejected, which never change, and all other rows freeze: exactly as long as no failure is recorded late on them |
| AgentHistories.LateFailure | app/agent/workflow.py:1136-1182 | recording a failure keeps that exactly when the execution is not finished, or is failed once more |
| AgentHistories.FinalRowsAreCounted | app/agent/workflow.py:1039-1110 | the number of final rows is the number of late failures, plus one while under review |
| AgentHistories.RunsStayInScope | app/agent/tools.py:501-556 | every call that ever succeeded was one the allowlist, the size limit, the tool's schema and the incident's scope accept |
| AgentHistories.FailuresAreBounded | app/agent/workflow.py:1136-1182 | at most model_retries attempts of one execution end in a validation or budget failure, and when that many have, the last was terminal |
| AgentHistories.BudgetFailureIsTerminal | app/agent/workflow.py:1184-1197 | an exceeded budget fails execution and resolution for any prior retry count |
| AgentHistories.StepBudgetNeedsRejections | app/agent/workflow.py:1212-1216 | the step budget can run out only after at least max_steps minus max_tool_calls rows that were rejected, or final and undone by a late failure |
| AgentHistories.CallBudgetGuard | app/agent/workflow.py:1225-1237 | the exhausted-call guard cannot fire when the call budget is at least two |
| AgentHistories.InterruptionsAreInvisible | app/agent/workflow.py:203-237 | leaving every interruption, with the claim after it, out of a history gives the same rows, resolution, reviews and counters, late failures included, and an uninterrupted legal history when the stored arguments are stable |
| AgentResume.ResumeIsExact | app/agent/workflow.py:221-237 | guards rebuilt from rows equal those of an attempt that wrote the rows: call count, allowed citations and stored chunks always, their content when storing keeps it, signature counts when the arguments of the rows it wrote itself are stable |
| AgentResume.RemembersTool | app/agent/workflow.py:336-350 | recording a call keeps the loop's variables in step with the rows |
| AgentResume.RestoreResults | app/agent/workflow.py:554-564 | the restoring loop never meets a row it cannot read and returns the results of the succeeded steps |
| AgentResume.CountSignatures | app/agent/workflow.py:225-229 | the counter built from rows counts every signature |
| AgentResume.CollectReferences | app/agent/workflow.py:1260-1272 | the dictionary loop collects the distinct references in order |
| AgentResume.CollectContext | app/agent/workflow.py:1274-1288 | the dictionary loop collects the last version of each identified chunk |
| AgentCompletion.CanCompleteIff | app/core/config.py:329-330 | on every server whose schemas admit the two mandatory calls an execution can complete exactly when its call budget is at least two |
| AgentCompletion.CompletionTakesTwoCalls | app/agent/workflow.py:1249-1258 | no history under a budget of one completes, on any server |
| AgentCompletion.SomeServerCompletes | app/agent/tools.py:42-49 | under every configuration with two calls, incident 1 completes on a server with the source's schemas for both calls, distinct texts for distinct keys, and an answer within its field bounds |
| AgentRepeats.LimitHoldsIff | app/agent/workflow.py:274-290 | over all histories an accepted optional call succeeds at most as often as allowed if and only if its texts settle or the call budget leaves no room for more |
| AgentRepeats.SettledStayWithin | app/core/config.py:257-262 | no call whose texts settle succeeds more often than allowed, on any server and in any history |
| AgentRepeats.PlainCallsStayWithin | app/agent/tools.py:51-63 | so no call in numbers and plain texts does, and the optional tools take numbers |
| AgentRepeats.AsOftenAsTheBudget | app/agent/workflow.py:225-229 | an accepted optional call whose texts do not settle succeeds as often as the call budget allows in some history that restarts between the calls |
| AgentWorkflow.ControlledAgentWorkflow.Resolve | app/agent/workflow.py:203-437 | one delivery commits a legal history, where any commit may take effect and be reported failed; its new rows are the calls the planner asked for, in order, and it completes only when the planner's last reply asks for none; it makes no model call on a finished or overdue execution, and at most (max_steps - rows + 1) * (repairs + 1) otherwise |
| AgentWorkflow.ControlledAgentWorkflow.RunLoop | app/agent/workflow.py:239-401 | the loop ends; its rows are the calls asked for, in order; a validation failure takes more rejected answers than there are repairs, and a rejected row, unusable answers or a reply that cannot be read in place of a required or any decision; a transient one an outage or database failure; a final answer without mandatory evidence cannot be reached |
| AgentWorkflow.ControlledAgentWorkflow.Advance | app/agent/workflow.py:239-401 | one iteration writes the row of the call the planner asked for, or uses one repair, or ends the attempt as the last reply says |
| AgentWorkflow.ControlledAgentWorkflow.UseTool | app/agent/workflow.py:274-350 | a repeated call is refused without being made and no other is; of the rest the executor's verdict on what the tool answered decides between a rejected row, the end of the attempt and a row with the result, and the loop's memory follows the rows |
| AgentWorkflow.ControlledAgentWorkflow.TakeTurn | app/agent/workflow.py:274-350 | a recorded call resets the repairs, a rejected one uses one up and the attempt fails when none is left |
| AgentWorkflow.ControlledAgentWorkflow.Plan | app/agent/workflow.py:608-625 | the reply is read as the decision it spells, against the required tool while evidence is missing, or is malformed, or was never counted; every provider call is counted |
| AgentWorkflow.ControlledAgentWorkflow.GenerateFinal | app/agent/workflow.py:676-747 | at most repairs plus one resolver calls; the answer returned is the first that is within its bounds and passes the guards, in the resolver's words, and there is none only if no answer is usable or the provider or database fails |
| AgentWorkflow.ControlledAgentWorkflow.CheckTimeAndStepBudgets | app/agent/workflow.py:1212-1243 | passing means steps, total time and calls are within budget or the evidence is there; exceeding has one of the four reasons |
| AgentWorkflow.ControlledAgentWorkflow.Claim | app/agent/workflow.py:451-542 | a finished execution is answered unchanged; otherwise rows are created from nothing or one more attempt is counted on both and all else kept |
| AgentWorkflow.ControlledAgentWorkflow.Conclude | app/agent/workflow.py:402-437 | outages defer, exceeded budgets end, validation failures end exactly on the last retry |
| AgentWorkflow.ControlledAgentWorkflow.RecordFailure | app/agent/workflow.py:1136-1182 | terminal exactly when not retryable on the last retry; on an execution already under review it is a late failure |
| AgentWorkflow.ControlledAgentWorkflow.RecordTerminalFailure | app/agent/workflow.py:1184-1197 | always ends FAILED when the database answers |
| AgentWorkflow.ControlledAgentWorkflow.PersistToolStep | app/agent/workflow.py:918-968 | the row, the counters and the status of a recorded call, in one commit |
| AgentWorkflow.ControlledAgentWorkflow.PersistRejectedStep | app/agent/workflow.py:970-1012 | the row of a rejected call, which counts as a step and not as a call |
| AgentWorkflow.ControlledAgentWorkflow.PersistFinal | app/agent/workflow.py:1039-1110 | final row, resolution and status in one commit, with the references and chunks collected from memory; all of it or none when it raises |
| AgentWorkflow.AgentRepository.AddFeedback | app/repositories/agent.py:39-75 | feedback is stored, and a decision moves the status to match |
| AgentWorkflow.AgentRepository.RecordFeedback | app/api/routes/incidents.py:271-300 | a decision is accepted exactly while one is awaited, and is then appended, the only one stored unless a failure was recorded late |
| AgentWorkflow.CutShort | app/agent/workflow.py:451-542 | what a crash leaves of a legal history is one |
| AgentWorkflow.HistoriesContinue | app/agent/workflow.py:451-542 | the commits of an attempt on the rows of a history continue that history |
| AgentTools.ExecutedResult | app/agent/tools.py:493-559 | a succeeded call's result can be stored and read back, its runbook references have their chunks or were copied, and reading it back identifies the same chunks |
| AgentTools.CallsStayInBounds | app/agent/tools.py:501-556 | a call over the budget is never made, and one that succeeds names an allowed tool, fits, satisfies its schema and concerns its own incident |
| AgentTools.SucceedsIff | app/agent/tools.py:501-559 | a call succeeds exactly when no check stands against it, and its result is the tool's output, cleaned |
| AgentTools.ChunkDataRestored | app/agent/workflow.py:554-564 | chunks come back from storage exactly as they were in memory if and only if their texts settle |
| AgentTools.ChunkKeysRestored | app/agent/workflow.py:1274-1288 | which chunks they are comes back in any case |
| AgentTools.ResultsAreRedacted | app/agent/tools.py:552-559 | a tool's data and summary are within every size bound, with sensitive entries redacted, before they are used, whatever the patterns |
| AgentTools.SummaryResult | app/agent/tools.py:371-400 | an evidence summary adds no reference of its own |
| AgentTools.SummaryShowsSteps | app/agent/tools.py:371-400 | a summary holds the summaries of the steps found and the numbers of those missing, each number once, and the references of the steps found, each once |
| AgentTools.PersistedOutput | app/agent/tools.py:327-361 | every reference of the persisted-context tool points at an item it returned |
| AgentTools.ContextShowsAnswer | app/agent/tools.py:327-361 | it returns the first eight items in order with their texts so shortened, and references exactly those that say which chunk they are |
| AgentTools.FoundOutput | app/agent/tools.py:153-191 | every reference of the search points at a chunk it returned |
| AgentTools.SearchShowsAnswer | app/agent/tools.py:168-191 | the search returns every chunk found, in order, unchanged but for its content, which is cut to 1200 characters of its words with single spaces, and a reference for each |
| AgentTools.IncidentShowsFacts | app/agent/tools.py:120-145 | loading the incident returns its facts, names it in the summary and references it |
| AgentTools.ListingShowsRecords | app/agent/tools.py:231-243 | the two listing tools return their records as they come, and a reference for each |
| AgentModels.ResultReadBack | app/agent/workflow.py:554-564 | storing a result as sanitized JSON and validating it back never fails, and gives the result with its texts and data sanitized |
| AgentModels.ReferenceReadBack | app/agent/models.py:90-98 | the same for one evidence reference |
| Planner.NormalizationSettles | app/agent/models.py:22-54 | normalizing a planner payload twice is normalizing it once |
| Planner.NormalizationKeepsValues | app/agent/models.py:22-54 | normalization renames fields and clears blanks and changes no value the planner gave; a payload with another action is left alone |
| Planner.ActionNames | app/agent/models.py:22-54 | three names, however capitalised or joined, mean a tool call, three others the end, and no other name means anything |
| Planner.NormalAction | app/agent/models.py:22-54 | the action becomes the one its text names, or a tool call when none is given and a tool is named, and otherwise stays |
| Planner.RequiredNeverOverrides | app/agent/workflow.py:68-81 | a tool the planner named, under either field name, is never replaced by the mandatory one |
| Planner.RequiredFillsIn | app/agent/workflow.py:68-81 | a payload that leaves the tool open and gives arguments the required tool accepts is read as its call |
| Planner.NormalFormReadsTheSame | app/agent/models.py:128-132 | a payload and its normal form validate to the same decision |
| Planner.DecisionShape | app/agent/models.py:116-142 | a decision names one tool of bounded length, or finishes with no tool fields, and has no unknown field |
| Planner.DecisionIff | app/agent/models.py:116-142 | a payload is read as a decision exactly when its normal form spells that decision and nothing else |
| Planner.RequiredConverts | app/agent/workflow.py:616-625 | turning a required decision into a planner decision never fails and changes nothing |
| Planner.NormalizePlannerPayload | app/agent/models.py:22-54 | the step-by-step edits compute the normal form |
| Sanitization.Absorption | app/agent/sanitization.py:33-53 | sanitizing at a depth and again at a greater one is sanitizing at the greater exactly when every text kept there settles |
| Sanitization.AbsorptionForAll | app/agent/sanitization.py:25-53 | that holds of all values and depths exactly for patterns that settle every text |
| Sanitization.FixedPoint | app/agent/sanitization.py:33-53 | a value is left alone exactly when it is within every bound and its sensitive entries are redacted |
| Sanitization.SanitizedIsBounded | app/agent/sanitization.py:33-53 | whatever the patterns, an output has at most 50 entries a container, texts within 2000 and keys within 120 characters, nothing below depth 5 and the marker under every sensitive key |
| Sanitization.SanitizedFields | app/agent/sanitization.py:33-53 | of an object each of the first fifty fields is kept under its key cut to 120 characters, redacted or sanitized, unless a later one has the same key; nothing else is |
| Sanitization.SanitizedValues | app/agent/sanitization.py:33-53 | scalars stay, texts are redacted and then cut, and of a list the first fifty are kept in order |
| Sanitization.SanitizedIsStorable | app/agent/sanitization.py:33-53 | an output is a value left alone exactly when every text kept from the input settles |
| Sanitization.SanitizedSize | app/agent/sanitization.py:33-53 | whatever the patterns, an output has at most 1 + 50 + ... + 50^5 values |
| Sanitization.DepthDoesNotMatter | app/agent/sanitization.py:33-53 | a shallow value is sanitized alike at every depth that leaves room for it |
| Sanitization.SanitizeText | app/agent/sanitization.py:25-30 | the loop applies every pattern and then the length bound |
| Sanitization.SanitizeValue | app/agent/sanitization.py:33-53 | the recursive copy with its dictionary loop computes the sanitized value |
| GrammarSchema.OllamaGrammarSchema | app/ai/providers/ollama.py:24-61 | on every schema whose definitions it visits without coming back, the grammar accepts every value the schema accepts, and exactly those in the exact fragment |
| GrammarSchema.SimplifyNode | app/ai/providers/ollama.py:32-56 | the recursive translation, ending by definition rank and node size |
| GrammarSchema.Preserved | app/ai/providers/ollama.py:32-56 | meaning is preserved at every node: sound when literals hold only grammar keywords and, beside prefixItems, the translation of items accepts everything; exact also without const beside enum and dropped keywords |
| GrammarSchema.Idempotence | app/ai/providers/ollama.py:32-56 | translating an output again changes nothing, whatever definitions are given |
| GrammarSchema.SimplifyShapes | app/ai/providers/ollama.py:46-56 | the output has only grammar keywords and no references |
| GrammarSchema.SimplifiedFields | app/ai/providers/ollama.py:44-56 | every node keeps each keyword of the grammar, translated, whatever stands beside it; a constant becomes a list of one literal where there is no other; nothing else is added |
| GrammarSchema.SimplifiedReference | app/ai/providers/ollama.py:37-43 | a reference is translated as its definition, whatever stands beside it |
| GrammarSchema.PrefixItemsSoundIff | app/ai/providers/ollama.py:46-55 | with leading schemas that may be anything, the grammar is sound exactly when the translation of items accepts every value, that is, when no keyword in it can refuse one |
| GrammarSchema.AcceptsAllIff | app/ai/providers/ollama.py:46-56 | a grammar accepts every value exactly when each of its keywords, read alone, can refuse none |
| GrammarSchema.PositionalSoundIff | app/ai/providers/ollama.py:46-55 | counting what the leading schemas require, it is sound exactly when that translation accepts every value of every position a list can reach |
| GrammarSchema.EnumSoundIff | app/ai/providers/ollama.py:54-55 | the grammar of a list of literals accepts all of them, and then nothing else, exactly when objects in them have only grammar keywords |
| GrammarSchema.ConstBesideEnum | app/ai/providers/ollama.py:44-55 | a constant beside an enum is dropped; nothing is lost exactly when the list is empty, or names the constant and every literal in it is translated to the constant |
| GrammarSchema.ConstBesideEnumSound | app/ai/providers/ollama.py:44-55 | and no accepted value is refused exactly when the list does not name the constant or its objects have only grammar keywords |
| GrammarSchema.RankedIff | app/ai/providers/ollama.py:37-42 | the translation can be ranked, and so ends, exactly when no visit of definitions from the schema comes back to one |
| Chunking.FewestChunks | app/knowledge/chunking.py:40-50 | no order-preserving grouping of the units within the limit has fewer chunks, and none of a paragraph's words fewer parts |
| Chunking.GreedyIsMinimal | app/knowledge/chunking.py:9-25 | greedy packing is minimal among all groupings |
| Chunking.GreedyTakesMost | app/knowledge/chunking.py:40-50 | no chunk has room for the unit after it |
| Chunking.GreedyIsGrouping | app/knowledge/chunking.py:40-50 | it keeps the units, their order and the limit |
| Chunking.PiecesAreSplit | app/knowledge/chunking.py:30-32 | a document falls into pieces without a paragraph break, with breaks and nothing else between them |
| Chunking.ChunksRejoin | app/knowledge/chunking.py:28-59 | the chunks joined by blank lines are the units so joined, and the paragraphs word for word where every paragraph fits |
| Chunking.ChunksKeepWords | app/knowledge/chunking.py:28-59 | the words of the chunks in order are the words of the document |
| Chunking.ChunksFit | app/knowledge/chunking.py:28-59 | each chunk fits the limit or is one longer word, and indexes are 0..n-1 |
| Chunking.NoChunkIffNoWord | app/knowledge/chunking.py:28-59 | a document has no chunk exactly when it has no word |
| Chunking.SplitOversizedParagraph | app/knowledge/chunking.py:9-25 | the word loop computes the greedy grouping |
| Chunking.Pack | app/knowledge/chunking.py:40-50 | the packing loop computes the greedy grouping |
| Chunking.ChunkDocument | app/knowledge/chunking.py:28-59 | the whole function computes those chunks |
| Ingestion.UpToDateMeans | app/knowledge/ingestion.py:146-174 | a source is skipped exactly when it has a word and the tables already hold what ingesting it would store |
| Ingestion.AgreementMeans | app/knowledge/ingestion.py:100-137 | what the tables then hold: the source's own fields, and for each chunk its text and the embedding of the text as a search document |
| Ingestion.ReplacedConsistent | app/knowledge/ingestion.py:76-137 | the transaction for one source makes it agree, leaves no orphan and disturbs no other document |
| Ingestion.SkippedConsistent | app/knowledge/ingestion.py:61-71 | a skipped source agrees with this pass |
| Ingestion.KnowledgeIngestor.IsCurrent | app/knowledge/ingestion.py:61-174 | the row-by-row comparison decides exactly that |
| Ingestion.KnowledgeIngestor.Replace | app/knowledge/ingestion.py:76-137 | deletes and inserts reach the specified tables |
| Ingestion.KnowledgeIngestor.IngestSource | app/knowledge/ingestion.py:53-143 | a source is updated or skipped, it is neither only when the embedding request is refused, which changes nothing, and an unchanged one embeds nothing |
| Ingestion.KnowledgeIngestor.Ingest | app/knowledge/ingestion.py:50-144 | a pass stops only at a refused request; after it, stopped anywhere, every ingested document agrees with its last content; a settled index is left alone |
| Retrieval.CauchySchwarz | app/knowledge/retrieval.py:38-44 | the dot product is at most the product of the norms |
| Retrieval.DotIsBilinear | app/knowledge/retrieval.py:38-44 | the dot product is the bilinear one that picks a coordinate out with its axis |
| Retrieval.SimilarityIsCosine | app/knowledge/retrieval.py:38-44 | a similarity times the norms is the dot product, and where a norm is zero it is zero |
| Retrieval.SimilarityOfSelf | app/knowledge/retrieval.py:38-44 | a vector has similarity 1 with itself and -1 with its opposite |
| Retrieval.ClampIsIdentity | app/knowledge/retrieval.py:228-241 | hence clamping a similarity changes nothing |
| Retrieval.RankingIsUnique | app/knowledge/retrieval.py:222 | the rows have one ranking, in whatever order the database returns them |
| Retrieval.RetrievePortable | app/knowledge/retrieval.py:189-226 | the result is the first rows of that ranking: rows of the category with their own fields and similarity, none left out at a narrower angle to the query, or of equal length with a larger dot product, than one shown, nor shown before it |
| Retrieval.ResultLimit | app/knowledge/retrieval.py:72 | a request gets as many chunks as it asks for, but never more than the configured number, which an absent request gets |
| Retrieval.ResultsGrow | app/knowledge/retrieval.py:222-226 | of two answers to one query, in whatever order the rows came, the larger limit only adds results, and every result comes before every row of the category left out |
| Retrieval.ResultsAreExact | app/knowledge/retrieval.py:213-241 | every result shows a stored row, field by field, with its exact similarity |

## Left out

- Two live workers for one incident: the message key is the incident (app/events/producer.py:154), so the model gives each partition one consumer and runs an incident's agent only while its message is in hand; review requests are serialized.
- Worker.KafkaIncidentWorker.Run: the commits of one agent attempt form one block of steps, with other actors before and after it.
- GrammarSchema.ConstBesideEnum: here, as in `ConstBesideEnumSound` and `EnumSoundIff`, objects are compared with their fields in order, where JSON Schema disregards the order.
- The redaction patterns themselves are parameters; that they settle a given text is stated as a condition and not derived from them.
- The planner's and resolver's text, the schema validation of tool arguments and the two byte-size checks are arbitrary functions, so `AgentRepeats.LimitHoldsIff` speaks of every schema a tool might have; prompts, provider usage, durations and the count of retrieved chunks are not stored in the model.
- AgentModels.ResultReadBack: extra fields in a stored result are not considered, because only this code writes them; numbers are reals, so float formatting is not modelled.
- AgentTools.SearchShowsAnswer: similarities are not rounded to six digits; the category and number of chunks the search is asked for, the scoring of similar incidents and the columns of the database queries are inputs.
- Database identifiers of incidents, documents and chunks are given by the caller or counted up; unique constraints hold by the shape of the tables.
- Delivery.SafeKept: the pipeline has no clock, so a dispatcher may try any unpublished row at any time; due times are in `Outbox`.
- Retrieval.RetrievePortable: floating-point rounding and the approximate PostgreSQL index are not modelled; the search is exact over reals.
- The event's JSON form: serializing and deserializing an event is taken as a round trip; everything that does not deserialize is one kind of message.
- The clock of one agent attempt that bounds its own duration may show any elapsed time.
- The Phase 4 workflow, which the worker no longer runs.
- HTTP, the Kafka client, SQLAlchemy, tracing, metrics and logging, evaluation, exports, configuration parsing, deployment files.
- Regex-based classification and prompt templates.
