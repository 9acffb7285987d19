# TGA3 control plane: verified model

TGA3 runs a team of agents around one append-only log per task, the blackboard. Workers, a supervisor, a reporter and
the user write to it concurrently; a timed supervisor, a one-shot reporter and the worker sessions read it by sequence
number. This project models that control plane and proves what its log, its schedulers, its registries and its
configuration keep over every run.

asyncio code is modelled as steps that end at its suspension points; an arbitrary sequence of steps is an arbitrary
interleaving. What comes from outside (models, containers, sockets, the clock, failing writes) is an arbitrary choice in
each step. Objects whose fields the program updates in place are classes whose methods are proved equal to a function of
the old state; the theorems over whole runs are lemmas about these functions. The report and the dialogue stream are
proved over either storage, in memory or PostgreSQL, unless a row names one.

| file | models |
|---|---|
| `Domain.dfy` | the shared records and the publish contract |
| `Board.dfy`, `BoardRuns.dfy` | the storage operations on values; runs of operations and their invariant |
| `BoardInvariant.dfy`, `BoardTheorems.dfy`, `BoardEffects.dfy` | the invariant of every reachable board and what follows from it; what each operation stores and how long it lasts |
| `Storage.dfy` | `InMemoryStorage` and `Blackboard` as objects |
| `Postgres.dfy`, `PostgresTheorems.dfy`, `PostgresProgress.dfy`, `PostgresCompletion.dfy` | PostgreSQL transactions as interleaved steps under three kinds of locks; serializability, refinement of `InMemoryStorage`, freedom from deadlock, completion |
| `PostgresInvariant.dfy`, `PostgresEffects.dfy`, `PostgresReports.dfy` | the board invariant over PostgreSQL, what is stored there, and which notifications start a report |
| `Supervisor.dfy`, `SupervisorInvariant.dfy`, `SupervisorLiveness.dfy` | the debounce and batch loop of one task with its advice gate; no update is lost |
| `SupervisorTiming.dfy`, `SupervisorStorm.dfy` | when passes start, against the history of what was noted when |
| `SupervisorPass.dfy`, `SupervisorAdvice.dfy`, `SupervisorDecision.dfy` | what a pass reads, decides and writes, and what advice a run leaves |
| `HostAgents.dfy` | `Automation` and its jobs as objects, including the aliasing of pending records |
| `Reporter.dfy` | the one-shot report against a moving board |
| `Worker.dfy`, `WorkerControl.dfy` | the prompt queue of a worker session, and its control messages over whole runs |
| `Gateway.dfy` | the connection registry and the pending requests of a connection |
| `Coordinator.dfy` | stopping and launching the workers of a task |
| `Config.dfy`, `ConfigEffects.dfy`, `ConfigStore.dfy` | cross-document validity under edits, what each edit changes; replacing files with rollback |
| `Dialogue.dfy` | the dialogue stream's cursor |
| `RuntimeGraph.dfy`, `Route.dfy` | the timed activity queue and the detour of the runtime graph |

`dafny verify dfyconfig.toml` checks everything.

## Where the code falls short of a promise

Each of these is stated with its exact condition.

- A batch taken by a supervisor pass is lost when the pass dies of an exception outside its handler
  (`SupervisorLiveness.RaiseLosesIff`, `RaiseDropsFinding`) or finds the task terminal (`TerminalLosesIff`,
  `TerminalDropsFinding`). The exception ends the loop, so a batch that is pending then waits, without any timer, until
  the next change (`RaiseLosesIff`).
- The Intel cap and the urgent kinds are the only bounds on a wait: a storm of follow-up prompts postpones the pass for as
  long as it lasts (`SupervisorStorm.PromptStormPostpones`, `FirstPromptPostponed`).
- A failing blackboard read marks the batch reviewed although nobody saw it (`SupervisorAdvice.FailedSyncSkipsIff`,
  `FailedSyncSkipsFinding`), a failing model call marks it reviewed although nobody decided on it
  (`SupervisorDecision.FailedPassSkipsIff`, `FailedModelSkipsFinding`), and beyond 500 entries a pass no longer sees what is
  new (`DeltaCompleteIff`).
- An entry that arrives while `Automation.cancel` waits for its jobs starts a loop on a pending record that `cancel` then
  drops (`HostAgents.Automation.CancelDuring`, `CancelOrphansLoop`).
- `InMemoryStorage.answer_question` does not check its idempotency key (`BoardTheorems.AnswerKeepsKeysUniqueIff`,
  `AnswerReusesKey`); the two storages also differ on blank locators, repeated references, missing tasks and retried answers
  (`PostgresTheorems.AgreesIff`, `RetryDisagrees`).
- Over PostgreSQL a retried answer returns whatever stands under the supervisor's name and the key, and agents name
  themselves: its notification starts a report when that is a final candidate (`PostgresReports.PgAnswerStartsReportIff`,
  `RetryStartsReport`).
- A raising `session.stop` notification ends the stop: later workers keep running and no container is stopped
  (`Coordinator.RaisedStopLeavesIff`, `RaisedStopLeavesWorker`).
- Over PostgreSQL a disconnect handler that read the agent before it was marked can turn it to FAILED after the stop
  (`Coordinator.OrderlyIff`, `StoppedWorkerFails`).
- A connection stays registered for ever when closing the socket it replaced raises (`Gateway.EndedButRegisteredIff`,
  `ReconnectStrands`).
- A pause does not stop a cycle whose worker is past the pause check (`Worker.PauseMissesCycleIff`,
  `CycleStartsWhilePaused`).
- `apply_bundle` is not all-or-nothing when a rollback write fails too (`ConfigStore.AllOrNothingIff`,
  `LeavesAnyFilesIff`), and both apply functions raise after applying everything when the runtime directories cannot be
  created.
- A terminal task leaves its terminal states by an `update_task` that names another state and by nothing else
  (`BoardTheorems.OpLeavesTerminalIff`, `TerminalStays`); the answer endpoint makes one (`AnswerRevivesTask`).

## Model

| member | source | states |
|---|---|---|
| Storage.InMemoryStorage.Publish | tga3/src/tga3/storage.py:217-242 | the key scan, the gates and the append change the dictionaries exactly as `Board.Publish` changes the board, and return its result; the reference every other publish is compared with |
| Storage.InMemoryStorage.AnswerQuestion | tga3/src/tga3/storage.py:299-344 | entry, message, question state, recorded answer and both counters move together, and an answered question returns its recorded entry |
| Storage.InMemoryStorage.DeleteTask | tga3/src/tga3/storage.py:139-163 | every record of the task goes, its agents and input files included, and nothing else (`BoardRuns.DeleteKeepsOtherTasks` for the records that refer to each other) |
| Storage.InMemoryStorage.AppendDialogue | tga3/src/tga3/storage.py:257-280 | the message takes the next dialogue number and the counter follows |
| Storage.InMemoryStorage.UpdateTask | tga3/src/tga3/storage.py:165-177 | only the state and the snapshot number change, so no sequence bump is lost |
| Storage.InMemoryStorage.UpdateAgent | tga3/src/tga3/storage.py:192-201 | read and write of an agent are one step, and what the caller does not name is kept |
| Storage.InMemoryStorage.FindingLinks | tga3/src/tga3/storage.py:251-255 | the links of the first entry with this identifier, if it is a finding; an error otherwise |
| Storage.Blackboard.Publish | tga3/src/tga3/blackboard.py:36-42 | the role policy is checked before the storage is touched, and the hook is given the number of the returned entry exactly when the publish succeeds |
| BoardInvariant.OpKeepsInv | tga3/src/tga3/storage.py:139-344 | every operation keeps: sequence numbers 1..n without a gap, counters equal to lengths, reference closure, questions and answers matched, authors authorised |
| BoardInvariant.RunKeepsInv | tga3/src/tga3/storage.py:139-344 | the same over every run of operations with fresh identifiers |
| BoardRuns.DeleteKeepsOtherTasks | tga3/src/tga3/storage.py:139-163 | deleting a task changes no record of any other task |
| BoardRuns.OpKeepsOtherTasks | tga3/src/tga3/storage.py:139-344 | an operation changes records of the task it is about and of no other |
| BoardTheorems.RunKeepsOtherTasks | tga3/src/tga3/storage.py:139-344 | whatever a run does to other tasks, deletions included, leaves every record of a task as it was |
| BoardTheorems.RunGrowsLog | tga3/src/tga3/storage.py:217-242 | until its task is deleted a log only grows at its end |
| BoardTheorems.EveryPrefixReferenceClosed | tga3/src/tga3/storage.py:80-104 | in every reachable state every prefix of every log cites only earlier findings of the task, gives each finding a link, and links only available artifacts of the task, also after deletions of other tasks |
| BoardTheorems.RepublishReturnsOriginal | tga3/src/tga3/storage.py:220-222 | after any later operations, publishing again under the same key returns the original entry and changes nothing |
| BoardTheorems.AnswerKeepsKeysUniqueIff | tga3/src/tga3/storage.py:308-344 | an answer keeps (agent, key) unique if and only if its key was unused by the agent that asked or nothing is appended |
| BoardTheorems.AnswerReusesKey | tga3/src/tga3/storage.py:308-344 | a concrete run in which an answer's key already stands for an advice of the same agent |
| BoardTheorems.RunKeepsKeysUnique | tga3/src/tga3/storage.py:217-344 | (agent, key) pairs stay unique over every run whose answers use fresh keys |
| BoardTheorems.AnswerAgainReturnsOriginal | tga3/src/tga3/storage.py:310-311 | answering an answered question again, after any later operations, returns the first answer's entry and changes nothing |
| BoardTheorems.QaConservation | tga3/src/tga3/storage.py:299-344 | on every reachable board a log holds exactly as many QA entries as its task has answered questions, each with the question's text and origin, and no entry of a kind its author's role may not publish |
| BoardTheorems.ListEntriesIsSlice | tga3/src/tga3/storage.py:244-249 | on a gapless log a read after one number, up to another, with a limit is precisely that slice |
| BoardTheorems.NotifiedEntryIsRead | tga3/src/tga3/host_agents.py:229-236 | reading after seq - 1 with limit 1 gives the published entry itself, whatever happened to the board since |
| BoardTheorems.AnsweredEntryIsRead | tga3/src/tga3/app.py:248-258 | with the in-memory storage, the same for the number the answer endpoint notifies, which is an old one when the answer is retried; it is always a QA entry's |
| BoardEffects.PublishSucceedsIff | tga3/src/tga3/storage.py:80-104 | a publish succeeds if and only if the role may publish the kind, the task exists, and its key is used or all evidence is available at locators that say something and all citations are findings; which error it is otherwise |
| BoardEffects.RolesOf | tga3/src/tga3/blackboard.py:22-28 | which roles may publish each kind |
| BoardEffects.PublishStores | tga3/src/tga3/storage.py:217-242 | a publish under a new key stores one entry with the request's author, kind, topic, body and key under the next number, and exactly its references as evidence |
| BoardEffects.EvidenceLasts | tga3/src/tga3/storage.py:251-255 | whatever happens until the task is deleted, the links of a published finding are the references of its request, in their order |
| BoardEffects.AnswerStores | tga3/src/tga3/storage.py:299-344 | a recorded answer stands in the log with its text, attachments and origin, and in the supervisor's channel as the user's message |
| BoardEffects.UpdateStores | tga3/src/tga3/storage.py:165-177 | state and snapshot number become what the update names, and everything else stays |
| BoardEffects.SnapshotLasts | tga3/src/tga3/storage.py:165-177 | over every run a task keeps its snapshot number until an update names another |
| BoardEffects.RecordsLast | tga3/src/tga3/storage.py:139-344 | until a task is deleted no run takes back or alters an entry, message, link, artifact, question, answer or writeup of it |
| BoardEffects.DeletionLeavesNothing | tga3/src/tga3/storage.py:139-163 | after a deletion nothing about the task is stored |
| BoardTheorems.OpLeavesTerminalIff | tga3/src/tga3/storage.py:165-177 | an operation takes a task out of the terminal states if and only if it is an update that names a state that is not terminal |
| BoardTheorems.TerminalStays | tga3/src/tga3/storage.py:139-344 | over every run without such an update a terminal task stays terminal |
| BoardTheorems.AnswerRevivesTask | tga3/src/tga3/app.py:248-258 | a concrete run in which an answer sets a completed task to running |
| PostgresTheorems.Serializable | tga3/src/tga3/storage.py:559-780 | every interleaving of publish, answer and dialogue transactions and single statements commits the state of a serial run with the same outcomes; that run holds exactly the finished transactions, each once, so one that aborted after its sequence bump leaves no trace |
| PostgresTheorems.AgreesIff | tga3/src/tga3/storage.py:559-780 | the two storages do the same with a request, in state and outcome, if and only if a condition on locators, references, task and keys holds |
| PostgresTheorems.RetryDisagrees | tga3/src/tga3/storage.py:725-734 | a concrete run in which a retried answer is the first answer in memory and a conflict over PostgreSQL |
| PostgresTheorems.RefinesInMemory | tga3/src/tga3/storage.py:107-344 | where that condition holds, the concurrent store is the in-memory reference running the finished transactions serially: same state, same outcomes |
| PostgresInvariant.PgKeepsInv | tga3/src/tga3/storage.py:559-780 | every publish, answer, dialogue message and single statement over PostgreSQL, with its own gates, keeps the board invariant |
| PostgresInvariant.PgRunKeepsKeysUnique | tga3/schema.sql:70 | (task, agent, key) stays unique over every run, with no condition on the keys of answers |
| PostgresInvariant.CommittedIsReachable | tga3/src/tga3/storage.py:559-780 | whatever the interleaving and whichever transactions aborted, the committed board is one that the finished requests reach one after the other |
| PostgresInvariant.PgBoardSound | tga3/src/tga3/storage.py:559-780 | on every such board logs are gapless, all their prefixes reference-closed, QA entries and answered questions equal in number, keys unique |
| PostgresInvariant.PgRunReadsBack | tga3/src/tga3/storage.py:559-780 | an entry of such a board is what a read after seq - 1 with limit 1 gives after any later requests |
| PostgresEffects.PgPublishSucceedsIff | tga3/src/tga3/storage.py:559-618 | over PostgreSQL a publish succeeds exactly for a used key, or for an existing task, available artifacts, citations that stand and references that differ |
| PostgresEffects.PgAnswerSucceedsIff | tga3/src/tga3/storage.py:719-780 | an answered question is answered again only under a key of the supervisor; a waiting one exactly with a text, for an existing task and under a key the asking agent has not used |
| PostgresEffects.PgEvidenceLasts | tga3/src/tga3/storage.py:559-618 | whatever is requested later, the evidence rows of a published entry are the references of its request |
| PostgresEffects.PgRecordsLast | tga3/src/tga3/storage.py:559-780 | no request takes back or alters anything recorded about a task |
| PostgresReports.PgHookStartsReportIff | tga3/src/tga3/host_agents.py:229-244 | over PostgreSQL, too, a published entry starts a report exactly when it is a final candidate of a task that is not terminal and has none |
| PostgresReports.PgAnswerStartsReportIff | tga3/src/tga3/storage.py:725-734 | an answer to a waiting question returns a QA entry; the notification of a retried one starts a report if and only if the entry under the supervisor and the key is a final candidate, no report was started and the task is not terminal |
| PostgresReports.RetryStartsReport | tga3/src/tga3/app.py:248-258 | a concrete run in which it does, with a candidate published by a worker that calls itself supervisor |
| PostgresProgress.DeadlockFree | tga3/src/tga3/storage.py:418-420 | in every reachable state with a transaction under way one of them can take a step nearer to its end: the locks are taken in one order |
| PostgresCompletion.AllCanFinish | tga3/src/tga3/storage.py:418-420 | from every reachable state some order of steps, without an abort, gives every transaction under way its outcome |
| PostgresCompletion.AbortLeavesNoTrace | tga3/src/tga3/storage.py:559-618 | an aborted transaction leaves state and history alone and lets go of its locks |
| SupervisorInvariant.RunKeepsInv | tga3/src/tga3/host_agents.py:245-311 | the invariant of the loop: what is pending, what a pass has read and what is reviewed stay consistent with the log in every interleaving |
| SupervisorLiveness.NoLostUpdate | tga3/src/tga3/host_agents.py:271-311 | each number given to `changed` is reviewed, pending or the business of the pass in flight, in every interleaving with the loop's suspensions |
| SupervisorLiveness.QuietMeansReviewed | tga3/src/tga3/host_agents.py:275-285 | when the loop waits for silence with no event set, everything noted has been reviewed |
| SupervisorLiveness.LastNeverDecreases | tga3/src/tga3/host_agents.py:390-434 | over every run without a cancel the reviewed number never decreases |
| SupervisorLiveness.RaiseLosesIff | tga3/src/tga3/host_agents.py:303-311 | in every run that has dropped nothing, an exception that escapes the pass in flight loses its batch exactly when the batch is new and nothing later is pending; what is pending then waits unchanged, with no loop, until the next change |
| SupervisorLiveness.PendingIsWatched | tga3/src/tga3/host_agents.py:245-256 | in every such run whatever is pending has a live loop: the loop is off only while nothing was noted |
| SupervisorLiveness.TerminalLosesIff | tga3/src/tga3/host_agents.py:314-317 | in every such run a pass that finds the task terminal drops its batch and the pending one unless both were reviewed |
| SupervisorLiveness.RaiseDropsFinding | tga3/src/tga3/host_agents.py:303-311 | a concrete run in which a finding is lost this way |
| SupervisorLiveness.TerminalDropsFinding | tga3/src/tga3/host_agents.py:314-317 | a concrete run in which a finding is lost because the task was completed meanwhile |
| SupervisorTiming.EveryNoteOnTime | tga3/src/tga3/host_agents.py:245-307 | in every run that drops nothing, for each start and each entry noted since the previous one and not reviewed by then: the pass reaches it, an Intel waits no longer than its maximum and a finding or an answer not at all, both from the time it was noted, or else until the loop became free |
| SupervisorTiming.EveryWaitingNoteInTime | tga3/src/tga3/host_agents.py:245-307 | the same at any moment for each entry that still waits |
| SupervisorTiming.PassesStartOnTime | tga3/src/tga3/host_agents.py:287-307 | under any storm of changes, failures and cancels included, each pass takes the highest number of its batch, keeps the bound of every note in it and one quiet interval after the last, and does not start before the batch was ripe |
| SupervisorTiming.RunStartsPassesOnTime | tga3/src/tga3/host_agents.py:287-307 | the same for every run from its start, and no batch that still waits has outwaited its bounds |
| SupervisorTiming.WaitingBatchIsTaken | tga3/src/tga3/host_agents.py:274-307 | in every run, while the loop is free and a batch waits, its own steps and the passing of time lead to a pass that takes the batch |
| SupervisorTiming.DeadlineBelowCap | tga3/src/tga3/host_agents.py:291-298 | every re-arming of the debounce timer keeps its deadline at or below the cap of each Intel in the batch |
| SupervisorStorm.PromptStormPostpones | tga3/src/tga3/host_agents.py:287-301 | for every n, n follow-up prompts, each just before the quiet interval is over, keep any pass from starting for n almost whole intervals |
| SupervisorStorm.FirstPromptPostponed | tga3/src/tga3/host_agents.py:287-301 | concrete runs of this, for every n, from a board that holds one prompt |
| SupervisorPass.ReviewableIsNoted | tga3/src/tga3/host_agents.py:237-256 | every Intel, finding, answer and user file is noted, and every prompt that is not the scene; advice and candidates are not |
| SupervisorPass.PassReadsIff | tga3/src/tga3/host_agents.py:314-347 | in every run a pass reads the board exactly when the task is not terminal and its batch is new or it is silent; left alone it reviews the board to its last entry and leaves nothing pending |
| SupervisorPass.AdviceWrittenIff | tga3/src/tga3/host_agents.py:402-453 | in every run the judged decision is appended, with its text, author and the number it is based on, if and only if it has a text and a free key, none of the last twenty advices is similar, and there is no advice yet, a new prompt or finding, or the last advice is an interval old |
| SupervisorPass.AdviceIsWritten | tga3/src/tga3/host_agents.py:402-428 | a concrete run in which advice on a first finding becomes the second entry |
| SupervisorPass.SilenceStartsPassIff | tga3/src/tga3/host_agents.py:275-285 | after an interval of silence a running task gets a silent pass, a terminal one ends the loop, and any other lets it wait again |
| SupervisorAdvice.DeltaCompleteIff | tga3/src/tga3/host_agents.py:341-347 | a pass's new entries leave nothing out if and only if all that the sync limit cuts off is advice |
| SupervisorAdvice.EveryEntryReachesAPass | tga3/src/tga3/host_agents.py:341-347 | while the board fits the limit, every entry that is not advice and is not beyond the reviewed number was new to some pass |
| SupervisorAdvice.EveryEntryReachesOnePass | tga3/src/tga3/blackboard.py:44-54 | exactly once and in order, when both reads of every pass saw the same board |
| SupervisorAdvice.FailedSyncSkipsIff | tga3/src/tga3/host_agents.py:380-391 | after a failed read delivery stays complete exactly when the skipped batch was all advice |
| SupervisorAdvice.FailedSyncSkipsFinding | tga3/src/tga3/host_agents.py:380-391 | a concrete run after which a finding counts as reviewed although no pass was shown it |
| SupervisorAdvice.AdviceSpacedAndNovel | tga3/src/tga3/host_agents.py:402-453 | over whole runs consecutive advice is an interval apart unless the later one answers a new prompt or finding, and no advice is similar to any of the twenty before it |
| SupervisorAdvice.RunIsSound | tga3/src/tga3/host_agents.py:271-453 | the spacing and novelty of advice and the delivery of entries to the reads of passes, together for every run from a board without advice |
| SupervisorDecision.EveryEntryIsDecided | tga3/src/tga3/host_agents.py:341-391 | while the board fits the limit and no read and no model call fails, every entry up to the reviewed number that is not advice was new to a pass that decided |
| SupervisorDecision.EveryEntryIsDecidedOnce | tga3/src/tga3/host_agents.py:341-391 | exactly once and in order, when no pass dies and both reads of every pass saw the same board |
| SupervisorDecision.RunIsDecided | tga3/src/tga3/host_agents.py:271-434 | both for every run from its start |
| SupervisorDecision.FailedPassSkipsIff | tga3/src/tga3/host_agents.py:379-391 | after a pass that failed, in a read or in the model, every reviewed entry was decided on exactly when what the pass marks as reviewed was all advice |
| SupervisorDecision.FailedModelSkipsIff | tga3/src/tga3/host_agents.py:363-391 | the same for a model call, where that is all the pass has read |
| SupervisorDecision.FailedModelSkipsFinding | tga3/src/tga3/host_agents.py:363-391 | a concrete run after which a finding that was read counts as reviewed although nobody decided on it |
| HostAgents.SupervisorPending.Record | tga3/src/tga3/host_agents.py:247-253 | what `changed` writes to the shared record |
| HostAgents.SuperviseJob.Turn | tga3/src/tga3/host_agents.py:274-306 | the head of the loop does to the shared record what the value machine does, and suspends where it does |
| HostAgents.Automation.Changed | tga3/src/tga3/host_agents.py:237-256 | a final candidate starts the one reporter and nothing else; other reviewable entries are noted for a live loop, of which there is never a second; a loop keeps watching the record that is written |
| HostAgents.Automation.CancelDuring | tga3/src/tga3/host_agents.py:258-269 | after a cancel the live loop watches the record `changed` writes to if and only if no reviewable entry arrived while it waited |
| HostAgents.CancelOrphansLoop | tga3/src/tga3/host_agents.py:258-269 | a concrete run of this: a finding arrives during the wait, and the loop it starts misses the next one |
| Reporter.SnapshotIsExactIff | tga3/src/tga3/host_agents.py:455-484 | whatever is published afterwards the report reads exactly the entries 1..snapshot number, if and only if that number is within the limit |
| Reporter.GraceFixesBoard | tga3/src/tga3/host_agents.py:455-484 | the number fixed after the grace period is that of the last entry then on the board; whatever happens later, every entry up to it is handed over, within the limit, and the task keeps the number unless somebody names another |
| Reporter.ReportFinalizes | tga3/src/tga3/host_agents.py:455-456 | a started report first sets its task to FINALIZING and nothing else |
| Reporter.ReportReports | tga3/src/tga3/host_agents.py:459-484 | a report that has its number sets its task to REPORTING with that number and, left alone, saves a writeup for it |
| Reporter.FailedReportIsFinal | tga3/src/tga3/host_agents.py:237-240 | a report that failed is not started again until a cancel, and then by the next candidate |
| Reporter.SnapshotHoldsItsGrounds | tga3/src/tga3/host_agents.py:459-476 | the snapshot holds the candidate that started the report and every finding it cites |
| Reporter.OneReportPerCancel | tga3/src/tga3/host_agents.py:237-240 | any number of candidates starts at most one report between cancels, and the saved writeup carries the fixed number |
| Reporter.HookStartsReportIff | tga3/src/tga3/host_agents.py:229-244 | across publish, hook and `changed` a report starts, on the candidate's own number, exactly for a final candidate of a task that is not terminal and has none |
| Reporter.AnswerStartsNoReport | tga3/src/tga3/app.py:248-258 | with the in-memory storage a notification from the answer endpoint never starts a report (`PostgresReports.PgAnswerStartsReportIff` for PostgreSQL) |
| Worker.PromptsConserved | tga3/src/tga3/workers/runtime.py:63-132 | every prompt is as often queued, held, completed, failed or abandoned as it was made; abandoned only after a stop or a broken socket |
| Worker.WakesCoalesced | tga3/src/tga3/workers/runtime.py:44-48 | at most one wake marker is in the queue, the flag says exactly when, and each notified number is pending behind it or covered by a prompt at least as new |
| Worker.QuietMeansRun | tga3/src/tga3/workers/runtime.py:102-132 | a worker waiting on an empty queue has run a cycle told at least each notified number |
| Worker.CancelledCycleRequeuedIff | tga3/src/tga3/workers/runtime.py:72-91 | a pause or model change meets a cycle, and any events follow until the worker resumes: a cancelled prompt is at the end of the queue if and only if no stop was read in between, and only after such a stop is it given up |
| Worker.PauseMissesCycleIff | tga3/src/tga3/workers/runtime.py:115-119 | after a pause some continuation without a resume runs a cycle nobody has cancelled, if and only if the pause met the worker between its pause check and the start |
| Worker.CycleStartsWhilePaused | tga3/src/tga3/workers/runtime.py:115-119 | a concrete run from a fresh session in which a cycle starts while paused |
| WorkerControl.PausedIff | tga3/src/tga3/workers/runtime.py:72-79 | in every run the session is paused if and only if the last pause or resume that was read is a pause |
| WorkerControl.HeldPromptStartsIff | tga3/src/tga3/workers/runtime.py:115-119 | a prompt at the pause check goes on to its cycle if and only if the session is not paused |
| WorkerControl.ResumeStartsHeldPrompt | tga3/src/tga3/workers/runtime.py:77-79 | in every run a prompt held there starts its cycle after a resume is read |
| WorkerControl.ResumedPromptRuns | tga3/src/tga3/workers/runtime.py:77-79 | a concrete run: the startup prompt is held by a pause and runs after the resume |
| WorkerControl.StopAllowsOneMore | tga3/src/tga3/workers/runtime.py:80-87 | once a stop was read a waiting worker finds it in its queue, and after one more item it never waits there again |
| WorkerControl.CancelledCycleIsAwaited | tga3/src/tga3/workers/runtime.py:72-91 | a pause, model change or stop that meets a cycle reads and queues nothing until that cycle is over; then a stop is queued exactly for a stop |
| WorkerControl.CycleIsSettled | tga3/src/tga3/workers/runtime.py:118-132 | a cycle with output is completed, one that raised has failed, and the worker goes back to its queue unless it stops |
| WorkerControl.QueueIsFifo | tga3/src/tga3/workers/runtime.py:44-107 | what was queued is what was taken, in that order, and what is still there |
| WorkerControl.OnlyNotifiedIsTold | tga3/src/tga3/workers/runtime.py:44-48 | in every run the worker is told only numbers that were notified |
| Worker.WorkerSession.QueueBlackboardUpdate | tga3/src/tga3/workers/runtime.py:44-48 | raises the pending number and adds a marker only when none is queued |
| Worker.WorkerSession.Receive | tga3/src/tga3/workers/runtime.py:63-98 | each control message up to its suspension |
| Worker.WorkerSession.TakeItem | tga3/src/tga3/workers/runtime.py:102-114 | the head of the queue becomes the prompt at hand, a marker one that covers everything pending |
| Worker.WorkerSession.ResumeAfterCycle | tga3/src/tga3/workers/runtime.py:118-132 | the three ways out of a cycle |
| Gateway.DisconnectReportedIff | tga3/src/tga3/gateway.py:62-100 | one registered connection per key, the live one; a connection that ran its teardown reported session.disconnected if and only if it was neither replaced nor detached with its task, and once |
| Gateway.EndedButRegisteredIff | tga3/src/tga3/gateway.py:66-71 | a connection whose attach has ended is still registered if and only if closing the replaced socket raised and nothing displaced it |
| Gateway.ReconnectStrands | tga3/src/tga3/gateway.py:66-71 | a concrete run: a reconnect whose closing of the old socket raises stays registered with nobody serving it |
| Gateway.ReplacementStays | tga3/src/tga3/gateway.py:93-98 | an old teardown never unregisters a replacement, over every continuation |
| Gateway.ResponseCompletesItsRequestOnce | tga3/src/tga3/gateway.py:41-50 | a request that returns has the first response with its number read after it was made, and no later event changes how it ended |
| Gateway.PendingRequestEnds | tga3/src/tga3/gateway.py:41-50 | in every run a pending request returns its response if that was read, and the timeout then does nothing; without one only the timeout ends it |
| Gateway.DisconnectedNeverReports | tga3/src/tga3/gateway.py:123-136 | in every run disconnecting a task unregisters its connections and no others, and none of them ever reports a disconnect |
| Gateway.EndingReports | tga3/src/tga3/gateway.py:62-100 | in every run a served connection whose socket ends leaves the registry, and reports the disconnect if it was neither replaced nor detached |
| Gateway.AgentConnection.MakeRequest | tga3/src/tga3/gateway.py:41-46 | the next number of the connection, pending from now on |
| Gateway.AgentConnection.ReadResponse | tga3/src/tga3/gateway.py:74-81 | completes its own pending request, if that is not done, and no other |
| Gateway.AgentGateway.AttachConnection | tga3/src/tga3/gateway.py:64-68 | registers the connection in place of the old one of its key, which it hands back |
| Gateway.AgentGateway.TeardownConnection | tga3/src/tga3/gateway.py:94-98 | removes its own registration only, and says whether there was one |
| Gateway.AgentGateway.DisconnectConnections | tga3/src/tga3/gateway.py:123-136 | exactly the task's connections are unregistered and handed back |
| Coordinator.AllStoppedOnReturn | tga3/src/tga3/coordinator.py:341-358 | with the in-memory storage every agent of the last loop is wanted stopped and stopped on return, all workers were told in order and all their containers asked to stop, whatever disconnects were handled meanwhile |
| Coordinator.StopCanReturn | tga3/src/tga3/coordinator.py:341-370 | from every state of the stop in which no notification raised, its own steps lead to its return |
| Coordinator.MarkedNeverFails | tga3/src/tga3/coordinator.py:228-241 | with the in-memory storage a marked worker never becomes FAILED |
| Coordinator.OrderlyIff | tga3/src/tga3/storage.py:518-521 | with handlers that read, merge and write separately, a marked worker is safe from FAILED in all continuations if and only if no handler in flight read its state or row before the mark |
| Coordinator.MarkedUnderStaleHandler | tga3/src/tga3/coordinator.py:341-358 | a concrete run to a marked worker with such a handler in flight |
| Coordinator.StoppedWorkerFails | tga3/src/tga3/coordinator.py:228-240 | that run to its end: the stop has returned and the stopped worker is FAILED |
| Coordinator.SafeStaysStopped | tga3/src/tga3/coordinator.py:351-358 | such a worker, once stopped, is reported stopped ever after |
| Coordinator.RaisedStopLeavesIff | tga3/src/tga3/coordinator.py:341-350 | with the in-memory storage, after a stop whose notification raised only the workers before it were told and no container was stopped, and a worker not marked before is unmarked exactly if it comes after the failing one |
| Coordinator.RaisedStopLeavesWorker | tga3/src/tga3/coordinator.py:341-350 | a concrete run in which the second of two workers is left running |
| Coordinator.TaskCoordinator.LaunchWorkers | tga3/src/tga3/coordinator.py:112-131 | for every failing worker a stop is issued for all workers and the task ends FAILED, exactly when the failure can be written; otherwise it ends RUNNING without stops; which workers were marked as starting and which were launched |
| Config.ResolvesIff | tga3/src/tga3/config.py:242-279 | in a valid configuration an agent resolves, to what it is bound to, if and only if its provider has its selected key |
| ConfigEffects.OverridesResolveIff | tga3/src/tga3/config.py:242-279 | in any configuration, valid or not, and under any overrides: an agent resolves, to the chosen provider, model and protocol and the secret of the selected key, if and only if that provider serves them and the runtime speaks the protocol |
| Config.EditsKeepValid | tga3/src/tga3/config.py:332-394 | after any mix of document edits, deletions and discoveries the configuration is valid and agents, names, roles and runtimes are the initial ones |
| Config.DeletionSucceedsIff | tga3/src/tga3/app.py:353-368 | a provider is deleted exactly when it exists, is not built in and no agent is bound to it; the validation after these guards never refuses |
| ConfigEffects.ValidIff | tga3/src/tga3/config.py:439-486 | the validation accepts exactly the configurations with the four agents in their roles and runtimes, the eight scenes and none twice, every agent served by its provider over a protocol its runtime speaks, and an image for every worker |
| ConfigEffects.DeletionRemoves | tga3/src/tga3/app.py:353-368 | a deleted provider is gone, every other can be found as before, and nothing else changes |
| ConfigEffects.ApplySucceedsIff | tga3/src/tga3/config.py:332-376 | in a valid configuration a document is refused for its own reason only: models when an agent is no longer served, agents when one is redefined or not served, scenes when more than a prompt changes, the runtime when a worker has no image |
| ConfigEffects.ApplyReplacesOwnDocument | tga3/src/tga3/config.py:332-394 | an applied document replaces its own part of the configuration and no other |
| ConfigEffects.DiscoveryReplacesModels | tga3/src/tga3/app.py:370-407 | discovery gives the provider exactly the models found, in order, and leaves the other providers and documents alone |
| ConfigEffects.DiscoveryKeepsBinding | tga3/src/tga3/app.py:381-399 | where names and identifiers of its models are distinct, an agent whose model is found again keeps its binding |
| Config.DiscoverySucceedsIff | tga3/src/tga3/app.py:370-407 | discovery with an unchanged URL and key fails exactly when nothing was found and an agent is bound; rebinding never fails validation |
| Config.RebindAgents | tga3/src/tga3/app.py:393-399 | the loop rebinds exactly the agents whose model has gone and reports them |
| ConfigStore.AllOrNothingIff | tga3/src/tga3/config.py:396-424 | when every document is new, a call leaves all four files as they were if and only if it raised before all were replaced and its rollback went through, and leaves them partly replaced if and only if a rollback write raised too |
| ConfigStore.LeavesAnyFilesIff | tga3/src/tga3/config.py:396-424 | the same condition for all contents at once: exactly then the files are left alone whatever they held and whatever the bundle |
| ConfigStore.LeftoverIff | tga3/src/tga3/config.py:396-424 | at most one file is left behind, and it is a complete copy of an original exactly when putting a recovery in place raised |
| ConfigStore.TGA3Config.ApplyBundle | tga3/src/tga3/config.py:396-430 | files, live configuration and leftovers after a failure at any step, with the all-or-nothing condition; files and live configuration agree and are valid whenever the rollback succeeds |
| ConfigStore.TGA3Config.Replace | tga3/src/tga3/config.py:413-415 | exactly the documents before the failing one were replaced |
| ConfigStore.TGA3Config.Recover | tga3/src/tga3/config.py:416-420 | the replaced documents get their original contents back, as far as the rollback goes |
| ConfigStore.TGA3Config.ApplyDocument | tga3/src/tga3/config.py:332-394 | one file and its live document change together or not at all, after validation of the whole |
| Dialogue.SentExactlyOnce | tga3/src/tga3/app.py:235-246 | whatever is appended between polls, the stream sends the messages after its starting point in order and once, and an empty poll means all were sent |
| Dialogue.SendsAreATurn | tga3/src/tga3/app.py:239-243 | sending a batch message by message ends where the generator's turn ends |
| Dialogue.DialogueStream.Turn | tga3/src/tga3/app.py:239-243 | one turn of the generator: the batch beyond the cursor is sent and the cursor is its last number |
| RuntimeGraph.ShownInOrderAndSpaced | apps/web/src/features/runtime/components/TGA3RuntimeGraph.tsx:41-98 | however late timers fire: a timer is armed exactly while the slot is occupied, a queue implies an occupied slot, activities appear in order, none is dropped, each stays the minimum time |
| RuntimeGraph.ShownInTime | apps/web/src/features/runtime/components/TGA3RuntimeGraph.tsx:62-98 | with exact timers an activity enqueued behind n - 1 others appears within n minimum times |
| RuntimeGraph.ArrivalIsShownIff | apps/web/src/features/runtime/components/TGA3RuntimeGraph.tsx:83-98 | in every run an arriving activity is shown at once exactly when nothing is shown, or nothing waits and what is shown has had its minimum time |
| RuntimeGraph.TimerTurns | apps/web/src/features/runtime/components/TGA3RuntimeGraph.tsx:62-81 | with exact timers what is shown stays for the minimum time when another waits and for the flash time when none does; then the next appears or the slot is empty |
| RuntimeGraph.ClearedOwnerIsEmpty | apps/web/src/features/runtime/components/TGA3RuntimeGraph.tsx:52-60 | in every run a cleared owner shows nothing, has no timer and nothing waiting |
| RuntimeGraph.TGA3RuntimeGraph.TimerFires | apps/web/src/features/runtime/components/TGA3RuntimeGraph.tsx:64-71 | the owner's next activity is shown, or its slot emptied; other owners are left alone |
| RuntimeGraph.TGA3RuntimeGraph.EnqueueActivity | apps/web/src/features/runtime/components/TGA3RuntimeGraph.tsx:83-98 | shown at once or queued with the timer moved to the end of the minimum time; other owners are left alone |
| RuntimeGraph.TGA3RuntimeGraph.RemoveActivity | apps/web/src/features/runtime/components/TGA3RuntimeGraph.tsx:52-60 | slot, timer and display time go, and the queue if asked |
| Route.DetourKeepsMargin | apps/web/src/features/runtime/components/TGA3RuntimeGraph.tsx:390-403 | the detour leads from one end point to the other, keeps the margin in between and passes on the nearer side |
| Route.DetourAvoidsIff | apps/web/src/features/runtime/components/TGA3RuntimeGraph.tsx:390-403 | no segment of the detour enters the blackboard's box if and only if neither end point lies inside it |

## Left out

- Language models, the agent SDK adapters, Docker, WebSockets, HTTP routing, MCP and the encoding of JSON and SQL: a step
  that calls them has an arbitrary result or fails.
- Identifiers are numbers that are only compared; operations that draw a new one require it to be fresh.
- Titles, display texts and timestamps other than an entry's creation time.
- The fields of an agent record other than its two states, and of an input file other than its task and name; the empty
  list that reading a missing key of a `defaultdict` leaves behind; negative limits.
- PostgreSQL: `delete_task` and its order of locks, collisions of advisory lock hashes, and the unique index on
  (task, seq), which the row lock makes redundant. `answers` is kept beside the tables as bookkeeping and never read by a
  transaction.
- `SequenceMatcher` and the hash in an advice key are parameters of `Supervisor.Config`.
- `Supervisor.dfy` follows one task and takes `cancel` as one step; `HostAgents.dfy` has the dictionaries of all tasks and
  the window inside `cancel`. The supervisor's question to the user and its status messages change no modelled state.
- The supervisor theorems assume a clock above zero, as `first_intel_at or last_change_at` does. What a pass hands to the
  model beside its new entries is left out.
- `finding_links` over PostgreSQL names no order of its rows; the model keeps them in the order of insertion.
- PassesStartOnTime: timers are exact and a runnable loop runs before time passes, since asyncio promises no bound of its own.
- ShownInTime: assumes exact timers; with late timers only the order and the minimum time hold.
- Reporter.OneReportPerCancel: the report's failure handling and its effect on agent states are one step.
- Worker: the contents of the environment's prompts, and `set_model` itself, which touches the adapter only.
- Gateway: sends other than those of a request, and methods outside the protocol, which change no registry.
- `create_and_start` before its try block, `add_prompt`, pausing and resuming through the coordinator: sequences of calls
  without an interleaving of their own.
- Config: the value ranges pydantic checks when a document is parsed, and reading the originals before the first write,
  whose failure changes nothing.
- The useEffect that feeds the runtime graph's queue, label placement and the sampling that decides whether a detour is taken.
- Skills, provider profiles, model discovery requests, deployment scripts and the other pages.
