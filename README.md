# Scale core bookkeeping, modelled in Dafny

Scale is a system that schedules and runs processing jobs on a cluster, ingests source files and keeps track of the products and results. This project models five pieces of it and proves properties of each.

- **Running job execution** (`job_exe.dfy`, module `JobExe`). This is the scheduler's state machine for one job execution. It queues the pre, job and post tasks (only the job task for a system execution) and hands them out one at a time. It reacts to task status updates, cancellation, node loss and time-outs, and pauses a node that fails too many jobs with system errors. The class `RunningJobExecution` keeps the task queue as fields. A ghost invariant `Valid()` says that tasks are handed out in plan order and never twice. Calls out of the class are recorded in order in an `events` log:
  - task callbacks;
  - the queue's job completion and failure handlers;
  - the node pause.
- **UI state store** (`state_service.dfy`, module `StateService`). This is the web UI's store for the user, the version, the jobs grid columns and the jobs list parameters. The parameters are seeded from the URL query string and written back to it. The class `Store` holds the query string (`search`) next to the stored values. A malformed numeric query value such as `page=abc` is not replaced by its default: the test is on the raw string, so the parameter gets whatever the integer parse returns. The model follows that code rather than the looser reading that bad values fall back to defaults.
- **Purge source file message** (`purge_source_file.dfy`, module `PurgeSourceFileMessage`). This command message purges a source file. It sends one spawn-delete-files-job message per stand-alone job that read the file, and one purge-recipe message per live recipe that read it. Once it has neither kind of message to send, it deletes the file's rows, even though jobs inside recipes and superseded recipes may still read the file. The tables are a value and the messages a field.
- **Ingest trigger condition** (`ingest_trigger_condition.dfy`, module `IngestTriggerCondition`). This is the condition an ingest trigger checks on a new source file: a media type plus "all of", "any of" and "none of" data type tags. Each unit test of the condition is a lemma.
- **Seed job results** (`job_results.dfy`, module `SeedJobResults`). These are the output files and JSON values of a job. The module covers:
  - recording outputs;
  - feeding an output to another job's input data;
  - the legacy v5 presentation of the outputs;
  - grouping stored output files by their output parameter.

`wrappers.dfy` holds `Option`, `Result`, `Timestamp` (a plain integer alias for a clock reading) and an order-preserving `Filter`. `Filter` is the shape of an ORM filter over rows in query order.

## Model

| member | source | states |
|---|---|---|
| JobExe.InitialTasks | scale/job/execution/running/job_exe.py:42-49 | the tasks a new execution queues: pre, job, post, or the job task alone for a system execution |
| JobExe.RunningJobExecution.constructor | scale/job/execution/running/job_exe.py:31-49 | a new execution queues pre, job, post (only the job task when it is a system execution), runs nothing yet, is not finished and has its next task ready |
| JobExe.RunningJobExecution.NextTaskResources | scale/job/execution/running/job_exe.py:175-180 | None exactly when nothing is queued, else the resources of the head of the queue |
| JobExe.RunningJobExecution.ExecutionCanceled | scale/job/execution/running/job_exe.py:99-103 | returns the task that was running, empties the queue, ends finished, reports nothing |
| JobExe.RunningJobExecution.ExecutionLost | scale/job/execution/running/job_exe.py:114-124 | reports the job failed at `when` with the node-lost error, returns the running task, ends finished |
| JobExe.RunningJobExecution.ExecutionTimedOut | scale/job/execution/running/job_exe.py:135-145 | reports the job failed at `when` with the timeout error, returns the running task, ends finished |
| JobExe.RunningJobExecution.StartNextTask | scale/job/execution/running/job_exe.py:190-195 | does nothing while a task runs or nothing is queued; otherwise pops the head of the queue and makes it current, keeping plan order |
| JobExe.RunningJobExecution.IsCurrent | scale/job/execution/running/job_exe.py:205 | a status update is about the running task: some task runs and its id is the update's |
| JobExe.RunningJobExecution.TaskComplete | scale/job/execution/running/job_exe.py:204-214 | ignores updates about any task but the current one; completes the current task and reports the job complete exactly when no task is left |
| JobExe.RunningJobExecution.TaskFail | scale/job/execution/running/job_exe.py:225-261 | ignores updates about other tasks; fails the task, reports the job failed with the task's error or else the unknown error, pauses the node exactly when all pause conditions hold, drops every remaining task |
| JobExe.RunningJobExecution.TaskRunning | scale/job/execution/running/job_exe.py:276-280 | passes the start to the current task only; the queue never changes |
| JobExe.CompleteNormalExecution | scale/job/execution/running/job_exe.py:182-214 | a normal execution whose tasks all complete starts pre, job, post in that order, reports the job complete once after the post task, and ends finished |
| JobExe.CompleteSystemExecution | scale/job/execution/running/job_exe.py:40-49 | a system execution starts only its job task and is finished after it completes |
| JobExe.ShouldPauseNode | scale/job/execution/running/job_exe.py:242-252 | the pause rule: a system error, tries used up, a node that exists and is not paused, the rule enabled and the recent system failures at the threshold |
| JobExe.RunningJobExecution.IsFinished | scale/job/execution/running/job_exe.py:155 | finished when no task runs and none is queued |
| JobExe.RunningJobExecution.IsNextTaskReady | scale/job/execution/running/job_exe.py:165 | the next task is ready when no task runs and one is queued |
| JobExe.QueueAsWritten | scale/job/execution/running/job_exe.py:42-49 | the constructor as written queues the tasks' id strings, one per planned task, in plan order |
| JobExe.EntryId | scale/job/execution/running/job_exe.py:205 | `.id` of a queue entry: a task's id, an attribute error on an id string |
| JobExe.EntryResources | scale/job/execution/running/job_exe.py:180 | `.get_resources()` of a queue entry: a task's resources, an attribute error on an id string |
| JobExe.IgnoreUpdate | scale/job/execution/running/job_exe.py:205 | the status-update guard on a queue entry: a missing or falsy (empty-string) entry ignores the update; it raises exactly on a non-empty id string; on a task it ignores exactly the updates about other ids |
| JobExe.AsWrittenQueueBreaksUpdates | scale/job/execution/running/job_exe.py:175-206 | with id strings queued, asking for the next task's resources raises; once the first entry is current, the status-update guard raises when its id is non-empty and ignores every update, even its own, when its id is empty |
| JobExe.TaskRecordQueueHandlesUpdates | scale/job/execution/running/job_exe.py:194-206 | with task records queued, the head's resources are readable and the guard accepts an update for the started task |
| StateService.OrElse | scale-ui/app/modules/common/services/stateService.js:12-19 | a truthy query value is taken as is, a falsy one gives the default |
| StateService.OrderParam | scale-ui/app/modules/common/services/stateService.js:14 | the order is always a list: a repeated key as is, a single value wrapped, nothing gives newest-modified-first |
| StateService.InitialJobsParams | scale-ui/app/modules/common/services/stateService.js:5-21 | the seeded parameters always hold a null `url` and an `order` list |
| StateService.InitialJobsParamsDefaults | scale-ui/app/modules/common/services/stateService.js:9-21 | with every query value the store reads falsy (a `url` in the query is never read), the parameters are page 1, 25 per page, the clock's date range, newest first, no filters |
| StateService.NumericParamsFromQuery | scale-ui/app/modules/common/services/stateService.js:10-17 | page, page size and job type id each take the parse of a truthy query value, whatever the other keys hold, and otherwise 1, 25 or null |
| StateService.NumericParamsParsed | scale-ui/app/modules/common/services/stateService.js:10-17 | example: the raw string "0" is truthy, so it is parsed (to 0) rather than replaced by the default |
| StateService.TextParamsFromQuery | scale-ui/app/modules/common/services/stateService.js:12-19 | date-range and text filters take the query value when present, otherwise their default |
| StateService.QueryStringExample | scale-ui/app/modules/common/services/stateService.js:9-21 | `page=3&page_size=10&status=RUNNING` gives page 3, 10 per page, status RUNNING and every other parameter at its default |
| StateService.InitialJobsParamsKeys | scale-ui/app/modules/common/services/stateService.js:9-21 | the parameters hold exactly the eleven documented keys |
| StateService.SetSearchParam | scale-ui/app/modules/common/services/stateService.js:48 | writing a query parameter sets it, a null value removes it, no other parameter changes |
| StateService.SearchAfter | scale-ui/app/modules/common/services/stateService.js:46-50 | the query string once the named parameters are written: set when non-null, removed when null, every other key kept |
| StateService.SearchAfterStep | scale-ui/app/modules/common/services/stateService.js:47-49 | writing one more parameter is the same as extending the set of written parameters by it |
| StateService.SearchAfterAll | scale-ui/app/modules/common/services/stateService.js:45-50 | after all parameters are written, the query string holds each non-null value, lacks each null one and keeps every other parameter |
| StateService.Store.constructor | scale-ui/app/modules/common/services/stateService.js:5-21 | the store starts with an empty user, empty version, no column definitions and the parameters seeded from the query string |
| StateService.Store.GetUser | scale-ui/app/modules/common/services/stateService.js:24-26 | the stored user |
| StateService.Store.SetUser | scale-ui/app/modules/common/services/stateService.js:27-29 | the getter returns what was set; nothing else changes |
| StateService.Store.GetVersion | scale-ui/app/modules/common/services/stateService.js:30-32 | the stored version |
| StateService.Store.SetVersion | scale-ui/app/modules/common/services/stateService.js:33-35 | the getter returns what was set; nothing else changes |
| StateService.Store.GetJobsColDefs | scale-ui/app/modules/common/services/stateService.js:36-38 | the stored column definitions |
| StateService.Store.SetJobsColDefs | scale-ui/app/modules/common/services/stateService.js:39-41 | the getter returns what was set; nothing else changes |
| StateService.Store.GetJobsParams | scale-ui/app/modules/common/services/stateService.js:42-44 | the stored jobs parameters |
| StateService.Store.SetJobsParams | scale-ui/app/modules/common/services/stateService.js:45-51 | the parameters are replaced as a whole, and the query string gets every non-null parameter, loses every null one and keeps the rest |
| StateService.AccessorsRoundTrip | scale-ui/app/modules/common/services/stateService.js:23-51 | after setting all four values, each getter returns its own value |
| IngestTriggerCondition.NewCondition | scale/ingest/test/triggers/test_ingest_trigger_condition.py:14-172 | for every file, the built condition is met iff the media type matches when one is given, a given "all of" set is carried, a given non-empty "any of" set meets the tags and a given "none of" set misses them: an omitted or None set imposes nothing |
| IngestTriggerCondition.OmittedSetsImposeNothing | scale/ingest/test/triggers/test_ingest_trigger_condition.py:14-36 | a condition with only a media type (or none) accepts every file of that media type (or every file), whatever its tags |
| IngestTriggerCondition.IsConditionMet | scale/ingest/test/triggers/test_ingest_trigger_condition.py:14-172 | the condition the tests pin down: the media type when one is required, all "all of" tags, some "any of" tag when that set is non-empty, no "none of" tag |
| IngestTriggerCondition.ConditionMetTagByTag | scale/ingest/test/triggers/test_ingest_trigger_condition.py:38-172 | met iff the media type matches when one is required, every "all of" tag is carried, some "any of" tag is carried when that set is non-empty, and no "none of" tag is carried |
| IngestTriggerCondition.ConditionIsConjunction | scale/ingest/test/triggers/test_ingest_trigger_condition.py:125-148 | the four parts are checked independently and combined by conjunction |
| IngestTriggerCondition.ExtraTagsDoNotMatter | scale/ingest/test/triggers/test_ingest_trigger_condition.py:38-51 | extra tags outside "none of" keep a met condition met |
| IngestTriggerCondition.TestNoConditions | scale/ingest/test/triggers/test_ingest_trigger_condition.py:14-20 | a condition with no media type and no tag sets is met by an untagged plain-text file |
| IngestTriggerCondition.TestMediaTypeMatch | scale/ingest/test/triggers/test_ingest_trigger_condition.py:22-28 | a matching media type is met |
| IngestTriggerCondition.TestMediaTypeMismatch | scale/ingest/test/triggers/test_ingest_trigger_condition.py:30-36 | a different media type is not met |
| IngestTriggerCondition.TestHasDataTypes | scale/ingest/test/triggers/test_ingest_trigger_condition.py:38-51 | carrying all required tags and more is met |
| IngestTriggerCondition.TestDoesNotHaveDataTypes | scale/ingest/test/triggers/test_ingest_trigger_condition.py:53-64 | missing one required tag is not met |
| IngestTriggerCondition.TestBothCorrect | scale/ingest/test/triggers/test_ingest_trigger_condition.py:66-75 | right media type and all tags is met |
| IngestTriggerCondition.TestMediaTypeIncorrect | scale/ingest/test/triggers/test_ingest_trigger_condition.py:77-88 | the right tags do not make up for the wrong media type |
| IngestTriggerCondition.TestDataTypesIncorrect | scale/ingest/test/triggers/test_ingest_trigger_condition.py:90-101 | the right media type does not make up for a missing tag |
| IngestTriggerCondition.TestHasAnyDataTypes | scale/ingest/test/triggers/test_ingest_trigger_condition.py:103-112 | one "any of" tag is enough |
| IngestTriggerCondition.TestHasNotDataTypesShadowed | scale/ingest/test/triggers/test_ingest_trigger_condition.py:114-123 | the "none of" set {"AB"} does not exclude a file tagged "C" |
| IngestTriggerCondition.TestHasAnyAndNotDataTypes | scale/ingest/test/triggers/test_ingest_trigger_condition.py:125-135 | "any of" met and "none of" avoided is met |
| IngestTriggerCondition.TestHasAllDataTypes | scale/ingest/test/triggers/test_ingest_trigger_condition.py:137-148 | all three tag sets satisfied together is met |
| IngestTriggerCondition.TestNoAnyDataTypes | scale/ingest/test/triggers/test_ingest_trigger_condition.py:150-160 | carrying none of the "any of" tags is not met |
| IngestTriggerCondition.TestHasNotDataTypes | scale/ingest/test/triggers/test_ingest_trigger_condition.py:162-172 | carrying a "none of" tag is not met |
| PurgeSourceFileMessage.EncodeIds | scale/source/messages/purge_source_file.py:50-54 | the JSON form holds exactly the source file id and trigger id members |
| PurgeSourceFileMessage.DecodeIds | scale/source/messages/purge_source_file.py:56-65 | reading succeeds iff both members are present, and then gives both ids; a missing member is a key error |
| PurgeSourceFileMessage.IdsRoundTrip | scale/source/messages/purge_source_file.py:50-65 | decoding an encoded pair of ids gives them back |
| PurgeSourceFileMessage.JobInputsToPurge | scale/source/messages/purge_source_file.py:76-77 | every row it returns is a job input of the file whose job is in no recipe, and every such row of the table is returned |
| PurgeSourceFileMessage.JobInputsOnePerRow | scale/source/messages/purge_source_file.py:76-87 | each matching job input row is returned exactly as often as it occurs in the table, so one spawn message goes out per row |
| PurgeSourceFileMessage.JobInputsInQueryOrder | scale/source/messages/purge_source_file.py:76-87 | the returned rows keep the table's query order |
| PurgeSourceFileMessage.RecipeInputsToPurge | scale/source/messages/purge_source_file.py:78-79 | every row it returns is a recipe input of the file whose recipe is not superseded, and every such row of the table is returned |
| PurgeSourceFileMessage.RecipeInputsOnePerRow | scale/source/messages/purge_source_file.py:78-94 | each matching recipe input row is returned exactly as often as it occurs in the table, so one purge-recipe message goes out per row |
| PurgeSourceFileMessage.RecipeInputsInQueryOrder | scale/source/messages/purge_source_file.py:78-94 | the returned rows keep the table's query order |
| PurgeSourceFileMessage.NothingLeftToPurge | scale/source/messages/purge_source_file.py:76-97 | both queries are empty iff every reader of the file is a job inside a recipe or a superseded recipe |
| PurgeSourceFileMessage.SpawnMessages | scale/source/messages/purge_source_file.py:82-87 | one spawn-delete-files-job message with purging on per job input, in order |
| PurgeSourceFileMessage.PurgeRecipeMessages | scale/source/messages/purge_source_file.py:90-94 | one purge-recipe message per recipe input, in order |
| PurgeSourceFileMessage.Purged | scale/source/messages/purge_source_file.py:97-101 | the file's ingests and file row are gone, its purge is marked complete at `now`, every other row is untouched |
| PurgeSourceFileMessage.PurgedIdempotent | scale/source/messages/purge_source_file.py:97-101 | purging twice is purging once, at the later time |
| PurgeSourceFileMessage.PurgeSourceFile.constructor | scale/source/messages/purge_source_file.py:40-47 | a new message has its type name, its ids and no outgoing messages |
| PurgeSourceFileMessage.PurgeSourceFile.ToJson | scale/source/messages/purge_source_file.py:50-54 | the JSON form decodes back to the message's ids |
| PurgeSourceFileMessage.PurgeSourceFile.FromJson | scale/source/messages/purge_source_file.py:56-65 | fails with the key error iff a member is missing, else a fresh message with the decoded ids |
| PurgeSourceFileMessage.PurgeSourceFile.Execute | scale/source/messages/purge_source_file.py:67-103 | fails without a purge results row; stops at once when force-stopped; otherwise sends the spawn messages then the purge-recipe messages, and deletes the file's rows exactly when there were neither |
| PurgeSourceFileMessage.PurgeSourceFile.SendSpawnMessages | scale/source/messages/purge_source_file.py:82-87 | appends the spawn messages of the job inputs, in order, to the outgoing messages |
| PurgeSourceFileMessage.PurgeSourceFile.SendPurgeRecipeMessages | scale/source/messages/purge_source_file.py:90-94 | appends the purge-recipe messages of the recipe inputs, in order, to the outgoing messages |
| PurgeSourceFileMessage.CreatePurgeSourceFileMessage | scale/source/messages/purge_source_file.py:18-33 | the message carries the given ids and nothing to send |
| PurgeSourceFileMessage.JsonRoundTrip | scale/source/messages/purge_source_file.py:50-65 | a message read back from its own JSON carries the same ids |
| SeedJobResults.JobResults.constructor | scale/job/seed/results/job_results.py:26-36 | the results hold the given file and JSON outputs |
| SeedJobResults.JobResults.AddFileListParameter | scale/job/seed/results/job_results.py:48-57 | the parameter now maps to the given ids; JSON outputs are untouched |
| SeedJobResults.JobResults.AddFileParameter | scale/job/seed/results/job_results.py:59-68 | the parameter now maps to the one-element list of the id |
| SeedJobResults.JobResults.AddOutputToData | scale/job/seed/results/job_results.py:70-85 | a missing output is a key error that changes nothing; a one-file output becomes a file input, any other a file-list input |
| SeedJobResults.JobData.AddFileInput | scale/job/seed/results/job_results.py:83 | the job data gains one file input |
| SeedJobResults.JobData.AddFileListInput | scale/job/seed/results/job_results.py:85 | the job data gains one file-list input |
| SeedJobResults.FileMap | scale/job/seed/results/job_results.py:122 | the job files by id, built in list order |
| SeedJobResults.FileMapLastWins | scale/job/seed/results/job_results.py:122 | every job file's id is a key, each key maps to a file with that id, and the later of two files with one id wins |
| SeedJobResults.ResolveFiles | scale/job/seed/results/job_results.py:126 | the files of the ids in order, or a key error iff an id is unknown |
| SeedJobResults.ConvertFileOutput | scale/job/seed/results/job_results.py:124-136 | a file output is skipped when its name or one of its files is unknown, raises iff it lists no file, and is otherwise kept as `files` with the list (two or more) or `file` with the one file |
| SeedJobResults.FileOutputs | scale/job/seed/results/job_results.py:124-136 | the kept file outputs in declaration order, or the index error of the first declaration that raises |
| SeedJobResults.KeptDecls | scale/job/seed/results/job_results.py:124-136 | the declared file outputs that are kept, in declaration order |
| SeedJobResults.FileOutputsFails | scale/job/seed/results/job_results.py:124-136 | the presentation fails iff some declared file output lists no file |
| SeedJobResults.FileOutputsMeaning | scale/job/seed/results/job_results.py:124-136 | when the presentation succeeds it returns the output of every kept declaration, each once, in declaration order, and nothing else |
| SeedJobResults.PresentFileOutputs | scale/job/seed/results/job_results.py:124-136 | the loop over the declared file outputs returns exactly the specified file outputs or index error |
| SeedJobResults.FileOutputsErrorStays | scale/job/seed/results/job_results.py:126-135 | the index error is not caught: once raised, the whole presentation fails with it |
| SeedJobResults.JsonOutputs | scale/job/seed/results/job_results.py:138-145 | every declared JSON output with a value, and only those, appears as a `property` carrying that value |
| SeedJobResults.JsonDecls | scale/job/seed/results/job_results.py:138-145 | the declared JSON outputs that have a value, in declaration order |
| SeedJobResults.JsonOutputsMeaning | scale/job/seed/results/job_results.py:138-145 | exactly one `property` output per declaration with a value, carrying that value, in declaration order |
| SeedJobResults.PresentJsonOutputs | scale/job/seed/results/job_results.py:138-145 | the loop over the declared JSON outputs returns exactly the specified JSON outputs |
| SeedJobResults.V5Outputs | scale/job/seed/results/job_results.py:107-147 | the file outputs, then the JSON outputs, or the index error |
| SeedJobResults.JobResults.ExtendInterfaceWithOutputsV5 | scale/job/seed/results/job_results.py:107-147 | returns the file outputs then the JSON outputs as the specifications above define them, or the index error |
| SeedJobResults.WorkspaceFilesOf | scale/job/seed/results/job_results.py:253-269 | the files of each output workspace, gathered parameter by parameter in visiting order |
| SeedJobResults.WorkspaceFilesMeaning | scale/job/seed/results/job_results.py:253-269 | the workspaces are exactly those of the parameters, each holding exactly the files of the parameters writing to it |
| SeedJobResults.RecordPaths | scale/job/seed/results/job_results.py:264-268 | one parameter's paths recorded under its name, entry by entry |
| SeedJobResults.RecordPathsMeaning | scale/job/seed/results/job_results.py:264-268 | recording a parameter's files maps each of their paths to it and keeps every other path |
| SeedJobResults.ParamsByPathOf | scale/job/seed/results/job_results.py:254-268 | each captured path with the parameter that captured it, parameter by parameter in visiting order |
| SeedJobResults.ParamsByPathDomain | scale/job/seed/results/job_results.py:254-268 | the recorded paths are exactly the captured ones, each mapped to a parameter that captured it |
| SeedJobResults.ParamsByPathLastWins | scale/job/seed/results/job_results.py:256-268 | a path captured by several parameters belongs to the last one visited |
| SeedJobResults.IndexEntries | scale/job/seed/results/job_results.py:264-269 | fails on a path that is not a regular file iff there is one; otherwise records every path and appends every file |
| SeedJobResults.OrganizeDataFiles | scale/job/seed/results/job_results.py:252-269 | fails iff some captured path is not a regular file; otherwise gives the workspace grouping and the path-to-parameter map |
| SeedJobResults.IdsUnder | scale/job/seed/results/job_results.py:277-286 | the stored ids of one parameter's paths, in store order |
| SeedJobResults.ParamFileIds | scale/job/seed/results/job_results.py:277-286 | each parameter some stored path belongs to, with its stored ids |
| SeedJobResults.IdsUnderMeaning | scale/job/seed/results/job_results.py:277-286 | a parameter gets ids iff one of the stored paths is its own, each being the stored id of one of its paths |
| SeedJobResults.ParamFileIdsStep | scale/job/seed/results/job_results.py:278-286 | each stored path appends its id to its own parameter's list and leaves the others alone |
| SeedJobResults.GroupStoredFileIds | scale/job/seed/results/job_results.py:276-286 | a key error iff a stored path was captured by no parameter; otherwise each parameter's ids in store order |
| SeedJobResults.JobResults.StoreOutputDataFiles | scale/job/seed/results/job_results.py:240-293 | succeeds iff every captured path is a regular file, a store is configured and every stored path was captured; any failure changes nothing; on success each parameter's list of stored ids is recorded over the earlier results, and every stored file's id is in the list of the parameter that captured it |
| SeedJobResults.JobResults.AddFileListParameters | scale/job/seed/results/job_results.py:288-291 | every parameter's list is recorded over the earlier results, whatever the visiting order |
| SeedJobResults.IdsUnderComplete | scale/job/seed/results/job_results.py:277-286 | every stored path of a parameter contributes its id to that parameter's list |
| SeedJobResults.ParamFileIdsComplete | scale/job/seed/results/job_results.py:277-286 | every stored path's id is in the list of the parameter that captured it |

## Left out

- Concurrency: each method of `RunningJobExecution` runs under one lock in the original. Here each method is one atomic step.
- Database and ORM effects are modelled only as far as these operations observe them:
  - queries are `Filter`s over rows in query order;
  - updates are new table values;
  - handler calls (job failure and completion, node pause, task callbacks) are entries in an event log.
  - Cascading deletes are not modelled.
- Clocks and other outside values are parameters:
  - the browser clock's default date range;
  - `timezone.now()`;
  - `datetime.utcnow()` in the node-pause rule, whose database counts arrive pre-computed in `NodeFailureStats`;
  - the error table rows (node lost, timeout, unknown);
  - `parseInt`.
- The iteration orders of the captured data files and of the files the store returns are input sequences. The keys of the jobs parameters (`_.pairs`) and of the grouped file ids are visited in an arbitrary order the model picks. That order cannot matter, because each key is written once.
- JobExe.RunningJobExecution.TaskFail: the task's own `fail` method, which settles the error from the results and the optional `error` argument, is given as its result `taskError`. The task classes are not part of this model.
- JobExe.RunningJobExecution.constructor: the task factory is not modelled; the three tasks are inputs. The `current_task`, `id`, `job_type_id` and `node_id` accessors are the fields themselves.
- The node pause writes three node fields; it is recorded as one `NodePaused` event.
- StateService.Store.SetJobsParams: the getters in the original return the stored objects themselves, so a caller that mutates them changes the store. Values here are immutable, so that aliasing is not modelled. The key order of `_.pairs` does not matter, because each key is written once.
- `$location.search(key, null)` removes the key. That is how AngularJS defines it, and the model follows it.
- The source of `IngestTriggerCondition` (scale/ingest/triggers/ingest_trigger_condition.py) is not part of this model. `IsConditionMet` is the behaviour its tests pin down. The first `test_has_not_data_types` is shadowed by the second definition of the same name and never runs; it is kept as its own lemma. Creating source files in the database for the tests is left out.
- PurgeSourceFileMessage.PurgeSourceFile.constructor: the original constructor leaves both ids `None` and the caller assigns them. Here they are constructor arguments, so a message with unset ids is not modelled. The `CommandMessage` base class is reduced to its outgoing-message list.
- SeedJobResults.JobResults.AddFileListParameter: adding a value for a name that already has one is modelled as replacing it. The data classes (data/data/data.py) are not part of this model.
- `JobData` (scale/job/configuration/data/job_data.py) is not part of this model. Its two adders are modelled as appending one input to a list of inputs.
- The `files` and `json` accessors convert the results to their v6 JSON form on every access; here they are fields. The v6 conversion and validation are not modelled.
- `add_output_json` is not modelled. It writes into the dictionary the `json` accessor returns, and whether that write reaches the results depends on the v6 conversion, which is not part of this model.
- `get_dict` is not modelled, for the same reason (it is the v6 conversion).
- `perform_post_steps`, `_capture_output_files` and `_capture_output_json` are not modelled. They glob the output directory, read side-car metadata and read `seed.outputs.json`, so they are file-system I/O. Their results are the inputs of `StoreOutputDataFiles`.
- SeedJobResults.JobResults.StoreOutputDataFiles takes several things as inputs, with the two iteration orders required to list each key of their dictionary exactly once:
  - the existing regular files;
  - whether a data file store is configured;
  - what the store returns;
  - the output workspaces, which stand in for `create_output_workspace_dict`.
  - Paths are taken as already normalised: `os.path.normpath` is not modelled.
- The v5 presentation copies the interface's declarations and logs skipped outputs; the declarations here are values and the log is dropped.

## Findings

| source | as written | input that shows it | evidently intended | confidence | as-written member | corrected member |
|---|---|---|---|---|---|---|
| scale/job/execution/running/job_exe.py:42-49 | the constructor queues `task.get_id()`, an id string, for each task | any new execution: `next_task_resources()` calls `get_resources()` on a string; after `start_next_task()`, `task_complete`, `task_fail` and `task_running` read `.id` of a non-empty id string and raise; with an empty id the guard instead ignores every update, so none is handled | queue the task objects, which the rest of the class uses | high, not executed | JobExe.AsWrittenQueueBreaksUpdates | JobExe.TaskRecordQueueHandlesUpdates |
