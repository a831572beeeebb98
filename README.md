# DebEase install core in Dafny

DebEase is a small in-memory orchestrator for package installs. A web front
end enqueues install jobs. A worker takes them off a FIFO queue one at a
time and runs each one, either as a simulated five-step install or as a real
`apt-get install` subprocess. While it runs, the worker records the job's
status, exit code and output log in a job store, and it publishes progress
events to the connected WebSocket subscribers. This project models that core
and proves what it guarantees:

- `Types.dfy` (`module Types`): the optional value, the job status and the
  events the worker publishes.
- `JobStore.dfy` (`module JobStore`) covers the install-job store:
  - the `InstallJob` record (`Job`);
  - the keyword arguments of `update_job_status` (`Assign`);
  - the class `JobQueue`, with the table of records, its insertion order and
    the FIFO queue of ids;
  - the consistency invariant `Valid`, which every operation keeps.
- `Packages.dfy` (`module Packages`) covers the package catalogue and its
  search:
  - a case-insensitive substring filter;
  - Python's slice semantics for the page (negative and out-of-range bounds
    included);
  - the preloading loop of `PackageRepository`.
- `Worker.dfy` (`module Worker`) covers the worker. One run of
  `_process_job` is described as a *plan*: the sequence of atomic,
  state-changing steps the code performs. Each step is a store update, a log
  append, a broadcast or the process spawn.
  - A cancellation is a cut point `Some(c)` in the plan: the
    `CancelledError` arrives at the first `await` after `c` steps. The real
    path's `except` handler applies only when the cut falls inside its
    `try`.
  - `Executed` is what a run actually performs, and `Escapes` says when the
    cancellation escapes uncaught (both as intended at the last real cut;
    see Findings).
  - The class `InstallerWorker` carries out a run step by step against a
    `JobQueue`, following the source's loops. Its methods are proved to reach
    exactly the store and event trace of the executed plan.
  - `_run_loop` is the method `RunLoop`. It is proved against `Drain`, a
    function that folds the per-job turns over the queue.
- `WSManager.dfy` (`module WSManager`) covers the subscriber set:
  connect/disconnect as set updates, and a best-effort broadcast that tries
  every subscriber present at the start once, then discards the ones whose
  send failed.

`PackageMetadata` and `InstallJob` are declared with a bare `dataclass` line
rather than the `@dataclass` decorator (backend/repository.py:9, 16), so as
written the keyword constructor calls in the store and the catalogue would be
rejected. The model follows the evident intent: both are records whose
defaults are the ones declared.

Events are values of `Event`. The worker's `events` field is the sequence of
messages it hands to the broadcaster, in order. What the broadcaster does
with one message is the separate `WSManager` model.

## Model

| member | source | states |
|---|---|---|
| JobStore.JobQueue.constructor | backend/repository.py:49-52 | The store starts with no records and an empty queue, and is consistent. |
| JobStore.NewJob | backend/repository.py:56 | The record `enqueue` builds: `queued`, created now, with no start, finish or exit code and an empty log. |
| JobStore.JobQueue.Valid | backend/repository.py:49-52 | The store's invariant: `Consistent` of its table, insertion order and queue. |
| JobStore.Consistent | backend/repository.py:50-59 | The insertion order is duplicate-free and holds exactly the table's keys. Every record is filed under its own id. The queue is the suffix of the insertion order not yet dequeued. |
| JobStore.JobQueue.Enqueue | backend/repository.py:54-60 | Returns a `queued` record for the package with an empty log and no start, finish or exit code. It is filed under an id not previously in the table. The table gains exactly that key and keeps every other record. The id is appended to the insertion order and to the queue tail. Consistency is kept. |
| JobStore.FreshIdExists | backend/repository.py:55 | Whatever ids are in use, a fresh one exists, so the id choice that models `uuid4` can always be made. |
| JobStore.JobQueue.Dequeue | backend/repository.py:62-66 | On a non-empty queue, removes the head id (`queue == old(queue)[1..]`) and returns `Some` of that id's record. The record always exists, so it never yields `None`. The table and order are unchanged and consistency is kept. |
| JobStore.JobQueue.GetJob | backend/repository.py:68-70 | `Some` of the stored record exactly when the id is known, otherwise `None`; reads only. |
| JobStore.JobQueue.ListJobs | backend/repository.py:72-74 | One entry per stored job: entry `i` is the record of the `i`-th inserted id, and every stored record appears. |
| JobStore.JobQueue.UpdateJobStatus | backend/repository.py:76-82 | The table becomes `Updated(old, id, fields)`: a no-op on an unknown id, and the `setattr` loop on a known one. No status-transition check is made. The queue and order are unchanged, and consistency is kept. |
| JobStore.Updated | backend/repository.py:76-82 | Keys are unchanged. An unknown id leaves the table as it was. A known id's record gets the assignments, and every other record is unchanged. |
| JobStore.Assigned | backend/repository.py:81-82 | Whatever is assigned, `job_id`, `package` and `created_at` keep their values. |
| JobStore.Set | backend/repository.py:81-82 | One `setattr(job, k, v)`: the named attribute takes the value, and every other attribute keeps its value. |
| JobStore.AssignedExactly | backend/repository.py:81-82 | With distinct keyword names, every named attribute takes the given value and every unnamed attribute keeps its value. |
| JobStore.DistinctSize | backend/repository.py:72-74 | A duplicate-free insertion order covering the table has as many entries as the table has keys. |
| Packages.Preloaded | backend/repository.py:33-34 | The record preloaded for a name in `PreloadNames` (vim, git, curl, htop, nginx): that name, description "`name` package", version "latest", no tags. |
| Packages.PackageRepository.constructor | backend/repository.py:29-34 | The catalogue is the five preloaded records for vim, git, curl, htop, nginx, in that order, each with description "`name` package" and version "latest". |
| Packages.LowerChar | backend/repository.py:40-41 | One character of `str.lower()`, ASCII only: a capital A-Z becomes its small letter, any other character is kept. |
| Packages.OccursAt | backend/repository.py:41 | `needle` lies in `hay` starting at index `i`. |
| Packages.Contains | backend/repository.py:41 | Python's substring test `needle in hay`: some index at which `needle` occurs (the empty needle occurs everywhere). |
| Packages.Lower | backend/repository.py:40-41 | The ASCII model of `str.lower()` keeps the length, leaves no ASCII capital, and keeps every other character. |
| Packages.LowerIdempotent | backend/repository.py:40 | Lower-casing twice is lower-casing once. |
| Packages.Filter | backend/repository.py:41 | The result is never longer than the catalogue. An entry is in it exactly when it is in the catalogue and its lower-cased name, its lower-cased description or its joined tags contain the query. Order is `FilterConcat`. |
| Packages.FilterSingle | backend/repository.py:41 | One entry is kept exactly when it matches. |
| Packages.FilterConcat | backend/repository.py:41 | Filtering keeps catalogue order: the filter of `a + b` is the filter of `a` followed by the filter of `b`. With `FilterSingle`, the result is the matching entries in catalogue order. |
| Packages.Matches | backend/repository.py:41 | The comprehension's condition: `ql` occurs in the lower-cased name, in the lower-cased description, or in the space-joined tags (which are not lower-cased). |
| Packages.Join | backend/repository.py:41 | `" ".join(tags)`: the tags separated by single spaces, and "" for no tags. |
| Packages.Matching | backend/repository.py:39-41 | Never more entries than the catalogue. An entry is kept exactly when it is in the catalogue and, for a non-empty query, matches its lower-cased form. |
| Packages.FilterKeepsAll | backend/repository.py:41 | When every entry matches, the filter returns the catalogue itself. |
| Packages.SliceIndex | backend/repository.py:45 | A Python slice bound lands inside `0..len`. |
| Packages.PySlice | backend/repository.py:45 | `items[start:end]` is never longer than `items`. It is a contiguous run of `items` starting at the normalised start bound. |
| Packages.PySliceBounded | backend/repository.py:42-45 | A slice `[start:end]` never holds more than `end - start` entries. |
| Packages.PySliceNonNegative | backend/repository.py:42-45 | With non-negative bounds a slice is the ordinary subsequence, clipped at the end. |
| Packages.SearchIn | backend/repository.py:36-45 | `page`/`size` are echoed back, and an empty or missing query filters nothing. `total` is at most the catalogue size. Every returned item is in the catalogue and matches a non-empty query. A non-negative size bounds the number of items. |
| Packages.TotalIgnoresPaging | backend/repository.py:42-44 | `total` is the number of matches, the same for every page and size. |
| Packages.PageOfMatches | backend/repository.py:42-45 | For `page >= 1` and `size >= 0`, `items` is `matches[(page-1)*size : page*size]`, clipped to the matches. |
| Packages.QueryCaseIgnored | backend/repository.py:40 | A query and its lower-cased form give the same result. |
| Packages.NegativeSizeDropsLast | backend/repository.py:42-45 | Page and size go unchecked: page 1 with size -1 returns every entry but the last, and nothing from an empty catalogue. |
| Packages.PackageRepository.Search | backend/repository.py:36-45 | `search` on the repository's catalogue: `total` is at most the catalogue size, every item is a catalogue entry, and an empty or missing query counts the whole catalogue. |
| Worker.ApplyStep | backend/repository.py:76-82 | The table after one step: an update applies its keyword arguments, and a log append writes the old log plus the line. A broadcast or the spawn leaves the table as it is. |
| Worker.ApplySteps | backend/worker.py:38-80 | The table after the steps, applied in order. |
| Worker.Header | backend/worker.py:40-41 | Both paths start with the `running` update with its start time, then `job_started`. |
| Worker.RunningFields | backend/worker.py:40 | The keyword arguments `status="running", started_at=t`. |
| Worker.DoneFields | backend/worker.py:54 | The keyword arguments `status=..., finished_at=t, exit_code=rc` of the final updates (as at lines 54, 73 and 79). |
| Worker.NatToString | backend/worker.py:45 | The decimal digits of `i+1` as the f-string renders it. |
| Worker.SimLine | backend/worker.py:45 | The line `f"Simulated output for {job.package} step {i+1}"`. |
| Worker.SimLinesFrom | backend/worker.py:44-45 | The simulated lines from number `i + 1` up to five, in order. |
| Worker.SimBlock | backend/worker.py:45-53 | One iteration: append the line to the log, publish it as `stdout`, publish `progress` `(i+1)*20`. |
| Worker.SimBodyFrom | backend/worker.py:44-53 | The loop's iterations from `i` to the fifth, one block each, in order. |
| Worker.SimFooter | backend/worker.py:54-55 | The `finished`/0 update with the finish time, then `job_finished{true, 0}`. |
| Worker.SimPlan | backend/worker.py:40-56 | The simulated path: the header, five blocks of log append, `stdout` and `progress`, then the `finished`/0 update and `job_finished{true, 0}`. |
| Worker.Strip | backend/worker.py:67 | `rstrip("\n")`: the result is a prefix of the line with no trailing newline, and only newlines were removed. |
| Worker.Decoded | backend/worker.py:63-67 | The lines read before the first empty read, each newline-stripped. |
| Worker.LineSteps | backend/worker.py:67-71 | One line read: append it to the log, then publish it as `stdout`. |
| Worker.RealBody | backend/worker.py:63-71 | The loop's iterations for the decoded lines, two steps each, in read order. |
| Worker.RealFooter | backend/worker.py:72-75 | The final update (`finished` iff rc is 0, the finish time, exit code rc), then `job_finished{rc == 0, rc}`. |
| Worker.RealPlan | backend/worker.py:40-75 | The real path: the header, the spawn, two steps per decoded line, then the footer. |
| Worker.CancelHandler | backend/worker.py:78-80 | The handler's steps: the `failed` update with the finish time and exit code -1, then `job_finished{false, -1}`. |
| Worker.Plan | backend/worker.py:42-58 | `SIMULATE_INSTALL` picks the simulated or the real plan. |
| Worker.Escapes | backend/worker.py:38-80 | A cut before the plan ends escapes exactly on the simulated path or before the real path's `try` (intended at the last real cut; see Findings). |
| Worker.Executed | backend/worker.py:38-80 | Uncut, the whole plan. A cut inside the real path's `try` gives the prefix then the handler (intended at the last real cut; see Findings). Any other cut gives the prefix alone. |
| Worker.ProcessTurn | backend/worker.py:24-36 | One turn is the executed plan of the run. The turn ends the loop exactly when the run was cancelled: `stop()` sets the shutdown flag before cancelling, so a caught cancellation stops the loop too. |
| Worker.Drain | backend/worker.py:30-36 | The loop's outcome: `DrainWith` over the turns of `_process_job`. |
| Worker.InstallerWorker.constructor | backend/worker.py:12-17 | The worker is bound to its store and backend, with nothing published yet. |
| Worker.InstallerWorker.Broadcast | backend/worker.py:41 | `ws.broadcast(event)` appends exactly that event to the published sequence. |
| Worker.InstallerWorker.SetFields | backend/worker.py:40 | One `update_job_status` call is one `Update` step of the plan. |
| Worker.InstallerWorker.LogLine | backend/worker.py:49-51 | The `get_job` and `update_job_status(log=...)` pair is one `AppendLog` step. |
| Worker.InstallerWorker.Announce | backend/worker.py:52 | One broadcast is one `Publish` step. |
| Worker.InstallerWorker.HandleCancel | backend/worker.py:76-80 | The `except CancelledError` handler performs exactly the handler steps: `failed`, the finish time and exit code -1, then `job_finished{success: false, exit_code: -1}`. |
| Worker.InstallerWorker.RunLoop | backend/worker.py:30-36 | The store and the event trace end as `Drain` of the initial table, queue and runs. Exactly `processed` ids leave the queue head, `taken` grows by `processed` and the insertion order is unchanged. Consistency is kept. With `DrainWithCancelled`, the loop ends after the first cancelled run. |
| Worker.InstallerWorker.Serve | backend/worker.py:32-36 | One dequeue plus `_process_job` moves the store and trace from the outcome of `i` turns to that of `i + 1`, takes one id from the queue and leaves the insertion order unchanged, and reports that the loop must stop exactly when this run was cancelled, whether the cancellation escaped or was caught. |
| Worker.InstallerWorker.ProcessJob | backend/worker.py:38-80 | The store becomes `ApplySteps` of the executed plan on this job's id, and the trace grows by exactly its published events. The cancellation escapes exactly when `Escapes` holds (intended at the last real cut; see Findings). Queue, order and consistency are kept. |
| Worker.InstallerWorker.StartJob | backend/worker.py:39-41 | Both paths first mark the job `running` with its start time, then publish `job_started`. A cut during these two steps escapes with the prefix taken. |
| Worker.InstallerWorker.SimulatedInstall | backend/worker.py:42-56 | The simulated branch reaches exactly the executed simulated plan. Every cancellation in it escapes, because it has no handler. |
| Worker.InstallerWorker.SimulatedOutput | backend/worker.py:44-53 | The `for i in range(5)` loop takes a prefix of the five three-step blocks. It escapes right after that prefix, or it takes them all. |
| Worker.InstallerWorker.SimulatedIteration | backend/worker.py:44-53 | One iteration moves the steps it takes from the front of the body's remainder to the end of what was taken. |
| Worker.InstallerWorker.SimulatedLine | backend/worker.py:45-53 | Iteration `i` appends "Simulated output for P step i+1", publishes it, then publishes progress `(i+1)*20`. A cut after `m` of these steps escapes. |
| Worker.InstallerWorker.FinishSimulated | backend/worker.py:54-55 | The final `finished`/0 update, then `job_finished{true, 0}`. A cut before either of them escapes. |
| Worker.InstallerWorker.RealInstall | backend/worker.py:58-80 | The subprocess branch reaches exactly the executed real plan. Only a cut before the spawn escapes; a cut inside the `try` runs the handler (intended at the last real cut; see Findings). |
| Worker.InstallerWorker.ReadOutput | backend/worker.py:61-71 | The `while True: readline` loop takes a prefix of the per-line steps. Either a cut ran the handler right after that prefix, or every line before the first empty read was processed. |
| Worker.InstallerWorker.ReadIteration | backend/worker.py:63-71 | A cut before the read runs the handler. An empty read ends the output. Any other line is newline-stripped and emitted. |
| Worker.InstallerWorker.EmitLine | backend/worker.py:67-71 | One line is a log append and then a `stdout` event. A cut between the two runs the handler. |
| Worker.InstallerWorker.FinishReal | backend/worker.py:72-80 | The status is `finished` iff rc is 0, with exit code rc, followed by `job_finished{rc == 0, rc}`. A cut between the two runs the handler (the intended behaviour; see Findings). |
| Worker.StepsKeepIdentity | backend/worker.py:38-80 | Whatever the steps, the table's keys are unchanged and every other job's record is untouched. No record's id, package or creation time changes. |
| Worker.RunningAssigned | backend/worker.py:40 | The start update sets exactly `status = running` and `started_at`. |
| Worker.DoneAssigned | backend/worker.py:54 | A final update sets exactly status, `finished_at` and `exit_code`. |
| Worker.LogAssigned | backend/worker.py:51 | A log update replaces only the log. |
| Worker.HeaderApplied | backend/worker.py:40-41 | After the header (and the spawn), the record is the original marked `running` with its start time. |
| Worker.SimLinesAre | backend/worker.py:44-45 | The simulated installer prints "Simulated output for P step k" for k = 1..5, in order. |
| Worker.SimulatedCompletes | backend/worker.py:44-54 | An uncancelled simulated run ends `finished` with exit code 0 and exactly the five simulated lines appended to the log. No other record changes. |
| Worker.SimEventsAre | backend/worker.py:52-53 | The loop publishes five `(stdout, progress)` pairs with percents 20, 40, 60, 80, 100. |
| Worker.SimPublished | backend/worker.py:41-55 | The simulated plan publishes `job_started`, then the loop's events, then `job_finished`. |
| Worker.SimulatedTrace | backend/worker.py:41-55 | The full simulated trace is the twelve events written out, ending with `job_finished{success: true, exit_code: 0}`. |
| Worker.SimulatedProgress | backend/worker.py:53 | The progress percents are 20, 40, 60, 80, 100: strictly increasing and ending at 100. |
| Worker.SimPercentsAre | backend/worker.py:53 | The percents of the simulated trace are `[20, 40, 60, 80, 100]`. |
| Worker.FirstEmptyFrom | backend/worker.py:63-66 | The first empty read lies at or after the start and at most at the end of the reads. |
| Worker.FirstEmptyFacts | backend/worker.py:63-66 | Every read before the first empty one is non-empty, and reading stops at an empty read or the end. |
| Worker.ReadMore | backend/worker.py:63-67 | A non-empty read before the stop is the next decoded line, stripped of trailing newlines. |
| Worker.ReadEnd | backend/worker.py:65-66 | The first empty read ends the output: no decoded line is left. |
| Worker.RealBodyShape | backend/worker.py:63-71 | The output loop performs two steps per line, never a status update, and publishes only this job's events. |
| Worker.RealBodyLogged | backend/worker.py:67-70 | The output loop appends exactly the decoded lines to the log, in read order. |
| Worker.RealBodyPublished | backend/worker.py:71 | The output loop publishes exactly one `stdout` per decoded line, in the same order. |
| Worker.RealCompletes | backend/worker.py:59-74 | An uncancelled real run is `finished` iff rc is 0 and `failed` otherwise, with exit code rc. The log gains the decoded lines in read order. No other record changes. |
| Worker.RealTrace | backend/worker.py:41-75 | The real trace is `job_started`, one `stdout` per decoded line in read order, then `job_finished{success: rc == 0, exit_code: rc}`. |
| Worker.PlanShape | backend/worker.py:39-75 | Either plan starts with the header, ends with its `job_finished`, and publishes start, output events, finish in that order. |
| Worker.PrefixTrace | backend/worker.py:38-80 | A cut plan publishes a well-formed trace of this job with no `job_finished`. It starts with `job_started` exactly when the cut lies past the header. |
| Worker.HandledTrace | backend/worker.py:76-80 | The handler publishes exactly `job_finished{false, -1}`, and a well-formed unfinished trace stays well formed after it. |
| Worker.TraceShape | backend/worker.py:38-80 | Whatever the cut, one job's trace is well formed. It begins with `job_started` unless the cut falls in the first two steps. It ends with `job_finished` exactly when the cancellation does not escape (intended at the last real cut; see Findings). |
| Worker.FullTrace | backend/worker.py:38-75 | An uncut plan's trace runs from `job_started` to a final `job_finished`, with every event about this job. |
| Worker.RunningFirst | backend/worker.py:39-41 | The first executed step marks the job `running`, so every broadcast comes after it. |
| Worker.SimulatedCancelled | backend/worker.py:42-56 | A simulated job cancelled inside the loop is left `running` with no finish time or exit code, and a prefix of the simulated lines is logged. The cancellation escapes and no `job_finished` is published. |
| Worker.RealCancelledReading | backend/worker.py:61-80 | A cut while reading output ends `failed` with exit code -1, keeping the lines read so far in the log. |
| Worker.RealCancelled | backend/worker.py:61-80 | Any cut inside the `try` ends `failed` with exit code -1 and a prefix of the output logged. The last event is `job_finished{success: false, exit_code: -1}`. |
| Worker.LateCancel | backend/worker.py:72-80 | The intended handling of a cut after the final update but before `job_finished`: the record first holds the process result, then the handler overwrites it with `failed`/-1. `finished_at` keeps its value because one `finishedAt` reading stands for both `time.time()` calls. |
| Worker.ExecutedAsWritten | backend/worker.py:72-80 | The real path as written: at that last cut, `process.kill()` raises, so nothing after the prefix runs. |
| Worker.EscapesAsWritten | backend/worker.py:72-80 | As written, that last cut escapes too. |
| Worker.LateCancelAsWritten | backend/worker.py:72-80 | As written, at that last cut the record keeps the process's status and exit code and no `job_finished` is published. The error escapes, where `Escapes` says the intended handler catches it. |
| Worker.LateCancelLogged | backend/worker.py:63-74 | At that last cut every decoded line has been logged. |
| Worker.CutOutcome | backend/worker.py:38-80 | A cut after `steps` escapes exactly on the simulated path or before the `try`. Otherwise the handler steps follow the prefix (intended at the last real cut; see Findings). |
| Worker.HeaderCut | backend/worker.py:39-41 | A cut in the first two steps performs only the steps before it, and escapes. |
| Worker.DrainWith | backend/worker.py:30-36 | The loop processes at most one job per run, and every run unless a turn stopped it. |
| Worker.DrainNext | backend/worker.py:30-36 | A turn that did not stop is followed by processing the next queued id under the next run. |
| Worker.DrainTurn | backend/worker.py:30-36 | Processing the dequeued head record with `_process_job` is exactly the next turn of `Drain`. |
| Worker.DrainStopped | backend/worker.py:30-36 | Once a turn stops the loop, later runs change nothing. |
| Worker.DrainWithAll | backend/worker.py:30-36 | When no turn stops, the loop never stops early. |
| Worker.DrainWithCancelled | backend/worker.py:24-36 | When turns stop exactly on cancelled runs, every run before the last one processed was uncancelled. The loop stopped early exactly when the last run processed was cancelled, and a loop that did not stop saw no cancellation. |
| Worker.DrainWithFirstStop | backend/worker.py:30-36 | The first turn that stops is the last one processed. |
| Worker.DrainFirstCancel | backend/worker.py:24-36 | The first cancelled run, caught or not, is the last one processed. The outcome is that of the runs up to it. |
| Worker.DrainAll | backend/worker.py:30-36 | Without cancellations, one job is processed per run. |
| Worker.DrainKeys | backend/worker.py:30-36 | The loop neither adds nor removes a record. |
| Worker.DrainUntouched | backend/worker.py:30-36 | A job not yet dequeued keeps its record. |
| Worker.DrainOwn | backend/worker.py:30-36 | The `k`-th dequeued job ends with what its own turn makes of its original record. |
| Worker.DrainLocal | backend/worker.py:30-36 | Each job is processed once, on its own record, in queue order. Jobs still queued are untouched, and no key is added or removed. |
| Worker.StartedConcat | backend/worker.py:41 | The started ids of two traces are those of the first, then those of the second. |
| Worker.StartedOnce | backend/worker.py:41 | A well-formed trace that begins with `job_started` starts exactly its own job. |
| Worker.StartsOwnJob | backend/worker.py:39-41 | A run not cut during the header publishes exactly one `job_started`, for its own job. |
| Worker.DrainWithFifo | backend/worker.py:30-36 | When every turn starts exactly its own job, the started ids are the queue prefix processed. |
| Worker.DrainFifo | backend/worker.py:30-36 | With no cut before a `job_started`, jobs start in FIFO order, one `job_started` per dequeued job. |
| WSManager.WSManager.constructor | backend/ws_manager.py:9-11 | No subscribers at the start. |
| WSManager.WSManager.Connect | backend/ws_manager.py:13-16 | `active` gains exactly the handle. |
| WSManager.WSManager.Disconnect | backend/ws_manager.py:18-20 | `active` loses exactly the handle. An absent handle leaves it unchanged, with no error. |
| WSManager.WSManager.Broadcast | backend/ws_manager.py:22-34 | Every handle present at the start is tried exactly once, in some order, with nothing else tried. The removed handles are the failed sends, in try order: exactly the original handles whose send failed. Afterwards `active` is the original minus the failing handles, so failures never propagate and nothing is added. With no subscribers, `active` stays empty. |
| WSManager.WSManager.TryAll | backend/ws_manager.py:27-32 | The snapshot loop tries each handle of the snapshot once and collects the failed ones in try order. |
| WSManager.WSManager.DiscardAll | backend/ws_manager.py:33-34 | Discarding `to_remove` keeps exactly the handles not in it. |
| WSManager.Failures | backend/ws_manager.py:28-32 | `to_remove` holds exactly the tried handles whose send failed, never more than were tried. |
| WSManager.FailuresSnoc | backend/ws_manager.py:28-32 | One more attempt extends `to_remove` by that handle exactly when its send failed. |
| WSManager.DistinctCard | backend/ws_manager.py:27 | A repeat-free attempt order has as many entries as the set it covers. |

## Left out

- asyncio concurrency is not modelled: the locks, the blocking `Queue.get`, task creation in `start`, and `cancel`/`gather` in `stop`. Every repository call is one atomic step, and dequeue on an empty queue is a precondition.
- Interleavings of several worker loops are not modelled (`concurrency > 1`). `RunLoop` is the single sequential loop.
- The shutdown flag is modelled two ways. The number of runs given to `RunLoop` bounds the loop; because `dequeue` blocks on an empty queue, there are at most as many runs as queued jobs. A cancelled run, caught or not, has `stop()` behind it, and `stop()` sets the flag first, so that run ends the loop.
- `RunLoop`: the `if not job: sleep; continue` branch is not modelled. It cannot be taken: under `Valid`, every queued id has a record, so `Dequeue` never yields `None`.
- The subprocess is not modelled (`create_subprocess_shell`, `readline`, `kill`, `wait`). It is replaced by the `Output` input: the sequence of `readline` results and the exit code.
- `bytes.decode(errors="ignore")` is not modelled: lines are already strings. `shlex.quote` and the command text change no state and are not modelled.
- `json.dumps` is not modelled: `Broadcast` takes the payload already serialised. Every handle being sent that same single payload is therefore not a separate statement.
- The 2-second `wait_for` timeout is folded into the `failing` set of `WSManager.WSManager.Broadcast`, along with any exception from `send_text`. The iteration order of `list(self.active)` is an arbitrary choice.
- `uuid.uuid4` is modelled as an arbitrary choice of an id not in the table.
- `time.time()` readings are given as natural-number inputs (`now`, `startedAt`, `finishedAt`). Floats and the event timestamps are not modelled.
- `asyncio.sleep` calls are not modelled. They change no state. A cancellation arriving at one is a cut point like any other await.
- A cancellation inside `ws.broadcast` is modelled as falling before or after the whole broadcast, which is one step of the plan. In the code, `broadcast` awaits once per subscriber, and its `except Exception` does not catch `CancelledError`. A cancellation during a send therefore delivers the event to only the subscribers earlier in `list(self.active)`, skips the `to_remove` discard and leaves `broadcast`. None of that partial delivery, nor the skipped discard, is modelled (`WSManager.WSManager.Broadcast` always completes).
- A second cancellation arriving while the `except` handler runs is not modelled. The handler is taken to complete.
- `Worker.LateCancel`: models the intended handler, in which `process.kill()` succeeds. As written, a cancellation after `process.wait()` has returned makes `kill()` raise; `Worker.LateCancelAsWritten` shows what happens then (see Findings).
- `Worker.RealCancelled`: likewise assumes `process.kill()` succeeds at every cut inside the `try`. That holds as written except when the child has already been reaped, which is always so at the last cut; at an earlier cut (the final empty `readline` or `process.wait()`) it depends on timing.
- `Worker.InstallerWorker.FinishReal`: likewise runs the intended handler for a cut between the final update and `job_finished`.
- One `finishedAt` reading of the `Run` stands for both `time.time()` calls, the final update's and the handler's. A late-cancelled job's `finished_at` therefore keeps its value.
- `Worker.InstallerWorker.RunLoop` models the worker's side of `ws.broadcast` as appending to `events`. Delivery to subscribers is the separate `WSManager` model.
- `Packages.LowerChar`: `str.lower()` is modelled for ASCII letters only. Other characters are left unchanged.
- `p.__dict__` snapshots in `search` and `list_jobs` are modelled as record values. The aliasing of live objects through `__dict__` is not modelled.
- `JobStore.JobQueue.UpdateJobStatus` has no consistency precondition. It keeps consistency when it held before, as the source does on any state.
- backend/app.py (HTTP routes, the WebSocket receive loop, static files, uvicorn) and backend/config.py (environment reading) are not part of this model. `SIMULATE_INSTALL` is the worker's `simulate` constant.
- On the simulated path, a cancellation inside the loop leaves the job `running` for good. The code has no handler there, and the model follows the code (`Worker.SimulatedCancelled`). A cancellation before the spawn on the real path is likewise uncaught.

## Findings

| source | as written | input that shows it | evidently intended | confidence | as-written member | corrected member |
|---|---|---|---|---|---|---|
| backend/worker.py:72-80 | The `except CancelledError` handler calls `process.kill()` unconditionally. A cancellation delivered during the final `job_finished` broadcast comes after `process.wait()` has returned, when asyncio has already released the child, so `kill()` raises `ProcessLookupError`. The handler stops there: the record keeps `finished`/rc, no `job_finished` is published, and the error leaves `_process_job`. | A real run whose cut is one step short of the whole plan, that is, right after the final status update | The handler marks the job `failed` with exit code -1 and publishes `job_finished{false, -1}` (for example by guarding `kill()` on `returncode`), as it does at every earlier cut | medium; not executed; depends on asyncio releasing the transport before `wait()` returns | Worker.LateCancelAsWritten | Worker.LateCancel |
