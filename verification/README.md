# Talisker in Dafny

Models of the stateful cores of Talisker, and proofs of what they promise.

* **Metrics clean-up** (`Metrics`, `Cleanup`, `CleanupInvariant`, `CleanupTheorems`, `CleanupProgress`,
  `CleanupWorker`, `WriteMetrics`, `Histograms`). Workers add to their own metric files without a lock; the gunicorn master
  folds a dead worker's files into archives; scrapes read all files. `Cleanup` is a transition system whose
  steps are those of the workers, of the `child_exit` hook (which may interrupt the master, and itself,
  anywhere), of the master (merge one file, take the lock or time out, each rename, each unlink) and of a
  scrape. `CleanupWorker` has the same clean-up as one sequential method on a directory, and the polling lock.
* **Log lines** (`Logfmt`, `Logstash`, `RoundTrip`, `LineRoundTrip`, `TagsReadBack`, `ReaderCases`,
  `Message`, `StructuredLogger`). The printer of tags, the logstash state machine that reads them, the pattern that reads the message field, and
  the merge of call, context and global tags in `makeRecord`.
* **The requests adapter** (`Retrying`, `RetryTheorems`, `Adapter`, `AdapterTheorems`). The retry loop over a
  script of transport outcomes, policy decisions and clock readings; the adapter's objects compute it.
* **The WSGI request** (`Wsgi`, `WsgiTheorems`, `WsgiContents`, `InFlight`). The wrapped response under any
  mix of `next` and `close`, and the table of requests in flight.
* **Context and celery** (`ContextStack`, `Celery`, with `OrderedDict`). The cached view of the stacked
  logging context, and the signal handlers that make nested eager runs report what sequential runs report.

Where the source updates objects or loops, the model has classes and loops; each method is proved to compute
a function of the old state, and the theorems are about that function. `forall i :: ...` over a run, a line
or a script always means every run, line or script.

What the source does that its documentation does not lead one to expect, and the model follows:

* A plain number given as `timeout` is not used: the read timeout becomes the connect timeout
  (talisker/requests.py:423-424, `Adapter.Configured`).
* A request with an empty id is put in the table but never taken out (talisker/wsgi.py:410-412);
  `InFlightTable.AlwaysExact` has the exact condition.
* A tag whose key comes from all three sources loses a value, although the comment in `makeRecord` says no
  data is lost (talisker/logs.py:244-245); `StructuredLogger.NothingLost` has the exact condition.
* `unwind` below zero raises IndexError once the stack is empty and leaves the cached view, which then
  shows what is gone (talisker/context.py:187-189); `ContextStacks.RunAgrees` has the exact condition.
* A request that the worker-exit hook finished is finished again when it is closed, because the hook does not
  mark it closed (talisker/gunicorn.py:135, `WsgiTheorems.RecordsWithExit`).
* A message with a backslash before a quote is cut short by the reader's pattern
  (`Message.BackslashQuoteUnreadable`); `Message.MessageReadable` has the exact condition.
* A key of one character without a value at the end of a line is lost
  (talisker/logstash/talisker.filter:51-57, `ReaderCases.LastFlag`).
* A lazy application whose first start_response call the server refuses loses the item it was asked for
  (talisker/wsgi.py:297-300, `WsgiContents.LostItem`).
* A worker whose clean-up fails or times out keeps its files (`CleanupProgress.NoFilesLeft`); the metrics are
  right all the same.
* A string that is a signed or exponent numeral, such as "-5", is printed bare and comes back as a number
  (`LineRoundTrip.NegativeStringsBecomeNumbers`).
* A protected celery counter fires once in the life of a task object (`Celery.OncePerTask`).

Assumed of what lies outside: prometheus_client's merge yields the key-wise sum with each key once; a metric
name has one type; a pid is not reused before the master has dealt with it; the master does not crash and no
rename or unlink raises while the lock is held; urllib3's `Retry.increment` refuses, raises, or lowers its
counter; the clock does not run backwards. Metric amounts, durations and times are reals.

## Model

| member | source | states |
|---|---|---|
| CleanupTheorems.Conservation | talisker/prometheus.py:177-220 | in every reachable state the files together hold every increment ever made exactly once, the only excess being worker files awaiting unlink inside a swap; outside a swap the merged table is exactly what was recorded, key for key |
| CleanupInvariant.StepInv | talisker/prometheus.py:196-212 | every step of every party keeps: live pids are not pending, the lock is held exactly in the critical section, the merge made outside the lock still describes the files, and totals balance |
| CleanupInvariant.SwapAccounts | talisker/prometheus.py:207-212 | renaming a fold over its archive while discounting the worker's file changes no sum and no set of keys |
| CleanupTheorems.CleanupsInvisible | talisker/prometheus.py:205-220 | any number of clean-ups, failed, interrupted or timed out, leaves the merged metrics the same table |
| CleanupTheorems.WorkerFilesGone | talisker/prometheus.py:211-212 | when the lock is given back, the cleaned worker has no counter or histogram file left |
| CleanupProgress.CleanedUp | talisker/prometheus.py:177-220 | a clean-up that is not cut short, whatever others do meanwhile: the worker has no file left; if it had left one, both archives are what they were with its files folded in, and if none, they are as they were; no other file changes but by its own worker |
| CleanupProgress.NoFilesLeft | talisker/gunicorn.py:62-80 | in every reachable state a worker file is that of a running worker, of a dead one not yet dealt with, or of one whose clean-up failed or timed out |
| CleanupProgress.DrainedOwned | talisker/gunicorn.py:70-80 | when a drain ends, no reported dead worker has a file left unless its clean-up was cut short |
| CleanupTheorems.ScrapeBetween | talisker/prometheus.py:153-166 | a scrape reading file by file under the lock reports, for each key not decreased meanwhile, a value between the total at acquire and the total at the end |
| CleanupTheorems.NoneForgotten | talisker/gunicorn.py:97-106 | a queued pid implies SIGCUSTOM is queued or the drain runs, whatever hooks interrupted what; pids leave the queue once each, in order |
| CleanupTheorems.NoticedStep | talisker/gunicorn.py:62-106 | every single step, hooks in mid-air included, keeps a queued pid noticed |
| CleanupTheorems.DrainBounded | talisker/gunicorn.py:70-80 | while no pid is added, the master takes at most Rank steps in the drain, whatever the others do |
| CleanupTheorems.DrainProgress | talisker/gunicorn.py:70-80 | in the drain some step of the master is always possible when no hook runs |
| CleanupWorker.TryLock | talisker/prometheus.py:83-100 | the polling lock is acquired exactly if a poll before the deadline finds it free, and by the first such poll; nothing is slept before the first poll |
| CleanupWorker.MultiprocDir.Merge | talisker/prometheus.py:196-199 | the merge accounts for its paths: key-wise sums, exactly their keys |
| CleanupWorker.MultiprocDir.Clean | talisker/prometheus.py:177-220 | the whole clean-up: new contents of the archives, files gone, files untouched, merged metrics the same; nothing changes on time-out or without files |
| CleanupWorker.MultiprocDir.Swap | talisker/prometheus.py:205-212 | two renames and the unlinks give exactly the old files with new archives and without the worker's, and the same merge |
| WriteMetrics.WriteAll | talisker/prometheus.py:223-250 | each sink holds what was written last per key for its type; for the samples of a merge, exactly the merge restricted to that type |
| WriteMetrics.NothingOverwritten | talisker/prometheus.py:238-247 | no sample is lost exactly when samples that share a key agree |
| Histograms.AccumulateAfterMerge | talisker/prometheus.py:199 | merging then accumulating buckets equals accumulating each file then adding, for any files and any bucket |
| Histograms.LowestBucket | tests/test_prometheus.py:202-219 | the lowest bucket of a series shows its own observations |
| Histograms.NextBucket | tests/test_prometheus.py:202-219 | every other bucket shows what the one before it shows and its own |
| Histograms.ExposedIsPerFile | talisker/prometheus.py:199 | merging and then accumulating shows the buckets, counts and other samples of all files, each accumulated on its own and added up |
| Histograms.CountIsTop | tests/test_prometheus.py:218-219 | the count of a series is its accumulated bucket without upper limit |
| Histograms.ExpositionUnchanged | tests/test_prometheus.py:172-235 | cumulative buckets, counts and all other samples of a scrape after any clean-ups are what the files held, each accumulated by itself, before them |
| Histograms.AccumulatingTwice | talisker/prometheus.py:199 | accumulating an accumulated table leaves a bucket right only if all buckets below are empty, which is why archives hold plain buckets |
| Logfmt.StringNeedsQuoting | talisker/logs.py:474-488 | the loop decides: a forcing character somewhere, or only digits and at most one dot |
| Logfmt.LogfmtAtoms | talisker/logs.py:388-425 | the generator yields the atoms of the entries in order, with failures as "???", and collects the refused keys |
| Logfmt.DictAtoms | talisker/logs.py:405-419 | a nested dict yields prefixed atoms up to the first key or value that raises, then one "???" |
| Logfmt.SubStep | talisker/logs.py:405-419 | one nested item: printed, skipped and noted for its key, or the end of the dict |
| Logstash.Filter.Feed | talisker/logstash/talisker.filter:51-137 | one character of the loop: new state and assignments to the event |
| Logstash.Filter.ReadLine | talisker/logstash/talisker.filter:41-138 | the loop applies to the event exactly the assignments of the machine over the line |
| RoundTrip.QuotedInversion | talisker/logstash/talisker.filter:119-136 | inside fresh quotes, the escaped text and a closing quote give back the text and leave the rest, exactly when the text does not end in a backslash |
| RoundTrip.FirstQuoted | talisker/logstash/talisker.filter:119-136 | whatever stands inside quotes, a value that is read was consumed in its escaped form and does not end in a backslash |
| RoundTrip.OnlyGoodKeys | talisker/logstash/talisker.filter:53-73 | the reader assigns only to non-empty keys without quote, equals sign or control character |
| LineRoundTrip.LineRoundTrip | talisker/logs.py:383-386 | for every dict of tags, reading the printed line makes exactly the expected assignments in order if and only if every key is acceptable and every value survives |
| LineRoundTrip.EntriesRoundTrip | talisker/logs.py:383-510 | the same from any reader state between atoms, for any printed entries |
| TagsReadBack.DictReadBack | talisker/logs.py:383-510 | from a dict of tags to the event: each printed key, nested ones prefixed, holds its value, and no other field changes |
| TagsReadBack.LeavesAre | talisker/logs.py:396-419 | what is printed: exactly the tags that are not empty, zero or otherwise false, with False printed, and the items of nested dicts |
| TagsReadBack.TagLine | talisker/logs.py:383-425 | the line of one tag, for every kind of value |
| TagsReadBack.BoolLine | talisker/logs.py:398 | False is printed, as is True |
| TagsReadBack.NestedFailure | talisker/logs.py:405-419 | a nested value that does not decode ends the dict with "???" after the items before it |
| TagsReadBack.LineJoins | talisker/logs.py:383-386 | atoms are joined by single spaces |
| TagsReadBack.RefusedKey | talisker/logs.py:427-445 | which keys are refused, and what the others are printed as |
| TagsReadBack.QuotedWhen | talisker/logs.py:474-488 | which strings are printed in quotes |
| TagsReadBack.KeyReplaced | talisker/logs.py:431-432 | spaces, dots and equals signs of a key become underscores, and nothing else changes |
| TagsReadBack.KeyCut | talisker/logs.py:432 | a key that is too long is cut and marked |
| ReaderCases.FlagIsTrue | talisker/logstash/talisker.filter:59-73 | a key without a value is set to true |
| ReaderCases.LastFlag | talisker/logstash/talisker.filter:51-73 | so is one that ends the line, but a single character is lost |
| ReaderCases.NoValue | talisker/logstash/talisker.filter:82-86 | a key with an equals sign and a space is set to nil |
| ReaderCases.LastEquals | talisker/logstash/talisker.filter:59-73 | a key with an equals sign that ends the line is set to true |
| ReaderCases.Unclosed | talisker/logstash/talisker.filter:119-136 | a quoted value that is never closed is not stored |
| ReaderCases.Skips | talisker/logstash/talisker.filter:51-57 | what stands between atoms is skipped |
| ReaderCases.DottedNumeral | talisker/logstash/talisker.filter:30-32 | digits with a dot are a decimal |
| ReaderCases.ExponentNumeral | talisker/logstash/talisker.filter:30-32 | so are numerals with an exponent |
| ReaderCases.SignedNumeral | talisker/logstash/talisker.filter:34-36 | a signed integer is a number |
| LineRoundTrip.EventHolds | talisker/logstash/talisker.filter:129-131 | in the event, a key printed once holds its value |
| LineRoundTrip.ExpectedAssigned | talisker/logstash/talisker.filter:41-138 | event fields that the line does not name are kept |
| LineRoundTrip.DottedDigitsSurvive | talisker/logs.py:485-488 | digits with any number of dots, truncated or not, come back as the string they were |
| LineRoundTrip.NegativeStringsBecomeNumbers | talisker/logs.py:474-488 | a negative numeral given as a string prints as the number does and does not survive |
| Message.MessageReadable | talisker/logs.py:334-337 | the message pattern covers the whole field and stops at the closing quote for a message that fits exactly if its backslashes are paired, and for a truncated one exactly if every quote left in it is escaped |
| Message.MarkedMatches | talisker/logs.py:334-337 | with the truncation mark, a text is matched exactly if each of its quotes has an odd run of backslashes before it |
| Message.BackslashQuoteUnreadable | talisker/logs.py:380-381 | a message that starts with a backslash and a quote, truncated or not, is taken to end after two characters |
| Message.TruncatedMatches | talisker/logs.py:334-337 | truncation anywhere, even inside an escape pair, keeps the field matched |
| Message.ClosingQuote | talisker/logstash/talisker.pattern:3 | the longest match ends at the closing quote exactly when it covers the field |
| Message.NoBackslashReadable | talisker/logs.py:380-381 | messages without backslashes are always read whole |
| Message.PrintedShape | talisker/logs.py:490-510 | a printed string has no newline and at most 2*1024+3+2 characters |
| Message.KeyShape | talisker/logs.py:427-445 | a printed key has no newline, space, dot or equals sign and at most 2*256+3 characters |
| Message.FieldSize | talisker/logs.py:334-337 | the field is the cleaned message, or its first 10240 characters and a mark |
| Message.StripShape | talisker/logs.py:490-495 | stripping drops white space at both ends only |
| Message.KeptShape | talisker/logs.py:490-510 | what is printed of a string is the longest prefix of its first line within the limit, marked as truncated exactly when something is missing |
| StructuredLogger.MergeExtra | talisker/logs.py:249-275 | the loops build the sources renamed and laid over each other in order; the trailer is taken out of the caller's dict |
| StructuredLogger.GlobalsWin | talisker/logs.py:273 | global values are found under their own names, whatever the other sources hold |
| StructuredLogger.RequestIdWins | talisker/logs.py:274-275 | the request id is found under its own name, whatever the sources hold |
| StructuredLogger.NothingLost | talisker/logs.py:244-275 | for keys without trailing underscore, nothing is lost and the order is call, context, global, exactly when no key is in all three sources |
| StructuredLogger.CallValueSurvives | talisker/logs.py:263-266 | then each value of the call is found under its name or that name and an underscore |
| StructuredLogger.ContextValueSurvives | talisker/logs.py:268-271 | then so is each value of the context |
| StructuredLogger.RecordComplete | talisker/logs.py:249-275 | from the caller's dict on, with the trailer taken out: all values of the call but the trailer are found, and the size is the sum, exactly when no other key is in all three sources |
| StructuredLogger.ValueLost | talisker/logs.py:263-273 | of a key in all three sources the call's value is gone |
| OrderedDict.PutKeepsPlaces | talisker/logs.py:252-275 | a key that is set again keeps its place |
| ContextStacks.ContextStack.Iterate | talisker/context.py:152-159 | the loop from the top down yields the flattened stack |
| ContextStacks.ContextStack.Flat | talisker/context.py:145-150 | the view is the cached one, computed from the stack only if there is none |
| ContextStacks.ContextStack.Push | talisker/context.py:161-177 | push appends a dict that binds the keyword arguments over the given dict, returns the old level and drops the cache |
| ContextStacks.ContextStack.Pop | talisker/context.py:179-183 | pop removes the top dict, if there is one, and drops the cache |
| ContextStacks.PopUndoesPush | talisker/context.py:161-183 | a pop takes off what a push put on, and leaves an empty stack empty |
| ContextStacks.MatchedRestores | talisker/context.py:191-196 | blocks that push and pop, nested or in sequence, leave stack and view as they were |
| ContextStacks.PushShows | talisker/context.py:161-177 | after a push its keys are bound as it binds them and all others as before |
| ContextStacks.UnwindKeeps | talisker/context.py:185-189 | unwinding keeps the dicts at the bottom, as many as the level says |
| ContextStacks.ReadOnce | talisker/context.py:145-150 | a view that was read is kept, and read again as it is |
| ContextStacks.ContextStack.Unwind | talisker/context.py:185-189 | unwind cuts the stack to the level and drops the cache; below zero it empties the stack, raises and leaves the cache |
| ContextStacks.RunAgrees | talisker/context.py:145-189 | through any run the view is the flattened stack, exactly if no unwinding below zero comes while a non-empty view is cached |
| ContextStacks.LevelsAgree | talisker/context.py:145-189 | so it is whenever levels are those a push can return |
| ContextStacks.StaleView | talisker/context.py:185-189 | after an unwinding to -1 an empty stack shows the dict it held |
| ContextStacks.FlattenLookup | talisker/context.py:198-200 | a key is bound as in the topmost dict that has it |
| ContextStacks.FlattenDistinct | talisker/context.py:152-159 | no key appears twice in the view |
| ContextStacks.FlattenTopDown | talisker/context.py:205-207 | items of higher dicts come first, those of one dict in its own order |
| ContextStacks.UnwindRestores | talisker/context.py:161-189 | unwinding to the level a push returned restores the stack, and the view is that of the stack, whatever happened above it |
| RetryTheorems.LoopIs | talisker/requests.py:470-544 | the recursive loop stops at the first attempt that may not go on; every call's url and timeouts in closed form; the last attempt alone decides the result |
| RetryTheorems.CallsBounded | talisker/requests.py:470-544 | at least one and at most N+1 calls for a counter of N |
| RetryTheorems.LastCallDecides | talisker/requests.py:478-536 | a non-retryable answer is returned and never discarded, a read timeout is never retried |
| RetryTheorems.Exhausted | talisker/requests.py:502-532 | exhaustion raises the original connection error, or RetryError or the last response according to raise_on_status |
| RetryTheorems.TimeBudget | talisker/requests.py:388-392 | timeouts never grow, stay positive, and each read ends with the budget |
| RetryTheorems.EndsInTime | talisker/requests.py:538-544 | with a transport that honours its timeouts every attempt ends by start plus read plus connect timeout |
| RetryTheorems.DeadlineKept | talisker/requests.py:445-452 | reads end by the context deadline, but for the gap before the loop notes its start |
| Adapter.CreateBackendIterable | talisker/requests.py:355-377 | a cycle of the given backends exactly when there are some, all have known schemes, and the same one |
| Adapter.Balanced | talisker/requests.py:377-386 | in the history of selections of a cycle no backend comes two times more often than another |
| Adapter.BackendCycle.Next | talisker/requests.py:377-386 | the history of the cycle grows by the next backend in turn |
| Adapter.TaliskerAdapter.SelectBackend | talisker/requests.py:379-386 | the url gets scheme and host of the next backend in turn and keeps path, query and fragment of the original |
| Adapter.TaliskerAdapter.CalculateTimeouts | talisker/requests.py:388-392 | each timeout is the longest that is no longer than asked for and, unless it is over at once, ends by start plus budget |
| Adapter.TaliskerAdapter.Attempt | talisker/requests.py:471-536 | one call, its verdict, and the counter noted in the request |
| Adapter.TaliskerAdapter.SendAttempt | talisker/requests.py:470-544 | the recursive method makes the calls, selections and result of the loop |
| Adapter.TaliskerAdapter.Send | talisker/requests.py:410-468 | what a send does for every form of timeout argument, deadline and policy |
| AdapterTheorems.SendPromises | talisker/requests.py:410-544 | any send, with or without deadline or policy: bounded calls, each at scheme and host of the next backend with path, query and fragment kept, the first with the settled timeouts cut to the deadline, all positive and within budget and deadline |
| AdapterTheorems.CallsFollowHistory | talisker/requests.py:379-386 | each call of a send goes to scheme and host of the backend selected for it in the history of the cycle |
| AdapterTheorems.TimeoutForms | talisker/requests.py:416-442 | the connect timeout, read timeout and policy that each form of the timeout argument leads to |
| AdapterTheorems.PairIsUsed | talisker/requests.py:434-435 | the first call has the two timeouts of a pair, in that order |
| AdapterTheorems.WithoutRetry | talisker/requests.py:436-463 | a bad timeout and a passed deadline are raised without a call; without a policy the answer or exception of the one call is the result |
| Wsgi.TaliskerWSGIRequest.NextChunk | talisker/wsgi.py:265-325 | one step of iteration computes Next, and takes the request out of the table when it closes |
| Wsgi.TaliskerWSGIRequest.TryNext | talisker/wsgi.py:295-316 | the try block with its handlers computes Tried |
| Wsgi.TaliskerWSGIRequest.HandleError | talisker/wsgi.py:301-316 | the handlers: announce a lazy end, switch to an error response, note a failing exit |
| Wsgi.TaliskerWSGIRequest.RespondError | talisker/wsgi.py:331-348 | the error response is announced with status 500 and exc_info before its body is used |
| Wsgi.TaliskerWSGIRequest.CloseResponse | talisker/wsgi.py:350-361 | a second close does nothing, the first finishes the request even if closing the iterator raises |
| Wsgi.TaliskerWSGIRequest.FinishRequest | talisker/wsgi.py:363-412 | one log record with the current status and length, and the id leaves the table unless it is empty |
| Wsgi.TaliskerWSGIRequest.StartResponse | talisker/wsgi.py:188-219 | the last status and exc_info are kept and nothing is forwarded |
| Wsgi.TaliskerWSGIRequest.CallStartResponse | talisker/wsgi.py:221-227 | the stored status and exc_info are forwarded; the call counts only if it does not raise |
| Wsgi.TaliskerWSGIRequest.AppFailed | talisker/wsgi.py:636-647 | an application that raises is answered with an error response, or finished on a failing exit |
| Wsgi.Call | talisker/wsgi.py:622-649 | the middleware tracks the request unless its id is in use, and wraps what the application answers |
| Wsgi.InFlight.FinishAll | talisker/gunicorn.py:121-135 | the worker-exit loop finishes every request in the table once, never misses a key, and leaves at most the empty id |
| WsgiTheorems.StartResponseProtocol | talisker/wsgi.py:265-348 | PEP 3333: no chunk before a successful start_response, exc_info on every later call, no call without a status for a prompt application |
| WsgiTheorems.LoggedOnce | talisker/wsgi.py:350-412 | logged at most once and exactly when closed; the logged length is that of the chunks returned by then; the logged status is the one last sent unless the application called start_response after that |
| WsgiTheorems.CloseHolds | talisker/wsgi.py:350-361 | after a close anywhere in a run the response is closed with one record that never changes, of the length of all chunks returned before it if nothing had closed it earlier |
| WsgiTheorems.RecordsWithExit | talisker/gunicorn.py:121-135 | with the worker-exit hook among the operations a response has one record from its close and one timed out if the hook found it, and none else unless its id is empty |
| WsgiTheorems.NextCloses | talisker/wsgi.py:295-322 | asked for an item, the request is over exactly when an Exception or SystemExit leaves the try block |
| WsgiTheorems.ExhaustionCloses | talisker/wsgi.py:301-322 | exhaustion closes and logs once, whatever was asked before, not before the server was told, and even if closing the iterator raises |
| WsgiTheorems.ErrorAnswered | talisker/wsgi.py:306-348 | an error raised by the application becomes one chunk, the rendered body, announced with status 500 and exc_info |
| WsgiTheorems.NextOk | talisker/wsgi.py:265-325 | every step of iteration keeps the promises to server and log |
| WsgiContents.ReturnsItems | talisker/wsgi.py:295-325 | over any run the server gets, in order, the items of the first steps of the application and perhaps the error body; none is missing if the application was eager or the server never refuses it |
| WsgiContents.LostItem | talisker/wsgi.py:297-300 | an item is lost when a server refuses a lazy application |
| WsgiContents.ItemsInOrder | talisker/wsgi.py:295-325 | asking n times an application with n items gives exactly these |
| WsgiContents.WellServed | talisker/wsgi.py:265-361 | a response that goes well: all items, the end, and one record with the last status, the length and no exception |
| WsgiContents.ServerTold | talisker/wsgi.py:283-292 | the server is told first what the application said last before it was asked |
| WsgiContents.LazyTold | talisker/wsgi.py:296-300 | of a lazy application it is told what was said while the first item was pulled |
| WsgiContents.FileTold | talisker/wsgi.py:229-263 | a file response is announced once and logged with its size |
| WsgiContents.FailedServed | talisker/wsgi.py:635-642 | an application that fails when called is answered with status 500 and exactly the error body |
| WsgiContents.FailedCall | talisker/wsgi.py:635-647 | what else it raises goes on to the server; a failing exit is logged |
| WsgiContents.NotAnswered | talisker/wsgi.py:306-322 | what iteration does with an exit, an interrupt, and an error whose handler fails |
| WsgiContents.ErrorLogged | talisker/wsgi.py:331-361 | an answered error is logged with status 500, itself, and the length of all chunks |
| WsgiContents.ClosingRaises | talisker/wsgi.py:350-361 | what closing the iterator raises is raised once, and the response is logged |
| InFlightTable.AlwaysExact | talisker/wsgi.py:625-632 | in every state, second finishes included, the table is exactly the requests begun and not finished, if and only if no id in use is used again, no empty id finishes, and no request finishes again after its id has gone to another |
| InFlightTable.StepExact | talisker/wsgi.py:409-412 | the same for one event |
| InFlightTable.DistinctIdsExact | talisker/wsgi.py:625-632 | so it is when ids are distinct and not empty |
| InFlightTable.FirstKeepsId | talisker/wsgi.py:625-632 | a request that begins with an id in use is not tracked |
| Celery.Task.TaskPrerun | talisker/celery.py:167-205 | prerun reports a nested retry and its run, and sets the timestamp |
| Celery.Task.TaskPostrun | talisker/celery.py:208-211 | postrun reports the run and clears the timestamp |
| Celery.Task.ProtectedSignal | talisker/celery.py:106-117 | a protected counter is sent only once per task object |
| Celery.RunsBalance | talisker/celery.py:167-211 | over any signals, run metrics plus an open run plus replaced timestamps equal the preruns |
| Celery.EagerRunsBalance | talisker/celery.py:178-204 | for an eager task no timestamp is ever replaced |
| Celery.NestedIsSequential | talisker/celery.py:178-202 | nested eager retries report the same retries, outcome and runs as sequential ones, for any number of retries |
| Celery.OncePerTask | talisker/celery.py:106-117 | after a mark, no further signal of any run reports that counter |
| Celery.PrerunStarts | talisker/celery.py:204 | a prerun starts the clock of its run, nested or not |
| Celery.RunTimed | talisker/celery.py:204-211 | a run is reported from the start its prerun noted to its postrun |
| Celery.NestedTimed | talisker/celery.py:178-204 | a nested prerun reports a retry and the outer run until then, and starts anew |
| Celery.QueueTimed | talisker/celery.py:173-176 | a prerun reports the time in the queue, and nothing else unless it is nested |

## Left out

- prometheus_client's file format and its reading of one file: a file is read in one step, and the merge is its key-wise sum; gauges and their clean-up are not modelled.
- Crashes of the master, renames that raise or cross devices inside the critical section, and a non-empty directory at start.
- Temporary files left behind by a timed-out clean-up.
- CleanupWorker.MultiprocDir.Clean: is one run with nobody else about; interference is in CleanupTheorems.
- Floats, decimals and complex numbers as tags, and non-string keys in `makeRecord`; a decimal read back keeps its text only.
- The grok pattern around the message field, timestamps, tracebacks, trailers and coloured output.
- The decoding of bytes: a bytes value carries the text it decodes to, or that it does not decode.
- CleanupTheorems.DrainBounded: counts the master's own steps; how long one step takes is not modelled.
- Proxies, response hooks, request metrics and session handling in the adapter; custom backend iterators.
- Adapter.TaliskerAdapter.Send: a tuple holds numbers and perhaps a policy at its end; other items in a tuple are not modelled.
- The bound on backoff sleeps: the budget does not cover them.
- Response headers, timestamps, sentry reports, metrics labels and rendering of error pages in the WSGI request.
- File-wrapper responses after they are handed over unwrapped: a second close finishes them twice.
- Wsgi.InFlight.FinishAll: says of each log record that it is the one timed-out record added; FinishOne has its full contents.
- The application's iterator is not closed once an error response has replaced it, in the source and in the model.
- `ContextStack` as a context manager, which does not pop when its body raises; contexts other than the stack, and celery's use of them.
- Configuration, Flask, Django, Sentry, statsd and endpoint glue.
