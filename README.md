# Chunker, modelled in Dafny

`Chunker` (chunker.php) is a resumable batch runner. It cuts a dataset into
chunks of `chunk_size` records and hands each chunk to a processing closure.
A chunk is retried until the closure returns true or `max_retries + 1`
attempts have been made. Progress is checkpointed in a small JSON record
`{chunk_id, status, chunk_position}` stored in `<work_dir>/<chunk_id>.json`.
Observer hooks fire when a chunk is done (`done`), when the run finishes
(`finsih`) and when a chunk exhausts its retries (`fail`). In unwrap mode the
runner throws instead of firing the fail hook.

The model has five modules:

- `Slicing` (slicing.dfy) covers the chunk arithmetic:
  - the chunk count (`ceil(count / size)`);
  - PHP's `array_slice` offset rules, negative offsets included;
  - which records chunk `k` holds.
- `Checkpoint` (checkpoint.dfy) covers the checkpoint store. Files are a map
  from path to slot, and a slot that is not valid JSON is `Corrupt`. Reading
  falls back to a fresh `init` record. Writing reloads the record, overwrites
  one key and stores the whole record again. `Store` is the shared file system.
- `Run` (run.dfy) gives the meaning of one call of `start` as functions:
  - `Attempts` is the retry loop.
  - `Iteration` is one pass of the main loop.
  - `RunFrom` is the main loop.
  - `StartRun` is the whole call.

  Observable behaviour is a trace of events: closure calls (with the slice and
  the record passed), hook calls (with the record passed) and sleeps. The
  processing closure is an oracle: the set of (chunk position, attempt number)
  pairs on which it returns true.
- `Chunking` (chunker.dfy) holds the class `Chunker`, with the source's fields,
  fluent setters, checkpoint I/O and `start`. `start` is imperative, with the
  source's two nested loops:
  - `Start` reloads the record, short-circuits or sets `running`.
  - `RunChunks` is the outer `while`, and `Step` is its body.
  - `Retry` is the inner retry `while`.
  - `FinishRun`, `Advance` and `Abandon` are the three ways a pass ends.

  `Start` is proved to append exactly `StartRun`'s trace and to leave
  `StartRun`'s record, position and outcome. It also leaves the stored file
  holding that record, or untouched after a short-circuit.
- `Properties` (properties.dfy) proves what `start` guarantees, by way of
  `StartRun`/`RunFrom`:
  - the retry bound and the first-success rule;
  - a run ends in `finish` or `fail`;
  - which hooks fire, and how often;
  - when the stored and in-memory positions agree at the start (as after
    `workDir`), the done hook fires for consecutive positions;
  - calls come in chunk order;
  - finished jobs stay finished; when the stored and in-memory positions
    agree at the start (as after `workDir`), failed jobs resume at the failed
    chunk;
  - the 250-record example run.

Where the runner's evident intent and its code differ, the model follows
the code:

- The fatal error carries `except_message` as configured. The `??` fallback
  at chunker.php:172 never applies, because the property is a non-null string
  that defaults to `''`. So no message naming the failed chunk is generated.
- `start` works from the in-memory `chunk_position`. Only `workDir` loads it
  from the stored record (chunker.php:48); the reload at chunker.php:114 does
  not. A run therefore resumes from the stored position only when the
  in-memory position equals the stored one: after `workDir` has loaded the
  record, or after an earlier `start` of the same runner that began with the
  two equal or completed at least one chunk (RunEnds). A record whose
  position differs (written by another runner, say) is overwritten only when
  a chunk is done; a run that finishes or fails at once leaves that position
  in place.
- The runner sleeps after every failed attempt, the last one included
  (chunker.php:164-165), not only when budget remains.

## Model

| member | source | states |
|---|---|---|
| Slicing.TotalChunksIsCeiling | chunker.php:123 | the chunk count t is the least number with count <= t * size; it is 0 exactly for no records |
| Slicing.CeilingOfQuotient | chunker.php:123 | the chunk count equals `ceil(count / size)`, written as (count + size - 1) / size |
| Slicing.ArraySlice | chunker.php:140 | `array_slice`: at most `length` records; a non-negative offset is clamped to the end; a negative offset counts from the end and is clamped to the start |
| Slicing.StartOfChunk | chunker.php:139 | the first index of chunk k is k * size, negative k included |
| Slicing.ChunkRange | chunker.php:139-140 | below the chunk count, chunk k is the half-open range [k * size, min((k + 1) * size, count)); it is non-empty and at most `size` long, and every chunk but the last is exactly `size` long |
| Slicing.SliceNonEmpty | chunker.php:139-147 | with records present, every position below the chunk count, negative ones included, selects a non-empty slice, so the empty-slice guard never fires |
| Slicing.JoinedPrefix | chunker.php:123-140 | chunks 0..k-1 joined in order are the first min(k * size, count) records |
| Slicing.Reassemble | chunker.php:123-140 | joining all chunks in order gives back the dataset exactly |
| Checkpoint.Load | chunker.php:230-249 | reading a missing file or one that is not valid JSON yields `{chunk_id, init, 0}`; otherwise it yields the stored record |
| Checkpoint.Apply | chunker.php:212-213 | overwriting one key changes that key only |
| Checkpoint.Save | chunker.php:206-219 | writing stores the reloaded record with one key overwritten at the record's path; every other file is unchanged |
| Checkpoint.WriteThenLoad | chunker.php:206-249 | a write followed by a read returns the written value and every other key as it was before |
| Checkpoint.LastWriteWins | chunker.php:206-219 | writing the same key twice is the same as writing only the second value |
| Checkpoint.StatusAndPositionCommute | chunker.php:206-219 | a status write and a position write leave the same record in either order |
| Slicing.TotalChunks | chunker.php:123 | the number of chunks for `count` records; TotalChunksIsCeiling and CeilingOfQuotient prove it is `ceil(count / size)` |
| Slicing.Chunk | chunker.php:139-140 | the slice handed to the closure at a position: `array_slice` at the chunk's first index for `size` records; ChunkRange and SliceNonEmpty prove which records it holds |
| Checkpoint.Fresh | chunker.php:232-236 | the fallback record `{chunk_id, init, 0}` that Load yields for a missing or invalid file |
| Run.Attempts | chunker.php:149-166 | the retry loop as a function of the oracle; Chunker.Retry is proved equal to it, and AttemptsBudget, AttemptsSucceed and FirstSuccess prove the retry bound and the first-success rule |
| Run.Finishing | chunker.php:132-146 | how a run finishes, when the chunk count is reached or the slice is empty: status `finish` written, the finish hook fired, `start` returns |
| Run.Failing | chunker.php:168-176 | how a run fails: status `fail` written, then a throw with the configured message in unwrap mode, otherwise the fail hook with the failed record |
| Run.RunFrom | chunker.php:129-177 | the main loop as a function; Chunker.RunChunks is proved equal to it, and RunEnds, RunHooks, DoneInOrder, CallsInOrder, CallsPerChunk and CompleteRun state its properties |
| Run.StartRun | chunker.php:112-178 | one call of `start`: the short-circuit, or `running` then the main loop; Chunker.Start is proved equal to it, and ShortCircuitRun, FinishedStaysFinished and ResumeAfterFailure state its properties |
| Run.Iteration | chunker.php:129-177 | a pass that goes on happens below the chunk count and moves the record's position to pos + 1; a pass that stops stays at pos with status `finish` or `fail` |
| Chunking.TrimSlashes | chunker.php:44 | `rtrim(dir, '/')`: a prefix of dir, not ending in '/', and only '/' was removed |
| Chunking.Offset | chunker.php:139 | the start index of the chunk at a position is that chunk's first index |
| Chunking.Chunker.constructor | chunker.php:12-30 | a new runner has the source's defaults: size 100, no delay, no retries, position 0, empty message, no unwrap, no data, no hooks, and the work directory `<install dir>/runtime/chunks` |
| Chunking.Chunker.WorkDir | chunker.php:42-51 | sets the trimmed directory and the path `<dir>/<id>.json`, reloads the record and takes the position from it |
| Chunking.Chunker.ChunkSize | chunker.php:53-57 | sets the chunk size |
| Chunking.Chunker.Delay | chunker.php:59-63 | sets the delay |
| Chunking.Chunker.MaxRetries | chunker.php:65-69 | sets the retry budget |
| Chunking.Chunker.OnDone | chunker.php:71-75 | registers the done hook |
| Chunking.Chunker.OnFinish | chunker.php:76-80 | registers the finish hook |
| Chunking.Chunker.OnFail | chunker.php:82-86 | registers the fail hook |
| Chunking.Chunker.Except | chunker.php:88-92 | sets the fatal-error message |
| Chunking.Chunker.Unwrap | chunker.php:94-98 | sets unwrap mode to the given flag, on by default |
| Chunking.Chunker.Data | chunker.php:100-104 | sets the dataset |
| Chunking.Chunker.Do | chunker.php:106-110 | registers the processing closure, given as its success oracle |
| Chunking.Chunker.ReloadMeta | chunker.php:221-228 | the in-memory record becomes the stored one, with the fallback |
| Chunking.Chunker.WriteMeta | chunker.php:206-219 | the in-memory record becomes the stored record with one key overwritten; the files become exactly `Save`'s result, so the file holds exactly that record |
| Chunking.Chunker.Sleep | chunker.php:180-185 | sleeps (appends a sleep event) only for a positive delay |
| Chunking.Chunker.TriggerDone | chunker.php:199-204 | fires the done hook with the given record only if one is registered |
| Chunking.Chunker.TriggerFinish | chunker.php:199-204 | fires the finish hook only if one is registered |
| Chunking.Chunker.TriggerFail | chunker.php:199-204 | fires the fail hook with the given record only if one is registered |
| Chunking.Chunker.Retry | chunker.php:149-166 | the inner loop appends exactly the trace of `Attempts` from attempt 0 and succeeds exactly when `Attempts` does |
| Chunking.Chunker.FinishRun | chunker.php:132-136 | persists status `finish` (the file holds the new record) and fires the finish hook |
| Chunking.Chunker.Advance | chunker.php:153-161 | fires the done hook with the record as it was, moves to the next position, persists it, then sleeps |
| Chunking.Chunker.Abandon | chunker.php:168-176 | persists status `fail`; then it throws with the configured message and fires nothing, or fires the fail hook with the failed record |
| Chunking.Chunker.Step | chunker.php:129-177 | one pass of the outer loop does exactly what `Iteration` says: either it goes on with the position advanced, or it stops with `Iteration`'s result; the stored file always holds the in-memory record |
| Chunking.Chunker.RunChunks | chunker.php:129-177 | entered with status `running` (as `Start` leaves it), the outer loop runs while the status is `running` and ends with `RunFrom`'s trace, record, position and outcome, and the file holds the final record |
| Chunking.Chunker.Start | chunker.php:112-178 | `start` does exactly what `StartRun` says; after a short-circuit the files are untouched, otherwise the file holds the final record |
| Properties.AttemptsBudget | chunker.php:149-166 | the retry loop calls the closure at most `max_retries + 1` times, exactly that many when every attempt fails, and at least once when it succeeds |
| Properties.AttemptsQuiet | chunker.php:149-166 | the retry loop calls the closure only for its own chunk and fires no hook |
| Properties.AttemptsSucceed | chunker.php:149-166 | the retry loop succeeds if and only if some attempt within the budget succeeds |
| Properties.FirstSuccess | chunker.php:150-162 | when attempt j is the first success, the closure is called exactly j + 1 times, attempt j last; no retries are wasted after success |
| Properties.PassGoes | chunker.php:149-161 | a pass that goes on had a successful attempt; it called the closure 1 to `max_retries + 1` times, only for its chunk; the done hook fired once if registered, and the finish and fail hooks did not |
| Properties.PassStops | chunker.php:129-176 | a pass that stops changes only the status; it finishes if and only if the position has reached the chunk count or the slice is empty, and then it only fires the finish hook and returns |
| Properties.PassFails | chunker.php:149-176 | a failing pass made all `max_retries + 1` attempts of its chunk and none would succeed; it throws with the configured message exactly in unwrap mode, and otherwise fires the fail hook once if registered |
| Properties.RunEnds | chunker.php:112-178 | a run ends in `finish` or `fail`; the position only grows, and it ends at or below the chunk count unless the run started above it (then it stays where it started); every chunk passed had a successful attempt; it finishes if and only if the count is reached or there are no records; it fails only at a chunk with no successful attempt; the record's position ends equal to the in-memory one when they agreed at the start or at least one chunk was done |
| Properties.RunHooks | chunker.php:129-177 | the finish hook fires once exactly when the run finishes, the fail hook once exactly when it fails without unwrap; the run throws (with the configured message) exactly when it fails in unwrap mode |
| Properties.DoneInOrder | chunker.php:153-161 | for a run whose record holds the in-memory position at the start (as after `workDir`), the done hook fires once per chunk passed, in order, with the record holding that chunk's position |
| Properties.CallsRise | chunker.php:129-166 | the calls of a run rise from the starting position and none is past the final position |
| Properties.CallsInOrder | chunker.php:129-166 | the closure is called for chunks in non-decreasing order, never before the starting position or past the final one |
| Properties.CallsPerChunk | chunker.php:149-166 | no chunk is processed more than `max_retries + 1` times in a run, and no chunk before the starting position at all |
| Properties.CompleteRun | chunker.php:112-178 | when every remaining chunk has a successful attempt, the run finishes at max(start position, chunk count) and returns; the finish hook fires once and the fail hook never; when the record holds the in-memory position at the start (as after `workDir`), the done hook fires for exactly the remaining chunks, in order |
| Properties.ShortCircuitRun | chunker.php:114-120 | on a finished record or no data, `start` fires the finish hook once, calls the closure zero times and leaves the record as loaded |
| Properties.FinishedStaysFinished | chunker.php:114-120 | after a run that finished, any later `start` with any configuration only fires the finish hook and keeps the record |
| Properties.ResumeAfterFailure | chunker.php:42-51 | for a run whose loaded record holds the in-memory position (as after `workDir`), after a failure the stored position is the failed chunk; a runner with the same data and chunk size and max_retries >= 0 that loads it is not short-circuited and starts with attempt 0 of that chunk |
| Properties.CallsOfPassedChunk | chunker.php:150-162 | a chunk the run passed whose first success is attempt j was processed exactly j + 1 times |
| Properties.CallsOfFailedChunk | chunker.php:149-169 | the chunk a failed run stopped at was processed exactly `max_retries + 1` times |
| Properties.ExampleRun | chunker.php:112-178 | 250 records, chunks of 100, one retry, chunk 1 failing once: chunks 0, 1 and 2 get 1, 2 and 1 calls; the done hook fires for 0, 1 and 2; finish fires once and fail never; the record ends `{finish, 3}` |

## Left out

- File system: directory creation (chunker.php:208-210, 223-225) and I/O errors are not modelled. Files are a map from path to slot.
- Checkpoint.Save: always stores a record. In PHP `json_encode` can fail (chunker.php:217), for a `chunk_id` that is not valid UTF-8, and then `writeMeta` stores an empty file. Every reload then falls back to `init`. `start` then leaves its loop silently after the first successful chunk, with no finish or fail hook. The model does not capture this.
- The dataset is a list (`seq`). PHP array keys are not modelled: `array_slice` (chunker.php:140) keeps string keys and renumbers integer keys in the slice it hands to the closure.
- JSON: the encoding flags are not modelled. Text that fails `json_validate` is the `Corrupt` slot. Valid JSON that is not a full three-key record is not modelled.
- Type juggling: `writeMeta` takes a string value, so PHP stores the position as a string. Only `workDir` (chunker.php:48) converts it back, into the `int` property. The `meta` array that the processing closure and the hooks receive keeps the string after the first advance. The model keeps the position an integer throughout.
- `ceil` over floats at chunker.php:123 is modelled as an exact integer ceiling. The two agree for a positive chunk size.
- Chunking.Chunker.Start: requires `CanStart()`. The model therefore leaves out what PHP does when any of these fails to hold: a positive chunk size (zero divides by zero, and a negative size gives a non-positive chunk count), a registered processing closure, and a work directory set before `start`.
- Closures: only whether the processing closure returns true is modelled, as a function of (chunk position, attempt number). The records and the record it receives are recorded in the trace. Exceptions thrown by any closure are not modelled.
- Hooks and sleeps are events in a trace. The length of a sleep is recorded, but no time passes.
- The thrown `Exception` is an outcome `Threw(message)`; its class is not modelled.
- `__DIR__` (chunker.php:29) is a constructor parameter, the install directory.
- `init` (chunker.php:32-35) and `id` (chunker.php:37-40) are a static factory and an accessor; they are not modelled.
- `getCurrentChunk` and `isFinished` (chunker.php:187-197) are not modelled, because `start` does not use them.
- Concurrency, crashes between the two separate writes of status and position, and external edits of the record file are not modelled. StatusAndPositionCommute states the order-independence of the two writes.
