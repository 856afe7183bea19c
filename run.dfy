/** What one call of `Chunker::start` does, as functions of its configuration,
    the record it loads and the position it starts from. The processing
    closure is an oracle: the set of (chunk position, attempt number) pairs on
    which it returns true; the observer hooks and the delays are events
    appended to a trace. Chunker.Start is proved to
    behave exactly as StartRun says. */
module Run {
  import opened Checkpoint
  import opened Slicing

  /** One observable step of a run. */
  datatype Event<T> =
    | Processed(position: int, attempt: nat, chunk: seq<T>, meta: Meta)  // the processing closure was called
    | ChunkDone(meta: Meta)                                                // the done hook fired
    | Finished                                                             // the finish hook fired
    | Failed(meta: Meta)                                                   // the fail hook fired
    | Slept(seconds: int)                                                  // the runner slept

  /** How `start` ends: it returns, or it throws with a message. */
  datatype Outcome = Returned | Threw(message: string)

  /** The configuration `start` reads (set by the fluent setters). */
  datatype Config<T> = Config(
    data: seq<T>,
    chunkSize: int,
    delay: int,
    maxRetries: int,
    unwrap: bool,
    exceptMessage: string,
    hasDone: bool,
    hasFinish: bool,
    hasFail: bool,
    successes: iset<(int, nat)>)

  /** The events of calling a hook that may not be registered. */
  function Hook<T>(registered: bool, e: Event<T>): seq<Event<T>>
  {
    if registered then [e] else []
  }

  /** The events of the runner's `sleep()`: nothing unless the delay is positive. */
  function Pause<T>(c: Config<T>): seq<Event<T>>
  {
    if c.delay > 0 then [Slept(c.delay)] else []
  }

  /** The result of the retry loop for one chunk. */
  datatype Tried<T> = Tried(trace: seq<Event<T>>, success: bool)

  /** The retry loop for chunk `pos` from attempt `attempt` on: call the
      closure, stop at the first success, sleep after every failure, give up
      once the attempt counter exceeds `maxRetries`. */
  function Attempts<T>(c: Config<T>, pos: int, chunk: seq<T>, meta: Meta, attempt: nat): Tried<T>
    decreases c.maxRetries + 1 - attempt
  {
    if attempt > c.maxRetries then Tried([], false)
    else if (pos, attempt) in c.successes then Tried([Processed(pos, attempt, chunk, meta)], true)
    else
      var rest := Attempts(c, pos, chunk, meta, attempt + 1);
      Tried([Processed(pos, attempt, chunk, meta)] + Pause(c) + rest.trace, rest.success)
  }

  /** The result of a run: its events, the in-memory (and, once written, the
      stored) record, the in-memory chunk position and how it ended. */
  datatype Result<T> = Result(trace: seq<Event<T>>, meta: Meta, position: int, outcome: Outcome)

  /** A result with `done` happening before it. */
  function Then<T>(done: seq<Event<T>>, r: Result<T>): Result<T>
  {
    r.(trace := done + r.trace)
  }

  /** The run ends successfully: status `finish` is written and the finish hook fires. */
  function Finishing<T>(c: Config<T>, meta: Meta, pos: int): Result<T>
  {
    Result(Hook(c.hasFinish, Finished), Apply(meta, SetStatus(Finish)), pos, Returned)
  }

  /** The chunk at `pos` exhausted its retries after events `tried`: status
      `fail` is written, then `start` throws or the fail hook fires. */
  function Failing<T>(c: Config<T>, tried: seq<Event<T>>, meta: Meta, pos: int): Result<T>
  {
    var failed := Apply(meta, SetStatus(Fail));
    if c.unwrap then Result(tried, failed, pos, Threw(c.exceptMessage))
    else Result(tried + Hook(c.hasFail, Failed(failed)), failed, pos, Returned)
  }

  /** What one pass of the main loop leads to: the run stops with a result, or
      it goes on to the next position after `events`, with record `meta`. */
  datatype Stage<T> = Stop(result: Result<T>) | Go(events: seq<Event<T>>, meta: Meta)

  /** One pass of the main loop at in-memory position `pos`. */
  function Iteration<T>(c: Config<T>, meta: Meta, pos: int): (s: Stage<T>)
    requires c.chunkSize > 0
    ensures s.Go? ==> pos < TotalChunks(|c.data|, c.chunkSize)
    ensures s.Go? ==> s.meta == Apply(meta, SetPosition(pos + 1))
    ensures s.Stop? ==> s.result.position == pos && s.result.meta.status in {Finish, Fail}
  {
    if pos >= TotalChunks(|c.data|, c.chunkSize) then Stop(Finishing(c, meta, pos))
    else
      var chunk := Chunk(c.data, c.chunkSize, pos);
      if |chunk| == 0 then Stop(Finishing(c, meta, pos))
      else
        var tried := Attempts(c, pos, chunk, meta, 0);
        if tried.success then
          Go(tried.trace + (Hook(c.hasDone, ChunkDone(meta)) + Pause(c)), Apply(meta, SetPosition(pos + 1)))
        else Stop(Failing(c, tried.trace, meta, pos))
  }

  /** The main loop from in-memory position `pos`, with `meta` the in-memory
      record (whose status is `running`). */
  function RunFrom<T>(c: Config<T>, meta: Meta, pos: int): Result<T>
    requires c.chunkSize > 0
    decreases TotalChunks(|c.data|, c.chunkSize) - pos
  {
    match Iteration(c, meta, pos)
    case Stop(r) => r
    case Go(events, next) => Then(events, RunFrom(c, next, pos + 1))
  }

  /** One pass of RunFrom: the run is the pass's events followed by the rest
      of the run, or the pass's result when it stops. */
  lemma Unroll<T>(c: Config<T>, meta: Meta, pos: int)
    requires c.chunkSize > 0
    ensures var s := Iteration(c, meta, pos);
            && (s.Go? ==> RunFrom(c, meta, pos) == Then(s.events, RunFrom(c, s.meta, pos + 1)))
            && (s.Stop? ==> RunFrom(c, meta, pos) == s.result)
  {
  }

  lemma Associative<T>(a: seq<T>, b: seq<T>, c: seq<T>)
    ensures a + (b + c) == (a + b) + c
  {
  }

  lemma ThenThen<T>(done: seq<Event<T>>, events: seq<Event<T>>, r: Result<T>)
    ensures Then(done, Then(events, r)) == Then(done + events, r)
  {
    assert done + (events + r.trace) == (done + events) + r.trace;
  }

  /** One turn of a loop that runs RunFrom pass by pass: if the events `done`
      followed by the run from `pos` make up `goal`, then so do `done` and the
      pass's events followed by the rest of the run (or by nothing, once the
      pass stops). */
  lemma LoopStep<T>(c: Config<T>, meta: Meta, pos: int, done: seq<Event<T>>, goal: Result<T>,
                    more: bool, events: seq<Event<T>>, next: Meta, nextPos: int, outcome: Outcome)
    requires c.chunkSize > 0
    requires Then(done, RunFrom(c, meta, pos)) == goal
    requires Iteration(c, meta, pos) == if more then Go(events, next) else Stop(Result(events, next, nextPos, outcome))
    requires more ==> nextPos == pos + 1
    ensures more ==> Then(done + events, RunFrom(c, next, nextPos)) == goal
    ensures !more ==> Then(done + events, Result([], next, nextPos, outcome)) == goal
    ensures more ==> next.status == meta.status
    ensures !more ==> next.status != Running && nextPos == pos
  {
    Unroll(c, meta, pos);
    var rest := if more then RunFrom(c, next, nextPos) else Result([], next, nextPos, outcome);
    ThenThen(done, events, rest);
  }

  /** `start` skips all work when the loaded record is finished or there is no data. */
  predicate ShortCircuits<T>(c: Config<T>, loaded: Meta)
  {
    loaded.status == Finish || |c.data| == 0
  }

  /** One call of `start`, given the record it loads and the in-memory position. */
  function StartRun<T>(c: Config<T>, loaded: Meta, pos: int): Result<T>
    requires ShortCircuits(c, loaded) || c.chunkSize > 0
  {
    if ShortCircuits(c, loaded) then Result(Hook(c.hasFinish, Finished), loaded, pos, Returned)
    else RunFrom(c, Apply(loaded, SetStatus(Running)), pos)
  }

  /** Kinds of event to count in a trace. */
  datatype Tag = CallOf(position: int) | AnyCall | AnyDone | AnyFinished | AnyFailed

  predicate Matches<T>(e: Event<T>, k: Tag)
  {
    match k
    case CallOf(p) => e.Processed? && e.position == p
    case AnyCall => e.Processed?
    case AnyDone => e.ChunkDone?
    case AnyFinished => e.Finished?
    case AnyFailed => e.Failed?
  }

  /** The number of events of kind `k` in a trace. */
  function Tally<T>(tr: seq<Event<T>>, k: Tag): nat
  {
    if tr == [] then 0 else (if Matches(tr[0], k) then 1 else 0) + Tally(tr[1..], k)
  }

  /** The positions recorded in the done hook's records, in firing order. */
  function DonePositions<T>(tr: seq<Event<T>>): seq<int>
  {
    if tr == [] then []
    else (if tr[0].ChunkDone? then [tr[0].meta.chunkPosition] else []) + DonePositions(tr[1..])
  }

  /** The integers lo, lo + 1, ..., hi - 1. */
  function Range(lo: int, hi: int): seq<int>
    decreases hi - lo
  {
    if lo >= hi then [] else [lo] + Range(lo + 1, hi)
  }
}
