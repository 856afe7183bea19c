/** The `Chunker` object: its configuration fields, the in-memory checkpoint
    record and chunk position, the checkpoint file it reads and writes, and
    `start`, the resumable batch loop. */
module Chunking {
  import opened Checkpoint
  import opened Slicing
  import opened Run

  /** `rtrim(dir, '/')`: the directory without its trailing slashes. */
  function TrimSlashes(dir: string): (r: string)
    ensures r <= dir
    ensures r == [] || r[|r| - 1] != '/'
    ensures forall i :: |r| <= i < |dir| ==> dir[i] == '/'
  {
    if dir != [] && dir[|dir| - 1] == '/' then TrimSlashes(dir[..|dir| - 1]) else dir
  }

  /** `position * size`, the first index of a chunk. Kept in a method of its
      own so that Start's proof sees only ChunkStart. */
  method Offset(position: int, size: int) returns (start: int)
    ensures start == ChunkStart(position, size)
  {
    start := position * size;
    StartOfChunk(position, size);
  }

  class Chunker<T> {
    const chunkId: string
    var workDir: string
    var metaPath: string
    var chunkSize: int
    var meta: Meta
    var exceptMessage: string
    var unwrap: bool
    var chunkPosition: int
    var data: seq<T>
    var delay: int
    var maxRetries: int
    // whether the done, finish, fail and processing closures are set
    var hasDone: bool
    var hasFinish: bool
    var hasFail: bool
    var hasProcess: bool
    // the (chunk position, attempt number) pairs on which the processing closure returns true
    var successes: iset<(int, nat)>
    // the file system holding the checkpoint files
    const store: Store
    // every hook call, closure call and sleep so far
    var trace: seq<Event<T>>

    /** A runner for job `chunkId`; its default work directory lies under the
        directory the runner is installed in. */
    constructor(chunkId: string, installDir: string, store: Store)
      ensures this.chunkId == chunkId && this.store == store
      ensures workDir == installDir + "/runtime/chunks" && metaPath == ""
      ensures chunkSize == 100 && delay == 0 && maxRetries == 0 && chunkPosition == 0
      ensures exceptMessage == "" && !unwrap && data == []
      ensures !hasDone && !hasFinish && !hasFail && !hasProcess
      ensures trace == []
    {
      this.chunkId := chunkId;
      this.store := store;
      workDir := installDir + "/runtime/chunks";
      metaPath := "";
      chunkSize := 100;
      // the record is never read before `start` or `WorkDir` reloads it
      meta := Fresh(chunkId);
      exceptMessage := "";
      unwrap := false;
      chunkPosition := 0;
      data := [];
      delay := 0;
      maxRetries := 0;
      hasDone, hasFinish, hasFail, hasProcess := false, false, false, false;
      successes := iset{};
      trace := [];
    }

    /** The configuration `start` reads. */
    function Snapshot(): Config<T>
      reads this`data, this`chunkSize, this`delay, this`maxRetries, this`unwrap, this`exceptMessage
      reads this`hasDone, this`hasFinish, this`hasFail, this`successes
    {
      Config(data, chunkSize, delay, maxRetries, unwrap, exceptMessage,
             hasDone, hasFinish, hasFail, successes)
    }

    /** The record currently stored for this job, with the fallback. */
    function LoadMeta(): Meta
      reads this, store
    {
      Load(store.files, metaPath, chunkId)
    }

    /** What `start` needs: either it stops at once, or the chunk size is
        positive (it is a divisor), a processing closure is set and the work
        directory has been chosen (the file functions refuse an empty path). */
    predicate CanStart()
      reads this, store
    {
      ShortCircuits(Snapshot(), LoadMeta()) || (chunkSize > 0 && hasProcess && metaPath != "")
    }

    method WorkDir(dir: string)
      modifies this`workDir, this`metaPath, this`meta, this`chunkPosition
      ensures workDir == TrimSlashes(dir)
      ensures metaPath == workDir + "/" + chunkId + ".json"
      ensures meta == LoadMeta()
      ensures chunkPosition == meta.chunkPosition
    {
      workDir := TrimSlashes(dir);
      metaPath := workDir + "/" + chunkId + ".json";
      ReloadMeta();
      chunkPosition := meta.chunkPosition;
    }

    method ChunkSize(size: int)
      modifies this`chunkSize
      ensures chunkSize == size
    {
      chunkSize := size;
    }

    method Delay(seconds: int)
      modifies this`delay
      ensures delay == seconds
    {
      delay := seconds;
    }

    method MaxRetries(retries: int)
      modifies this`maxRetries
      ensures maxRetries == retries
    {
      maxRetries := retries;
    }

    method OnDone()
      modifies this`hasDone
      ensures hasDone
    {
      hasDone := true;
    }

    method OnFinish()
      modifies this`hasFinish
      ensures hasFinish
    {
      hasFinish := true;
    }

    method OnFail()
      modifies this`hasFail
      ensures hasFail
    {
      hasFail := true;
    }

    method Except(msg: string)
      modifies this`exceptMessage
      ensures exceptMessage == msg
    {
      exceptMessage := msg;
    }

    /** Without an argument, unwrap mode is switched on. */
    method Unwrap(flag: bool := true)
      modifies this`unwrap
      ensures unwrap == flag
    {
      unwrap := flag;
    }

    method Data(records: seq<T>)
      modifies this`data
      ensures data == records
    {
      data := records;
    }

    method Do(oracle: iset<(int, nat)>)
      modifies this`successes, this`hasProcess
      ensures successes == oracle && hasProcess
    {
      successes := oracle;
      hasProcess := true;
    }

    /** The in-memory record becomes the stored one. */
    method ReloadMeta()
      modifies this`meta
      ensures meta == LoadMeta()
    {
      meta := LoadMeta();
    }

    /** Reload the record, overwrite one key, store the whole record. */
    method WriteMeta(w: Write)
      modifies this`meta, store
      ensures meta == Apply(old(LoadMeta()), w)
      ensures store.files == Save(old(store.files), metaPath, chunkId, w)
      ensures store.files == old(store.files)[metaPath := Stored(meta)]
    {
      meta := Apply(LoadMeta(), w);
      store.files := store.files[metaPath := Stored(meta)];
    }

    method Sleep()
      modifies this`trace
      ensures trace == old(trace) + Pause(Snapshot())
    {
      if delay > 0 {
        trace := trace + [Slept(delay)];
      }
    }

    method TriggerDone(m: Meta)
      modifies this`trace
      ensures trace == old(trace) + Hook(hasDone, ChunkDone(m))
    {
      if hasDone {
        trace := trace + [ChunkDone(m)];
      }
    }

    method TriggerFinish()
      modifies this`trace
      ensures trace == old(trace) + Hook(hasFinish, Finished)
    {
      if hasFinish {
        trace := trace + [Finished];
      }
    }

    method TriggerFail(m: Meta)
      modifies this`trace
      ensures trace == old(trace) + Hook(hasFail, Failed(m))
    {
      if hasFail {
        trace := trace + [Failed(m)];
      }
    }

    /** The retry loop of `start` for the chunk at the current position: call
        the processing closure with the chunk and the in-memory record until it
        succeeds or the attempt counter passes `maxRetries`, sleeping after
        each failure. */
    method Retry(chunk: seq<T>) returns (ok: bool)
      modifies this`trace
      ensures var tried := Attempts(Snapshot(), chunkPosition, chunk, meta, 0);
              trace == old(trace) + tried.trace && ok == tried.success
    {
      ghost var c := Snapshot();
      ghost var whole := Attempts(c, chunkPosition, chunk, meta, 0);
      var attempt: nat := 0;
      while attempt <= maxRetries
        invariant Snapshot() == c
        invariant old(trace) + whole.trace == trace + Attempts(c, chunkPosition, chunk, meta, attempt).trace
        invariant whole.success == Attempts(c, chunkPosition, chunk, meta, attempt).success
        decreases maxRetries + 1 - attempt
      {
        var done := (chunkPosition, attempt) in successes;
        ghost var call := [Processed(chunkPosition, attempt, chunk, meta)];
        Associative(trace, call + Pause(c), Attempts(c, chunkPosition, chunk, meta, attempt + 1).trace);
        Associative(trace, call, Pause(c));
        trace := trace + [Processed(chunkPosition, attempt, chunk, meta)];
        if done {
          return true;
        }
        attempt := attempt + 1;
        Sleep();
      }
      return false;
    }

    /** The run is over: persist status `finish` and fire the finish hook. */
    method FinishRun()
      requires metaPath in store.files && store.files[metaPath] == Stored(meta)
      modifies this`meta, this`trace, store
      ensures meta == Apply(old(meta), SetStatus(Finish))
      ensures store.files == old(store.files)[metaPath := Stored(meta)]
      ensures trace == old(trace) + Hook(hasFinish, Finished)
    {
      WriteMeta(SetStatus(Finish));
      TriggerFinish();
    }

    /** The chunk succeeded: fire the done hook with the record as it was,
        move to the next position, persist it and sleep. */
    method Advance()
      requires metaPath in store.files && store.files[metaPath] == Stored(meta)
      modifies this`meta, this`chunkPosition, this`trace, store
      ensures chunkPosition == old(chunkPosition) + 1
      ensures meta == Apply(old(meta), SetPosition(chunkPosition))
      ensures store.files == old(store.files)[metaPath := Stored(meta)]
      ensures trace == old(trace) + (Hook(hasDone, ChunkDone(old(meta))) + Pause(Snapshot()))
    {
      TriggerDone(meta);
      chunkPosition := chunkPosition + 1;
      WriteMeta(SetPosition(chunkPosition));
      Sleep();
    }

    /** The chunk exhausted its retries: persist status `fail`, then throw
        with the configured message or fire the fail hook. */
    method Abandon() returns (outcome: Outcome)
      requires metaPath in store.files && store.files[metaPath] == Stored(meta)
      modifies this`meta, this`trace, store
      ensures meta == Apply(old(meta), SetStatus(Fail))
      ensures store.files == old(store.files)[metaPath := Stored(meta)]
      ensures unwrap ==> outcome == Threw(exceptMessage) && trace == old(trace)
      ensures !unwrap ==> outcome == Returned && trace == old(trace) + Hook(hasFail, Failed(meta))
    {
      WriteMeta(SetStatus(Fail));
      if unwrap {
        return Threw(exceptMessage);
      }
      TriggerFail(meta);
      return Returned;
    }

    /** The body of `start`'s main loop, run at in-memory position
        `chunkPosition`: finish when the position has reached the chunk count
        (or the slice is empty); otherwise run the retry loop and either advance
        (`more`) or give the chunk up. Either way the events it appends,
        followed by the rest of the run, make up RunFrom. */
    method Step(total: nat) returns (more: bool, outcome: Outcome, ghost events: seq<Event<T>>)
      requires chunkSize > 0 && total == TotalChunks(|data|, chunkSize)
      requires metaPath in store.files && store.files[metaPath] == Stored(meta)
      modifies this`meta, this`chunkPosition, this`trace, store
      ensures store.files == old(store.files)[metaPath := Stored(meta)]
      ensures trace == old(trace) + events
      ensures more ==> chunkPosition == old(chunkPosition) + 1
      ensures Iteration(Snapshot(), old(meta), old(chunkPosition))
           == if more then Go(events, meta) else Stop(Result(events, meta, chunkPosition, outcome))
    {
      outcome := Returned;
      more := false;
      if chunkPosition >= total {
        FinishRun();
        events := Hook(hasFinish, Finished);
        return;
      }
      var start := Offset(chunkPosition, chunkSize);
      var slice := ArraySlice(data, start, chunkSize);
      if |slice| == 0 {
        FinishRun();
        events := Hook(hasFinish, Finished);
        return;
      }
      ghost var tried := Attempts(Snapshot(), chunkPosition, slice, meta, 0);
      var ok := Retry(slice);
      if ok {
        events := tried.trace + (Hook(hasDone, ChunkDone(meta)) + Pause(Snapshot()));
        Advance();
        more := true;
        return;
      }
      outcome := Abandon();
      events := if unwrap then tried.trace else tried.trace + Hook(hasFail, Failed(meta));
    }

    /** The main loop of `start`: run passes while the in-memory status is
        `running` (as `Start` leaves it). It ends because every pass that goes
        on advances the position towards the chunk count. */
    method RunChunks(total: nat) returns (outcome: Outcome)
      requires chunkSize > 0 && total == TotalChunks(|data|, chunkSize)
      requires metaPath in store.files && store.files[metaPath] == Stored(meta)
      requires meta.status == Running
      modifies this`meta, this`chunkPosition, this`trace, store
      ensures var r := RunFrom(Snapshot(), old(meta), old(chunkPosition));
              && trace == old(trace) + r.trace
              && meta == r.meta
              && chunkPosition == r.position
              && outcome == r.outcome
      ensures store.files == old(store.files)[metaPath := Stored(meta)]
    {
      outcome := Returned;
      ghost var c := Snapshot();
      ghost var goal := RunFrom(c, meta, chunkPosition);
      ghost var done: seq<Event<T>> := [];
      var more := true;
      while meta.status == Running
        invariant Snapshot() == c
        invariant more <==> meta.status == Running
        invariant store.files == old(store.files)[metaPath := Stored(meta)]
        invariant trace == old(trace) + done
        invariant more ==> Then(done, RunFrom(c, meta, chunkPosition)) == goal
        invariant !more ==> Then(done, Result([], meta, chunkPosition, outcome)) == goal
        decreases Max(total - chunkPosition, 0) + (if more then 1 else 0)
      {
        ghost var events;
        ghost var here, at := meta, chunkPosition;
        more, outcome, events := Step(total);
        LoopStep(c, here, at, done, goal, more, events, meta, chunkPosition, outcome);
        Associative(old(trace), done, events);
        done := done + events;
      }
    }

    /** Run the chunks from the in-memory position on, checkpointing after each
        one, until all are done or one exhausts its retries. The position is the
        one `WorkDir` loaded (or the last run left), not the reloaded record's. */
    method Start() returns (outcome: Outcome)
      requires CanStart()
      modifies this`meta, this`chunkPosition, this`trace, store
      ensures var r := StartRun(old(Snapshot()), old(LoadMeta()), old(chunkPosition));
              && trace == old(trace) + r.trace
              && meta == r.meta
              && chunkPosition == r.position
              && outcome == r.outcome
      ensures old(ShortCircuits(Snapshot(), LoadMeta())) ==> store.files == old(store.files)
      ensures !old(ShortCircuits(Snapshot(), LoadMeta())) ==> store.files == old(store.files)[metaPath := Stored(meta)]
    {
      ReloadMeta();
      if meta.status == Finish || |data| == 0 {
        TriggerFinish();
        return Returned;
      }
      var total := TotalChunks(|data|, chunkSize);
      WriteMeta(SetStatus(Running));
      outcome := RunChunks(total);
    }
  }
}
