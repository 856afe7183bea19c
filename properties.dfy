/** What `Chunker::start` guarantees, proved about its specification in
    module Run: the retry bound, the first-success rule, termination in
    `finish` or `fail`, which hooks fire and how often, the order in which
    chunks are processed, and resumption from the stored position. */
module Properties {
  import opened Checkpoint
  import opened Slicing
  import opened Run

  /** The positions of the processing-closure calls in a trace, in order. */
  function CallPositions<T>(tr: seq<Event<T>>): seq<int>
  {
    if tr == [] then []
    else (if tr[0].Processed? then [tr[0].position] else []) + CallPositions(tr[1..])
  }

  /** Some attempt of chunk `pos` within the retry budget succeeds. */
  predicate Succeeds<T>(c: Config<T>, pos: int)
  {
    exists j :: 0 <= j <= c.maxRetries && (pos, j) in c.successes
  }

  /** Counting distributes over concatenation. */
  lemma {:induction false} TallyConcat<T>(a: seq<Event<T>>, b: seq<Event<T>>)
    ensures forall k :: Tally(a + b, k) == Tally(a, k) + Tally(b, k)
  {
    if a != [] {
      TallyConcat(a[1..], b);
      assert (a + b)[1..] == a[1..] + b;
    } else {
      assert a + b == b;
    }
  }

  lemma {:induction false} DoneConcat<T>(a: seq<Event<T>>, b: seq<Event<T>>)
    ensures DonePositions(a + b) == DonePositions(a) + DonePositions(b)
  {
    if a != [] {
      DoneConcat(a[1..], b);
      assert (a + b)[1..] == a[1..] + b;
    } else {
      assert a + b == b;
    }
  }

  lemma {:induction false} CallsConcat<T>(a: seq<Event<T>>, b: seq<Event<T>>)
    ensures CallPositions(a + b) == CallPositions(a) + CallPositions(b)
  {
    if a != [] {
      CallsConcat(a[1..], b);
      assert (a + b)[1..] == a[1..] + b;
    } else {
      assert a + b == b;
    }
  }

  /** All three counts of a concatenation. */
  lemma Concat<T>(a: seq<Event<T>>, b: seq<Event<T>>)
    ensures forall k :: Tally(a + b, k) == Tally(a, k) + Tally(b, k)
    ensures DonePositions(a + b) == DonePositions(a) + DonePositions(b)
    ensures CallPositions(a + b) == CallPositions(a) + CallPositions(b)
  {
    TallyConcat(a, b);
    DoneConcat(a, b);
    CallsConcat(a, b);
  }

  /** The events of one failed attempt: the call, then the pause. */
  lemma FailedAttempt<T>(c: Config<T>, pos: int, chunk: seq<T>, meta: Meta, attempt: nat)
    ensures var e := [Processed(pos, attempt, chunk, meta)] + Pause<T>(c);
            && (forall k :: Tally(e, k) == if Matches(Processed(pos, attempt, chunk, meta), k) then 1 else 0)
            && DonePositions(e) == [] && CallPositions(e) == [pos]
  {
    var call := Processed(pos, attempt, chunk, meta);
    Single(call);
    Concat([call], Pause<T>(c));
    if c.delay > 0 {
      Single<T>(Slept(c.delay));
    }
  }

  /** The retry loop from attempt `attempt` on calls the closure at most once
      per attempt left in the budget, and uses up the whole budget when it fails. */
  lemma {:induction false} AttemptsBudget<T>(c: Config<T>, pos: int, chunk: seq<T>, meta: Meta, attempt: nat)
    ensures var t := Attempts(c, pos, chunk, meta, attempt);
            var budget := Max(c.maxRetries + 1 - attempt, 0);
            && Tally(t.trace, AnyCall) <= budget
            && (!t.success ==> Tally(t.trace, AnyCall) == budget)
            && (t.success ==> Tally(t.trace, AnyCall) >= 1)
    decreases c.maxRetries + 1 - attempt
  {
    if attempt <= c.maxRetries {
      var call := Processed(pos, attempt, chunk, meta);
      if (pos, attempt) in c.successes {
        Single(call);
      } else {
        AttemptsBudget(c, pos, chunk, meta, attempt + 1);
        FailedAttempt(c, pos, chunk, meta, attempt);
        TallyConcat([call] + Pause<T>(c), Attempts(c, pos, chunk, meta, attempt + 1).trace);
      }
    }
  }

  /** The retry loop calls the closure for its own chunk only and fires no hook. */
  lemma {:induction false} AttemptsQuiet<T>(c: Config<T>, pos: int, chunk: seq<T>, meta: Meta, attempt: nat)
    ensures var t := Attempts(c, pos, chunk, meta, attempt);
            && (forall i :: 0 <= i < |CallPositions(t.trace)| ==> CallPositions(t.trace)[i] == pos)
            && |CallPositions(t.trace)| == Tally(t.trace, AnyCall)
            && Tally(t.trace, AnyDone) == 0 && Tally(t.trace, AnyFinished) == 0 && Tally(t.trace, AnyFailed) == 0
            && DonePositions(t.trace) == []
    decreases c.maxRetries + 1 - attempt
  {
    if attempt <= c.maxRetries {
      var call := Processed(pos, attempt, chunk, meta);
      if (pos, attempt) in c.successes {
        Single(call);
      } else {
        AttemptsQuiet(c, pos, chunk, meta, attempt + 1);
        FailedAttempt(c, pos, chunk, meta, attempt);
        Concat([call] + Pause<T>(c), Attempts(c, pos, chunk, meta, attempt + 1).trace);
      }
    }
  }

  /** Both facts about the retry loop. */
  lemma AttemptsCalls<T>(c: Config<T>, pos: int, chunk: seq<T>, meta: Meta, attempt: nat)
    ensures var t := Attempts(c, pos, chunk, meta, attempt);
            var budget := Max(c.maxRetries + 1 - attempt, 0);
            && Tally(t.trace, AnyCall) <= budget
            && (!t.success ==> Tally(t.trace, AnyCall) == budget)
            && (t.success ==> Tally(t.trace, AnyCall) >= 1)
            && (forall i :: 0 <= i < |CallPositions(t.trace)| ==> CallPositions(t.trace)[i] == pos)
            && |CallPositions(t.trace)| == Tally(t.trace, AnyCall)
            && Tally(t.trace, AnyDone) == 0 && Tally(t.trace, AnyFinished) == 0 && Tally(t.trace, AnyFailed) == 0
            && DonePositions(t.trace) == []
  {
    AttemptsBudget(c, pos, chunk, meta, attempt);
    AttemptsQuiet(c, pos, chunk, meta, attempt);
  }

  /** The retry loop succeeds exactly when some attempt left in the budget succeeds. */
  lemma {:induction false} AttemptsSucceed<T>(c: Config<T>, pos: int, chunk: seq<T>, meta: Meta, attempt: nat)
    ensures Attempts(c, pos, chunk, meta, attempt).success
        <==> exists j :: attempt <= j <= c.maxRetries && (pos, j) in c.successes
    decreases c.maxRetries + 1 - attempt
  {
    if attempt <= c.maxRetries && (pos, attempt) !in c.successes {
      AttemptsSucceed(c, pos, chunk, meta, attempt + 1);
      if exists j :: attempt <= j <= c.maxRetries && (pos, j) in c.successes {
        var j :| attempt <= j <= c.maxRetries && (pos, j) in c.successes;
        assert attempt + 1 <= j;
      }
    }
  }

  /** When attempt j is the first that succeeds, the closure is called
      j - attempt + 1 times, the last call being attempt j. */
  lemma {:induction false} FirstSuccess<T>(c: Config<T>, pos: int, chunk: seq<T>, meta: Meta, attempt: nat, j: nat)
    requires attempt <= j <= c.maxRetries && (pos, j) in c.successes
    requires forall i :: attempt <= i < j ==> (pos, i) !in c.successes
    ensures var t := Attempts(c, pos, chunk, meta, attempt);
            && t.success
            && Tally(t.trace, AnyCall) == j - attempt + 1
            && t.trace != [] && t.trace[|t.trace| - 1] == Processed(pos, j, chunk, meta)
    decreases j - attempt
  {
    if attempt < j {
      FirstSuccess(c, pos, chunk, meta, attempt + 1, j);
      var rest := Attempts(c, pos, chunk, meta, attempt + 1);
      var head := [Processed(pos, attempt, chunk, meta)] + Pause<T>(c);
      assert Attempts(c, pos, chunk, meta, attempt).trace == head + rest.trace;
      FailedAttempt(c, pos, chunk, meta, attempt);
      TallyConcat(head, rest.trace);
      assert (head + rest.trace)[|head + rest.trace| - 1] == rest.trace[|rest.trace| - 1];
    } else {
      Single(Processed(pos, j, chunk, meta));
    }
  }

  /** A pass that goes on: its chunk had a successful attempt, the closure was
      called only for that chunk and within the budget, and the done hook fired
      once (if registered). */
  lemma PassGoes<T>(c: Config<T>, meta: Meta, pos: int)
    requires c.chunkSize > 0 && Iteration(c, meta, pos).Go?
    ensures var e := Iteration(c, meta, pos).events;
            && Succeeds(c, pos)
            && (forall i :: 0 <= i < |CallPositions(e)| ==> CallPositions(e)[i] == pos)
            && 1 <= |CallPositions(e)| == Tally(e, AnyCall) <= c.maxRetries + 1
            && Tally(e, AnyFinished) == 0 && Tally(e, AnyFailed) == 0
            && Tally(e, AnyDone) == (if c.hasDone then 1 else 0)
            && Tally(e, AnyCall) == Tally(Attempts(c, pos, Chunk(c.data, c.chunkSize, pos), meta, 0).trace, AnyCall)
  {
    var chunk := Chunk(c.data, c.chunkSize, pos);
    var tried := Attempts(c, pos, chunk, meta, 0);
    assert tried.success && Iteration(c, meta, pos).events == tried.trace + (Hook(c.hasDone, ChunkDone(meta)) + Pause(c));
    AttemptsCalls(c, pos, chunk, meta, 0);
    AttemptsSucceed(c, pos, chunk, meta, 0);
    var tail := Hook(c.hasDone, ChunkDone(meta)) + Pause<T>(c);
    Single<T>(ChunkDone(meta));
    if c.delay > 0 {
      Single<T>(Slept(c.delay));
    }
    Concat(Hook(c.hasDone, ChunkDone(meta)), Pause<T>(c));
    Concat(tried.trace, tail);
  }

  /** A pass that stops finishes when no chunk is left (the position has
      reached the chunk count, or the slice is empty) and otherwise fails;
      either way only the status of the record changes. */
  lemma PassStops<T>(c: Config<T>, meta: Meta, pos: int)
    requires c.chunkSize > 0 && Iteration(c, meta, pos).Stop?
    ensures var r := Iteration(c, meta, pos).result;
            && r.meta == meta.(status := r.meta.status)
            && (r.meta.status == Finish <==>
                  pos >= TotalChunks(|c.data|, c.chunkSize) || |Chunk(c.data, c.chunkSize, pos)| == 0)
            && (r.meta.status == Finish ==> r.trace == Hook(c.hasFinish, Finished) && r.outcome == Returned)
            && DonePositions(r.trace) == []
  {
    if Iteration(c, meta, pos).result.meta.status == Fail {
      PassFails(c, meta, pos);
    } else {
      Single<T>(Finished);
    }
  }

  /** The counts of a one-event trace. */
  lemma Single<T>(e: Event<T>)
    ensures forall k :: Tally([e], k) == if Matches(e, k) then 1 else 0
    ensures DonePositions([e]) == if e.ChunkDone? then [e.meta.chunkPosition] else []
    ensures CallPositions([e]) == if e.Processed? then [e.position] else []
  {
    assert [e][1..] == [];
  }

  /** A pass that fails: every attempt of the chunk in the budget failed and
      was made, no other hook than the fail hook fired, and exactly one of
      throwing (with the configured message) and firing the fail hook ends it. */
  lemma PassFails<T>(c: Config<T>, meta: Meta, pos: int)
    requires c.chunkSize > 0 && Iteration(c, meta, pos).Stop?
    requires Iteration(c, meta, pos).result.meta.status == Fail
    ensures var r := Iteration(c, meta, pos).result;
            var e := r.trace;
            && pos < TotalChunks(|c.data|, c.chunkSize) && !Succeeds(c, pos)
            && DonePositions(e) == [] && Tally(e, AnyDone) == 0 && Tally(e, AnyFinished) == 0
            && (forall i :: 0 <= i < |CallPositions(e)| ==> CallPositions(e)[i] == pos)
            && |CallPositions(e)| == Tally(e, AnyCall) == Max(c.maxRetries + 1, 0)
            && (r.outcome.Threw? <==> c.unwrap)
            && (r.outcome.Threw? ==> r.outcome.message == c.exceptMessage)
            && Tally(e, AnyFailed) == (if !c.unwrap && c.hasFail then 1 else 0)
  {
    var chunk := Chunk(c.data, c.chunkSize, pos);
    var tried := Attempts(c, pos, chunk, meta, 0);
    AttemptsCalls(c, pos, chunk, meta, 0);
    AttemptsSucceed(c, pos, chunk, meta, 0);
    var failed := Apply(meta, SetStatus(Fail));
    var hook := Hook(c.hasFail, Failed(failed));
    Concat(tried.trace, hook);
    Single<T>(Failed(failed));
  }

  /** A run ends in `finish` or `fail`, at a position no lower than where it
      started and no higher than the chunk count (unless it started above it).
      Every chunk it moved past had a successful attempt; it fails at a chunk
      below the count none of whose attempts succeeded; it finishes only when
      the position has reached the count, so the empty-slice guard never ends a
      run with data. Only the status and the position of the record change, and the
      record's position ends equal to the in-memory one once a chunk is done
      or when the two agreed at the start. */
  lemma {:induction false} RunEnds<T>(c: Config<T>, meta: Meta, pos: int)
    requires c.chunkSize > 0
    ensures var r := RunFrom(c, meta, pos);
            var total := TotalChunks(|c.data|, c.chunkSize);
            && pos <= r.position <= Max(pos, total)
            && (forall p :: pos <= p < r.position ==> Succeeds(c, p))
            && (r.meta.status == Finish || r.meta.status == Fail)
            && (r.meta.status == Finish <==> r.position >= total || |c.data| == 0)
            && (r.meta.status == Fail ==> !Succeeds(c, r.position))
            && r.meta.chunkId == meta.chunkId
            && (meta.chunkPosition == pos || r.position > pos ==> r.meta.chunkPosition == r.position)
    decreases TotalChunks(|c.data|, c.chunkSize) - pos
  {
    Unroll(c, meta, pos);
    var s := Iteration(c, meta, pos);
    if s.Go? {
      PassGoes(c, meta, pos);
      RunEnds(c, s.meta, pos + 1);
    } else {
      PassStops(c, meta, pos);
      if s.result.meta.status == Fail {
        PassFails(c, meta, pos);
      } else if pos < TotalChunks(|c.data|, c.chunkSize) && |c.data| > 0 {
        SliceNonEmpty(c.data, c.chunkSize, pos);
      }
    }
  }

  /** The hooks of a run: the finish hook fires once exactly when the run
      finishes, the fail hook fires once exactly when it fails without
      throwing, and it throws (with the configured message) exactly when it
      fails in unwrap mode. */
  lemma {:induction false} RunHooks<T>(c: Config<T>, meta: Meta, pos: int)
    requires c.chunkSize > 0
    ensures var r := RunFrom(c, meta, pos);
            && Tally(r.trace, AnyFinished) == (if r.meta.status == Finish && c.hasFinish then 1 else 0)
            && Tally(r.trace, AnyFailed) == (if r.meta.status == Fail && !c.unwrap && c.hasFail then 1 else 0)
            && (r.outcome.Threw? <==> r.meta.status == Fail && c.unwrap)
            && (r.outcome.Threw? ==> r.outcome.message == c.exceptMessage)
    decreases TotalChunks(|c.data|, c.chunkSize) - pos
  {
    Unroll(c, meta, pos);
    var s := Iteration(c, meta, pos);
    if s.Go? {
      PassGoes(c, meta, pos);
      RunHooks(c, s.meta, pos + 1);
      TallyConcat(s.events, RunFrom(c, s.meta, pos + 1).trace);
    } else {
      PassStops(c, meta, pos);
      if s.result.meta.status == Fail {
        PassFails(c, meta, pos);
      } else {
        Single<T>(Finished);
      }
    }
  }

  /** The done hook fires once for every chunk the run moved past, in order,
      each time with the record of that chunk's position. */
  lemma {:induction false} DoneInOrder<T>(c: Config<T>, meta: Meta, pos: int)
    requires c.chunkSize > 0 && meta.chunkPosition == pos
    ensures var r := RunFrom(c, meta, pos);
            && pos <= r.position
            && DonePositions(r.trace) == if c.hasDone then Range(pos, r.position) else []
    decreases TotalChunks(|c.data|, c.chunkSize) - pos
  {
    Unroll(c, meta, pos);
    var s := Iteration(c, meta, pos);
    if s.Go? {
      PassDone(c, meta, pos);
      var rest := RunFrom(c, s.meta, pos + 1);
      DoneInOrder(c, s.meta, pos + 1);
      DoneConcat(s.events, rest.trace);
      RangeStep(pos, rest.position);
    } else {
      PassStops(c, meta, pos);
    }
  }

  /** The done positions of a pass that goes on. */
  lemma PassDone<T>(c: Config<T>, meta: Meta, pos: int)
    requires c.chunkSize > 0 && Iteration(c, meta, pos).Go?
    ensures DonePositions(Iteration(c, meta, pos).events) == if c.hasDone then [meta.chunkPosition] else []
  {
    var chunk := Chunk(c.data, c.chunkSize, pos);
    var tried := Attempts(c, pos, chunk, meta, 0);
    AttemptsCalls(c, pos, chunk, meta, 0);
    var tail := Hook(c.hasDone, ChunkDone(meta)) + Pause<T>(c);
    DoneConcat(tried.trace, tail);
    DoneConcat(Hook(c.hasDone, ChunkDone(meta)), Pause<T>(c));
    Single<T>(ChunkDone(meta));
    if c.delay > 0 {
      Single<T>(Slept(c.delay));
    }
  }

  lemma RangeStep(lo: int, hi: int)
    requires lo < hi
    ensures Range(lo, hi) == [lo] + Range(lo + 1, hi)
  {
  }

  /** A trace whose calls are all for chunk `pos` counts them all at `pos`. */
  lemma {:induction false} CallsAllAt<T>(tr: seq<Event<T>>, pos: int)
    requires forall i :: 0 <= i < |CallPositions(tr)| ==> CallPositions(tr)[i] == pos
    ensures forall p :: Tally(tr, CallOf(p)) == if p == pos then |CallPositions(tr)| else 0
  {
    if tr != [] {
      var head := if tr[0].Processed? then [tr[0].position] else [];
      assert CallPositions(tr) == head + CallPositions(tr[1..]);
      assert forall i :: 0 <= i < |CallPositions(tr[1..])| ==> CallPositions(tr[1..])[i] == CallPositions(tr)[|head| + i];
      CallsAllAt(tr[1..], pos);
      if tr[0].Processed? {
        assert CallPositions(tr)[0] == tr[0].position == pos;
      }
    }
  }

  /** The numbers of `s` never decrease. */
  predicate Sorted(s: seq<int>)
  {
    forall i, j :: 0 <= i <= j < |s| ==> s[i] <= s[j]
  }

  /** The calls of a pass that goes on are all for its chunk. */
  lemma GoCallsAt<T>(c: Config<T>, meta: Meta, pos: int)
    requires c.chunkSize > 0 && Iteration(c, meta, pos).Go?
    ensures var e := Iteration(c, meta, pos).events;
            forall i :: 0 <= i < |CallPositions(e)| ==> CallPositions(e)[i] == pos
  {
    PassGoes(c, meta, pos);
  }

  /** The calls of a pass that stops are all for its chunk. */
  lemma StopCalls<T>(c: Config<T>, meta: Meta, pos: int)
    requires c.chunkSize > 0 && Iteration(c, meta, pos).Stop?
    ensures var e := Iteration(c, meta, pos).result.trace;
            forall i :: 0 <= i < |CallPositions(e)| ==> CallPositions(e)[i] == pos
  {
    PassStops(c, meta, pos);
    if Iteration(c, meta, pos).result.meta.status == Fail {
      PassFails(c, meta, pos);
    } else {
      Single<T>(Finished);
    }
  }

  /** A pass that goes on calls the closure for its chunk as often as the retry loop did. */
  lemma GoCalls<T>(c: Config<T>, meta: Meta, pos: int)
    requires c.chunkSize > 0 && Iteration(c, meta, pos).Go?
    ensures var e := Iteration(c, meta, pos).events;
            var tried := Attempts(c, pos, Chunk(c.data, c.chunkSize, pos), meta, 0);
            forall p :: Tally(e, CallOf(p)) == if p == pos then Tally(tried.trace, AnyCall) else 0
  {
    PassGoes(c, meta, pos);
    CallsAllAt(Iteration(c, meta, pos).events, pos);
  }

  /** The calls of one pass, whatever its end, are all for its chunk and within the budget. */
  lemma PassCalls<T>(c: Config<T>, meta: Meta, pos: int)
    requires c.chunkSize > 0
    ensures var s := Iteration(c, meta, pos);
            var e := if s.Go? then s.events else s.result.trace;
            && (forall i :: 0 <= i < |CallPositions(e)| ==> CallPositions(e)[i] == pos)
            && |CallPositions(e)| <= Max(c.maxRetries + 1, 0)
            && (forall p :: Tally(e, CallOf(p)) == if p == pos then |CallPositions(e)| else 0)
  {
    var s := Iteration(c, meta, pos);
    if s.Go? {
      PassGoes(c, meta, pos);
      CallsAllAt(s.events, pos);
    } else {
      StopCalls(c, meta, pos);
      CallsAllAt(s.result.trace, pos);
      if s.result.meta.status == Fail {
        PassFails(c, meta, pos);
      } else {
        PassStops(c, meta, pos);
        Single<T>(Finished);
      }
    }
  }

  /** The events of one pass, whether it goes on or stops. */
  function PassTrace<T>(s: Stage<T>): seq<Event<T>>
  {
    if s.Go? then s.events else s.result.trace
  }

  /** The calls of a run are the calls of its first pass, all for the starting
      chunk, followed by the calls of the rest of the run. */
  lemma RunCallsStep<T>(c: Config<T>, meta: Meta, pos: int)
    requires c.chunkSize > 0
    ensures var s := Iteration(c, meta, pos);
            var r := RunFrom(c, meta, pos);
            var here := CallPositions(PassTrace(s));
            && (forall i :: 0 <= i < |here| ==> here[i] == pos)
            && (s.Go? ==> var rest := RunFrom(c, s.meta, pos + 1);
                          CallPositions(r.trace) == here + CallPositions(rest.trace) && r.position == rest.position)
            && (s.Stop? ==> CallPositions(r.trace) == here && r.position == pos)
  {
    Unroll(c, meta, pos);
    var s := Iteration(c, meta, pos);
    if s.Go? {
      GoCallsAt(c, meta, pos);
      CallsConcat(s.events, RunFrom(c, s.meta, pos + 1).trace);
    } else {
      StopCalls(c, meta, pos);
    }
  }

  /** The numbers of `s` never decrease and none is below `lo`. */
  predicate Rising(s: seq<int>, lo: int)
  {
    s == [] || (lo <= s[0] && Rising(s[1..], s[0]))
  }

  /** A rising sequence is sorted and bounded below by its bound. */
  lemma {:induction false} RisingSorted(s: seq<int>, lo: int)
    requires Rising(s, lo)
    ensures forall i :: 0 <= i < |s| ==> lo <= s[i]
    ensures Sorted(s)
  {
    if s != [] {
      RisingSorted(s[1..], s[0]);
      assert forall i :: 0 < i < |s| ==> s[i] == s[1..][i - 1];
    }
  }

  /** Calls all for chunk `x`, then a rising sequence from `x` on, rise from `x`. */
  lemma {:induction false} JoinRising(a: seq<int>, b: seq<int>, x: int, y: int)
    requires forall i :: 0 <= i < |a| ==> a[i] == x
    requires x <= y && Rising(b, y)
    ensures Rising(a + b, x)
  {
    if a == [] {
      assert a + b == b;
      if b != [] {
        assert Rising(b[1..], b[0]);
      }
    } else {
      JoinRising(a[1..], b, x, y);
      assert (a + b)[1..] == a[1..] + b;
    }
  }

  /** No number of `s` is above `hi`. */
  predicate AtMost(s: seq<int>, hi: int)
  {
    s == [] || (s[0] <= hi && AtMost(s[1..], hi))
  }

  lemma {:induction false} AtMostAll(s: seq<int>, hi: int)
    requires AtMost(s, hi)
    ensures forall i :: 0 <= i < |s| ==> s[i] <= hi
  {
    if s != [] {
      AtMostAll(s[1..], hi);
      assert forall i :: 0 < i < |s| ==> s[i] == s[1..][i - 1];
    }
  }

  /** Calls all for chunk `x <= hi`, then numbers at most `hi`, are at most `hi`. */
  lemma {:induction false} JoinAtMost(a: seq<int>, b: seq<int>, x: int, hi: int)
    requires forall i :: 0 <= i < |a| ==> a[i] == x
    requires x <= hi && AtMost(b, hi)
    ensures AtMost(a + b, hi)
  {
    if a == [] {
      assert a + b == b;
    } else {
      JoinAtMost(a[1..], b, x, hi);
      assert (a + b)[1..] == a[1..] + b;
    }
  }

  /** Calls all for chunk `x`, then calls rising from `y >= x` and at most
      `hi`, rise from `x` and are at most `hi`. */
  lemma JoinCalls(here: seq<int>, later: seq<int>, cp: seq<int>, x: int, y: int, hi: int)
    requires cp == here + later
    requires forall i :: 0 <= i < |here| ==> here[i] == x
    requires x <= y <= hi && Rising(later, y) && AtMost(later, hi)
    ensures Rising(cp, x) && AtMost(cp, hi)
  {
    JoinRising(here, later, x, y);
    JoinAtMost(here, later, x, hi);
  }

  /** Calls all for chunk `x` rise from `x` and are at most `x`. */
  lemma AllAt(here: seq<int>, x: int)
    requires forall i :: 0 <= i < |here| ==> here[i] == x
    ensures Rising(here, x) && AtMost(here, x)
  {
    JoinRising(here, [], x, x);
    JoinAtMost(here, [], x, x);
    assert here + [] == here;
  }

  /** The calls of the run from `pos` rise from `pos`, and none is past the
      run's final position, which is at least `pos`. */
  predicate CallsRiseFrom<T>(c: Config<T>, meta: Meta, pos: int)
    requires c.chunkSize > 0
  {
    && pos <= RunFrom(c, meta, pos).position
    && Rising(CallPositions(RunFrom(c, meta, pos).trace), pos)
    && AtMost(CallPositions(RunFrom(c, meta, pos).trace), RunFrom(c, meta, pos).position)
  }

  /** One pass of the run keeps its calls rising: a run that stops here has
      all its calls for this chunk, and a run that goes on rises from here
      when its rest rises from the next chunk. */
  lemma CallsStep<T>(c: Config<T>, meta: Meta, pos: int)
    requires c.chunkSize > 0
    ensures Iteration(c, meta, pos).Stop? ==> CallsRiseFrom(c, meta, pos)
    ensures (Iteration(c, meta, pos).Go? && CallsRiseFrom(c, Iteration(c, meta, pos).meta, pos + 1))
            ==> CallsRiseFrom(c, meta, pos)
  {
    RunCallsStep(c, meta, pos);
    var s := Iteration(c, meta, pos);
    var here := CallPositions(PassTrace(s));
    if s.Go? {
      var rest := RunFrom(c, s.meta, pos + 1);
      if CallsRiseFrom(c, s.meta, pos + 1) {
        JoinCalls(here, CallPositions(rest.trace), CallPositions(RunFrom(c, meta, pos).trace), pos, pos + 1, rest.position);
      }
    } else {
      AllAt(here, pos);
    }
  }

  /** The calls of one run rise from its starting position and are at most
      its final one. */
  lemma {:induction false} CallsRise<T>(c: Config<T>, meta: Meta, pos: int)
    requires c.chunkSize > 0
    ensures CallsRiseFrom(c, meta, pos)
    decreases TotalChunks(|c.data|, c.chunkSize) - pos
  {
    CallsStep(c, meta, pos);
    var s := Iteration(c, meta, pos);
    if s.Go? {
      CallsRise(c, s.meta, pos + 1);
    }
  }

  /** Within one run the closure is called for chunks in non-decreasing order,
      never for a chunk before the starting position or past the final one. */
  lemma CallsInOrder<T>(c: Config<T>, meta: Meta, pos: int)
    requires c.chunkSize > 0
    ensures var r := RunFrom(c, meta, pos);
            var cp := CallPositions(r.trace);
            && pos <= r.position
            && (forall i :: 0 <= i < |cp| ==> pos <= cp[i] <= r.position)
            && Sorted(cp)
  {
    CallsRise(c, meta, pos);
    var r := RunFrom(c, meta, pos);
    var cp := CallPositions(r.trace);
    RisingSorted(cp, pos);
    AtMostAll(cp, r.position);
  }

  /** Within one run the closure is called at most `maxRetries + 1` times for
      any one chunk, and never for a chunk before the starting position. */
  lemma {:induction false} CallsPerChunk<T>(c: Config<T>, meta: Meta, pos: int)
    requires c.chunkSize > 0
    ensures var r := RunFrom(c, meta, pos);
            && (forall p :: Tally(r.trace, CallOf(p)) <= Max(c.maxRetries + 1, 0))
            && (forall p :: p < pos ==> Tally(r.trace, CallOf(p)) == 0)
    decreases TotalChunks(|c.data|, c.chunkSize) - pos
  {
    Unroll(c, meta, pos);
    PassCalls(c, meta, pos);
    var s := Iteration(c, meta, pos);
    if s.Go? {
      var rest := RunFrom(c, s.meta, pos + 1);
      CallsPerChunk(c, s.meta, pos + 1);
      TallyConcat(s.events, rest.trace);
    }
  }

  /** When every chunk from the starting position on has a successful attempt,
      the run finishes at the chunk count: the finish hook fires once, the
      fail hook never, nothing is thrown, and the done hook fires for exactly
      the chunks from the starting position to the last, in order. */
  lemma CompleteRun<T>(c: Config<T>, meta: Meta, pos: int)
    requires c.chunkSize > 0 && |c.data| > 0
    requires forall p :: pos <= p < TotalChunks(|c.data|, c.chunkSize) ==> Succeeds(c, p)
    ensures var r := RunFrom(c, meta, pos);
            var total := TotalChunks(|c.data|, c.chunkSize);
            && r.meta.status == Finish && r.outcome == Returned
            && r.position == Max(pos, total)
            && Tally(r.trace, AnyFinished) == (if c.hasFinish then 1 else 0)
            && Tally(r.trace, AnyFailed) == 0
            && (meta.chunkPosition == pos ==>
                  DonePositions(r.trace) == if c.hasDone then Range(pos, total) else [])
  {
    RunEnds(c, meta, pos);
    RunHooks(c, meta, pos);
    if meta.chunkPosition == pos {
      DoneInOrder(c, meta, pos);
    }
  }

  /** `start` on a finished job or on no data fires the finish hook (once, if
      registered), never calls the closure and leaves the record as loaded. */
  lemma ShortCircuitRun<T>(c: Config<T>, loaded: Meta, pos: int)
    requires ShortCircuits(c, loaded)
    ensures var r := StartRun(c, loaded, pos);
            && r.trace == Hook(c.hasFinish, Finished)
            && Tally(r.trace, AnyCall) == 0
            && Tally(r.trace, AnyFinished) == (if c.hasFinish then 1 else 0)
            && r.meta == loaded && r.position == pos && r.outcome == Returned
  {
    Single<T>(Finished);
  }

  /** A job that finished stays finished: a later `start`, whatever its
      configuration and position, only fires the finish hook. */
  lemma FinishedStaysFinished<T>(c: Config<T>, loaded: Meta, pos: int, c2: Config<T>, pos2: int)
    requires ShortCircuits(c, loaded) || c.chunkSize > 0
    requires StartRun(c, loaded, pos).meta.status == Finish
    ensures var r := StartRun(c, loaded, pos);
            var again := StartRun(c2, r.meta, pos2);
            && again.meta == r.meta
            && again.trace == Hook(c2.hasFinish, Finished)
            && Tally(again.trace, AnyCall) == 0
  {
    Single<T>(Finished);
  }

  /** After a run that failed, the stored record holds the failed chunk's
      position, so a new runner on the same data (which loads that position)
      resumes at that chunk: it is not short-circuited and its first event is
      the first attempt of the failed chunk. */
  lemma ResumeAfterFailure<T>(c: Config<T>, loaded: Meta, pos: int, c2: Config<T>)
    requires c.chunkSize > 0 && !ShortCircuits(c, loaded) && loaded.chunkPosition == pos
    requires StartRun(c, loaded, pos).meta.status == Fail
    requires c2.data == c.data && c2.chunkSize == c.chunkSize && c2.maxRetries >= 0
    ensures var r := StartRun(c, loaded, pos);
            var again := StartRun(c2, r.meta, r.meta.chunkPosition);
            && r.meta.chunkPosition == r.position
            && !ShortCircuits(c2, r.meta)
            && again.trace != []
            && again.trace[0] == Processed(r.position, 0, Chunk(c.data, c.chunkSize, r.position), r.meta.(status := Running))
  {
    var r := StartRun(c, loaded, pos);
    RunEnds(c, Apply(loaded, SetStatus(Running)), pos);
    var m := Apply(r.meta, SetStatus(Running));
    SliceNonEmpty(c.data, c.chunkSize, r.position);
    Unroll(c2, m, r.position);
    var chunk := Chunk(c.data, c.chunkSize, r.position);
    var tried := Attempts(c2, r.position, chunk, m, 0);
    assert tried.trace[0] == Processed(r.position, 0, chunk, m);
  }

  /** Attempt j is the first of chunk p's attempts in the budget that succeeds. */
  predicate FirstSuccessAt<T>(c: Config<T>, p: int, j: nat)
  {
    j <= c.maxRetries && (p, j) in c.successes && forall i :: 0 <= i < j ==> (p, i) !in c.successes
  }

  /** A chunk the run moved past, whose first successful attempt is j, was
      processed exactly j + 1 times. */
  lemma {:induction false} CallsOfPassedChunk<T>(c: Config<T>, meta: Meta, pos: int, p: int, j: nat)
    requires c.chunkSize > 0 && FirstSuccessAt(c, p, j)
    requires pos <= p < RunFrom(c, meta, pos).position
    ensures Tally(RunFrom(c, meta, pos).trace, CallOf(p)) == j + 1
    decreases TotalChunks(|c.data|, c.chunkSize) - pos
  {
    Unroll(c, meta, pos);
    var s := Iteration(c, meta, pos);
    assert s.Go?;
    GoCalls(c, meta, pos);
    var rest := RunFrom(c, s.meta, pos + 1);
    TallyConcat(s.events, rest.trace);
    if p == pos {
      FirstSuccess(c, pos, Chunk(c.data, c.chunkSize, pos), meta, 0, j);
      CallsPerChunk(c, s.meta, pos + 1);
    } else {
      CallsOfPassedChunk(c, s.meta, pos + 1, p, j);
    }
  }

  /** The chunk a failed run stopped at was processed `maxRetries + 1` times. */
  lemma {:induction false} CallsOfFailedChunk<T>(c: Config<T>, meta: Meta, pos: int)
    requires c.chunkSize > 0 && RunFrom(c, meta, pos).meta.status == Fail
    ensures var r := RunFrom(c, meta, pos);
            Tally(r.trace, CallOf(r.position)) == Max(c.maxRetries + 1, 0)
    decreases TotalChunks(|c.data|, c.chunkSize) - pos
  {
    Unroll(c, meta, pos);
    var s := Iteration(c, meta, pos);
    PassCalls(c, meta, pos);
    if s.Go? {
      var rest := RunFrom(c, s.meta, pos + 1);
      CallsOfFailedChunk(c, s.meta, pos + 1);
      RunEnds(c, s.meta, pos + 1);
      TallyConcat(s.events, rest.trace);
    } else {
      PassFails(c, meta, pos);
    }
  }

  /** 250 records in chunks of 100 with one retry, where chunk 1 fails its
      first attempt and every other attempt succeeds: the closure is called
      once for chunk 0, twice for chunk 1 and once for chunk 2, the done hook
      fires for chunks 0, 1 and 2, the finish hook fires once, the fail hook
      never, and the stored record ends finished at position 3. */
  lemma ExampleRun<T>(c: Config<T>)
    requires |c.data| == 250 && c.chunkSize == 100 && c.maxRetries == 1
    requires c.hasDone && c.hasFinish && c.hasFail && !c.unwrap
    requires c.successes == iset{(0, 0), (1, 1), (2, 0)}
    ensures StartRun(c, Fresh("job"), 0).meta == Meta("job", Finish, 3)
    ensures StartRun(c, Fresh("job"), 0).outcome == Returned
    ensures Tally(StartRun(c, Fresh("job"), 0).trace, CallOf(0)) == 1
    ensures Tally(StartRun(c, Fresh("job"), 0).trace, CallOf(1)) == 2
    ensures Tally(StartRun(c, Fresh("job"), 0).trace, CallOf(2)) == 1
    ensures DonePositions(StartRun(c, Fresh("job"), 0).trace) == [0, 1, 2]
    ensures Tally(StartRun(c, Fresh("job"), 0).trace, AnyFinished) == 1
    ensures Tally(StartRun(c, Fresh("job"), 0).trace, AnyFailed) == 0
  {
    var m := Apply(Fresh("job"), SetStatus(Running));
    CeilingOfQuotient(250, 100);
    forall p | 0 <= p < TotalChunks(|c.data|, c.chunkSize)
      ensures Succeeds(c, p)
    {
      if p == 1 {
        assert (1, 1) in c.successes;
      } else {
        assert (p, 0) in c.successes;
      }
    }
    CompleteRun(c, m, 0);
    RunEnds(c, m, 0);
    assert Range(0, 3) == [0, 1, 2];
    CallsOfPassedChunk(c, m, 0, 0, 0);
    assert (1, 0) !in c.successes;
    CallsOfPassedChunk(c, m, 0, 1, 1);
    CallsOfPassedChunk(c, m, 0, 2, 0);
  }
}
