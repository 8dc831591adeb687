/**
  Conversation recall indexing (agent/recall_index.py): greedy chunking of the
  messages behind a cursor, batched upserts that may fail half way, and one
  coalescing job row per session.
 */
module Recall {
  import opened Common

  const CHUNK_MAX_CHARS := 2000
  const MAX_UPSERT_CHUNKS := 32
  const MAX_ATTEMPTS := 3
  const IDLE_SECONDS := 120

  /** The indexable line of one message ("role: text"), or None when it has no text. */
  type Message = Option<string>
  type Chunk = seq<string>

  // ---------- Chunking ----------

  function Lines(ms: seq<Message>): seq<string> {
    if ms == [] then []
    else Lines(ms[..|ms| - 1]) + if ms[|ms| - 1].Some? then [ms[|ms| - 1].value] else []
  }

  lemma {:induction false} LinesConcat(a: seq<Message>, b: seq<Message>)
    ensures Lines(a + b) == Lines(a) + Lines(b)
  {
    if b == [] {
      assert a + b == a;
    } else {
      var b', m := b[..|b| - 1], b[|b| - 1];
      assert (a + b)[..|a + b| - 1] == a + b';
      LinesConcat(a, b');
      Assoc(Lines(a), Lines(b'), if m.Some? then [m.value] else []);
    }
  }

  function Size(c: Chunk): nat {
    if c == [] then 0 else Size(c[..|c| - 1]) + |c[|c| - 1]|
  }

  /** The chunks of a list of lines: the last one takes the next line unless it would grow too large. */
  function Chunks(lines: seq<string>): (cs: seq<Chunk>)
    ensures forall i :: 0 <= i < |cs| ==> cs[i] != []
    ensures lines != [] ==> cs != []
  {
    if lines == [] then []
    else
      var cs, line := Chunks(lines[..|lines| - 1]), lines[|lines| - 1];
      if cs == [] || Size(cs[|cs| - 1]) + |line| > CHUNK_MAX_CHARS then cs + [[line]]
      else cs[..|cs| - 1] + [cs[|cs| - 1] + [line]]
  }

  function Flatten(cs: seq<Chunk>): seq<string> {
    if cs == [] then [] else Flatten(cs[..|cs| - 1]) + cs[|cs| - 1]
  }

  lemma FlattenSnoc(cs: seq<Chunk>, c: Chunk)
    ensures Flatten(cs + [c]) == Flatten(cs) + c
  {
    assert (cs + [c])[..|cs + [c]| - 1] == cs;
  }

  lemma {:induction false} FlattenConcat(a: seq<Chunk>, b: seq<Chunk>)
    ensures Flatten(a + b) == Flatten(a) + Flatten(b)
  {
    if b == [] {
      assert a + b == a;
    } else {
      var b', c := b[..|b| - 1], b[|b| - 1];
      assert (a + b)[..|a + b| - 1] == a + b';
      FlattenConcat(a, b');
      Assoc(Flatten(a), Flatten(b'), c);
    }
  }

  /** Chunking loses, repeats and reorders nothing. */
  lemma {:induction false} ChunksCoverLines(lines: seq<string>)
    ensures Flatten(Chunks(lines)) == lines
  {
    if lines != [] {
      var front, line := lines[..|lines| - 1], lines[|lines| - 1];
      var cs := Chunks(front);
      ChunksCoverLines(front);
      if cs == [] || Size(cs[|cs| - 1]) + |line| > CHUNK_MAX_CHARS {
        FlattenSnoc(cs, [line]);
      } else {
        var init, last := cs[..|cs| - 1], cs[|cs| - 1];
        FlattenSnoc(init, last + [line]);
        Assoc(Flatten(init), last, [line]);
      }
      assert front + [line] == lines;
    }
  }

  lemma SizeSnoc(c: Chunk, line: string)
    ensures Size(c + [line]) == Size(c) + |line|
  {
    assert (c + [line])[..|c + [line]| - 1] == c;
  }

  /** A chunk respects the limit unless it is one over-long line. */
  lemma {:induction false} ChunksAreBounded(lines: seq<string>, i: nat)
    requires i < |Chunks(lines)|
    ensures |Chunks(lines)[i]| == 1 || Size(Chunks(lines)[i]) <= CHUNK_MAX_CHARS
  {
    var front, line := lines[..|lines| - 1], lines[|lines| - 1];
    var cs := Chunks(front);
    if i < |cs| {
      ChunksAreBounded(front, i);
      if i == |cs| - 1 { SizeSnoc(cs[i], line); }
    }
  }

  /** Chunking is greedy: a chunk ends only where the next line would have made it too large. */
  lemma {:induction false} ChunksAreFull(lines: seq<string>, i: nat)
    requires i + 1 < |Chunks(lines)|
    ensures Chunks(lines)[i + 1] != [] && Size(Chunks(lines)[i]) + |Chunks(lines)[i + 1][0]| > CHUNK_MAX_CHARS
  {
    var front := lines[..|lines| - 1];
    if i + 1 < |Chunks(front)| { ChunksAreFull(front, i); }
  }

  /** All chunks but the last are final: they are chunks of every extension. */
  predicate Settled(a: seq<Chunk>, b: seq<Chunk>) {
    |a| <= |b| && forall i :: 0 <= i < |a| - 1 ==> a[i] == b[i]
  }

  /** Greedy chunking is prefix-stable and never produces fewer chunks for a longer list. */
  lemma {:induction false} ChunksArePrefixStable(a: seq<string>, b: seq<string>)
    ensures Settled(Chunks(a), Chunks(a + b))
  {
    if b == [] {
      assert a + b == a;
    } else {
      var b' := b[..|b| - 1];
      ChunksArePrefixStable(a, b');
      assert (a + b)[..|a + b| - 1] == a + b';
    }
  }

  /** A chunk with the number it is stored under. */
  datatype Numbered = Numbered(no: nat, chunk: Chunk)

  function Number(cs: seq<Chunk>, start: nat): (r: seq<Numbered>)
    ensures |r| == |cs|
  {
    if cs == [] then []
    else Number(cs[..|cs| - 1], start) + [Numbered(start + |cs| - 1, cs[|cs| - 1])]
  }

  lemma NumberSnoc(cs: seq<Chunk>, c: Chunk, start: nat)
    ensures Number(cs + [c], start) == Number(cs, start) + [Numbered(start + |cs|, c)]
  {
    assert (cs + [c])[..|cs + [c]| - 1] == cs;
  }

  /** Chunk k is stored under start + k. */
  lemma {:induction false} NumberAt(cs: seq<Chunk>, start: nat, k: nat)
    requires k < |cs|
    ensures Number(cs, start)[k] == Numbered(start + k, cs[k])
  {
    if k < |cs| - 1 { NumberAt(cs[..|cs| - 1], start, k); }
  }

  /** The chunks of `lines` are the finished ones and the one being filled. */
  predicate Filling(lines: seq<string>, chunks: seq<Chunk>, buf: Chunk) {
    Chunks(lines) == (if buf == [] then chunks else chunks + [buf]) && (buf == [] ==> chunks == [])
  }

  lemma FillWith(lines: seq<string>, chunks: seq<Chunk>, buf: Chunk, line: string)
    requires Filling(lines, chunks, buf)
    ensures if buf != [] && Size(buf) + |line| > CHUNK_MAX_CHARS
            then Filling(lines + [line], chunks + [buf], [line]) else Filling(lines + [line], chunks, buf + [line])
  {
    ChunkSnoc(lines, line);
    if buf != [] { assert (chunks + [buf])[..|chunks|] == chunks; }
  }

  /** The lines of the first n messages. */
  function FirstLines(ms: seq<Message>, n: nat): seq<string>
    requires n <= |ms|
  {
    if n == 0 then []
    else if ms[n - 1].Some? then FirstLines(ms, n - 1) + [ms[n - 1].value] else FirstLines(ms, n - 1)
  }

  lemma {:induction false} FirstLinesAre(ms: seq<Message>, n: nat)
    requires n <= |ms|
    ensures FirstLines(ms, n) == Lines(ms[..n])
  {
    if n > 0 {
      FirstLinesAre(ms, n - 1);
      assert ms[..n][..n - 1] == ms[..n - 1];
    }
  }

  /** Where the loop stands after the given lines. */
  ghost predicate Filled(lines: seq<string>, chunks: seq<Chunk>, buf: Chunk, size: nat, out: seq<Numbered>, n: nat,
                         start: nat)
  {
    Filling(lines, chunks, buf) && size == Size(buf) && out == Number(chunks, start) && n == start + |chunks|
  }

  predicate Overflows(buf: Chunk, size: nat, line: string) { buf != [] && size + |line| > CHUNK_MAX_CHARS }

  /** One more line when it would make the buffer too large: the buffer is closed first. */
  lemma CloseBuffer(lines: seq<string>, chunks: seq<Chunk>, buf: Chunk, size: nat, out: seq<Numbered>, n: nat,
                    start: nat, line: string)
    requires Filled(lines, chunks, buf, size, out, n, start) && Overflows(buf, size, line)
    ensures Filled(lines + [line], chunks + [buf], [line], |line|, out + [Numbered(n, buf)], n + 1, start)
  {
    FillWith(lines, chunks, buf, line);
    NumberSnoc(chunks, buf, start);
    SizeSnoc([], line);
    assert [] + [line] == [line];
  }

  /** One more line otherwise. */
  lemma ExtendBuffer(lines: seq<string>, chunks: seq<Chunk>, buf: Chunk, size: nat, out: seq<Numbered>, n: nat,
                     start: nat, line: string)
    requires Filled(lines, chunks, buf, size, out, n, start) && !Overflows(buf, size, line)
    ensures Filled(lines + [line], chunks, buf + [line], size + |line|, out, n, start)
  {
    FillWith(lines, chunks, buf, line);
    SizeSnoc(buf, line);
  }

  lemma AllLines(ms: seq<Message>)
    ensures FirstLines(ms, |ms|) == Lines(ms)
  {
    FirstLinesAre(ms, |ms|);
    assert ms[..|ms|] == ms;
  }

  lemma FillEnds(lines: seq<string>, chunks: seq<Chunk>, buf: Chunk, size: nat, out: seq<Numbered>, n: nat, start: nat)
    requires Filled(lines, chunks, buf, size, out, n, start)
    ensures Number(Chunks(lines), start) == out + if buf == [] then [] else [Numbered(n, buf)]
  {
    if buf != [] { NumberSnoc(chunks, buf, start); }
  }

  /** The loop of the source: the chunks of the messages, numbered from `start` on. */
  method ChunkMessages(ms: seq<Message>, start: nat) returns (out: seq<Numbered>)
    ensures out == Number(Chunks(Lines(ms)), start)
  {
    out := [];
    var buf: Chunk, size: nat, n: nat := [], 0, start;
    ghost var lines, chunks := [], [];
    for i := 0 to |ms|
      invariant lines == FirstLines(ms, i)
      invariant Filled(lines, chunks, buf, size, out, n, start)
    {
      if ms[i].Some? {
        out, buf, size, n, chunks := AddLine(ms[i].value, out, buf, size, n, lines, chunks, start);
        lines := lines + [ms[i].value];
      }
    }
    AllLines(ms);
    FillEnds(lines, chunks, buf, size, out, n, start);
    if buf != [] { out := out + [Numbered(n, buf)]; }
  }

  /** One line: the buffer is closed if it would grow too large, and takes the line. */
  method AddLine(line: string, out0: seq<Numbered>, buf0: Chunk, size0: nat, n0: nat, ghost lines: seq<string>,
                 ghost chunks0: seq<Chunk>, ghost start: nat)
    returns (out: seq<Numbered>, buf: Chunk, size: nat, n: nat, ghost chunks: seq<Chunk>)
    requires Filled(lines, chunks0, buf0, size0, out0, n0, start)
    ensures Filled(lines + [line], chunks, buf, size, out, n, start)
  {
    if buf0 != [] && size0 + |line| > CHUNK_MAX_CHARS {
      CloseBuffer(lines, chunks0, buf0, size0, out0, n0, start, line);
      return out0 + [Numbered(n0, buf0)], [line], |line|, n0 + 1, chunks0 + [buf0];
    }
    ExtendBuffer(lines, chunks0, buf0, size0, out0, n0, start, line);
    return out0, buf0 + [line], size0 + |line|, n0, chunks0;
  }

  lemma ChunkSnoc(lines: seq<string>, line: string)
    ensures var cs := Chunks(lines);
            Chunks(lines + [line]) ==
            if cs == [] || Size(cs[|cs| - 1]) + |line| > CHUNK_MAX_CHARS then cs + [[line]]
            else cs[..|cs| - 1] + [cs[|cs| - 1] + [line]]
  {
    assert (lines + [line])[..|lines + [line]| - 1] == lines;
  }

  // ---------- The store ----------

  type Store = map<nat, Chunk>

  /** The chunks j in [lo, hi) that went through (all of them, or those in `applied`) stored under base + j. */
  function Upsert(store: Store, base: nat, chunks: seq<Chunk>, lo: nat, hi: nat, all: bool,
      applied: set<nat>): (r: Store)
    requires lo <= hi <= |chunks|
    ensures forall k :: k in r <==> k in store || (base + lo <= k < base + hi && (all || k - base in applied))
    ensures forall k :: k in r ==>
              r[k] == if base + lo <= k < base + hi && (all || k - base in applied) then chunks[k - base] else store[k]
    decreases hi
  {
    if lo == hi then store
    else
      var r := Upsert(store, base, chunks, lo, hi - 1, all, applied);
      if all || hi - 1 in applied then r[base + hi - 1 := chunks[hi - 1]] else r
  }

  predicate Holds(store: Store, base: nat, chunks: seq<Chunk>, n: nat)
    requires n <= |chunks|
  {
    forall k :: base <= k < base + n ==> k in store && store[k] == chunks[k - base]
  }

  /** The chunks stored under 0 .. n-1, in order. */
  function Stored(store: Store, n: nat): seq<Chunk>
    requires forall k :: 0 <= k < n ==> k in store
  {
    seq(n, k requires 0 <= k < n => store[k])
  }

  // ---------- The state machine ----------

  datatype Status = Pending | Running
  datatype Job = Job(status: Status, attempts: nat, enqueuedAt: int)

  /** An attempt in flight: the history length it saw, its chunks, how many are upserted, its attempt number, and
      whether no enqueue came after its claim. */
  datatype Attempt = Attempt(snapshot: nat, chunks: seq<Chunk>, sent: nat, number: nat, current: bool)

  /** One session and its job row.  The last three fields are bookkeeping for the claims: the longest history an
      attempt from this cursor saw, the history length at the latest enqueue, and the attempts that ended without
      success since then. */
  datatype State = State(history: seq<Message>, cursor: nat, chunkSeq: nat, store: Store,
                         job: Option<Job>, attempt: Option<Attempt>, seen: nat, enqueuedLen: nat, failures: nat)

  const FRESH := State([], 0, 0, map[], None, None, 0, 0, 0)

  datatype Step =
    | AppendStep(ms: seq<Message>)
    | EnqueueStep(now: int, immediate: bool)
    | ClaimStep(now: int)
    | BatchStep
    | FinishStep
    | FailStep(applied: set<nat>)
    | RestartStep(applied: set<nat>)
    | InsertStep(at: nat)

  function Enqueue(s: State, now: int, immediate: bool): State {
    var at := if immediate then now - IDLE_SECONDS else now;
    s.(job := Some(Job(Pending, 0, if s.job.Some? then Min(s.job.value.enqueuedAt, at) else at)),
       attempt := if s.attempt.Some? then Some(s.attempt.value.(current := false)) else None,
       enqueuedLen := |s.history|, failures := 0)
  }

  predicate Claimable(s: State, now: int) {
    s.attempt.None? && s.job.Some? && s.job.value.status == Pending && s.job.value.enqueuedAt <= now - IDLE_SECONDS
  }

  function Claim(s: State, now: int): State
    requires Claimable(s, now) && s.cursor <= |s.history|
  {
    var chunks := Chunks(Lines(s.history[s.cursor..]));
    if chunks == [] then s.(cursor := |s.history|, job := None, seen := |s.history|)
    else
      var number := s.job.value.attempts + 1;
      s.(job := Some(s.job.value.(status := Running, attempts := number)),
         attempt := Some(Attempt(|s.history|, chunks, 0, number, true)), seen := |s.history|)
  }

  /** Where the batch that starts at `lo` ends, of n chunks. */
  function BatchEnd(lo: nat, n: nat): nat {
    if lo + MAX_UPSERT_CHUNKS <= n then lo + MAX_UPSERT_CHUNKS else n
  }

  function Batch(s: State, all: bool, applied: set<nat>): State
    requires s.attempt.Some? && s.attempt.value.sent <= |s.attempt.value.chunks|
  {
    var a := s.attempt.value;
    s.(store := Upsert(s.store, s.chunkSeq, a.chunks, a.sent, BatchEnd(a.sent, |a.chunks|), all, applied),
       attempt := Some(a.(sent := if all then BatchEnd(a.sent, |a.chunks|) else a.sent)))
  }

  predicate JobRunning(s: State) { s.job.Some? && s.job.value.status == Running }

  function Finish(s: State): State
    requires s.attempt.Some?
  {
    var a := s.attempt.value;
    s.(cursor := a.snapshot, chunkSeq := s.chunkSeq + |a.chunks|, attempt := None,
       job := if JobRunning(s) then None else s.job, seen := a.snapshot)
  }

  function FailJob(s: State): State
    requires s.attempt.Some?
  {
    var a := s.attempt.value;
    s.(attempt := None, failures := s.failures + if a.current then 1 else 0,
       job := if !JobRunning(s) then s.job
              else if a.number >= MAX_ATTEMPTS then None
              else Some(s.job.value.(status := Pending)))
  }

  function Restart(s: State): State {
    s.(attempt := None, failures := s.failures + if s.attempt.Some? && s.attempt.value.current then 1 else 0,
       job := if JobRunning(s) then Some(s.job.value.(status := Pending)) else s.job)
  }

  /** A saved history in which a message without a line was inserted, as synthetic reasoning is. */
  function InsertBlank(h: seq<Message>, at: nat): seq<Message>
    requires at <= |h|
  {
    h[..at] + [None] + h[at..]
  }

  /** The end of what attempts have seen moves along; an attempt in flight itself remembers only a length. */
  function Insert(s: State, at: nat): State
    requires at <= |s.history|
  {
    s.(history := InsertBlank(s.history, at), seen := if at < s.seen then s.seen + 1 else s.seen)
  }

  /** The lengths a state remembers lie inside the history. */
  predicate Sane(s: State) {
    && s.cursor <= |s.history|
    && (s.attempt.Some? ==> s.attempt.value.snapshot <= |s.history| && s.attempt.value.sent <= |s.attempt.value.chunks|)
  }

  /** One atomic step; a step that is not enabled does nothing. */
  function Next(s: State, step: Step): (r: State)
    requires Sane(s)
    ensures Sane(r)
  {
    match step
    case AppendStep(ms) => s.(history := s.history + ms)
    case EnqueueStep(now, immediate) => Enqueue(s, now, immediate)
    case ClaimStep(now) => if Claimable(s, now) then Claim(s, now) else s
    case BatchStep => if s.attempt.Some? then Batch(s, true, {}) else s
    case FinishStep => if s.attempt.Some? && s.attempt.value.sent == |s.attempt.value.chunks| then Finish(s) else s
    case FailStep(applied) => if s.attempt.Some? then FailJob(Batch(s, false, applied)) else s
    case RestartStep(applied) => if s.attempt.Some? then Restart(Batch(s, false, applied)) else Restart(s)
    case InsertStep(at) => if at <= |s.history| then Insert(s, at) else s
  }

  // ---------- Invariants ----------

  /** The chunks an attempt over history[cursor .. n) makes. */
  function ChunksOf(s: State, n: nat): seq<Chunk>
    requires s.cursor <= n <= |s.history|
  {
    Chunks(Lines(s.history[s.cursor..n]))
  }

  predicate IndexOk(s: State) {
    && s.cursor <= s.seen <= |s.history|
    && (forall k :: 0 <= k < s.chunkSeq ==> k in s.store)
    && Flatten(Stored(s.store, s.chunkSeq)) == Lines(s.history[..s.cursor])
    && forall k :: k in s.store ==> k < s.chunkSeq + |ChunksOf(s, s.seen)|
  }

  predicate AttemptOk(s: State) {
    s.attempt.Some? ==>
      var a := s.attempt.value;
      && s.cursor <= a.snapshot <= s.seen <= |s.history|
      && a.chunks == ChunksOf(s, s.seen) && a.sent <= |a.chunks|
      && Holds(s.store, s.chunkSeq, a.chunks, a.sent)
  }

  /** The length that the attempt in flight remembers still ends where its chunks end. */
  predicate Clean(s: State) {
    s.attempt.Some? ==>
      s.attempt.value.snapshot <= s.seen <= |s.history|
      && Lines(s.history[..s.attempt.value.snapshot]) == Lines(s.history[..s.seen])
  }

  /** How the job row, the attempt in flight and the failure count belong together. */
  predicate JobOk(s: State) {
    && s.enqueuedLen <= |s.history|
    && (JobRunning(s) <==> s.attempt.Some? && s.attempt.value.current)
    && (JobRunning(s) ==> s.job.value.attempts == s.attempt.value.number == s.failures + 1)
    && (s.job.Some? && !JobRunning(s) ==> s.job.value.attempts == s.failures)
    && (s.attempt.Some? && !s.attempt.value.current ==> s.job.Some?)
    && (s.attempt.Some? && s.attempt.value.current ==> s.enqueuedLen <= s.attempt.value.snapshot)
    && (s.job.None? ==> s.cursor >= s.enqueuedLen || s.failures >= MAX_ATTEMPTS)
  }

  predicate Inv(s: State) { IndexOk(s) && AttemptOk(s) && JobOk(s) }

  /** The index holds exactly the lines of the indexed prefix. */
  predicate Exact(s: State) {
    && s.cursor <= |s.history| && (forall k :: 0 <= k < s.chunkSeq ==> k in s.store)
    && Flatten(Stored(s.store, s.chunkSeq)) == Lines(s.history[..s.cursor])
  }

  lemma SliceAppend(h: seq<Message>, ms: seq<Message>, lo: nat, hi: nat)
    requires lo <= hi <= |h|
    ensures (h + ms)[lo..hi] == h[lo..hi] && (h + ms)[..lo] == h[..lo]
  {
  }

  lemma MoreHistoryMoreChunks(s: State, m: nat, n: nat)
    requires s.cursor <= m <= n <= |s.history|
    ensures |ChunksOf(s, m)| <= |ChunksOf(s, n)|
  {
    assert s.history[s.cursor..n] == s.history[s.cursor..m] + s.history[m..n];
    LinesConcat(s.history[s.cursor..m], s.history[m..n]);
    ChunksArePrefixStable(Lines(s.history[s.cursor..m]), Lines(s.history[m..n]));
  }

  lemma AppendKeeps(s: State, ms: seq<Message>)
    requires Inv(s)
    ensures Inv(Next(s, AppendStep(ms)))
  {
    SliceAppend(s.history, ms, s.cursor, s.seen);
  }

  /** Nothing new to index: the cursor moves to the end and no chunk is owed. */
  lemma ClaimNothing(s: State, now: int)
    requires Inv(s) && Claimable(s, now) && Chunks(Lines(s.history[s.cursor..])) == []
    ensures Inv(Claim(s, now))
  {
    var s' := Claim(s, now);
    MoreHistoryMoreChunks(s, s.seen, |s.history|);
    assert s.history[s.cursor..|s.history|] == s.history[s.cursor..];
    ChunksCoverLines(Lines(s.history[s.cursor..]));
    assert s.history == s.history[..s.cursor] + s.history[s.cursor..];
    LinesConcat(s.history[..s.cursor], s.history[s.cursor..]);
    assert s'.history[..s'.cursor] == s.history && s'.history[s'.cursor..s'.seen] == [];
  }

  lemma ClaimKeeps(s: State, now: int)
    requires Inv(s) && Claimable(s, now)
    ensures Inv(Claim(s, now))
  {
    if Chunks(Lines(s.history[s.cursor..])) == [] {
      ClaimNothing(s, now);
    } else {
      MoreHistoryMoreChunks(s, s.seen, |s.history|);
      assert s.history[s.cursor..|s.history|] == s.history[s.cursor..];
    }
  }

  lemma SameStored(a: Store, b: Store, n: nat)
    requires forall k :: 0 <= k < n ==> k in a && k in b && a[k] == b[k]
    ensures Stored(a, n) == Stored(b, n)
  {
  }

  lemma BatchStore(s: State, all: bool, applied: set<nat>)
    requires Inv(s) && s.attempt.Some?
    ensures IndexOk(Batch(s, all, applied))
  {
    var s' := Batch(s, all, applied);
    SameStored(s'.store, s.store, s.chunkSeq);
    assert ChunksOf(s', s'.seen) == ChunksOf(s, s.seen) == s.attempt.value.chunks;
  }

  lemma {:induction false} HoldsMore(store: Store, base: nat, chunks: seq<Chunk>, lo: nat, hi: nat, all: bool,
                                    applied: set<nat>)
    requires lo <= hi <= |chunks| && Holds(store, base, chunks, lo)
    ensures Holds(Upsert(store, base, chunks, lo, hi, all, applied), base, chunks, if all then hi else lo)
  {
  }

  lemma BatchAttempt(s: State, all: bool, applied: set<nat>)
    requires Inv(s) && s.attempt.Some?
    ensures AttemptOk(Batch(s, all, applied))
  {
    var a := s.attempt.value;
    HoldsMore(s.store, s.chunkSeq, a.chunks, a.sent, BatchEnd(a.sent, |a.chunks|), all, applied);
  }

  lemma BatchKeepsIndex(s: State, all: bool, applied: set<nat>)
    requires Inv(s) && s.attempt.Some?
    ensures Inv(Batch(s, all, applied))
  {
    BatchStore(s, all, applied);
    BatchAttempt(s, all, applied);
    assert JobOk(Batch(s, all, applied));
  }

  lemma StoredConcat(store: Store, n: nat, chunks: seq<Chunk>)
    requires (forall k :: 0 <= k < n ==> k in store) && Holds(store, n, chunks, |chunks|)
    ensures forall k :: 0 <= k < n + |chunks| ==> k in store
    ensures Stored(store, n + |chunks|) == Stored(store, n) + chunks
  {
  }

  lemma LinesUpTo(h: seq<Message>, a: nat, b: nat)
    requires a <= b <= |h|
    ensures Lines(h[..b]) == Lines(h[..a]) + Lines(h[a..b])
  {
    assert h[..b] == h[..a] + h[a..b];
    LinesConcat(h[..a], h[a..b]);
  }

  lemma FinishKeys(s: State)
    requires Inv(s) && s.attempt.Some? && s.attempt.value.sent == |s.attempt.value.chunks|
    ensures forall k: nat :: k in s.store <==> k < s.chunkSeq + |s.attempt.value.chunks|
  {
  }

  lemma FinishStored(s: State)
    requires Inv(s) && s.attempt.Some? && s.attempt.value.sent == |s.attempt.value.chunks|
    ensures var n := s.chunkSeq + |s.attempt.value.chunks|;
            && (forall k: nat :: k in s.store <==> k < n)
            && Flatten(Stored(s.store, n)) == Lines(s.history[..s.seen])
  {
    var a, base := s.attempt.value, s.chunkSeq;
    FinishKeys(s);
    StoredConcat(s.store, base, a.chunks);
    calc {
      Flatten(Stored(s.store, base + |a.chunks|));
      Flatten(Stored(s.store, base) + a.chunks);
      { FlattenConcat(Stored(s.store, base), a.chunks); }
      Flatten(Stored(s.store, base)) + Flatten(a.chunks);
      { ChunksCoverLines(Lines(s.history[s.cursor..s.seen])); }
      Lines(s.history[..s.cursor]) + Lines(s.history[s.cursor..s.seen]);
      { LinesUpTo(s.history, s.cursor, s.seen); }
      Lines(s.history[..s.seen]);
    }
  }

  /** The index is right after a success if and only if the remembered length still fits the chunks. */
  lemma FinishKeeps(s: State)
    requires Inv(s) && s.attempt.Some? && s.attempt.value.sent == |s.attempt.value.chunks|
    ensures Clean(s) ==> Inv(Finish(s))
    ensures Exact(Finish(s)) <==> Clean(s)
    ensures NothingElse(Finish(s))
  {
    FinishStored(s);
    var s' := Finish(s);
    assert s'.history[s'.cursor..s'.seen] == [];
    assert ChunksOf(s', s'.seen) == [];
  }

  // ---------- Insertions into the history ----------

  /** Which messages an insertion pushes over the mark n: none, or the last one before it. */
  predicate PushesNoLine(h: seq<Message>, at: nat, n: nat)
    requires n <= |h|
  {
    at >= n || h[n - 1].None?
  }

  lemma BlankHasNoLine(a: seq<Message>, b: seq<Message>)
    ensures Lines(a + [None] + b) == Lines(a + b)
  {
    var blank: seq<Message> := [None];
    LinesConcat(a + blank, b);
    LinesConcat(a, blank);
    LinesConcat(a, b);
    assert blank[..0] == [] && Lines(blank) == [];
  }

  /** The lines before a mark n, and before the mark that moves along, after an insertion. */
  lemma InsertLines(h: seq<Message>, at: nat, n: nat)
    requires at <= |h| && n <= |h|
    ensures var h' := InsertBlank(h, at);
            && Lines(h'[..n]) == Lines(h[..if at < n then n - 1 else n])
            && Lines(h'[..if at < n then n + 1 else n]) == Lines(h[..n])
  {
    var h' := InsertBlank(h, at);
    if at < n {
      assert h'[..n] == h[..at] + [None] + h[at..n - 1] && h[..n - 1] == h[..at] + h[at..n - 1];
      assert h'[..n + 1] == h[..at] + [None] + h[at..n] && h[..n] == h[..at] + h[at..n];
      BlankHasNoLine(h[..at], h[at..n - 1]);
      BlankHasNoLine(h[..at], h[at..n]);
    } else {
      assert h'[..n] == h[..n];
    }
  }

  /** The lines before a mark stay the same if and only if the insertion pushes no line over it. */
  lemma SameLinesIff(h: seq<Message>, at: nat, n: nat)
    requires at <= |h| && n <= |h|
    ensures Lines(InsertBlank(h, at)[..n]) == Lines(h[..n]) <==> PushesNoLine(h, at, n)
  {
    InsertLines(h, at, n);
    if at < n { assert h[..n][..n - 1] == h[..n - 1]; }
  }

  lemma LinesBetween(h: seq<Message>, h': seq<Message>, a: nat, b: nat, b': nat)
    requires a <= b <= |h| && a <= b' <= |h'| && Lines(h[..a]) == Lines(h'[..a]) && Lines(h[..b]) == Lines(h'[..b'])
    ensures Lines(h[a..b]) == Lines(h'[a..b'])
  {
    LinesUpTo(h, a, b);
    LinesUpTo(h', a, b');
    var x := |Lines(h[..a])|;
    assert Lines(h[a..b]) == Lines(h[..b])[x..] && Lines(h'[a..b']) == Lines(h'[..b'])[x..];
  }

  /** The lines before a mark never become more by an insertion, and fewer if it pushes a line over it. */
  lemma FewerLines(h: seq<Message>, at: nat, n: nat)
    requires at <= |h| && n <= |h|
    ensures |Lines(InsertBlank(h, at)[..n])| <= |Lines(h[..n])|
    ensures !PushesNoLine(h, at, n) ==> |Lines(InsertBlank(h, at)[..n])| < |Lines(h[..n])|
  {
    InsertLines(h, at, n);
    if at < n { assert h[..n][..n - 1] == h[..n - 1]; }
  }

  /** The lines before the cursor and between it and what was seen are the same after an insertion that pushes no line
      over the cursor. */
  lemma InsertSame(s: State, at: nat)
    requires s.cursor <= s.seen <= |s.history| && at <= |s.history| && PushesNoLine(s.history, at, s.cursor)
    ensures var s' := Insert(s, at);
            && Lines(s'.history[..s.cursor]) == Lines(s.history[..s.cursor])
            && s.cursor <= s'.seen <= |s'.history|
            && Lines(s'.history[s.cursor..s'.seen]) == Lines(s.history[s.cursor..s.seen])
  {
    var s' := Insert(s, at);
    SameLinesIff(s.history, at, s.cursor);
    InsertLines(s.history, at, s.seen);
    LinesBetween(s.history, s'.history, s.cursor, s.seen, s'.seen);
  }

  lemma InsertKeeps(s: State, at: nat)
    requires Inv(s) && at <= |s.history| && PushesNoLine(s.history, at, s.cursor)
    ensures Inv(Insert(s, at))
  {
    InsertSame(s, at);
  }

  /** An attempt in flight stays clean if and only if the insertion pushes no line over the length it remembers. */
  lemma InsertCleanIff(s: State, at: nat)
    requires AttemptOk(s) && s.attempt.Some? && at <= |s.history|
    ensures Clean(Insert(s, at)) <==> Clean(s) && PushesNoLine(s.history, at, s.attempt.value.snapshot)
  {
    var n := s.attempt.value.snapshot;
    InsertLines(s.history, at, s.seen);
    FewerLines(s.history, at, n);
    SameLinesIff(s.history, at, n);
    LinesUpTo(s.history, n, s.seen);
  }

  /** Exactly when an insertion leaves the index right: it is at or behind the cursor, or the message that it pushes
      over the cursor has no line. */
  lemma InsertExactIff(s: State, at: nat)
    requires Exact(s) && at <= |s.history|
    ensures Exact(Insert(s, at)) <==> PushesNoLine(s.history, at, s.cursor)
  {
    SameLinesIff(s.history, at, s.cursor);
  }

  lemma EnqueueKeeps(s: State, now: int, immediate: bool)
    requires Inv(s)
    ensures Inv(Enqueue(s, now, immediate))
  {
  }

  lemma FailKeeps(s: State)
    requires Inv(s) && s.attempt.Some?
    ensures Inv(FailJob(s))
  {
  }

  lemma RestartKeeps(s: State)
    requires Inv(s)
    ensures Inv(Restart(s))
  {
  }

  /** The step is the success of the attempt in flight. */
  predicate Finishes(s: State, step: Step) {
    step.FinishStep? && s.attempt.Some? && s.attempt.value.sent == |s.attempt.value.chunks|
  }

  /** The step inserts a message and thereby pushes a line over the cursor. */
  predicate Displaces(s: State, step: Step)
    requires Sane(s)
  {
    step.InsertStep? && step.at <= |s.history| && !PushesNoLine(s.history, step.at, s.cursor)
  }

  /** Every step keeps index, attempt and row consistent, except an insertion that pushes a line over the cursor and
      the success of an attempt whose remembered length was pushed away from its chunks. */
  lemma NextKeepsInv(s: State, step: Step)
    requires Inv(s) && !Displaces(s, step) && (Finishes(s, step) ==> Clean(s))
    ensures Inv(Next(s, step))
  {
    match step
    case AppendStep(ms) => AppendKeeps(s, ms);
    case EnqueueStep(now, immediate) => EnqueueKeeps(s, now, immediate);
    case ClaimStep(now) => if Claimable(s, now) { ClaimKeeps(s, now); }
    case BatchStep => if s.attempt.Some? { BatchKeepsIndex(s, true, {}); }
    case FinishStep => if s.attempt.Some? && s.attempt.value.sent == |s.attempt.value.chunks| { FinishKeeps(s); }
    case FailStep(applied) =>
      if s.attempt.Some? {
        BatchKeepsIndex(s, false, applied);
        FailKeeps(Batch(s, false, applied));
      }
    case RestartStep(applied) =>
      if s.attempt.Some? {
        BatchKeepsIndex(s, false, applied);
        RestartKeeps(Batch(s, false, applied));
      } else {
        RestartKeeps(s);
      }
    case InsertStep(at) => if at <= |s.history| { InsertKeeps(s, at); }
  }

  // ---------- Whole runs ----------

  function Run(s: State, steps: seq<Step>): (r: State)
    requires Sane(s)
    ensures Sane(r)
  {
    if steps == [] then s else Next(Run(s, steps[..|steps| - 1]), steps[|steps| - 1])
  }

  /** During the attempt in flight at the end of the run, an insertion pushed a line over its remembered length. */
  predicate Tainted(s: State, steps: seq<Step>)
    requires Sane(s)
  {
    steps != [] && Run(s, steps).attempt.Some? &&
    var before, last := Run(s, steps[..|steps| - 1]), steps[|steps| - 1];
    (|| Tainted(s, steps[..|steps| - 1])
     || (last.InsertStep? && last.at <= |before.history| && before.attempt.Some?
         && !PushesNoLine(before.history, last.at, before.attempt.value.snapshot)))
  }

  /** No insertion of the run pushes a line over the cursor, and no attempt during which an insertion pushed one over
      the length it remembers ends in success. */
  predicate Legal(s: State, steps: seq<Step>)
    requires Sane(s)
  {
    steps == [] ||
    var front, last := steps[..|steps| - 1], steps[|steps| - 1];
    && Legal(s, front) && !Displaces(Run(s, front), last)
    && (Finishes(Run(s, front), last) ==> !Tainted(s, front))
  }

  lemma StepCleanIff(s: State, step: Step)
    requires Inv(s) && !Displaces(s, step) && (Finishes(s, step) ==> Clean(s))
    ensures Next(s, step).attempt.Some? ==>
              (Clean(Next(s, step)) <==>
                 Clean(s) && (step.InsertStep? && step.at <= |s.history| && s.attempt.Some? ==>
                                PushesNoLine(s.history, step.at, s.attempt.value.snapshot)))
  {
    if s.attempt.Some? {
      match step
      case AppendStep(ms) => SliceAppend(s.history, ms, s.attempt.value.snapshot, s.seen);
                             SliceAppend(s.history, ms, s.seen, s.seen);
      case InsertStep(at) => if at <= |s.history| { InsertCleanIff(s, at); }
      case _ =>
    }
  }

  /** A legal run keeps everything consistent, and the attempt in flight at its end is clean unless it was tainted. */
  lemma {:induction false} RunKeepsInv(s: State, steps: seq<Step>)
    requires Inv(s) && Clean(s) && Legal(s, steps)
    ensures Inv(Run(s, steps)) && (Clean(Run(s, steps)) <==> !Tainted(s, steps))
  {
    if steps != [] {
      var front, last := steps[..|steps| - 1], steps[|steps| - 1];
      RunKeepsInv(s, front);
      NextKeepsInv(Run(s, front), last);
      StepCleanIff(Run(s, front), last);
    }
  }

  lemma FreshOk()
    ensures Inv(FRESH) && Clean(FRESH)
  {
    assert FRESH.history[..0] == [] && FRESH.history[0..0] == [];
    assert Stored(FRESH.store, 0) == [];
  }

  /** Incremental index equals the indexed prefix: after any legal run, partial batches, retries, give-ups and restarts
      included, the chunks 0 .. chunkSeq-1 are stored and concatenate to the lines of history[0 .. cursor), each
      once and in order; right after a success nothing else is stored. */
  lemma IndexEqualsPrefix(steps: seq<Step>)
    requires Legal(FRESH, steps)
    ensures Exact(Run(FRESH, steps))
    ensures Finishes(Run(FRESH, steps), FinishStep) ==> NothingElse(Finish(Run(FRESH, steps)))
  {
    FreshOk();
    RunKeepsInv(FRESH, steps);
    if Finishes(Run(FRESH, steps), FinishStep) { FinishKeeps(Run(FRESH, steps)); }
  }

  /** The stored numbers are those below the sequence. */
  ghost predicate NothingElse(s: State) { forall k: nat :: k in s.store <==> k < s.chunkSeq }

  /** The index is right at every point of the run. */
  predicate AlwaysExact(s: State, steps: seq<Step>)
    requires Sane(s)
  {
    Exact(Run(s, steps)) && (steps == [] || AlwaysExact(s, steps[..|steps| - 1]))
  }

  lemma StepExactIff(s: State, step: Step)
    requires Inv(s)
    ensures Exact(Next(s, step)) <==> !Displaces(s, step) && (Finishes(s, step) ==> Clean(s))
  {
    if Displaces(s, step) {
      InsertExactIff(s, step.at);
    } else if Finishes(s, step) {
      FinishKeeps(s);
    } else {
      NextKeepsInv(s, step);
    }
  }

  /** Exactly when a rewritten history leaves the index right: it is right at every point of a run if and only if no
      insertion pushes a line over the cursor and no attempt succeeds during which one was pushed over the length it
      remembers. */
  lemma {:induction false} AlwaysExactIff(s: State, steps: seq<Step>)
    requires Inv(s) && Clean(s)
    ensures AlwaysExact(s, steps) <==> Legal(s, steps)
  {
    if steps != [] {
      var front, last := steps[..|steps| - 1], steps[|steps| - 1];
      AlwaysExactIff(s, front);
      if Legal(s, front) {
        RunKeepsInv(s, front);
        StepExactIff(Run(s, front), last);
      }
    }
  }

  /** An enqueue for at once and an undisturbed attempt with one batch. */
  function Round(now: int): seq<Step> { [EnqueueStep(now, true), ClaimStep(now), BatchStep, FinishStep] }

  lemma {:induction false} RunConcat(s: State, a: seq<Step>, b: seq<Step>)
    requires Sane(s)
    ensures Run(s, a + b) == Run(Run(s, a), b)
  {
    if b == [] {
      assert a + b == a;
    } else {
      var front, last := b[..|b| - 1], b[|b| - 1];
      assert a + b == (a + front) + [last] && b == front + [last];
      RunConcat(s, a, front);
      RunSnoc(s, a + front, last);
      RunSnoc(Run(s, a), front, last);
    }
  }

  lemma {:induction false} RunFour(s: State, a: Step, b: Step, c: Step, d: Step)
    requires Sane(s)
    ensures Run(s, [a, b, c, d]) == Next(Next(Next(Next(s, a), b), c), d)
  {
    RunOne(s, a);
    RunSnoc(s, [a], b);
    RunSnoc(s, [a, b], c);
    RunSnoc(s, [a, b, c], d);
    assert [a] + [b] == [a, b] && [a, b] + [c] == [a, b, c] && [a, b, c] + [d] == [a, b, c, d];
  }

  lemma TwoLines(x: string, y: string)
    requires |x| + |y| <= CHUNK_MAX_CHARS
    ensures Chunks([x, y]) == [[x, y]]
  {
    ChunkSnoc([], x);
    ChunkSnoc([x], y);
    SizeSnoc([], x);
    assert [] + [x] == [x] && [x] + [y] == [x, y] && [[x]][..0] == [];
  }

  lemma ClaimsChunk(s: State, now: int, c: Chunk) returns (s': State)
    requires Sane(s) && s.attempt.None? && Chunks(Lines(s.history[s.cursor..])) == [c]
    ensures s' == Next(Next(s, EnqueueStep(now, true)), ClaimStep(now)) && Sane(s')
    ensures s'.history == s.history && s'.store == s.store && s'.chunkSeq == s.chunkSeq
    ensures s'.attempt == Some(Attempt(|s.history|, [c], 0, 1, true))
  {
    s' := Next(Next(s, EnqueueStep(now, true)), ClaimStep(now));
  }

  lemma StoresChunk(s: State, c: Chunk) returns (s': State)
    requires Sane(s) && s.attempt.Some? && s.attempt.value.chunks == [c] && s.attempt.value.sent == 0
    ensures s' == Next(Next(s, BatchStep), FinishStep)
    ensures s'.history == s.history && s'.cursor == s.attempt.value.snapshot && s'.attempt.None?
    ensures s'.chunkSeq == s.chunkSeq + 1 && s'.store == s.store[s.chunkSeq := c]
  {
    s' := Next(Next(s, BatchStep), FinishStep);
    assert Upsert(s.store, s.chunkSeq, [c], 0, 0, true, {}) == s.store;
  }

  /** Two new lines that fit one chunk are stored under the next number. */
  lemma RoundStores(s: State, now: int, x: string, y: string)
    requires Sane(s) && s.attempt.None? && Lines(s.history[s.cursor..]) == [x, y] && |x| + |y| <= CHUNK_MAX_CHARS
    ensures var s' := Run(s, Round(now));
            && s'.history == s.history && s'.cursor == |s.history| && s'.attempt.None?
            && s'.chunkSeq == s.chunkSeq + 1 && s'.store == s.store[s.chunkSeq := [x, y]]
  {
    TwoLines(x, y);
    RunFour(s, EnqueueStep(now, true), ClaimStep(now), BatchStep, FinishStep);
    var s2 := ClaimsChunk(s, now, [x, y]);
    var s4 := StoresChunk(s2, [x, y]);
  }

  /** The first save and its indexing, then a save with synthetic reasoning before the second message. */
  function FirstSave(u: string, a: string): seq<Step> { [AppendStep([Some(u), Some(a)])] + Round(0) }
  function SecondSave(u2: string): seq<Step> { [InsertStep(1), AppendStep([Some(u2)])] + Round(0) }

  lemma LinesOfTwo(x: Message, y: Message)
    requires x.Some? && y.Some?
    ensures Lines([x, y]) == [x.value, y.value] && Lines([x, None]) == [x.value]
  {
    assert [x, y][..1] == [x] && [x, None][..1] == [x] && [x][..0] == [];
    assert Lines([x]) == [x.value];
  }

  lemma AfterFirstSave(u: string, a: string)
    requires |u| + |a| <= CHUNK_MAX_CHARS
    ensures var s := Run(FRESH, FirstSave(u, a));
            && s.history == [Some(u), Some(a)] && s.cursor == 2 && s.attempt.None?
            && s.chunkSeq == 1 && s.store == map[0 := [u, a]]
  {
    var step := AppendStep([Some(u), Some(a)]);
    RunConcat(FRESH, [step], Round(0));
    RunOne(FRESH, step);
    var s := Next(FRESH, step);
    assert s.history == [Some(u), Some(a)] && s.history[0..] == s.history;
    LinesOfTwo(Some(u), Some(a));
    RoundStores(s, 0, u, a);
  }

  /** Rewriting does break the index: two messages are indexed, the next save inserts synthetic reasoning between them
      and appends a third, and the second message is stored twice. */
  lemma SavedReasoningIsIndexedTwice(u: string, a: string, u2: string)
    requires |u| + |a| <= CHUNK_MAX_CHARS && |a| + |u2| <= CHUNK_MAX_CHARS
    ensures var s := Run(FRESH, FirstSave(u, a) + SecondSave(u2));
            && s.history == [Some(u), None, Some(a), Some(u2)] && s.cursor == 4 && s.chunkSeq == 2
            && s.store == map[0 := [u, a], 1 := [a, u2]]
  {
    var s := Run(FRESH, FirstSave(u, a));
    AfterFirstSave(u, a);
    RunConcat(FRESH, FirstSave(u, a), SecondSave(u2));
    var i, p := InsertStep(1), AppendStep([Some(u2)]);
    RunConcat(s, [i, p], Round(0));
    RunOne(s, i);
    RunSnoc(s, [i], p);
    assert [i] + [p] == [i, p];
    var s' := Next(Next(s, i), p);
    assert s'.history == [Some(u), None, Some(a), Some(u2)];
    assert s'.history[2..] == [Some(a), Some(u2)];
    LinesOfTwo(Some(a), Some(u2));
    RoundStores(s', 0, a, u2);
  }

  /** The job row, the attempt and the failure count belong together whatever happens to the index. */
  lemma NextKeepsJob(s: State, step: Step)
    requires Sane(s) && JobOk(s)
    ensures JobOk(Next(s, step))
  {
  }

  lemma {:induction false} RunKeepsJob(s: State, steps: seq<Step>)
    requires Sane(s) && JobOk(s)
    ensures JobOk(Run(s, steps))
  {
    if steps != [] {
      RunKeepsJob(s, steps[..|steps| - 1]);
      NextKeepsJob(Run(s, steps[..|steps| - 1]), steps[|steps| - 1]);
    }
  }

  /** No lost wake-up: at every point of every run the cursor reached what the latest enqueue saw, or a job row exists,
      or MAX_ATTEMPTS attempts ended without success since that enqueue. */
  lemma NoLostWakeUp(steps: seq<Step>)
    ensures var s := Run(FRESH, steps); s.cursor >= s.enqueuedLen || s.job.Some? || s.failures >= MAX_ATTEMPTS
  {
    RunKeepsJob(FRESH, steps);
  }

  /** A re-enqueue during an attempt survives whatever becomes of the attempt. */
  lemma ReenqueueSurvives(s: State, step: Step)
    requires Sane(s) && JobOk(s) && s.attempt.Some? && !s.attempt.value.current && !step.EnqueueStep?
    ensures Next(s, step).job == s.job && Next(s, step).job.Some? && Next(s, step).job.value.status == Pending
  {
  }

  /** When an enqueued session is indexed: at once when asked for, otherwise after IDLE_SECONDS, and never later than an
      earlier enqueue allowed; the failures so far are forgotten. */
  lemma EnqueuedIsDue(s: State, now: int, immediate: bool, t: int)
    requires Sane(s) && s.attempt.None?
    ensures var s' := Next(s, EnqueueStep(now, immediate));
            && (Claimable(s', t) <==> t >= (if immediate then now else now + IDLE_SECONDS)
                                      || (s.job.Some? && t >= s.job.value.enqueuedAt + IDLE_SECONDS))
            && s'.job.Some? && s'.job.value.attempts == 0 && s'.history == s.history && s'.cursor == s.cursor
  {
    var s' := Next(s, EnqueueStep(now, immediate));
    assert s'.attempt == s.attempt && s'.job.Some?;
  }

  /** A claim, field by field; `cs` are the new chunks. */
  lemma ClaimResult(s: State, now: int) returns (s': State, cs: seq<Chunk>)
    requires Inv(s) && Claimable(s, now)
    ensures Inv(s') && Clean(s') && s' == Next(s, ClaimStep(now)) && cs == Chunks(Lines(s.history[s.cursor..]))
    ensures ClaimedAs(s, s', cs)
  {
    NextKeepsInv(s, ClaimStep(now));
    cs := Chunks(Lines(s.history[s.cursor..]));
    s' := ClaimFields(s, now, cs);
  }

  predicate ClaimedAs(s: State, s': State, cs: seq<Chunk>) {
    && s.job.Some? && s'.history == s.history && s'.chunkSeq == s.chunkSeq && s'.store == s.store
    && if cs == [] then s'.attempt.None? && s'.cursor == |s.history| && s'.job.None?
       else
         var number := s.job.value.attempts + 1;
         && s'.attempt == Some(Attempt(|s.history|, cs, 0, number, true)) && s'.cursor == s.cursor
         && s'.job == Some(s.job.value.(status := Running, attempts := number))
  }

  lemma ClaimFields(s: State, now: int, cs: seq<Chunk>) returns (s': State)
    requires Sane(s) && Claimable(s, now) && cs == Chunks(Lines(s.history[s.cursor..]))
    ensures s' == Next(s, ClaimStep(now)) && Clean(s') && ClaimedAs(s, s', cs)
  {
    s' := Next(s, ClaimStep(now));
  }

  /** A success, field by field. */
  lemma FinishResult(s: State) returns (s': State)
    requires Inv(s) && Clean(s) && s.attempt.Some? && s.attempt.value.sent == |s.attempt.value.chunks|
    ensures Inv(s') && s' == Next(s, FinishStep) && s'.attempt.None?
    ensures s'.history == s.history && s'.store == s.store && s'.cursor == s.attempt.value.snapshot
    ensures s'.chunkSeq == s.chunkSeq + |s.attempt.value.chunks| && s'.job == (if JobRunning(s) then None else s.job)
    ensures NothingElse(s')
  {
    NextKeepsInv(s, FinishStep);
    FinishKeeps(s);
    s' := Next(s, FinishStep);
  }

  /** A successful batch, field by field. */
  lemma BatchResult(s: State) returns (s': State)
    requires Inv(s) && Clean(s) && s.attempt.Some?
    ensures Inv(s') && Clean(s') && s' == Next(s, BatchStep)
    ensures var a, hi := s.attempt.value, BatchEnd(s.attempt.value.sent, |s.attempt.value.chunks|);
            s' == s.(store := Upsert(s.store, s.chunkSeq, a.chunks, a.sent, hi, true, {}),
                     attempt := Some(a.(sent := hi)))
  {
    NextKeepsInv(s, BatchStep);
    s' := Next(s, BatchStep);
  }

  /** A failed attempt, field by field. */
  lemma FailResult(s: State, applied: set<nat>) returns (s': State)
    requires Inv(s) && s.attempt.Some?
    ensures Inv(s') && s' == Next(s, FailStep(applied)) && s'.attempt.None?
    ensures s'.history == s.history && s'.cursor == s.cursor && s'.chunkSeq == s.chunkSeq
    ensures var a := s.attempt.value;
            && s'.store == Upsert(s.store, s.chunkSeq, a.chunks, a.sent, BatchEnd(a.sent, |a.chunks|), false, applied)
            && s'.job == FailedRow(s.job, a.number)
  {
    NextKeepsInv(s, FailStep(applied));
    s' := Next(s, FailStep(applied));
  }

  /** The job row after `_fail_job` of the attempt with the given number: a re-enqueued row is left alone. */
  function FailedRow(job: Option<Job>, number: nat): Option<Job> {
    if job.None? || job.value.status != Running then job
    else if number >= MAX_ATTEMPTS then None
    else Some(job.value.(status := Pending))
  }

  // ---------- One pass of the worker, by its inputs ----------

  /** How the upserts of one attempt go: all batches succeed, or the given one fails half applied. */
  datatype Upserts = AllSucceed | FailsAt(batch: nat, applied: set<nat>)

  /** Of n chunks every batch goes through: none fails, or only one that does not exist. */
  predicate AllThrough(upserts: Upserts, n: nat) { upserts.AllSucceed? || upserts.batch * MAX_UPSERT_CHUNKS >= n }

  /** The chunks [0, sent) are stored under base, base + 1, ...; those in [sent, hi) may be; all else is as it was. */
  ghost predicate Indexed(store: Store, store': Store, base: nat, chunks: seq<Chunk>, sent: nat, hi: nat) {
    && sent <= hi <= |chunks| && Holds(store', base, chunks, sent)
    && forall k: nat :: !(base <= k < base + hi) ==>
         (k in store' <==> k in store) && (k in store ==> store'[k] == store[k])
  }

  /** The row is back for another attempt, or gone when MAX_ATTEMPTS have been made. */
  predicate Retried(job: Job, job': Option<Job>) {
    if job.attempts + 1 >= MAX_ATTEMPTS then job'.None?
    else job' == Some(Job(Pending, job.attempts + 1, job.enqueuedAt))
  }

  /** The first `batch` batches of n chunks went through, and `i` chunks with them. */
  predicate StillThrough(upserts: Upserts, batch: nat, i: nat, n: nat) {
    && i == Min(batch * MAX_UPSERT_CHUNKS, n)
    && (upserts.FailsAt? ==> if i < n then batch <= upserts.batch else AllThrough(upserts, n))
  }

  lemma OneMoreThrough(upserts: Upserts, batch: nat, i: nat, n: nat)
    requires StillThrough(upserts, batch, i, n) && i < n && !(upserts.FailsAt? && upserts.batch == batch)
    ensures StillThrough(upserts, batch + 1, BatchEnd(i, n), n) && i < BatchEnd(i, n)
  {
  }

  lemma IndexedMore(store: Store, mid: Store, base: nat, chunks: seq<Chunk>, lo: nat, hi: nat, all: bool,
                    applied: set<nat>)
    requires lo <= hi <= |chunks| && Indexed(store, mid, base, chunks, lo, lo)
    ensures Indexed(store, Upsert(mid, base, chunks, lo, hi, all, applied), base, chunks, if all then hi else lo, hi)
  {
    var r := Upsert(mid, base, chunks, lo, hi, all, applied);
    forall k | base <= k < base + (if all then hi else lo) ensures k in r && r[k] == chunks[k - base] {
      if k < base + lo { assert k in mid && mid[k] == chunks[k - base]; }
    }
    forall k: nat | !(base <= k < base + hi) ensures (k in r <==> k in store) && (k in store ==> r[k] == store[k]) {
      assert k in mid <==> k in store;
    }
  }

  // ---------- The tables, as the worker changes them ----------

  class RecallIndex {
    var history: seq<Message>
    var cursor: nat
    var chunkSeq: nat
    var store: Store
    var job: Option<Job>
    ghost var model: State

    ghost predicate Valid()
      reads this
    {
      && Inv(model) && Clean(model) && model.history == history && model.cursor == cursor && model.chunkSeq == chunkSeq
      && model.store == store && model.job == job
    }

    /** An attempt with these chunks is in flight, `sent` of them upserted. */
    ghost predicate InFlight(out: seq<Numbered>, sent: nat)
      reads this
    {
      && model.attempt.Some? && out == Number(model.attempt.value.chunks, model.chunkSeq)
      && model.attempt.value.sent == sent
    }

    constructor ()
      ensures Valid() && model == FRESH
    {
      history, cursor, chunkSeq, store, job, model := [], 0, 0, map[], None, FRESH;
      new;
      FreshOk();
    }

    method SaveMessages(ms: seq<Message>)
      requires Valid()
      modifies this`history, this`model
      ensures Valid() && model == Next(old(model), AppendStep(ms))
    {
      NextKeepsInv(model, AppendStep(ms));
      StepCleanIff(model, AppendStep(ms));
      history := history + ms;
      model := Next(model, AppendStep(ms));
    }

    method MaybeEnqueueIndexJob(enabled: bool, now: int, immediate: bool) returns (enqueued: bool)
      requires Valid()
      modifies this`job, this`model
      ensures Valid() && enqueued == enabled
      ensures model == if enabled then Next(old(model), EnqueueStep(now, immediate)) else old(model)
    {
      if !enabled { return false; }
      var at := if immediate then now - IDLE_SECONDS else now;
      NextKeepsInv(model, EnqueueStep(now, immediate));
      match job {
        case None => job := Some(Job(Pending, 0, at));
        case Some(j) => job := Some(Job(Pending, 0, if j.enqueuedAt <= at then j.enqueuedAt else at));
      }
      model := Next(model, EnqueueStep(now, immediate));
      return true;
    }

    /** Claims the job; `out` is what has to be upserted, empty when the attempt ended at once. */
    method ClaimJob(now: int) returns (claimed: bool, out: seq<Numbered>, number: nat)
      requires Valid() && model.attempt.None?
      modifies this`cursor, this`chunkSeq, this`job, this`model
      ensures Valid() && claimed == Claimable(old(model), now)
      ensures model == Next(old(model), ClaimStep(now))
      ensures if claimed && out != []
              then InFlight(out, 0) && model.attempt.value.number == number && model.attempt.value.snapshot == |history|
              else model.attempt.None?
      ensures chunkSeq == old(chunkSeq) && (!claimed ==> cursor == old(cursor) && job == old(job))
      ensures claimed ==> old(job).Some? && Claimed(old(cursor), old(job).value, out, number)
    {
      out, number := [], 0;
      claimed := job.Some? && job.value.status == Pending && job.value.enqueuedAt <= now - IDLE_SECONDS;
      if claimed { out, number := BeginAttempt(now); }
    }

    /** The rows after a claim: with nothing new the cursor is at the end and the row is gone. */
    ghost predicate Claimed(cursor0: nat, job0: Job, out: seq<Numbered>, number: nat)
      reads this
    {
      && cursor0 <= |history| && out == Number(Chunks(Lines(history[cursor0..])), chunkSeq)
      && if out == [] then cursor == |history| && job.None?
         else cursor == cursor0 && number == job0.attempts + 1 && job == Some(Job(Running, number, job0.enqueuedAt))
              && model.attempt.Some? && model.attempt.value.chunks == Chunks(Lines(history[cursor0..]))
    }

    method BeginAttempt(now: int) returns (out: seq<Numbered>, number: nat)
      requires Valid() && Claimable(model, now)
      modifies this`cursor, this`chunkSeq, this`job, this`model
      ensures Valid() && model == Next(old(model), ClaimStep(now))
      ensures chunkSeq == old(chunkSeq) && Claimed(old(cursor), old(job).value, out, number)
      ensures if out != []
              then InFlight(out, 0) && model.attempt.value.number == number && model.attempt.value.snapshot == |history|
              else model.attempt.None?
    {
      ghost var m, cs;
      out, m, cs := ReadNew(now);
      number := 0;
      if out == [] {
        Update(|history|, chunkSeq, None, m);
      } else {
        number := job.value.attempts + 1;
        Update(cursor, chunkSeq, Some(job.value.(status := Running, attempts := number)), m);
      }
    }

    /** The numbered chunks behind the cursor, and what the claim makes of the model. */
    method ReadNew(now: int) returns (out: seq<Numbered>, ghost m: State, ghost cs: seq<Chunk>)
      requires Valid() && Claimable(model, now)
      ensures Inv(m) && Clean(m) && m == Next(model, ClaimStep(now))
      ensures ClaimedAs(model, m, cs) && cs == Chunks(Lines(history[cursor..])) && out == Number(cs, chunkSeq)
    {
      m, cs := ClaimResult(model, now);
      out := ChunkMessages(history[cursor..], chunkSeq);
    }

    /** New values of the cursor, the sequence and the row, those of the state m. */
    method Update(cursor': nat, chunkSeq': nat, job': Option<Job>, ghost m: State)
      requires Inv(m) && Clean(m) && m.history == history && m.store == store
      requires m.cursor == cursor' && m.chunkSeq == chunkSeq' && m.job == job'
      modifies this`cursor, this`chunkSeq, this`job, this`model
      ensures Valid() && model == m && cursor == cursor' && chunkSeq == chunkSeq' && job == job'
    {
      cursor, chunkSeq, job, model := cursor', chunkSeq', job', m;
    }

    method UpsertBatch(out: seq<Numbered>, lo: nat) returns (hi: nat)
      requires Valid() && InFlight(out, lo)
      modifies this`store, this`model
      ensures Valid() && model == Next(old(model), BatchStep) && InFlight(out, hi)
      ensures model.attempt.value == old(model).attempt.value.(sent := hi)
      ensures lo <= hi == BatchEnd(lo, |out|) <= |out|
      ensures store == Upsert(old(store), chunkSeq, old(model).attempt.value.chunks, lo, hi, true, {})
    {
      ghost var m := BatchResult(model);
      hi := BatchEnd(lo, |out|);
      store := StoreNumbered(store, out, lo, hi, true, {}, chunkSeq, model.attempt.value.chunks);
      model := m;
    }

    /** A batch fails; the chunks in `applied` may have been stored nevertheless. */
    method FailAttempt(out: seq<Numbered>, lo: nat, number: nat, applied: set<nat>)
      requires Valid() && InFlight(out, lo) && model.attempt.value.number == number
      modifies this`store, this`job, this`model
      ensures Valid() && model == Next(old(model), FailStep(applied)) && model.attempt.None?
      ensures job == FailedRow(old(job), number)
      ensures lo <= BatchEnd(lo, |out|) <= |out|
      ensures store == Upsert(old(store), chunkSeq, old(model).attempt.value.chunks, lo, BatchEnd(lo, |out|), false,
                              applied)
    {
      ghost var failed := FailResult(model, applied);
      store := StoreNumbered(store, out, lo, BatchEnd(lo, |out|), false, applied, chunkSeq, model.attempt.value.chunks);
      job := FailedRow(job, number);
      model := failed;
    }

    method FinishAttempt(out: seq<Numbered>, snapshot: nat)
      requires Valid() && InFlight(out, |out|) && model.attempt.value.snapshot == snapshot
      modifies this`cursor, this`chunkSeq, this`job, this`model
      ensures Valid() && model == Next(old(model), FinishStep) && model.attempt.None?
      ensures cursor == snapshot && chunkSeq == old(chunkSeq) + |out|
      ensures job == if old(job).Some? && old(job).value.status == Running then None else old(job)
      ensures forall k: nat :: k in store <==> k < chunkSeq
    {
      ghost var m := FinishResult(model);
      Update(snapshot, chunkSeq + |out|, if job.Some? && job.value.status == Running then None else job, m);
    }

    /** The attempt `a` of the run `steps` of s0 stands before its chunk i, and `store0` was the index before it. */
    ghost predicate At(a: Attempt, i: nat, out: seq<Numbered>, store0: Store, s0: State, steps: seq<Step>)
      reads this
    {
      && Valid() && InFlight(out, i) && Sane(s0) && model == Run(s0, steps) && model.attempt == Some(a.(sent := i))
      && Indexed(store0, store, chunkSeq, a.chunks, i, i)
    }

    /** The next batch goes through. */
    method OneBatch(out: seq<Numbered>, lo: nat, ghost a: Attempt, ghost store0: Store, ghost s0: State,
                    ghost front: seq<Step>) returns (hi: nat, ghost steps: seq<Step>)
      requires At(a, lo, out, store0, s0, front)
      modifies this`store, this`model
      ensures At(a, hi, out, store0, s0, steps) && lo <= hi == BatchEnd(lo, |out|) <= |out|
    {
      ghost var mid := store;
      hi := UpsertBatch(out, lo);
      IndexedMore(store0, mid, chunkSeq, a.chunks, lo, hi, true, {});
      steps := front + [BatchStep];
      RunSnoc(s0, front, BatchStep);
    }

    /** The next batch fails half applied. */
    method LastBatch(out: seq<Numbered>, lo: nat, number: nat, applied: set<nat>, ghost store0: Store, ghost s0: State,
                     ghost front: seq<Step>) returns (ghost steps: seq<Step>)
      requires Valid() && InFlight(out, lo) && Sane(s0) && model == Run(s0, front)
      requires model.attempt.value.number == number
      requires Indexed(store0, store, chunkSeq, model.attempt.value.chunks, lo, lo)
      modifies this`store, this`job, this`model
      ensures Valid() && model == Run(s0, steps) && model.attempt.None?
      ensures job == FailedRow(old(job), number)
      ensures Indexed(store0, store, chunkSeq, old(model).attempt.value.chunks, lo, BatchEnd(lo, |out|))
    {
      ghost var mid, chunks := store, model.attempt.value.chunks;
      FailAttempt(out, lo, number, applied);
      IndexedMore(store0, mid, chunkSeq, chunks, lo, BatchEnd(lo, |out|), false, applied);
      steps := front + [FailStep(applied)];
      RunSnoc(s0, front, FailStep(applied));
    }

    /** The batches of one attempt; `done` when all of them succeeded. */
    method UpsertAll(out: seq<Numbered>, number: nat, upserts: Upserts, ghost a: Attempt, ghost store0: Store,
                     ghost s0: State, ghost before: seq<Step>) returns (done: bool, ghost steps: seq<Step>)
      requires At(a, 0, out, store0, s0, before) && a.number == number
      modifies this`store, this`job, this`model
      ensures done == AllThrough(upserts, |out|)
      ensures if done then At(a, |out|, out, store0, s0, steps) && job == old(job)
              else Valid() && model == Run(s0, steps) && model.attempt.None? && job == FailedRow(old(job), number)
                   && var lo := upserts.batch * MAX_UPSERT_CHUNKS;
                      Indexed(store0, store, chunkSeq, a.chunks, lo, BatchEnd(lo, |out|))
    {
      steps := before;
      var i, batch := 0, 0;
      while i < |out|
        invariant At(a, i, out, store0, s0, steps) && StillThrough(upserts, batch, i, |out|) && job == old(job)
        decreases |out| - i
      {
        if upserts.FailsAt? && upserts.batch == batch {
          steps := LastBatch(out, i, number, upserts.applied, store0, s0, steps);
          return false, steps;
        }
        OneMoreThrough(upserts, batch, i, |out|);
        i, steps := OneBatch(out, i, a, store0, s0, steps);
        batch := batch + 1;
      }
      done := true;
    }

    /** The tables after an attempt at these chunks. */
    ghost predicate Attempted(upserts: Upserts, chunks: seq<Chunk>, cursor0: nat, seq0: nat, job0: Job, store0: Store)
      reads this
    {
      if AllThrough(upserts, |chunks|) then
        && cursor == |history| && job.None? && chunkSeq == seq0 + |chunks|
        && Indexed(store0, store, seq0, chunks, |chunks|, |chunks|)
      else
        && cursor == cursor0 && chunkSeq == seq0 && Retried(job0, job)
        && var lo := upserts.batch * MAX_UPSERT_CHUNKS; Indexed(store0, store, seq0, chunks, lo, BatchEnd(lo, |chunks|))
    }

    /** The upserts of a claimed job and the end of the attempt. */
    method RunAttempt(out: seq<Numbered>, number: nat, upserts: Upserts, ghost job0: Job, ghost s0: State,
                      ghost before: seq<Step>) returns (ghost steps: seq<Step>)
      requires Valid() && InFlight(out, 0) && model.attempt.value.number == number == job0.attempts + 1
      requires model.attempt.value.snapshot == |history| && job == Some(Job(Running, number, job0.enqueuedAt))
      requires Sane(s0) && model == Run(s0, before)
      modifies this`cursor, this`chunkSeq, this`store, this`job, this`model
      ensures Valid() && model == Run(s0, steps) && model.attempt.None?
      ensures Attempted(upserts, old(model).attempt.value.chunks, old(cursor), old(chunkSeq), job0, old(store))
    {
      var snapshot := |history|;
      var done;
      done, steps := UpsertAll(out, number, upserts, model.attempt.value, store, s0, before);
      if done {
        RunSnoc(s0, steps, FinishStep);
        FinishAttempt(out, snapshot);
        steps := steps + [FinishStep];
      }
    }

    /** One pass of the worker with no other writer in between.  The end state is the run of its steps; what the tables
        hold afterwards follows from what the upserts did. */
    method ProcessPendingOnce(now: int, upserts: Upserts) returns (claimed: bool, ghost steps: seq<Step>)
      requires Valid() && model.attempt.None?
      modifies this
      ensures Valid() && model == Run(old(model), steps) && model.attempt.None?
      ensures claimed == Claimable(old(model), now) && history == old(history)
      ensures !claimed ==> cursor == old(cursor) && chunkSeq == old(chunkSeq) && store == old(store) && job == old(job)
      ensures claimed ==>
                && old(job).Some? && old(cursor) <= |history|
                && Attempted(upserts, Chunks(Lines(history[old(cursor)..])), old(cursor), old(chunkSeq), old(job).value,
                             old(store))
    {
      ghost var s0 := model;
      var out, number;
      claimed, out, number := ClaimJob(now);
      steps := [ClaimStep(now)];
      RunOne(s0, ClaimStep(now));
      if !claimed || out == [] { return; }
      steps := RunAttempt(out, number, upserts, old(job).value, s0, steps);
    }
  }

  /** The upserts of one batch, by the numbers of the chunks. */
  method StoreNumbered(store: Store, out: seq<Numbered>, lo: nat, hi: nat, all: bool, applied: set<nat>,
                       ghost base: nat, ghost chunks: seq<Chunk>) returns (r: Store)
    requires lo <= hi <= |out| && out == Number(chunks, base)
    ensures r == Upsert(store, base, chunks, lo, hi, all, applied)
  {
    r := store;
    for k := lo to hi
      invariant r == Upsert(store, base, chunks, lo, k, all, applied)
    {
      NumberAt(chunks, base, k);
      if all || k in applied { r := r[out[k].no := out[k].chunk]; }
    }
  }

  lemma RunSnoc(s: State, steps: seq<Step>, step: Step)
    requires Sane(s)
    ensures Run(s, steps + [step]) == Next(Run(s, steps), step)
  {
    assert (steps + [step])[..|steps + [step]| - 1] == steps;
  }

  lemma RunOne(s: State, step: Step)
    requires Sane(s)
    ensures Run(s, [step]) == Next(s, step)
  {
    RunSnoc(s, [], step);
    assert [] + [step] == [step];
  }
}
