/**
  The run event log (agent/run_sink.py) on values: streamed deltas are merged
  into one buffer per UI scope and persisted late, everything else is persisted
  at once behind a full flush.  The claim is that the small replay log renders
  exactly like the raw stream.
 */
module RunSink {
  import opened Common

  const COALESCE_MAX_CHARS: nat := 4000

  /** Identifiers of delegate calls, compared for equality only; NO_CALL is the empty one. */
  type CallId = nat
  const NO_CALL: CallId := 0

  /** The event types the sink tells apart. */
  datatype Kind = Thinking | MessageDelta | Subagent | Done | OtherKind(name: string)

  /** The wrapped event of a sub-agent.  `content` is Some only for a string. */
  datatype Inner = Inner(kind: Kind, content: Option<string>)

  /** One event.  `payload` stands for every other field. */
  datatype Event = Event(kind: Kind, content: Option<string>, parentCallId: CallId,
                         inner: Option<Inner>, payload: string)

  /** Identity of a delta stream. */
  datatype Key = ParentKey(kind: Kind) | ChildKey(parent: CallId, kind: Kind)

  predicate Coalescible(kind: Kind) {
    kind == Thinking || kind == MessageDelta
  }

  function Scope(e: Event): CallId {
    if e.kind == Subagent then e.parentCallId else NO_CALL
  }

  function CoalesceKey(e: Event): Option<Key> {
    if Coalescible(e.kind) && e.content.Some? then Some(ParentKey(e.kind))
    else if e.kind == Subagent && e.inner.Some? && Coalescible(e.inner.value.kind) && e.inner.value.content.Some?
    then Some(ChildKey(e.parentCallId, e.inner.value.kind))
    else None
  }

  function Content(e: Event): string
    requires CoalesceKey(e).Some?
  {
    if e.kind == Subagent then e.inner.value.content.value else e.content.value
  }

  /** The buffered row after the delta `e` of the same stream was appended to it. */
  function MergeInto(row: Event, e: Event): (m: Event)
    requires CoalesceKey(row).Some? && CoalesceKey(row) == CoalesceKey(e)
    ensures CoalesceKey(m) == CoalesceKey(row) && Scope(m) == Scope(row)
    ensures Content(m) == Content(row) + Content(e)
    ensures m.payload == row.payload
  {
    if row.kind == Subagent then
      var text := row.inner.value.content.value + e.inner.value.content.value;
      row.(inner := Some(row.inner.value.(content := Some(text))))
    else row.(content := Some(row.content.value + e.content.value))
  }

  // ---------- What a client renders ----------

  /** A delta renders as its characters, each tagged with its stream; any other event is a barrier. */
  datatype Token = Char(key: Key, c: char) | Barrier(event: Event)

  function Chars(k: Key, text: string): seq<Token> {
    if text == "" then [] else Chars(k, text[..|text| - 1]) + [Char(k, text[|text| - 1])]
  }

  /** The tokens of one event that reach the block of scope `s`; a barrier reaches every scope. */
  function Render(e: Event, s: CallId): seq<Token> {
    match CoalesceKey(e)
    case None => [Barrier(e)]
    case Some(k) =>
      if Scope(e) == s then Chars(k, Content(e)) else []
  }

  function RenderAll(es: seq<Event>, s: CallId): seq<Token> {
    if es == [] then [] else RenderAll(es[..|es| - 1], s) + Render(es[|es| - 1], s)
  }

  lemma {:induction false} CharsConcat(k: Key, a: string, b: string)
    ensures Chars(k, a + b) == Chars(k, a) + Chars(k, b)
  {
    if b == "" {
      assert a + b == a;
    } else {
      var b' := b[..|b| - 1];
      assert (a + b)[..|a + b| - 1] == a + b';
      CharsConcat(k, a, b');
      Assoc(Chars(k, a), Chars(k, b'), [Char(k, b[|b| - 1])]);
    }
  }

  lemma {:induction false} RenderAllConcat(a: seq<Event>, b: seq<Event>, s: CallId)
    ensures RenderAll(a + b, s) == RenderAll(a, s) + RenderAll(b, s)
  {
    if b == [] {
      assert a + b == a;
    } else {
      var b', e := b[..|b| - 1], b[|b| - 1];
      assert (a + b)[..|a + b| - 1] == a + b';
      RenderAllConcat(a, b', s);
      Assoc(RenderAll(a, s), RenderAll(b', s), Render(e, s));
    }
  }

  lemma RenderSnoc(es: seq<Event>, e: Event, s: CallId)
    ensures RenderAll(es + [e], s) == RenderAll(es, s) + Render(e, s)
  {
    assert (es + [e])[..|es + [e]| - 1] == es;
  }

  // ---------- The sink ----------

  datatype Slot = Slot(scope: CallId, key: Key, row: Event)

  /** `pending` lists the open buffers in insertion order, at most one per scope. */
  datatype Sink = Sink(past: seq<Event>, pending: seq<Slot>, done: bool)

  const EMPTY_SINK := Sink([], [], false)

  /** Position of the buffer of scope `s`, or the length when there is none. */
  function IndexOf(p: seq<Slot>, s: CallId): (i: nat)
    ensures i <= |p|
    ensures i < |p| ==> p[i].scope == s
    ensures forall k :: 0 <= k < i ==> p[k].scope != s
  {
    if p == [] then 0 else if p[0].scope == s then 0 else 1 + IndexOf(p[1..], s)
  }

  function Rows(p: seq<Slot>): seq<Event> {
    seq(|p|, i requires 0 <= i < |p| => p[i].row)
  }

  function RemoveAt<T>(s: seq<T>, i: nat): (r: seq<T>)
    requires i < |s|
    ensures |r| == |s| - 1
    ensures forall k :: 0 <= k < |r| ==> r[k] == s[if k < i then k else k + 1]
  {
    s[..i] + s[i + 1..]
  }

  function FlushAt(st: Sink, i: nat): Sink
    requires i < |st.pending|
  {
    st.(past := st.past + [st.pending[i].row], pending := RemoveAt(st.pending, i))
  }

  function Flush(st: Sink): Sink {
    st.(past := st.past + Rows(st.pending), pending := [])
  }

  function PutDelta(st: Sink, e: Event): Sink
    requires CoalesceKey(e).Some? && Inv(st)
  {
    var i := IndexOf(st.pending, Scope(e));
    var key := CoalesceKey(e).value;
    if i < |st.pending| && st.pending[i].key == key
       && |Content(st.pending[i].row)| + |Content(e)| <= COALESCE_MAX_CHARS
    then st.(pending := MergeSlot(st.pending, i, e))
    else
      var st1 := if i < |st.pending| then FlushAt(st, i) else st;
      st1.(pending := st1.pending + [Slot(Scope(e), key, e)])
  }

  function PutOther(st: Sink, e: Event): Sink {
    var st1 := Flush(st);
    st1.(past := st1.past + [e])
  }

  function Put(st: Sink, e: Event): Sink
    requires Inv(st)
  {
    var st1 := if CoalesceKey(e).Some? then PutDelta(st, e) else PutOther(st, e);
    if e.kind == Done then Flush(st1).(done := true) else st1
  }

  /** Every buffer is filed under its own scope and stream, one per scope. */
  predicate Inv(st: Sink) {
    PendingOk(st.pending)
  }

  predicate SlotOk(b: Slot) {
    CoalesceKey(b.row) == Some(b.key) && Scope(b.row) == b.scope
  }

  // ---------- One step renders exactly the new event ----------

  function RenderSink(st: Sink, s: CallId): seq<Token> {
    RenderAll(st.past, s) + RenderAll(Rows(st.pending), s)
  }

  /** Seen from scope `s`, the open buffers are at most the one buffer of `s`. */
  function RenderPending(p: seq<Slot>, s: CallId): seq<Token> {
    var i := IndexOf(p, s);
    if i < |p| then Render(p[i].row, s) else []
  }

  predicate PendingOk(p: seq<Slot>) {
    && (forall i :: 0 <= i < |p| ==> SlotOk(p[i]))
    && forall i, j :: 0 <= i < j < |p| ==> p[i].scope != p[j].scope
  }

  lemma PendingSnoc(q: seq<Slot>, b: Slot, s: CallId)
    requires PendingOk(q + [b])
    ensures PendingOk(q)
    ensures b.scope == s ==> RenderPending(q, s) == [] && RenderPending(q + [b], s) == Render(b.row, s)
    ensures b.scope != s ==> RenderPending(q + [b], s) == RenderPending(q, s) && Render(b.row, s) == []
  {
    var p := q + [b];
    assert forall k :: 0 <= k < |q| ==> p[k] == q[k];
    assert p[|q|] == b;
    if b.scope == s { IndexIs(p, s, |q|); }
    else {
      var j := IndexOf(q, s);
      if j < |q| { IndexIs(p, s, j); }
    }
  }

  lemma RowsSnoc(q: seq<Slot>, b: Slot, s: CallId)
    ensures RenderAll(Rows(q + [b]), s) == RenderAll(Rows(q), s) + Render(b.row, s)
  {
    assert Rows(q + [b]) == Rows(q) + [b.row];
    RenderSnoc(Rows(q), b.row, s);
  }

  lemma {:induction false} PendingOfScope(p: seq<Slot>, s: CallId)
    requires PendingOk(p)
    ensures RenderAll(Rows(p), s) == RenderPending(p, s)
  {
    if p == [] {
      assert Rows(p) == [];
    } else {
      var q, b := p[..|p| - 1], p[|p| - 1];
      assert p == q + [b];
      PendingSnoc(q, b, s);
      PendingOfScope(q, s);
      RowsSnoc(q, b, s);
    }
  }

  lemma IndexIs(p: seq<Slot>, s: CallId, i: nat)
    requires PendingOk(p) && i < |p| && p[i].scope == s
    ensures IndexOf(p, s) == i
  {
  }

  lemma MergeRenders(row: Event, e: Event, s: CallId)
    requires CoalesceKey(row).Some? && CoalesceKey(row) == CoalesceKey(e) && Scope(row) == Scope(e)
    ensures Render(MergeInto(row, e), s) == Render(row, s) + Render(e, s)
  {
    CharsConcat(CoalesceKey(e).value, Content(row), Content(e));
  }

  lemma FlushRenders(st: Sink, s: CallId)
    ensures Inv(Flush(st))
    ensures RenderSink(Flush(st), s) == RenderSink(st, s)
  {
    RenderAllConcat(st.past, Rows(st.pending), s);
  }

  lemma FlushAtInv(st: Sink, i: nat)
    requires Inv(st) && i < |st.pending|
    ensures Inv(FlushAt(st, i))
    ensures IndexOf(FlushAt(st, i).pending, st.pending[i].scope) == |st.pending| - 1
  {
  }

  lemma FlushAtPending(st: Sink, i: nat, s: CallId)
    requires Inv(st) && i < |st.pending|
    ensures st.pending[i].scope == s ==>
              RenderPending(st.pending, s) == Render(st.pending[i].row, s)
                  && RenderPending(FlushAt(st, i).pending, s) == []
    ensures st.pending[i].scope != s ==>
              Render(st.pending[i].row, s) == []
                  && RenderPending(st.pending, s) == RenderPending(FlushAt(st, i).pending, s)
  {
    FlushAtInv(st, i);
    if st.pending[i].scope == s {
      IndexIs(st.pending, s, i);
    } else {
      RemovedElsewhere(st.pending, RemoveAt(st.pending, i), i, s);
    }
  }

  lemma RemovedElsewhere(p: seq<Slot>, p': seq<Slot>, i: nat, s: CallId)
    requires PendingOk(p) && PendingOk(p') && i < |p| && p' == RemoveAt(p, i) && p[i].scope != s
    ensures RenderPending(p, s) == RenderPending(p', s)
  {
    var j := IndexOf(p, s);
    if j < |p| {
      IndexIs(p', s, if j < i then j else j - 1);
    }
  }

  lemma FlushAtRenders(st: Sink, i: nat, s: CallId)
    requires Inv(st) && i < |st.pending|
    ensures RenderSink(FlushAt(st, i), s) == RenderSink(st, s)
  {
    var st', row := FlushAt(st, i), st.pending[i].row;
    FlushAtInv(st, i);
    FlushAtPending(st, i, s);
    PendingOfScope(st.pending, s);
    PendingOfScope(st'.pending, s);
    RenderSnoc(st.past, row, s);
    Assoc(RenderAll(st.past, s), Render(row, s), RenderPending(st'.pending, s));
  }

  lemma PendingAppend(p: seq<Slot>, b: Slot)
    requires PendingOk(p) && SlotOk(b) && IndexOf(p, b.scope) == |p|
    ensures PendingOk(p + [b])
  {
  }

  lemma AppendSlot(st: Sink, b: Slot, s: CallId)
    requires Inv(st) && SlotOk(b) && IndexOf(st.pending, b.scope) == |st.pending|
    ensures var st' := st.(pending := st.pending + [b]);
            Inv(st') && RenderSink(st', s) == RenderSink(st, s) + Render(b.row, s)
  {
    PendingAppend(st.pending, b);
    assert Rows(st.pending + [b]) == Rows(st.pending) + [b.row];
    RenderSnoc(Rows(st.pending), b.row, s);
    Assoc(RenderAll(st.past, s), RenderAll(Rows(st.pending), s), Render(b.row, s));
  }

  function MergeSlot(p: seq<Slot>, i: nat, e: Event): seq<Slot>
    requires i < |p| && SlotOk(p[i]) && CoalesceKey(e) == Some(p[i].key)
  {
    p[i := p[i].(row := MergeInto(p[i].row, e))]
  }

  lemma MergePending(p: seq<Slot>, i: nat, e: Event, s: CallId)
    requires PendingOk(p) && i < |p| && CoalesceKey(e) == Some(p[i].key) && Scope(e) == p[i].scope
    ensures PendingOk(MergeSlot(p, i, e))
    ensures RenderPending(MergeSlot(p, i, e), s) == RenderPending(p, s) + Render(e, s)
  {
    var p' := MergeSlot(p, i, e);
    assert forall k :: 0 <= k < |p| ==> p'[k].scope == p[k].scope;
    var j, j' := IndexOf(p, s), IndexOf(p', s);
    assert j < |p| ==> p'[j].scope == s;
    assert j' < |p| ==> p[j'].scope == s;
    if j == i { MergeRenders(p[i].row, e, s); }
  }

  lemma MergeAt(st: Sink, i: nat, e: Event, s: CallId)
    requires Inv(st) && i < |st.pending| && CoalesceKey(e) == Some(st.pending[i].key)
    requires Scope(e) == st.pending[i].scope
    ensures var st' := st.(pending := MergeSlot(st.pending, i, e));
            Inv(st') && RenderSink(st', s) == RenderSink(st, s) + Render(e, s)
  {
    MergePending(st.pending, i, e, s);
    PendingOfScope(st.pending, s);
    PendingOfScope(MergeSlot(st.pending, i, e), s);
    Assoc(RenderAll(st.past, s), RenderPending(st.pending, s), Render(e, s));
  }

  lemma PutDeltaRenders(st: Sink, e: Event, s: CallId)
    requires Inv(st) && CoalesceKey(e).Some?
    ensures Inv(PutDelta(st, e))
    ensures RenderSink(PutDelta(st, e), s) == RenderSink(st, s) + Render(e, s)
  {
    var i := IndexOf(st.pending, Scope(e));
    if i == |st.pending| {
      AppendSlot(st, Slot(Scope(e), CoalesceKey(e).value, e), s);
    } else if st.pending[i].key == CoalesceKey(e).value
              && |Content(st.pending[i].row)| + |Content(e)| <= COALESCE_MAX_CHARS {
      MergeAt(st, i, e, s);
    } else {
      FlushAtInv(st, i);
      FlushAtRenders(st, i, s);
      AppendSlot(FlushAt(st, i), Slot(Scope(e), CoalesceKey(e).value, e), s);
    }
  }

  lemma PutOtherRenders(st: Sink, e: Event, s: CallId)
    requires Inv(st) && CoalesceKey(e).None?
    ensures Inv(PutOther(st, e))
    ensures RenderSink(PutOther(st, e), s) == RenderSink(st, s) + Render(e, s)
  {
    FlushRenders(st, s);
    RenderSnoc(Flush(st).past, e, s);
    assert Rows(Flush(st).pending) == [];
    assert RenderAll([], s) == [];
  }

  /** A put keeps the invariant and appends, in every scope, exactly the tokens of the new event. */
  lemma PutRenders(st: Sink, e: Event, s: CallId)
    requires Inv(st)
    ensures Inv(Put(st, e))
    ensures RenderSink(Put(st, e), s) == RenderSink(st, s) + Render(e, s)
  {
    if CoalesceKey(e).Some? {
      PutDeltaRenders(st, e, s);
      FlushRenders(PutDelta(st, e), s);
    } else {
      PutOtherRenders(st, e, s);
      FlushRenders(PutOther(st, e), s);
    }
  }

  // ---------- Whole runs ----------

  /** What can happen to a sink: an event is put, the max-age timer fires, or a client subscribes. */
  datatype Step = PutStep(e: Event) | TimerStep | SubscribeStep

  function Next(st: Sink, step: Step): Sink
    requires Inv(st)
  {
    if step.PutStep? then Put(st, step.e) else Flush(st)
  }

  function Run(st: Sink, steps: seq<Step>): (r: Sink)
    requires Inv(st)
    ensures Inv(r)
  {
    if steps == [] then st
    else
      var m := Run(st, steps[..|steps| - 1]);
      NextInv(m, steps[|steps| - 1]);
      Next(m, steps[|steps| - 1])
  }

  lemma NextInv(st: Sink, step: Step)
    requires Inv(st)
    ensures Inv(Next(st, step))
  {
    if step.PutStep? { PutRenders(st, step.e, NO_CALL); }
  }

  /** The raw events of a run, in order. */
  function Raw(steps: seq<Step>): seq<Event> {
    if steps == [] then []
    else
      var last := steps[|steps| - 1];
      Raw(steps[..|steps| - 1]) + if last.PutStep? then [last.e] else []
  }

  lemma {:induction false} RawConcat(a: seq<Step>, b: seq<Step>)
    ensures Raw(a + b) == Raw(a) + Raw(b)
  {
    if b == [] {
      assert a + b == a;
    } else {
      var front, last := b[..|b| - 1], b[|b| - 1];
      RawConcat(a, front);
      assert (a + b)[..|a + b| - 1] == a + front;
      Assoc(Raw(a), Raw(front), if last.PutStep? then [last.e] else []);
    }
  }

  lemma {:induction false} RunRenders(st: Sink, steps: seq<Step>, s: CallId)
    requires Inv(st)
    ensures RenderSink(Run(st, steps), s) == RenderSink(st, s) + RenderAll(Raw(steps), s)
  {
    if steps != [] {
      var front, last := steps[..|steps| - 1], steps[|steps| - 1];
      RunRenders(st, front, s);
      var m := Run(st, front);
      if last.PutStep? {
        PutRenders(m, last.e, s);
        RenderSnoc(Raw(front), last.e, s);
        Assoc(RenderSink(st, s), RenderAll(Raw(front), s), Render(last.e, s));
      } else {
        FlushRenders(m, s);
        assert Raw(steps) == Raw(front);
      }
    }
  }

  /** Replay refinement: under any interleaving of puts, timer flushes and subscriptions,
      the persisted rows followed by the open buffers render like the raw stream, in every scope. */
  lemma ReplayRefinement(steps: seq<Step>, s: CallId)
    ensures var st := Run(EMPTY_SINK, steps);
            RenderAll(st.past, s) + RenderAll(Rows(st.pending), s) == RenderAll(Raw(steps), s)
  {
    EmptyRenders(s);
    RunRenders(EMPTY_SINK, steps, s);
    var r := RenderAll(Raw(steps), s);
    assert [] + r == r;
  }

  lemma EmptyRenders(s: CallId)
    ensures Inv(EMPTY_SINK) && RenderSink(EMPTY_SINK, s) == []
  {
  }

  /** A client that subscribes after `before` is handed the flushed past and then every raw event of
      `after`: together they render like the whole raw stream, in every scope. */
  lemma LateJoiner(before: seq<Step>, after: seq<Step>, s: CallId)
    ensures var snapshot := Flush(Run(EMPTY_SINK, before)).past;
            RenderAll(snapshot + Raw(after), s) == RenderAll(Raw(before + [SubscribeStep] + after), s)
  {
    var st := Run(EMPTY_SINK, before);
    ReplayRefinement(before, s);
    RenderAllConcat(st.past, Rows(st.pending), s);
    RenderAllConcat(Flush(st).past, Raw(after), s);
    RawConcat(before, [SubscribeStep]);
    RawConcat(before + [SubscribeStep], after);
    assert [SubscribeStep][..0] == [];
    assert Raw([SubscribeStep]) == [];
    assert Raw(before + [SubscribeStep]) == Raw(before);
    RenderAllConcat(Raw(before), Raw(after), s);
  }

  /** Persisted rows are final: whatever happens next, the log only grows behind them. */
  lemma {:induction false} PastOnlyGrows(st: Sink, steps: seq<Step>)
    requires Inv(st)
    ensures st.past <= Run(st, steps).past
  {
    if steps != [] {
      PastOnlyGrows(st, steps[..|steps| - 1]);
    }
  }

  /** One raw event, or a merge that respects the size limit. */
  predicate RowOk(row: Event, raw: seq<Event>) {
    CoalesceKey(row).None? || row in raw || |Content(row)| <= COALESCE_MAX_CHARS
  }

  predicate RowsOk(rows: seq<Event>, raw: seq<Event>) {
    forall i :: 0 <= i < |rows| ==> RowOk(rows[i], raw)
  }

  /** Every persisted or buffered row is one raw event or holds at most COALESCE_MAX_CHARS characters. */
  lemma {:induction false} RowsAreBounded(steps: seq<Step>)
    ensures var st := Run(EMPTY_SINK, steps); RowsOk(st.past, Raw(steps)) && RowsOk(Rows(st.pending), Raw(steps))
  {
    if steps != [] {
      var front, last := steps[..|steps| - 1], steps[|steps| - 1];
      RowsAreBounded(front);
      var m, st := Run(EMPTY_SINK, front), Run(EMPTY_SINK, steps);
      var raw, raw' := Raw(front), Raw(steps);
      RowsMono(m.past, raw, raw');
      RowsMono(Rows(m.pending), raw, raw');
      if last.PutStep? && CoalesceKey(last.e).Some? {
        RowsOfPutDelta(m, last.e, raw');
      }
    }
  }

  lemma RowsMono(rows: seq<Event>, raw: seq<Event>, raw': seq<Event>)
    requires RowsOk(rows, raw) && forall e :: e in raw ==> e in raw'
    ensures RowsOk(rows, raw')
  {
  }

  lemma RowsOfPutDelta(m: Sink, e: Event, raw: seq<Event>)
    requires Inv(m) && CoalesceKey(e).Some? && e in raw
    requires RowsOk(m.past, raw) && RowsOk(Rows(m.pending), raw)
    ensures RowsOk(PutDelta(m, e).past, raw) && RowsOk(Rows(PutDelta(m, e).pending), raw)
  {
    var i := IndexOf(m.pending, Scope(e));
    var rows := Rows(m.pending);
    forall k | 0 <= k < |m.pending| ensures RowOk(m.pending[k].row, raw) { assert RowOk(rows[k], raw); }
  }
}
