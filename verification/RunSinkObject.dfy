/**
  The run sink as the mutable object it is (agent/run_sink.py): events are
  dictionaries on the heap, a buffered row is a private copy that later deltas
  are appended to in place, and rows and events that were handed out are never
  written again.  Each method refines the step of the same name in RunSink.
 */
module RunSinkObject {
  import opened Common
  import opened RunSink

  /** An event dictionary; `inner` is its "event" entry when that is a dictionary.
      The sink assigns no entry but "content". */
  class EventDict {
    const kind: Kind
    var content: Option<string>
    const parentCallId: CallId
    const inner: EventDict?
    const payload: string

    constructor (kind: Kind, content: Option<string>, parentCallId: CallId, inner: EventDict?, payload: string)
      ensures this.kind == kind && this.content == content && this.parentCallId == parentCallId
      ensures this.inner == inner && this.payload == payload
    {
      this.kind, this.content, this.parentCallId, this.inner, this.payload :=
        kind, content, parentCallId, inner, payload;
    }

    function View(): Event
      reads this, inner
    {
      Event(kind, content, parentCallId,
            if inner == null then None else Some(Inner(inner.kind, inner.content)), payload)
    }

    /** The dictionaries the sink may write when it merges into this row. */
    ghost function Written(): set<EventDict> {
      {this} + if kind == Subagent && inner != null then {inner} else {}
    }
  }

  /** A subscriber's unbounded queue. */
  class Queue {
    var items: seq<EventDict>
    constructor ()
      ensures items == []
    {
      items := [];
    }
  }

  datatype Buffer = Buffer(scope: CallId, key: Key, row: EventDict)
  datatype LogRow = LogRow(seqNo: nat, payload: Event)

  /** The rows of the event log, read back in order. */
  function Payloads(log: seq<LogRow>): seq<Event> {
    seq(|log|, i requires 0 <= i < |log| => log[i].payload)
  }

  /** The rows of the log when persisting the n-th event reaches the table exactly if `inserts(n)`. */
  function Logged(past: seq<Event>, inserts: nat -> bool): seq<LogRow> {
    if past == [] then []
    else
      var n := |past|;
      Logged(past[..n - 1], inserts) + if inserts(n) then [LogRow(n, past[n - 1])] else []
  }

  lemma LoggedSnoc(past: seq<Event>, e: Event, inserts: nat -> bool)
    ensures var n := |past| + 1;
            Logged(past + [e], inserts) == Logged(past, inserts) + if inserts(n) then [LogRow(n, e)] else []
  {
    assert (past + [e])[..|past|] == past;
  }

  /** Row numbers increase, and row n holds the n-th persisted event. */
  predicate LogOk(log: seq<LogRow>, past: seq<Event>, inserts: nat -> bool) {
    && (forall i :: 0 <= i < |log| ==> RowOfPast(log[i], past) && inserts(log[i].seqNo))
    && forall i, j :: 0 <= i < j < |log| ==> log[i].seqNo < log[j].seqNo
  }

  predicate RowOfPast(row: LogRow, past: seq<Event>) {
    1 <= row.seqNo <= |past| && row.payload == past[row.seqNo - 1]
  }

  /** Whatever inserts are lost, the others are found under their numbers. */
  lemma {:induction false} LoggedIsNumbered(past: seq<Event>, inserts: nat -> bool)
    ensures LogOk(Logged(past, inserts), past, inserts)
  {
    if past != [] {
      var front := past[..|past| - 1];
      LoggedIsNumbered(front, inserts);
      var log := Logged(front, inserts);
      forall i | 0 <= i < |log| ensures RowOfPast(log[i], past) { assert RowOfPast(log[i], front); }
    }
  }

  /** A log that lost no insert replays the in-memory past exactly. */
  lemma {:induction false} LogReplaysPast(past: seq<Event>, inserts: nat -> bool)
    requires forall n :: 1 <= n <= |past| ==> inserts(n)
    ensures Payloads(Logged(past, inserts)) == past
  {
    if past != [] {
      var front, e := past[..|past| - 1], past[|past| - 1];
      LogReplaysPast(front, inserts);
      assert Payloads(Logged(past, inserts)) == Payloads(Logged(front, inserts)) + [e];
      assert past == front + [e];
    }
  }

  /** The persisted rows read as `views`, and nothing they reach is private to the sink. */
  ghost predicate PastOk(past: seq<EventDict>, views: seq<Event>, shared: set<EventDict>)
    reads shared
  {
    && |past| == |views|
    && forall i :: 0 <= i < |past| ==>
         past[i] in shared && (past[i].inner != null ==> past[i].inner in shared) && past[i].View() == views[i]
  }

  ghost predicate BufferOk(b: Buffer, slot: Slot, owned: set<EventDict>, shared: set<EventDict>)
    reads owned, shared
  {
    && b.scope == slot.scope && b.key == slot.key
    && b.row.Written() <= owned && b.row.inner != b.row
    && (b.row.inner != null ==> b.row.inner in b.row.Written() + shared)
    && b.row.View() == slot.row
  }

  /** The open buffers read as `slots`; each writes only its own private dictionaries. */
  ghost predicate BuffersOk(pending: seq<Buffer>, slots: seq<Slot>, owned: set<EventDict>, shared: set<EventDict>)
    reads owned, shared
  {
    && |pending| == |slots|
    && (forall i :: 0 <= i < |pending| ==> BufferOk(pending[i], slots[i], owned, shared))
    && forall i, j :: 0 <= i < j < |pending| ==> pending[i].row.Written() !! pending[j].row.Written()
  }

  lemma ReleaseBuffer(pending: seq<Buffer>, slots: seq<Slot>, owned: set<EventDict>, shared: set<EventDict>, i: nat)
    requires BuffersOk(pending, slots, owned, shared) && owned !! shared && i < |pending|
    ensures var w := pending[i].row.Written();
            BuffersOk(RemoveAt(pending, i), RemoveAt(slots, i), owned - w, shared + w)
  {
    var w := pending[i].row.Written();
    var p, q := RemoveAt(pending, i), RemoveAt(slots, i);
    forall k | 0 <= k < |p| ensures BufferOk(p[k], q[k], owned - w, shared + w) {
      var k' := if k < i then k else k + 1;
      assert BufferOk(pending[k'], slots[k'], owned, shared);
      assert pending[k'].row.Written() !! w;
    }
  }

  lemma PastMore(past: seq<EventDict>, views: seq<Event>, shared: set<EventDict>, w: set<EventDict>)
    requires PastOk(past, views, shared)
    ensures PastOk(past, views, shared + w)
  {
  }

  lemma PastSnoc(past: seq<EventDict>, views: seq<Event>, shared: set<EventDict>, row: EventDict)
    requires PastOk(past, views, shared)
    requires row in shared && (row.inner != null ==> row.inner in shared)
    ensures PastOk(past + [row], views + [row.View()], shared)
  {
  }

  predicate Distinct(qs: seq<Queue>) {
    forall i, j :: 0 <= i < j < |qs| ==> qs[i] != qs[j]
  }

  /** The concrete state represents `model`, with `owned` private and `shared` handed out or handed in. */
  ghost predicate Good(past: seq<EventDict>, pending: seq<Buffer>, model: Sink, owned: set<EventDict>,
                       shared: set<EventDict>)
    reads owned, shared
  {
    && owned !! shared && Inv(model)
    && PastOk(past, model.past, shared)
    && BuffersOk(pending, model.pending, owned, shared)
  }

  lemma GoodFlushAt(past: seq<EventDict>, pending: seq<Buffer>, model: Sink, owned: set<EventDict>,
                    shared: set<EventDict>, i: nat)
    requires Good(past, pending, model, owned, shared) && i < |pending|
    ensures var row, w := pending[i].row, pending[i].row.Written();
            Good(past + [row], RemoveAt(pending, i), FlushAt(model, i), owned - w, shared + w)
    ensures FlushAt(model, i).past == model.past + [pending[i].row.View()]
  {
    var row := pending[i].row;
    assert BufferOk(pending[i], model.pending[i], owned, shared);
    FlushAtInv(model, i);
    ReleaseBuffer(pending, model.pending, owned, shared, i);
    PastMore(past, model.past, shared, row.Written());
    PastSnoc(past, model.past, shared + row.Written(), row);
  }

  lemma GoodPersist(past: seq<EventDict>, model: Sink, owned: set<EventDict>, shared: set<EventDict>, e: EventDict)
    requires Good(past, [], model, owned, shared)
    requires e in shared && (e.inner != null ==> e.inner in shared)
    ensures Good(past + [e], [], model.(past := model.past + [e.View()]), owned, shared)
  {
    PastSnoc(past, model.past, shared, e);
  }

  lemma GoodShare(past: seq<EventDict>, pending: seq<Buffer>, model: Sink, owned: set<EventDict>,
                  shared: set<EventDict>, more: set<EventDict>)
    requires Good(past, pending, model, owned, shared) && more !! owned
    ensures Good(past, pending, model, owned, shared + more)
  {
    forall k | 0 <= k < |pending| ensures BufferOk(pending[k], model.pending[k], owned, shared + more) {
      assert BufferOk(pending[k], model.pending[k], owned, shared);
    }
  }

  lemma GoodOpen(past: seq<EventDict>, pending: seq<Buffer>, model: Sink, owned: set<EventDict>,
                 shared: set<EventDict>, b: Buffer, slot: Slot)
    requires Good(past, pending, model, owned, shared)
    requires b.row.Written() !! owned + shared && BufferOk(b, slot, owned + b.row.Written(), shared)
    requires SlotOk(slot) && IndexOf(model.pending, slot.scope) == |model.pending|
    ensures Good(past, pending + [b], model.(pending := model.pending + [slot]), owned + b.row.Written(), shared)
  {
    PendingAppend(model.pending, slot);
    BuffersSnoc(pending, model.pending, owned, shared, b, slot);
  }

  class RunSinkObj {
    var past: seq<EventDict>
    var pending: seq<Buffer>
    var done: bool
    var seqNo: nat
    var log: seq<LogRow>
    var subscribers: seq<Queue>
    const inserts: nat -> bool       // whether the n-th row reaches the table

    ghost var model: Sink            // the value this object represents
    ghost var owned: set<EventDict>  // the dictionaries of the open buffers
    ghost var shared: set<EventDict> // everything that was handed out or handed in

    ghost predicate Valid()
      reads this, owned, shared
    {
      && Good(past, pending, model, owned, shared) && log == Logged(model.past, inserts)
      && seqNo == |past| && done == model.done && Distinct(subscribers)
    }

    constructor (inserts: nat -> bool)
      ensures Valid() && model == EMPTY_SINK && owned == {} && shared == {} && subscribers == [] && log == []
      ensures this.inserts == inserts
    {
      this.inserts := inserts;
      past, pending, done, seqNo, log, subscribers := [], [], false, 0, [], [];
      model, owned, shared := EMPTY_SINK, {}, {};
    }

    /** One log row, if the insert works, and one `past` entry, which is always appended. */
    method Persist(row: EventDict, ghost views: seq<Event>)
      requires log == Logged(views, inserts) && seqNo == |views|
      modifies this`past, this`seqNo, this`log
      ensures past == old(past) + [row] && seqNo == old(seqNo) + 1
      ensures log == Logged(views + [row.View()], inserts)
    {
      LoggedSnoc(views, row.View(), inserts);
      seqNo := seqNo + 1;
      if inserts(seqNo) {
        log := log + [LogRow(seqNo, row.View())];
      }
      past := past + [row];
    }

    /** The buffer at `i` leaves the pending table and becomes a persisted row. */
    method FlushScope(i: nat)
      requires Valid() && i < |pending|
      modifies this`past, this`seqNo, this`log, this`model, this`pending, this`owned, this`shared
      ensures Valid() && model == FlushAt(old(model), i)
      ensures owned <= old(owned) && shared >= old(shared)
    {
      var row := pending[i].row;
      ghost var past0, pending0, model0, owned0, shared0 := past, pending, model, owned, shared;
      ghost var w := row.Written();
      pending := RemoveAt(pending, i);
      model, owned, shared := FlushAt(model, i), owned - w, shared + w;
      Persist(row, model0.past);
      GoodFlushAt(past0, pending0, model0, owned0, shared0, i);
    }

    method Flush()
      requires Valid()
      modifies this`past, this`seqNo, this`log, this`model, this`pending, this`owned, this`shared
      ensures Valid() && model == RunSink.Flush(old(model))
      ensures owned <= old(owned) && shared >= old(shared)
      ensures pending == []
    {
      ghost var m := model;
      while pending != []
        invariant Valid() && owned <= old(owned) && shared >= old(shared)
        invariant RunSink.Flush(model) == RunSink.Flush(m)
        decreases |pending|
      {
        FlushFirst(model);
        FlushScope(0);
      }
      assert Rows(model.pending) == [];
    }

    method FindScope(s: CallId) returns (i: nat)
      requires Valid()
      ensures i == IndexOf(model.pending, s)
    {
      i := 0;
      while i < |pending| && pending[i].scope != s
        invariant i <= |pending|
        invariant forall k :: 0 <= k < i ==> model.pending[k].scope != s
      {
        assert BufferOk(pending[i], model.pending[i], owned, shared);
        i := i + 1;
      }
      if i < |pending| { assert BufferOk(pending[i], model.pending[i], owned, shared); }
    }

    /** Appends a delta to the open buffer at `i`, in place, and touches nothing that was handed out. */
    method Merge(i: nat, e: EventDict)
      requires Valid() && i < |pending| && e in shared && (e.inner != null ==> e.inner in shared)
      requires CoalesceKey(e.View()) == Some(pending[i].key)
      modifies this`model, owned
      ensures Valid() && owned == old(owned)
      ensures model == old(model).(pending := MergeSlot(old(model).pending, i, e.View()))
    {
      assert BufferOk(pending[i], model.pending[i], owned, shared);
      MergeRow(pending, i, e, past, model, owned, shared);
      model := model.(pending := MergeSlot(model.pending, i, e.View()));
    }

    /** A new buffer opened for a scope that has none. */
    method Open(e: EventDict)
      requires Valid() && e in shared && (e.inner != null ==> e.inner in shared)
      requires CoalesceKey(e.View()).Some? && IndexOf(model.pending, Scope(e.View())) == |pending|
      modifies this`model, this`pending, this`owned
      ensures Valid() && fresh(owned - old(owned))
      ensures model == old(model).(pending := old(model).pending + [Slot(Scope(e.View()),
          CoalesceKey(e.View()).value, e.View())])
    {
      ghost var slot := Slot(Scope(e.View()), CoalesceKey(e.View()).value, e.View());
      var row := CopyDelta(e);
      var b := Buffer(Scope(e.View()), CoalesceKey(e.View()).value, row);
      ghost var pending0, model0, owned0 := pending, model, owned;
      pending := pending + [b];
      model, owned := model.(pending := model.pending + [slot]), owned + row.Written();
      GoodOpen(past, pending0, model0, owned0, shared, b, slot);
    }

    method PutDelta(e: EventDict)
      requires Valid() && e in shared && (e.inner != null ==> e.inner in shared) && CoalesceKey(e.View()).Some?
      modifies this`past, this`seqNo, this`log, this`model, this`pending, this`owned, this`shared, owned
      ensures Valid() && fresh(owned - old(owned)) && shared >= old(shared)
      ensures model == RunSink.PutDelta(old(model), e.View())
    {
      var key := CoalesceKey(e.View()).value;
      var i := FindScope(Scope(e.View()));
      if i < |pending| {
        assert BufferOk(pending[i], model.pending[i], owned, shared);
        if pending[i].key == key && |Content(pending[i].row.View())| + |Content(e.View())| <= COALESCE_MAX_CHARS {
          Merge(i, e);
          return;
        }
      }
      Reopen(i, e);
    }

    /** The buffer of the event's scope, if there is one, is persisted and a new one opened. */
    method Reopen(i: nat, e: EventDict)
      requires Valid() && e in shared && (e.inner != null ==> e.inner in shared) && CoalesceKey(e.View()).Some?
      requires i == IndexOf(model.pending, Scope(e.View()))
      modifies this`past, this`seqNo, this`log, this`model, this`pending, this`owned, this`shared
      ensures Valid() && fresh(owned - old(owned)) && shared >= old(shared)
      ensures var m := if i < |old(model).pending| then FlushAt(old(model), i) else old(model);
              model == m.(pending := m.pending + [Slot(Scope(e.View()), CoalesceKey(e.View()).value, e.View())])
    {
      if i < |pending| {
        FlushAtInv(model, i);
        FlushScope(i);
      }
      Open(e);
    }

    method PutOther(e: EventDict)
      requires Valid() && e in shared && (e.inner != null ==> e.inner in shared)
      modifies this`past, this`seqNo, this`log, this`model, this`pending, this`owned, this`shared
      ensures Valid() && owned <= old(owned) && shared >= old(shared)
      ensures model == RunSink.PutOther(old(model), e.View())
    {
      Flush();
      ghost var past0 := past;
      Persist(e, model.past);
      GoodPersist(past0, model, owned, shared, e);
      model := model.(past := model.past + [e.View()]);
    }

    /** The recording half of a put. */
    method Record(e: EventDict)
      requires Valid() && e in shared && (e.inner != null ==> e.inner in shared)
      modifies this`past, this`seqNo, this`log, this`model, this`pending, this`owned, this`shared, this`done, owned
      ensures Valid() && model == RunSink.Put(old(model), e.View())
      ensures fresh(owned - old(owned)) && shared >= old(shared) && e.View() == old(e.View())
    {
      if CoalesceKey(e.View()).Some? {
        PutDelta(e);
      } else {
        PutOther(e);
      }
      if e.kind == Done {
        Flush();
        done, model := true, model.(done := true);
      }
    }

    /** An event that was handed in is not private. */
    ghost method Share(e: EventDict)
      requires Valid() && e !in owned && (e.inner != null ==> e.inner !in owned)
      modifies this`shared
      ensures Valid() && e in shared && (e.inner != null ==> e.inner in shared) && shared >= old(shared)
    {
      var more := {e} + if e.inner == null then {} else {e.inner};
      GoodShare(past, pending, model, owned, shared, more);
      shared := shared + more;
    }

    /** The put of the source: the log coalesces, every subscriber gets the raw event, and of the dictionaries
        only the private ones are written (see the frame). */
    method Put(e: EventDict)
      requires Valid() && e !in owned && (e.inner != null ==> e.inner !in owned)
      modifies this, owned, subscribers
      ensures Valid() && model == RunSink.Put(old(model), old(e.View()))
      ensures fresh(owned - old(owned)) && shared >= old(shared) + {e} && e.View() == old(e.View())
      ensures subscribers == old(subscribers)
      ensures forall k :: 0 <= k < |subscribers| ==> subscribers[k].items == old(subscribers[k].items) + [e]
    {
      Share(e);
      Record(e);
      FanOut(subscribers, e);
    }

    /** Past snapshot and queue registration in one step. */
    method Subscribe() returns (snapshot: seq<EventDict>, q: Queue)
      requires Valid()
      modifies this
      ensures Valid() && model == RunSink.Flush(old(model)) && owned <= old(owned) && shared >= old(shared)
      ensures PastOk(snapshot, model.past, shared)
      ensures fresh(q) && q.items == [] && subscribers == old(subscribers) + [q]
    {
      Flush();
      q := new Queue();
      snapshot := past;
      subscribers := subscribers + [q];
    }
  }

  method FanOut(subs: seq<Queue>, e: EventDict)
    requires Distinct(subs)
    modifies subs
    ensures forall k :: 0 <= k < |subs| ==> subs[k].items == old(subs[k].items) + [e]
  {
    for n := 0 to |subs|
      invariant forall k :: 0 <= k < n ==> subs[k].items == old(subs[k].items) + [e]
      invariant forall k :: n <= k < |subs| ==> subs[k].items == old(subs[k].items)
    {
      subs[n].items := subs[n].items + [e];
    }
  }

  /** A deep-enough private copy of a delta. */
  method CopyDelta(e: EventDict) returns (c: EventDict)
    ensures fresh(c.Written()) && c.View() == e.View() && c.inner != c
    ensures c.inner != null ==> c.inner in c.Written() || c.inner == e.inner
  {
    var inner := e.inner;
    if e.kind == Subagent && e.inner != null {
      inner := new EventDict(e.inner.kind, e.inner.content, e.inner.parentCallId, e.inner.inner, e.inner.payload);
    }
    c := new EventDict(e.kind, e.content, e.parentCallId, inner, e.payload);
  }

  /** Appends the text of the delta `e` to the row, writing one dictionary of the row. */
  method AppendText(row: EventDict, e: EventDict, ghost owned: set<EventDict>)
    requires row.Written() <= owned && row.inner != row && e !in owned && (e.inner != null ==> e.inner !in owned)
    requires CoalesceKey(row.View()).Some? && CoalesceKey(e.View()) == CoalesceKey(row.View())
    modifies row.Written()
    ensures row.View() == MergeInto(old(row.View()), old(e.View()))
    ensures e.View() == old(e.View())
  {
    if row.kind == Subagent {
      row.inner.content := Some(row.inner.content.value + e.inner.content.value);
    } else {
      row.content := Some(row.content.value + e.content.value);
    }
  }

  method MergeRow(pending: seq<Buffer>, i: nat, e: EventDict, ghost past: seq<EventDict>, ghost model: Sink,
                  ghost owned: set<EventDict>, ghost shared: set<EventDict>)
    requires Good(past, pending, model, owned, shared) && i < |pending|
    requires e in shared && (e.inner != null ==> e.inner in shared)
    requires SlotOk(model.pending[i]) && CoalesceKey(e.View()) == Some(model.pending[i].key)
    requires Scope(e.View()) == model.pending[i].scope
    modifies pending[i].row.Written()
    ensures Good(past, pending, model.(pending := MergeSlot(model.pending, i, e.View())), owned, shared)
    ensures e.View() == old(e.View())
  {
    assert BufferOk(pending[i], model.pending[i], owned, shared);
    MergePending(model.pending, i, e.View(), NO_CALL);
    AppendText(pending[i].row, e, owned);
    ghost var q := MergeSlot(model.pending, i, e.View());
    forall k | 0 <= k < |pending| ensures BufferOk(pending[k], q[k], owned, shared) {
      assert old(BufferOk(pending[k], model.pending[k], owned, shared));
      if k != i { assert pending[k].row.Written() !! pending[i].row.Written(); }
    }
  }

  lemma BuffersSnoc(pending: seq<Buffer>, slots: seq<Slot>, owned: set<EventDict>, shared: set<EventDict>, b: Buffer,
      slot: Slot)
    requires BuffersOk(pending, slots, owned, shared)
    requires b.row.Written() !! owned && BufferOk(b, slot, owned + b.row.Written(), shared)
    ensures BuffersOk(pending + [b], slots + [slot], owned + b.row.Written(), shared)
  {
    var p, q, own := pending + [b], slots + [slot], owned + b.row.Written();
    forall k | 0 <= k < |p| ensures BufferOk(p[k], q[k], own, shared) {
      if k < |pending| { assert BufferOk(pending[k], slots[k], owned, shared); }
    }
    forall i, j | 0 <= i < j < |p| ensures p[i].row.Written() !! p[j].row.Written() {
      assert BufferOk(pending[i], slots[i], owned, shared);
    }
  }

  /** Flushing the first buffer and then the rest is flushing all. */
  lemma FlushFirst(st: Sink)
    requires st.pending != []
    ensures RunSink.Flush(FlushAt(st, 0)) == RunSink.Flush(st)
  {
    var p := st.pending;
    assert p[..0] + p[1..] == p[1..];
    assert Rows(p) == [p[0].row] + Rows(p[1..]);
  }
}
