/**
  What coalescing buys (agent/run_sink.py): a streamed delta joins the open row of its stream
  while there is room, so the log of a long answer is short, and streams of
  different scopes do not break up each other's rows.
 */
module Coalescing {
  import opened Common
  import opened RunSink

  /** The open buffer of a scope. */
  function OpenRow(st: Sink, s: CallId): Option<Event> {
    var i := IndexOf(st.pending, s);
    if i < |st.pending| then Some(st.pending[i].row) else None
  }

  /** The stream of the delta is the open one of its scope, and the row has room for it. */
  predicate Joins(row: Option<Event>, e: Event)
    requires CoalesceKey(e).Some?
  {
    && row.Some? && CoalesceKey(row.value) == CoalesceKey(e)
    && |Content(row.value)| + |Content(e)| <= COALESCE_MAX_CHARS
  }

  /** The open row of the delta's scope and the rows it logs, before and after. */
  predicate DeltaRow(row: Option<Event>, row': Option<Event>, logged: seq<Event>, e: Event)
    requires CoalesceKey(e).Some?
  {
    && row'.Some? && CoalesceKey(row'.value) == CoalesceKey(e) && Scope(row'.value) == Scope(e)
    && if Joins(row, e)
       then logged == [] && row'.value.payload == row.value.payload
            && Content(row'.value) == Content(row.value) + Content(e)
       else row' == Some(e) && logged == if row.Some? then [row.value] else []
  }

  lemma JoinEffect(st: Sink, i: nat, e: Event, t: CallId)
    requires Inv(st) && i < |st.pending| && CoalesceKey(e) == Some(st.pending[i].key)
    requires Scope(e) == st.pending[i].scope
    ensures var st' := st.(pending := MergeSlot(st.pending, i, e));
            && PendingOk(st'.pending)
            && OpenRow(st', Scope(e)) == Some(MergeInto(st.pending[i].row, e))
            && (t != Scope(e) ==> OpenRow(st', t) == OpenRow(st, t))
  {
    MergePending(st.pending, i, e, t);
    var p, q := st.pending, MergeSlot(st.pending, i, e);
    IndexIs(q, Scope(e), i);
    SameScopes(p, q, t);
  }

  lemma {:induction false} SameScopes(p: seq<Slot>, q: seq<Slot>, t: CallId)
    requires |p| == |q| && forall k :: 0 <= k < |p| ==> p[k].scope == q[k].scope
    ensures IndexOf(p, t) == IndexOf(q, t)
  {
    if p != [] { SameScopes(p[1..], q[1..], t); }
  }

  lemma AppendEffect(p: seq<Slot>, b: Slot, t: CallId)
    requires PendingOk(p) && SlotOk(b) && IndexOf(p, b.scope) == |p|
    ensures PendingOk(p + [b]) && IndexOf(p + [b], b.scope) == |p|
    ensures t != b.scope ==> IndexOf(p + [b], t) == if IndexOf(p, t) < |p| then IndexOf(p, t) else |p| + 1
  {
    PendingAppend(p, b);
    IndexIs(p + [b], b.scope, |p|);
    var j := IndexOf(p, t);
    if j < |p| { IndexIs(p + [b], t, j); }
  }

  lemma FlushAtEffect(st: Sink, i: nat, t: CallId)
    requires Inv(st) && i < |st.pending| && t != st.pending[i].scope
    ensures OpenRow(FlushAt(st, i), t) == OpenRow(st, t)
  {
    FlushAtInv(st, i);
    var p, q := st.pending, FlushAt(st, i).pending;
    var j := IndexOf(p, t);
    if j < |p| { IndexIs(q, t, if j < i then j else j - 1); }
  }

  lemma OpenEffect(st: Sink, e: Event, t: CallId)
    requires Inv(st) && CoalesceKey(e).Some? && IndexOf(st.pending, Scope(e)) == |st.pending|
    ensures var st' := st.(pending := st.pending + [Slot(Scope(e), CoalesceKey(e).value, e)]);
            && OpenRow(st', Scope(e)) == Some(e) && (t != Scope(e) ==> OpenRow(st', t) == OpenRow(st, t))
  {
    AppendEffect(st.pending, Slot(Scope(e), CoalesceKey(e).value, e), t);
  }

  /** The step of a delta from `st` to `st'`, seen from any scope. */
  predicate DeltaStep(st: Sink, st': Sink, logged: seq<Event>, e: Event, t: CallId)
    requires CoalesceKey(e).Some?
  {
    var row := OpenRow(st, Scope(e));
    && st'.past == st.past + logged && st'.done == st.done
    && DeltaRow(row, OpenRow(st', Scope(e)), logged, e)
    && |st'.past| + |st'.pending| == |st.past| + |st.pending| + (if Joins(row, e) then 0 else 1)
    && (t != Scope(e) ==> OpenRow(st', t) == OpenRow(st, t))
  }

  lemma JoinStep(st: Sink, e: Event, t: CallId)
    requires Inv(st) && CoalesceKey(e).Some? && Joins(OpenRow(st, Scope(e)), e)
    ensures DeltaStep(st, PutDelta(st, e), [], e, t)
  {
    var i := IndexOf(st.pending, Scope(e));
    assert SlotOk(st.pending[i]);
    JoinEffect(st, i, e, t);
  }

  lemma ReopenStep(st: Sink, e: Event, t: CallId) returns (logged: seq<Event>)
    requires Inv(st) && CoalesceKey(e).Some? && !Joins(OpenRow(st, Scope(e)), e)
    ensures DeltaStep(st, PutDelta(st, e), logged, e, t)
  {
    var i := IndexOf(st.pending, Scope(e));
    logged := [];
    if i == |st.pending| {
      OpenEffect(st, e, t);
    } else {
      assert SlotOk(st.pending[i]);
      FlushAtInv(st, i);
      if t != Scope(e) { FlushAtEffect(st, i, t); }
      OpenEffect(FlushAt(st, i), e, t);
      logged := [st.pending[i].row];
    }
  }

  lemma AnyStep(st: Sink, e: Event, t: CallId) returns (logged: seq<Event>)
    requires Inv(st) && CoalesceKey(e).Some?
    ensures DeltaStep(st, PutDelta(st, e), logged, e, t)
  {
    if Joins(OpenRow(st, Scope(e)), e) {
      JoinStep(st, e, t);
      logged := [];
    } else {
      logged := ReopenStep(st, e, t);
    }
  }

  lemma PutIsPutDelta(st: Sink, e: Event)
    requires Inv(st) && CoalesceKey(e).Some?
    ensures Put(st, e) == PutDelta(st, e)
  {
  }

  /** The effect of a delta: it joins the open row of its stream, adding no row and no buffer, or the open row of its
      scope, if there is one, is logged and a buffer is opened with the delta alone; the buffers of other scopes stay
      as they are. */
  lemma DeltaEffect(st: Sink, e: Event, t: CallId) returns (logged: seq<Event>)
    requires Inv(st) && CoalesceKey(e).Some?
    ensures Inv(Put(st, e)) && DeltaStep(st, Put(st, e), logged, e, t)
  {
    PutIsPutDelta(st, e);
    logged := AnyStep(st, e, t);
    PutDeltaRenders(st, e, t);
  }

  // ---------- A stretch of deltas ----------

  function Text(e: Event): string {
    if CoalesceKey(e).Some? then Content(e) else ""
  }

  function AllText(es: seq<Event>): string {
    if es == [] then "" else AllText(es[..|es| - 1]) + Text(es[|es| - 1])
  }

  lemma AllTextSnoc(es: seq<Event>, e: Event)
    ensures AllText(es + [e]) == AllText(es) + Text(e)
  {
    assert (es + [e])[..|es|] == es;
  }

  /** The deltas of one scope. */
  function Of(es: seq<Event>, s: CallId): seq<Event> {
    if es == [] then []
    else
      var e := es[|es| - 1];
      Of(es[..|es| - 1], s) + if CoalesceKey(e).Some? && Scope(e) == s then [e] else []
  }

  lemma OfSnoc(es: seq<Event>, e: Event, s: CallId)
    ensures Of(es + [e], s) == Of(es, s) + if CoalesceKey(e).Some? && Scope(e) == s then [e] else []
  {
    assert (es + [e])[..|es|] == es;
  }

  function Puts(es: seq<Event>): (steps: seq<Step>)
    ensures |steps| == |es|
  {
    if es == [] then [] else Puts(es[..|es| - 1]) + [PutStep(es[|es| - 1])]
  }

  predicate Deltas(es: seq<Event>) {
    forall i :: 0 <= i < |es| ==> CoalesceKey(es[i]).Some?
  }

  /** All deltas of the scope belong to the stream `k`. */
  predicate OneStream(es: seq<Event>, s: CallId, k: Key) {
    forall i :: 0 <= i < |es| && Scope(es[i]) == s ==> CoalesceKey(es[i]) == Some(k)
  }

  /** Two neighbouring rows never fit into one. */
  predicate Full(rows: seq<Event>) {
    forall i :: 0 <= i < |rows| - 1 ==> |Text(rows[i])| + |Text(rows[i + 1])| > COALESCE_MAX_CHARS
  }

  /** The rows hold the text of the deltas and no two neighbours could have been one. */
  predicate Packed(rows: seq<Event>, es: seq<Event>) {
    AllText(rows) == AllText(es) && Full(rows) && (rows == [] <==> es == [])
  }

  /** The rows of a scope since the log held `base` rows: the logged ones, then the open one. */
  function LaneOf(st: Sink, base: nat, s: CallId): seq<Event>
    requires base <= |st.past|
  {
    Of(st.past[base..], s) + if OpenRow(st, s).Some? then [OpenRow(st, s).value] else []
  }

  lemma OpenRowOk(st: Sink, s: CallId)
    requires Inv(st) && OpenRow(st, s).Some?
    ensures CoalesceKey(OpenRow(st, s).value).Some? && Scope(OpenRow(st, s).value) == s
  {
    assert SlotOk(st.pending[IndexOf(st.pending, s)]);
  }

  lemma PackedJoin(closed: seq<Event>, row: Event, row': Event, es: seq<Event>, e: Event)
    requires Packed(closed + [row], es) && Text(row') == Text(row) + Text(e)
    ensures Packed(closed + [row'], es + [e])
  {
    AllTextSnoc(closed, row);
    AllTextSnoc(closed, row');
    AllTextSnoc(es, e);
    Assoc(AllText(closed), Text(row), Text(e));
    var a, b := closed + [row], closed + [row'];
    forall i | 0 <= i < |b| - 1 ensures |Text(b[i])| + |Text(b[i + 1])| > COALESCE_MAX_CHARS {
      assert |Text(a[i])| + |Text(a[i + 1])| > COALESCE_MAX_CHARS;
    }
  }

  lemma PackedOpen(rows: seq<Event>, es: seq<Event>, e: Event)
    requires Packed(rows, es)
    requires rows != [] ==> |Text(rows[|rows| - 1])| + |Text(e)| > COALESCE_MAX_CHARS
    ensures Packed(rows + [e], es + [e])
  {
    AllTextSnoc(rows, e);
    AllTextSnoc(es, e);
  }

  /** A delta of the scope itself. */
  lemma LaneTakes(closed: seq<Event>, row: Option<Event>, row': Option<Event>, logged: seq<Event>, es: seq<Event>,
                  e: Event)
    requires CoalesceKey(e).Some? && DeltaRow(row, row', logged, e)
    requires Packed(closed + if row.Some? then [row.value] else [], es) && (row.None? ==> closed == [])
    requires row.Some? ==> CoalesceKey(row.value) == CoalesceKey(e)
    ensures row'.Some? && Packed(closed + logged + [row'.value], es + [e])
  {
    if Joins(row, e) {
      PackedJoin(closed, row.value, row'.value, es, e);
      assert closed + logged == closed;
    } else {
      var rows := closed + if row.Some? then [row.value] else [];
      PackedOpen(rows, es, e);
      assert closed + logged == rows;
    }
  }

  lemma OfLogged(past: seq<Event>, base: nat, logged: seq<Event>, s: CallId)
    requires base <= |past| && |logged| <= 1
    requires logged != [] ==> CoalesceKey(logged[0]).Some?
    ensures Of((past + logged)[base..], s) ==
            Of(past[base..], s) + if logged != [] && Scope(logged[0]) == s then logged else []
  {
    if logged == [] {
      assert past + logged == past;
    } else {
      assert (past + logged)[base..] == past[base..] + [logged[0]];
      OfSnoc(past[base..], logged[0], s);
      assert logged == [logged[0]];
    }
  }

  /** The rows of scope `s` are packed, and the open one belongs to stream `k`. */
  predicate LaneOk(st: Sink, base: nat, es: seq<Event>, s: CallId, k: Key) {
    && Inv(st) && base <= |st.past| && Packed(LaneOf(st, base, s), Of(es, s))
    && if OpenRow(st, s).Some? then CoalesceKey(OpenRow(st, s).value) == Some(k) else Of(st.past[base..], s) == []
  }

  lemma LaneHere(m: Sink, base: nat, es: seq<Event>, e: Event, k: Key)
    requires CoalesceKey(e) == Some(k) && LaneOk(m, base, es, Scope(e), k)
    ensures LaneOk(Put(m, e), base, es + [e], Scope(e), k) && m.past <= Put(m, e).past
  {
    var s := Scope(e);
    var logged := DeltaEffect(m, e, s);
    if OpenRow(m, s).Some? { OpenRowOk(m, s); }
    OfLogged(m.past, base, logged, s);
    OfSnoc(es, e, s);
    var closed := Of(m.past[base..], s);
    LaneTakes(closed, OpenRow(m, s), OpenRow(Put(m, e), s), logged, Of(es, s), e);
    assert LaneOf(Put(m, e), base, s) == closed + logged + [OpenRow(Put(m, e), s).value];
  }

  lemma LaneElsewhere(m: Sink, base: nat, es: seq<Event>, e: Event, s: CallId, k: Key)
    requires CoalesceKey(e).Some? && Scope(e) != s && LaneOk(m, base, es, s, k)
    ensures LaneOk(Put(m, e), base, es + [e], s, k) && m.past <= Put(m, e).past
  {
    var logged := DeltaEffect(m, e, s);
    if OpenRow(m, Scope(e)).Some? { OpenRowOk(m, Scope(e)); }
    OfLogged(m.past, base, logged, s);
    OfSnoc(es, e, s);
    assert Of(es + [e], s) == Of(es, s);
    assert Of(Put(m, e).past[base..], s) == Of(m.past[base..], s);
  }

  lemma LaneStep(m: Sink, base: nat, es: seq<Event>, e: Event, s: CallId, k: Key)
    requires CoalesceKey(e).Some? && (Scope(e) == s ==> CoalesceKey(e) == Some(k)) && LaneOk(m, base, es, s, k)
    ensures LaneOk(Put(m, e), base, es + [e], s, k) && m.past <= Put(m, e).past
  {
    if Scope(e) == s {
      LaneHere(m, base, es, e, k);
    } else {
      LaneElsewhere(m, base, es, e, s, k);
    }
  }

  lemma LaneStarts(st: Sink, s: CallId, k: Key)
    requires Inv(st) && st.pending == []
    ensures LaneOk(st, |st.past|, [], s, k)
  {
    assert st.past[|st.past|..] == [];
  }

  lemma RunPuts(st: Sink, es: seq<Event>, e: Event)
    requires Inv(st)
    ensures Puts(es + [e]) == Puts(es) + [PutStep(e)] && Run(st, Puts(es + [e])) == Put(Run(st, Puts(es)), e)
  {
    assert (es + [e])[..|es|] == es;
    assert (Puts(es) + [PutStep(e)])[..|es|] == Puts(es);
  }

  lemma {:induction false} Stretch(st: Sink, es: seq<Event>, s: CallId, k: Key)
    requires Inv(st) && st.pending == [] && Deltas(es) && OneStream(es, s, k)
    ensures st.past <= Run(st, Puts(es)).past && LaneOk(Run(st, Puts(es)), |st.past|, es, s, k)
  {
    if es == [] {
      LaneStarts(st, s, k);
    } else {
      var front, e := es[..|es| - 1], es[|es| - 1];
      assert es == front + [e];
      Stretch(st, front, s, k);
      RunPuts(st, front, e);
      LaneStep(Run(st, Puts(front)), |st.past|, front, e, s, k);
    }
  }

  /** Rows of which no two neighbours fit into one are few. */
  lemma {:induction false} FullRowsAreFew(rows: seq<Event>)
    requires Full(rows)
    ensures |rows| / 2 * COALESCE_MAX_CHARS <= |AllText(rows)|
    ensures |rows| >= 2 ==> |rows| / 2 * COALESCE_MAX_CHARS < |AllText(rows)|
  {
    if |rows| >= 2 {
      var n := |rows| - 2;
      FullPrefix(rows);
      FullRowsAreFew(rows[..n]);
      LastTwo(rows[..n], rows[n], rows[n + 1]);
      assert rows == rows[..n] + [rows[n]] + [rows[n + 1]];
    }
  }

  lemma FullPrefix(rows: seq<Event>)
    requires Full(rows) && |rows| >= 2
    ensures Full(rows[..|rows| - 2])
    ensures |Text(rows[|rows| - 2])| + |Text(rows[|rows| - 1])| > COALESCE_MAX_CHARS
  {
  }

  lemma LastTwo(front: seq<Event>, a: Event, b: Event)
    ensures |AllText(front + [a] + [b])| == |AllText(front)| + |Text(a)| + |Text(b)|
  {
    AllTextSnoc(front, a);
    AllTextSnoc(front + [a], b);
  }

  lemma LaneIsShort(m: Sink, base: nat, es: seq<Event>, s: CallId, k: Key)
    requires LaneOk(m, base, es, s, k)
    ensures var rows, text := LaneOf(m, base, s), AllText(Of(es, s));
            && AllText(rows) == text && |rows| / 2 * COALESCE_MAX_CHARS <= |text|
            && (Of(es, s) != [] && |text| <= COALESCE_MAX_CHARS ==>
                  |rows| == 1 && OpenRow(m, s) == Some(rows[0]) && Of(m.past[base..], s) == [])
  {
    var rows := LaneOf(m, base, s);
    FullRowsAreFew(rows);
    if OpenRow(m, s).Some? { assert rows == Of(m.past[base..], s) + [OpenRow(m, s).value]; }
  }

  /** Coalescing works: however the deltas of several scopes are interleaved, the rows of a scope whose deltas belong
      to one stream hold exactly their text, two neighbouring rows are longer than COALESCE_MAX_CHARS together, and so
      there are at most two rows for each COALESCE_MAX_CHARS characters and one; a text within the limit is one row,
      and the log has none of it yet. */
  lemma RowsAreFew(st: Sink, es: seq<Event>, s: CallId, k: Key)
    requires Inv(st) && st.pending == [] && Deltas(es) && OneStream(es, s, k)
    ensures var m := Run(st, Puts(es));
            && st.past <= m.past
            && var rows := LaneOf(m, |st.past|, s);
               && AllText(rows) == AllText(Of(es, s))
               && |rows| / 2 * COALESCE_MAX_CHARS <= |AllText(Of(es, s))|
               && (Of(es, s) != [] && |AllText(Of(es, s))| <= COALESCE_MAX_CHARS ==>
                     |rows| == 1 && OpenRow(m, s) == Some(rows[0]) && Of(m.past[|st.past|..], s) == [])
  {
    Stretch(st, es, s, k);
    LaneIsShort(Run(st, Puts(es)), |st.past|, es, s, k);
  }

  // ---------- Flushing ----------

  predicate DistinctScopes(es: seq<Event>) {
    forall i, j :: 0 <= i < j < |es| ==> Scope(es[i]) != Scope(es[j])
  }

  lemma {:induction false} NotAmong(p: seq<Slot>, s: CallId)
    requires forall i :: 0 <= i < |p| ==> p[i].scope != s
    ensures IndexOf(p, s) == |p|
  {
    if p != [] { NotAmong(p[1..], s); }
  }

  function Fresh(es: seq<Event>): seq<Slot>
    requires Deltas(es)
  {
    seq(|es|, i requires 0 <= i < |es| => Slot(Scope(es[i]), CoalesceKey(es[i]).value, es[i]))
  }

  lemma {:induction false} OpenedInOrder(st: Sink, es: seq<Event>)
    requires Inv(st) && st.pending == [] && Deltas(es) && DistinctScopes(es)
    ensures Run(st, Puts(es)) == st.(pending := Fresh(es))
  {
    if es != [] {
      var front, e := es[..|es| - 1], es[|es| - 1];
      assert es == front + [e];
      OpenedInOrder(st, front);
      RunPuts(st, front, e);
      forall i | 0 <= i < |front| ensures Fresh(front)[i].scope != Scope(e) {
        assert Scope(es[i]) != Scope(es[|es| - 1]);
      }
      OpensBehind(st.(pending := Fresh(front)), e);
      assert Fresh(es) == Fresh(front) + [Slot(Scope(e), CoalesceKey(e).value, e)];
    }
  }

  lemma OpensBehind(m: Sink, e: Event)
    requires Inv(m) && CoalesceKey(e).Some? && forall i :: 0 <= i < |m.pending| ==> m.pending[i].scope != Scope(e)
    ensures Put(m, e) == m.(pending := m.pending + [Slot(Scope(e), CoalesceKey(e).value, e)])
  {
    NotAmong(m.pending, Scope(e));
  }

  /** The first deltas of different scopes are logged by a flush as they came, in the order of their arrival. */
  lemma FlushedInOrder(st: Sink, es: seq<Event>)
    requires Inv(st) && st.pending == [] && Deltas(es) && DistinctScopes(es)
    ensures var m := Run(st, Puts(es)); m.past == st.past && Flush(m).past == st.past + es && Flush(m).pending == []
  {
    OpenedInOrder(st, es);
    assert Rows(Fresh(es)) == es;
  }

  /** A run is done exactly when a terminal event was put, which leaves no buffer open. */
  lemma {:induction false} DoneIff(steps: seq<Step>)
    ensures Run(EMPTY_SINK, steps).done <==>
            exists i :: 0 <= i < |steps| && steps[i].PutStep? && steps[i].e.kind == Done
    ensures steps != [] && steps[|steps| - 1].PutStep? && CoalesceKey(steps[|steps| - 1].e).None? ==>
              Run(EMPTY_SINK, steps).pending == []
  {
    if steps != [] {
      var front, last := steps[..|steps| - 1], steps[|steps| - 1];
      DoneIff(front);
      var m := Run(EMPTY_SINK, front);
      assert Run(EMPTY_SINK, steps).done == (m.done || (last.PutStep? && last.e.kind == Done));
      assert forall i :: 0 <= i < |front| ==> front[i] == steps[i];
    }
  }
}
