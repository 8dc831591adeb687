/**
  Pre-run compaction (agent/context_compaction.py, `compact_for_run`): before a
  run the saved history is folded into the rolling summary and, if it still
  does not fit, truncated at a boundary.
 */
module PreRun {
  import opened Common
  import opened Items
  import opened Turns
  import opened Estimates

  const RECENT_TURNS := 6
  const INSTRUCTION_TOKENS := 118 // the estimate of the fixed summarizer instruction

  /** The summarizer's answer; None when it raised or timed out. */
  type Reply = Option<string>

  /** The session row and the sizes a run is compacted with. */
  datatype Settings = Settings(window: nat, overhead: nat, current: string)
  datatype Outcome = Outcome(summary: string, folded: nat, send: seq<Item>)

  function Line(window: nat): nat { 70 * window / 100 }

  function Cost(cfg: Settings, summary: string, send: seq<Item>): nat {
    cfg.overhead + EstimateTokens(summary) + EstimateItems(send) + EstimateTokens(cfg.current)
  }

  /** The greatest boundary before `cut`, or 0. */
  function LastBelow(bounds: seq<nat>, cut: nat): (b: nat)
    ensures b < cut || (b == 0 && cut == 0)
    ensures b == 0 || b in bounds
  {
    if bounds == [] then 0
    else if bounds[|bounds| - 1] < cut then bounds[|bounds| - 1]
    else LastBelow(bounds[..|bounds| - 1], cut)
  }

  predicate FoldFits(history: seq<Item>, f: nat, c: nat, summary: string, window: nat)
    requires f <= c <= |history|
  {
    INSTRUCTION_TOKENS + EstimateTokens(summary) + EstimateTokens(FoldText(history[f..c])) <= window
  }

  /** The cut that is folded: `cut` itself or the next lower boundary whose text fits the summarizer. */
  function ShrinkCut(history: seq<Item>, f: nat, cut: nat, summary: string, window: nat): (c: nat)
    requires f <= cut <= |history|
    ensures f <= c <= cut
    ensures c > f ==> FoldFits(history, f, c, summary, window)
    ensures c == f || c == cut || c in Bounds(history)
    decreases cut
  {
    if cut == f || FoldFits(history, f, cut, summary, window) then cut
    else
      var lower := LastBelow(Bounds(history), cut);
      ShrinkCut(history, f, if lower > f then lower else f, summary, window)
  }

  predicate Accepted(reply: Reply, foldText: string) {
    reply.Some? && WorthKeeping(reply.value, foldText)
  }

  /** The fold stage: the new summary and cursor. */
  function Fold(history: seq<Item>, summary: string, f: nat, cfg: Settings, reply: Reply): (r: (string, nat))
    requires f <= |history|
    ensures f <= r.1 <= |history|
  {
    KeepKCutIsBoundary(history, RECENT_TURNS, RECENT_TOOL_TURNS);
    var cut := KeepKCut(history, RECENT_TURNS, RECENT_TOOL_TURNS);
    if cut <= f then (summary, f)
    else
      var c := ShrinkCut(history, f, cut, summary, cfg.window);
      if c > f && FoldText(history[f..c]) != "" && Accepted(reply, FoldText(history[f..c]))
      then (Strip(reply.value), c) else (summary, f)
  }

  /** The items from position c on. */
  function Tail(send: seq<Item>, c: nat): (t: seq<Item>)
    ensures c <= |send| ==> t == send[c..]
  {
    if c <= |send| then send[c..] else []
  }

  /** The first boundary, from k on, whose suffix fits the line; else the last boundary. */
  function FirstFit(send: seq<Item>, bounds: seq<nat>, k: nat, base: nat, line: nat): (c: nat)
    requires k < |bounds|
    ensures c in bounds
    decreases |bounds| - k
  {
    if base + EstimateItems(Tail(send, bounds[k])) <= line || k == |bounds| - 1 then bounds[k]
    else FirstFit(send, bounds, k + 1, base, line)
  }

  function TruncateToFit(send: seq<Item>, base: nat, line: nat): seq<Item> {
    var bounds := Bounds(send);
    if bounds == [] then send else Tail(send, FirstFit(send, bounds, 0, base, line))
  }

  /** The last stage: what is sent for a settled summary and cursor. */
  function SendFrom(history: seq<Item>, summary: string, f: nat, cfg: Settings): seq<Item>
    requires f <= |history|
  {
    if Cost(cfg, summary, history[f..]) <= Line(cfg.window) then history[f..]
    else TruncateToFit(history[f..], Cost(cfg, summary, []), Line(cfg.window))
  }

  function CompactFrom(summary: string, f: nat, history: seq<Item>, cfg: Settings, reply: Reply): Outcome
    requires f <= |history|
  {
    if Cost(cfg, summary, history[f..]) <= Line(cfg.window) then Outcome(summary, f, history[f..])
    else
      var (summary', f') := Fold(history, summary, f, cfg, reply);
      Outcome(summary', f', SendFrom(history, summary', f', cfg))
  }

  /** `compact_for_run` on a session row (summary, folded).  `enabled` is the user's switch; `fault` stands for
      any internal error, which bypasses compaction; a cursor beyond the history counts as 0. */
  function Compact(enabled: bool, fault: bool, summary: string, folded: int, history: seq<Item>,
                   cfg: Settings, reply: Reply): Outcome
  {
    if !enabled || fault then Outcome("", 0, history)
    else CompactFrom(summary, if 0 <= folded <= |history| then folded else 0, history, cfg, reply)
  }

  // ---------- What is promised ----------

  predicate IsSuffix(send: seq<Item>, history: seq<Item>) {
    |send| <= |history| && send == history[|history| - |send|..]
  }

  lemma SuffixOfSuffix(s: seq<Item>, c: nat, t: seq<Item>)
    requires c <= |s| && IsSuffix(t, s[c..])
    ensures IsSuffix(t, s) && c <= |s| - |t|
  {
  }

  lemma BoundsInRange(send: seq<Item>)
    ensures Increasing(Bounds(send)) && forall c :: c in Bounds(send) ==> c < |send|
  {
    BoundsAre(send);
  }

  lemma TruncateIsSuffix(send: seq<Item>, base: nat, line: nat)
    ensures IsSuffix(TruncateToFit(send, base, line), send)
  {
    BoundsInRange(send);
    assert send[0..] == send;
  }

  lemma SendIsSuffix(history: seq<Item>, summary: string, f: nat, cfg: Settings)
    requires f <= |history|
    ensures IsSuffix(SendFrom(history, summary, f, cfg), history)
    ensures f <= |history| - |SendFrom(history, summary, f, cfg)|
  {
    TruncateIsSuffix(history[f..], Cost(cfg, summary, []), Line(cfg.window));
    assert history[f..][0..] == history[f..];
    SuffixOfSuffix(history, f, SendFrom(history, summary, f, cfg));
  }

  lemma CompactFromSendsSuffix(summary: string, f: nat, history: seq<Item>, cfg: Settings, reply: Reply)
    requires f <= |history|
    ensures var o := CompactFrom(summary, f, history, cfg, reply);
            IsSuffix(o.send, history) && f <= o.folded <= |history| - |o.send|
  {
    if Cost(cfg, summary, history[f..]) > Line(cfg.window) {
      var (summary', f') := Fold(history, summary, f, cfg, reply);
      SendIsSuffix(history, summary', f', cfg);
    }
  }

  /** What is sent is always a suffix of the history; with compaction on, the cursor never passes what was
      dropped, and a cursor that fits the history never moves back. */
  lemma CompactSendsSuffix(enabled: bool, fault: bool, summary: string, folded: int, history: seq<Item>,
                           cfg: Settings, reply: Reply)
    ensures var o := Compact(enabled, fault, summary, folded, history, cfg, reply);
            && IsSuffix(o.send, history)
            && (enabled && !fault ==> o.folded <= |history| - |o.send|)
            && (enabled && !fault && 0 <= folded <= |history| ==> folded <= o.folded)
  {
    assert history[0..] == history;
    CompactFromSendsSuffix(summary, if 0 <= folded <= |history| then folded else 0, history, cfg, reply);
  }

  /** Each boundary before the chosen one was too expensive. */
  lemma {:induction false} FirstFitIsFirst(send: seq<Item>, bounds: seq<nat>, k: nat, base: nat, line: nat, i: nat)
    requires k <= i < |bounds| && Increasing(bounds)
    ensures var c := FirstFit(send, bounds, k, base, line);
            && (bounds[i] < c ==> base + EstimateItems(Tail(send, bounds[i])) > line)
            && (base + EstimateItems(Tail(send, c)) > line ==> c == bounds[|bounds| - 1])
    decreases |bounds| - k
  {
    if !(base + EstimateItems(Tail(send, bounds[k])) <= line || k == |bounds| - 1) {
      FirstFitIsFirst(send, bounds, k + 1, base, line, if i == k then k + 1 else i);
    }
  }

  /** The best the boundaries allow: all of `send0` when it fits or has no boundary; else the longest suffix
      from a boundary that fits; else the suffix from the last boundary. */
  predicate BestEffort(send0: seq<Item>, send: seq<Item>, base: nat, line: nat) {
    if base + EstimateItems(send0) <= line || Bounds(send0) == [] then send == send0
    else
      exists c :: c in Bounds(send0) && send == Tail(send0, c) && BestCut(send0, c, base, line)
  }

  predicate BestCut(send0: seq<Item>, c: nat, base: nat, line: nat) {
    forall b :: b in Bounds(send0) ==>
      && (b < c ==> base + EstimateItems(Tail(send0, b)) > line)
      && (base + EstimateItems(Tail(send0, c)) > line ==> b <= c)
  }

  lemma TruncateIsBestEffort(send0: seq<Item>, base: nat, line: nat)
    requires base + EstimateItems(send0) > line
    ensures BestEffort(send0, TruncateToFit(send0, base, line), base, line)
  {
    BoundsInRange(send0);
    var bounds := Bounds(send0);
    if bounds != [] {
      var c := FirstFit(send0, bounds, 0, base, line);
      forall b | b in bounds
        ensures b < c ==> base + EstimateItems(Tail(send0, b)) > line
        ensures base + EstimateItems(Tail(send0, c)) > line ==> b <= c
      {
        var i :| 0 <= i < |bounds| && bounds[i] == b;
        FirstFitIsFirst(send0, bounds, 0, base, line, i);
      }
      assert BestCut(send0, c, base, line);
    }
  }

  /** With compaction on, what is sent is the best the boundaries allow for the new cursor. */
  lemma CompactIsBestEffort(summary: string, folded: int, history: seq<Item>, cfg: Settings, reply: Reply)
    ensures var o := Compact(true, false, summary, folded, history, cfg, reply);
            BestEffort(Tail(history, o.folded), o.send, Cost(cfg, o.summary, []), Line(cfg.window))
  {
    var f: nat := if 0 <= folded <= |history| then folded else 0;
    if Cost(cfg, summary, history[f..]) > Line(cfg.window) {
      var (summary', f') := Fold(history, summary, f, cfg, reply);
      if Cost(cfg, summary', history[f'..]) > Line(cfg.window) {
        TruncateIsBestEffort(history[f'..], Cost(cfg, summary', []), Line(cfg.window));
      }
    }
  }

  lemma FoldEndsAtBoundary(history: seq<Item>, summary: string, f: nat, cfg: Settings, reply: Reply)
    requires f <= |history|
    ensures var f' := Fold(history, summary, f, cfg, reply).1; f' == f || f' == 0 || IsBoundary(history, f')
  {
    KeepKCutIsBoundary(history, RECENT_TURNS, RECENT_TOOL_TURNS);
    BoundsAre(history);
  }

  lemma SendKeepsPairs(history: seq<Item>, summary: string, f: nat, cfg: Settings)
    requires PairsWhole(history) && OutputsHaveCalls(history) && (f == 0 || IsBoundary(history, f))
    ensures f <= |history| && OutputsHaveCalls(SendFrom(history, summary, f, cfg))
  {
    CutKeepsPairs(history, f);
    PairsWholeOfSuffix(history, f);
    var send := history[f..];
    BoundsAre(send);
    if Bounds(send) != [] {
      CutKeepsPairs(send, FirstFit(send, Bounds(send), 0, Cost(cfg, summary, []), Line(cfg.window)));
    }
  }

  /** With a cursor on a boundary and whole pairs, the new cursor is on a boundary and nothing sent has an output
      without its call. */
  lemma CompactKeepsPairs(summary: string, folded: nat, history: seq<Item>, cfg: Settings, reply: Reply)
    requires PairsWhole(history) && OutputsHaveCalls(history) && (folded == 0 || IsBoundary(history, folded))
    ensures var o := Compact(true, false, summary, folded, history, cfg, reply);
            OutputsHaveCalls(o.send) && (o.folded == 0 || IsBoundary(history, o.folded))
  {
    CutKeepsPairs(history, folded);
    FoldEndsAtBoundary(history, summary, folded, cfg, reply);
    var (summary', f') := Fold(history, summary, folded, cfg, reply);
    SendKeepsPairs(history, summary', f', cfg);
  }

  // ---------- When the cursor moves ----------

  /** A position a fold may end at: the cut itself or a boundary between the cursor and the cut. */
  predicate FoldPoint(history: seq<Item>, f: nat, cut: nat, c: nat) {
    f < c <= cut && (c == cut || c in Bounds(history))
  }

  /** `c` is the greatest fold point whose text fits the summarizer, or the cursor when there is none. */
  ghost predicate BestFold(history: seq<Item>, f: nat, cut: nat, c: nat, summary: string, window: nat)
    requires f <= cut <= |history|
  {
    && (c == f || (FoldPoint(history, f, cut, c) && FoldFits(history, f, c, summary, window)))
    && forall b: nat :: FoldPoint(history, f, cut, b) && FoldFits(history, f, b, summary, window) ==> b <= c
  }

  lemma {:induction false} LastBelowIsGreatest(bounds: seq<nat>, cut: nat, b: nat)
    requires Increasing(bounds) && b in bounds && b < cut
    ensures b <= LastBelow(bounds, cut)
  {
    var n := |bounds| - 1;
    if bounds[n] >= cut {
      assert b in bounds[..n];
      LastBelowIsGreatest(bounds[..n], cut, b);
    }
  }

  lemma {:induction false} ShrinkCutIsBest(history: seq<Item>, f: nat, cut: nat, summary: string, window: nat)
    requires f <= cut <= |history|
    ensures BestFold(history, f, cut, ShrinkCut(history, f, cut, summary, window), summary, window)
    decreases cut
  {
    BoundsAre(history);
    if cut > f && !FoldFits(history, f, cut, summary, window) {
      var lower := LastBelow(Bounds(history), cut);
      var next := if lower > f then lower else f;
      ShrinkCutIsBest(history, f, next, summary, window);
      forall b: nat | FoldPoint(history, f, cut, b) && FoldFits(history, f, b, summary, window)
        ensures b <= ShrinkCut(history, f, cut, summary, window)
      {
        LastBelowIsGreatest(Bounds(history), cut, b);
        assert FoldPoint(history, f, next, b);
      }
    }
  }

  lemma BestFoldIsUnique(history: seq<Item>, f: nat, cut: nat, c: nat, d: nat, summary: string, window: nat)
    requires f <= cut <= |history|
    requires BestFold(history, f, cut, c, summary, window) && BestFold(history, f, cut, d, summary, window)
    ensures c == d
  {
  }

  /** The cursor compaction starts from: one beyond the history counts as 0. */
  function Cursor(folded: int, history: seq<Item>): (f: nat)
    ensures f <= |history|
  {
    if 0 <= folded <= |history| then folded else 0
  }

  lemma CompactIs(summary: string, folded: int, history: seq<Item>, cfg: Settings, reply: Reply)
    ensures var f := Cursor(folded, history);
            Compact(true, false, summary, folded, history, cfg, reply) == CompactFrom(summary, f, history, cfg, reply)
  {
  }

  /** The cursor moves with an accepted summary and only with one: a new cursor comes with the stripped reply, which
      is not blank and shorter than the text it replaces, and an old cursor keeps the old summary. */
  lemma CursorMovesWithSummary(summary: string, folded: int, history: seq<Item>, cfg: Settings, reply: Reply)
    ensures var o, f := Compact(true, false, summary, folded, history, cfg, reply), Cursor(folded, history);
            && f <= o.folded <= |history|
            && (o.folded == f ==> o.summary == summary)
            && (o.folded > f ==>
                  && reply.Some? && o.summary == Strip(reply.value) && o.summary != ""
                  && EstimateTokens(reply.value) < EstimateTokens(FoldText(history[f..o.folded])))
  {
    CompactIs(summary, folded, history, cfg, reply);
    var f := Cursor(folded, history);
    if Cost(cfg, summary, history[f..]) > Line(cfg.window) { FoldMoves(history, summary, f, cfg, reply); }
  }

  lemma FoldMoves(history: seq<Item>, summary: string, f: nat, cfg: Settings, reply: Reply)
    requires f <= |history|
    ensures var r := Fold(history, summary, f, cfg, reply);
            if r.1 == f then r.0 == summary
            else Accepted(reply, FoldText(history[f..r.1])) && r.0 == Strip(reply.value)
  {
  }

  /** When the cursor must move: the history behind it is over the line, something lies before the kept turns, and the
      reply is worth keeping for the text up to the greatest fold point that fits the summarizer.  It moves exactly
      then, and to that point; and a history within the line is sent as it is, with nothing changed. */
  lemma FoldsExactlyWhenDue(summary: string, folded: int, history: seq<Item>, cfg: Settings, reply: Reply, c: nat)
    requires var f, cut := Cursor(folded, history), KeepKCut(history, RECENT_TURNS, RECENT_TOOL_TURNS);
             cut <= |history| && if cut > f then BestFold(history, f, cut, c, summary, cfg.window) else c == f
    ensures var o, f := Compact(true, false, summary, folded, history, cfg, reply), Cursor(folded, history);
            && c <= |history|
            && (Cost(cfg, summary, history[f..]) <= Line(cfg.window) ==> o == Outcome(summary, f, history[f..]))
            && o.folded == if Cost(cfg, summary, history[f..]) > Line(cfg.window) && c > f
                              && FoldText(history[f..c]) != "" && Accepted(reply, FoldText(history[f..c]))
                           then c else f
  {
    CompactIs(summary, folded, history, cfg, reply);
    var f, cut := Cursor(folded, history), KeepKCut(history, RECENT_TURNS, RECENT_TOOL_TURNS);
    if cut > f {
      var d := ShrinkCut(history, f, cut, summary, cfg.window);
      ShrinkCutIsBest(history, f, cut, summary, cfg.window);
      BestFoldIsUnique(history, f, cut, c, d, summary, cfg.window);
    }
  }

  // ---------- The loops of the source ----------

  method ShrinkLoop(history: seq<Item>, f: nat, cut: nat, summary: string, window: nat) returns (c: nat, text: string)
    requires f < cut <= |history|
    ensures c == ShrinkCut(history, f, cut, summary, window)
    ensures text == if c > f then FoldText(history[f..c]) else ""
  {
    c, text := cut, "";
    while c > f
      invariant f <= c <= cut
      invariant ShrinkCut(history, f, c, summary, window) == ShrinkCut(history, f, cut, summary, window)
      invariant text == ""
    {
      text := FoldText(history[f..c]);
      if INSTRUCTION_TOKENS + EstimateTokens(summary) + EstimateTokens(text) <= window { break; }
      var lower := LastBelow(Bounds(history), c);
      c := if lower > f then lower else f;
      text := "";
    }
  }

  method TruncateLoop(send: seq<Item>, base: nat, line: nat) returns (out: seq<Item>)
    ensures out == TruncateToFit(send, base, line)
  {
    var bounds := Bounds(send);
    if bounds == [] { return send; }
    for k := 0 to |bounds|
      invariant k < |bounds| ==> FirstFit(send, bounds, k, base, line) == FirstFit(send, bounds, 0, base, line)
      invariant k == |bounds| ==> FirstFit(send, bounds, 0, base, line) == bounds[|bounds| - 1]
    {
      var cand := Tail(send, bounds[k]);
      if base + EstimateItems(cand) <= line { return cand; }
    }
    out := Tail(send, bounds[|bounds| - 1]);
  }

  /** The session row and what is sent, computed as the source does; `recall` when content left the model's context in
      this run, be it folded or truncated, so that it must become recallable at once. */
  method CompactForRun(enabled: bool, fault: bool, summary: string, folded: int, history: seq<Item>,
                       cfg: Settings, reply: Reply) returns (o: Outcome, recall: bool)
    ensures o == Compact(enabled, fault, summary, folded, history, cfg, reply)
    ensures recall <==> enabled && !fault && |o.send| < |history| - if 0 <= folded <= |history| then folded else 0
    ensures !enabled || fault ==> o == Outcome("", 0, history)
  {
    recall := false;
    if !enabled || fault { return Outcome("", 0, history), false; }
    var f: nat := if 0 <= folded <= |history| then folded else 0;
    if Cost(cfg, summary, history[f..]) <= Line(cfg.window) { return Outcome(summary, f, history[f..]), false; }
    var summary', f' := FoldLoop(history, summary, f, cfg, reply);
    var send := SendLoop(history, summary', f', cfg);
    o := Outcome(summary', f', send);
    recall := f' > f || |send| < |history| - f';
  }

  method SendLoop(history: seq<Item>, summary: string, f: nat, cfg: Settings) returns (send: seq<Item>)
    requires f <= |history|
    ensures send == SendFrom(history, summary, f, cfg) && |send| <= |history| - f
  {
    send := history[f..];
    if Cost(cfg, summary, send) > Line(cfg.window) {
      send := TruncateLoop(send, Cost(cfg, summary, []), Line(cfg.window));
    }
    SendIsSuffix(history, summary, f, cfg);
  }

  method FoldLoop(history: seq<Item>, summary: string, f: nat, cfg: Settings, reply: Reply)
    returns (summary': string, f': nat)
    requires f <= |history|
    ensures (summary', f') == Fold(history, summary, f, cfg, reply)
  {
    summary', f' := summary, f;
    KeepKCutIsBoundary(history, RECENT_TURNS, RECENT_TOOL_TURNS);
    var cut := KeepKCut(history, RECENT_TURNS, RECENT_TOOL_TURNS);
    if cut > f {
      var c, text := ShrinkLoop(history, f, cut, summary, cfg.window);
      if c > f && text != "" && Accepted(reply, text) {
        summary', f' := Strip(reply.value), c;
      }
    }
  }
}
