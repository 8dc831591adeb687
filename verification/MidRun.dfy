/**
  Mid-run compaction (agent/compaction_filter.py): before every model call the
  outgoing copy of the input is shortened in three stages, and a cursor
  remembers how much of the input the rolling summary already covers.
 */
module MidRun {
  import opened Common
  import opened Items
  import opened Turns
  import opened Estimates
  import opened MicroCompact

  const HARD_KEEP_TURNS := 2

  /** The fields of RunCtx the filter reads and writes. */
  datatype Ctx = Ctx(window: int, overhead: nat, lastInputTokens: nat, itemsSeen: nat, lastSentLen: nat,
                     summary: string, foldIdx: nat, l1Count: nat, l1Reasoning: nat, l2Count: nat, l2Fails: nat,
                     l2Disabled: bool, truncCount: nat, hasSummarizer: bool, enabled: bool)

  /** What the summarizer does when it is called. */
  datatype Reply = Raised | Said(text: string)


  /** The whole estimate, the summary included. */
  function FullEstimate(ctx: Ctx, items: seq<Item>): nat {
    ctx.overhead + EstimateTokens(ctx.summary) + EstimateItems(items)
  }

  /** The provider's last count plus what came since, or the estimate when there is no count. */
  function Budget(ctx: Ctx, items: seq<Item>): nat {
    if ctx.lastInputTokens > 0
    then ctx.lastInputTokens + EstimateItems(items[Min(ctx.itemsSeen, |items|)..])
    else FullEstimate(ctx, items)
  }

  function ReasoningChanged(a: seq<Item>, b: seq<Item>): nat
    requires |a| == |b|
  {
    if a == [] then 0
    else (if a[0].Reasoning? && b[0].Reasoning? && a[0].summary != b[0].summary then 1 else 0)
         + ReasoningChanged(a[1..], b[1..])
  }

  /** The part of the input the summary does not cover. */
  function Unfolded(ctx: Ctx, full: seq<Item>): seq<Item> {
    full[Offset(ctx, full)..]
  }

  function Offset(ctx: Ctx, full: seq<Item>): (o: nat)
    ensures o <= |full|
  {
    if 0 < ctx.foldIdx <= |full| then ctx.foldIdx else 0
  }

  /** The estimate a call starts from. */
  function Estimate0(ctx: Ctx, items: seq<Item>): nat {
    if ctx.foldIdx == 0 then Max(Budget(ctx, items), FullEstimate(ctx, items)) else FullEstimate(ctx, items)
  }

  /** Stage 1. */
  predicate L1Fires(ctx: Ctx, items: seq<Item>) {
    Estimate0(ctx, items) * 100 > 35 * Max(ctx.window, 1)
  }

  function L1(ctx: Ctx, items: seq<Item>, condense: Condenser): (Ctx, seq<Item>) {
    if L1Fires(ctx, items) then
      (ctx.(l1Count := ctx.l1Count + Replaced(items, condense, |items|),
            l1Reasoning := ctx.l1Reasoning + ReasoningChanged(items, Micro(items, condense))),
       Micro(items, condense))
    else (ctx, items)
  }

  /** Stage 2.  The estimate it looks at is the one stage 1 left behind. */
  function Estimate1(ctx: Ctx, items: seq<Item>, condense: Condenser): nat {
    if L1Fires(ctx, items) then FullEstimate(ctx, Micro(items, condense)) else Estimate0(ctx, items)
  }

  function L2Cut(ctx: Ctx, est: nat, items: seq<Item>): nat {
    if est * 100 > 70 * Max(ctx.window, 1) && ctx.hasSummarizer && !ctx.l2Disabled
    then CutKeepRecentTurns(items, RECENT_TOOL_TURNS) else 0
  }

  function L2Accept(ctx: Ctx, cut: nat, base: nat, text: string): Ctx {
    ctx.(summary := Strip(text), foldIdx := base + cut, l2Count := ctx.l2Count + 1, l2Fails := 0)
  }

  function L2Reject(ctx: Ctx): Ctx {
    ctx.(l2Fails := ctx.l2Fails + 1, l2Disabled := ctx.l2Disabled || ctx.l2Fails + 1 >= 2)
  }

  /** Stage 3. */
  function TruncateTurns(items: seq<Item>, keepTurns: nat): seq<Item> {
    var cut := CutKeepRecentTurns(items, keepTurns);
    if cut == 0 then items
    else (if items[0].User? then [items[0]] else []) + items[cut..]
  }

  /** `folded` says that the list no longer begins with the first item of the full input. */
  function Hard(full: seq<Item>, items: seq<Item>, folded: bool): seq<Item> {
    var t := TruncateTurns(items, HARD_KEEP_TURNS);
    if full != [] && full[0].User? && (folded || t == []) then [full[0]] + t else t
  }

  /** What the filter does after stage 2 settled the context, the items and the estimate. */
  function Finish(ctx: Ctx, full: seq<Item>, items: seq<Item>, est: nat, folded: bool): (Ctx, seq<Item>) {
    if est * 100 > 85 * Max(ctx.window, 1)
    then (ctx.(truncCount := ctx.truncCount + 1), Hard(full, items, folded))
    else (ctx, items)
  }

  /** What stage 2 leaves behind; `raised` when the summarizer failed and the call is abandoned. */
  datatype Stage = Stage(ctx: Ctx, items: seq<Item>, est: nat, folded: bool, raised: bool)

  function L2(ctx: Ctx, items: seq<Item>, est: nat, folded: bool, reply: Reply): Stage {
    var cut := L2Cut(ctx, est, items);
    if cut == 0 then Stage(ctx, items, est, folded, false)
    else if reply.Raised? then Stage(ctx, items, est, folded, true)
    else if WorthKeeping(reply.text, FoldText(items[..cut])) then
      var ctx' := L2Accept(ctx, cut, ctx.foldIdx, reply.text);
      Stage(ctx', items[cut..], FullEstimate(ctx', items[cut..]), true, false)
    else Stage(L2Reject(ctx), items, est, folded, false)
  }

  /** Stages 1 and 2 of an enabled filter. */
  function StageOf(ctx: Ctx, full: seq<Item>, condense: Condenser, reply: Reply): Stage {
    var items := Unfolded(ctx, full);
    var (ctx1, items1) := L1(ctx, items, condense);
    L2(ctx1, items1, Estimate1(ctx, items, condense), Offset(ctx, full) > 0, reply)
  }

  /** One call of the filter: the new context and the outgoing input.  When the summarizer raises, the
      untouched input is sent. */
  function Filter(ctx: Ctx, full: seq<Item>, condense: Condenser, reply: Reply): (Ctx, seq<Item>) {
    if !ctx.enabled then (ctx, full)
    else
      var st := StageOf(ctx.(lastSentLen := |full|), full, condense, reply);
      if st.raised then (st.ctx, full) else Finish(st.ctx, full, st.items, st.est, st.folded)
  }

  /** The provider's usage report after a model call. */
  function LlmEnd(ctx: Ctx, tokens: nat): Ctx {
    if tokens == 0 then ctx else ctx.(lastInputTokens := tokens, itemsSeen := ctx.lastSentLen)
  }

  // ---------- One call ----------

  /** The cursor is 0 or a turn start of the input. */
  predicate CursorOk(ctx: Ctx, full: seq<Item>) {
    ctx.foldIdx == 0 || IsStart(full, ctx.foldIdx)
  }

  /** The interval a call folded, if it folded one. */
  function FoldOf(ctx: Ctx, ctx': Ctx): Option<(nat, nat)> {
    if ctx'.foldIdx > ctx.foldIdx then Some((ctx.foldIdx, ctx'.foldIdx)) else None
  }

  lemma L1KeepsShape(ctx: Ctx, items: seq<Item>, condense: Condenser)
    ensures SameShape(items, L1(ctx, items, condense).1)
    ensures TurnStarts(L1(ctx, items, condense).1) == TurnStarts(items)
    ensures L1(ctx, items, condense).0.foldIdx == ctx.foldIdx
  {
    MicroKeepsShape(items, condense);
  }

  lemma FinishKeepsCursor(ctx: Ctx, full: seq<Item>, items: seq<Item>, est: nat, folded: bool)
    ensures Finish(ctx, full, items, est, folded).0 ==
        ctx.(truncCount := Finish(ctx, full, items, est, folded).0.truncCount)
  {
  }

  lemma StartOfSuffix(full: seq<Item>, base: nat, cut: nat)
    requires base <= |full| && 0 < cut && IsStart(full[base..], cut)
    ensures IsStart(full, base + cut)
  {
  }

  /** The context after a call compared with the one before: the cursor stays, or it advances because an
      accepted summary took over, and the summary changes with it and only with it. */
  predicate CursorStep(ctx: Ctx, ctx': Ctx, reply: Reply) {
    && ctx'.enabled == ctx.enabled && ctx.foldIdx <= ctx'.foldIdx
    && (ctx'.foldIdx == ctx.foldIdx ==> ctx'.summary == ctx.summary && ctx'.l2Count == ctx.l2Count)
    && (ctx'.foldIdx > ctx.foldIdx ==>
          && ctx'.l2Count == ctx.l2Count + 1 && ctx'.summary != ""
          && reply.Said? && ctx'.summary == Strip(reply.text))
  }

  /** Stage 2 cuts at a turn start of the items it was given. */
  lemma L2Step(ctx: Ctx, items: seq<Item>, est: nat, folded: bool, reply: Reply)
    ensures var st := L2(ctx, items, est, folded, reply);
            && CursorStep(ctx, st.ctx, reply)
            && (st.ctx.foldIdx > ctx.foldIdx ==> IsStart(items, st.ctx.foldIdx - ctx.foldIdx))
  {
    CutIsStart(items, RECENT_TOOL_TURNS);
  }

  lemma SameStarts(a: seq<Item>, b: seq<Item>, s: nat)
    requires TurnStarts(a) == TurnStarts(b)
    ensures IsStart(a, s) <==> IsStart(b, s)
  {
    StartsAre(a);
    StartsAre(b);
  }

  /** A fold at a turn start of a rewritten copy of the unfolded items ends at a turn start of the input. */
  lemma FoldEndsAtStart(full: seq<Item>, base: nat, items1: seq<Item>, cut: nat)
    requires base <= |full| && TurnStarts(items1) == TurnStarts(full[base..]) && 0 < cut && IsStart(items1, cut)
    ensures IsStart(full, base + cut)
  {
    SameStarts(full[base..], items1, cut);
    StartOfSuffix(full, base, cut);
  }

  /** Stage 2 moves the cursor of a run, given a rewritten copy of the items behind it. */
  lemma L2MovesCursor(ctx: Ctx, full: seq<Item>, items1: seq<Item>, est: nat, folded: bool, reply: Reply)
    requires CursorOk(ctx, full) && TurnStarts(items1) == TurnStarts(Unfolded(ctx, full))
    ensures var ctx' := L2(ctx, items1, est, folded, reply).ctx; CursorOk(ctx', full) && CursorStep(ctx, ctx', reply)
  {
    L2Step(ctx, items1, est, folded, reply);
    var ctx' := L2(ctx, items1, est, folded, reply).ctx;
    if ctx'.foldIdx > ctx.foldIdx { FoldEndsAtStart(full, ctx.foldIdx, items1, ctx'.foldIdx - ctx.foldIdx); }
  }

  /** Stage 1 by its effect: the items keep their shape, the context everything but two counters. */
  lemma L1Effect(ctx: Ctx, items: seq<Item>, condense: Condenser) returns (ctx1: Ctx, items1: seq<Item>)
    ensures L1(ctx, items, condense) == (ctx1, items1) && TurnStarts(items1) == TurnStarts(items)
    ensures ctx1 == ctx.(l1Count := ctx1.l1Count, l1Reasoning := ctx1.l1Reasoning)
  {
    L1KeepsShape(ctx, items, condense);
    ctx1, items1 := L1(ctx, items, condense).0, L1(ctx, items, condense).1;
  }

  /** Stages 1 and 2 as stage 2 on a rewritten copy. */
  lemma StageIsL2(ctx: Ctx, full: seq<Item>, condense: Condenser, reply: Reply)
    returns (ctx1: Ctx, items1: seq<Item>, est: nat, folded: bool)
    ensures StageOf(ctx, full, condense, reply) == L2(ctx1, items1, est, folded, reply)
    ensures TurnStarts(items1) == TurnStarts(Unfolded(ctx, full))
    ensures ctx1 == ctx.(l1Count := ctx1.l1Count, l1Reasoning := ctx1.l1Reasoning)
  {
    ctx1, items1 := L1Effect(ctx, Unfolded(ctx, full), condense);
    est, folded := Estimate1(ctx, Unfolded(ctx, full), condense), Offset(ctx, full) > 0;
  }

  lemma SameCursor(ctx: Ctx, ctx1: Ctx, full: seq<Item>)
    requires ctx1 == ctx.(l1Count := ctx1.l1Count, l1Reasoning := ctx1.l1Reasoning)
    ensures CursorOk(ctx, full) == CursorOk(ctx1, full) && Unfolded(ctx, full) == Unfolded(ctx1, full)
    ensures forall ctx', reply :: CursorStep(ctx1, ctx', reply) == CursorStep(ctx, ctx', reply)
  {
  }

  lemma StageMovesCursor(ctx: Ctx, full: seq<Item>, condense: Condenser, reply: Reply)
    requires CursorOk(ctx, full)
    ensures var ctx' := StageOf(ctx, full, condense, reply).ctx; CursorOk(ctx', full) && CursorStep(ctx, ctx', reply)
  {
    var ctx1, items1, est, folded := StageIsL2(ctx, full, condense, reply);
    SameCursor(ctx, ctx1, full);
    L2MovesCursor(ctx1, full, items1, est, folded, reply);
  }

  /** What one call does to the cursor: it stays, or it advances to a later turn start of the full input. */
  lemma FilterMovesCursor(ctx: Ctx, full: seq<Item>, condense: Condenser, reply: Reply)
    requires CursorOk(ctx, full)
    ensures var ctx' := Filter(ctx, full, condense, reply).0; CursorOk(ctx', full) && CursorStep(ctx, ctx', reply)
  {
    if ctx.enabled {
      var st := StageOf(ctx.(lastSentLen := |full|), full, condense, reply);
      StageMovesCursor(ctx.(lastSentLen := |full|), full, condense, reply);
      FinishKeepsCursor(st.ctx, full, st.items, st.est, st.folded);
    }
  }

  // ---------- Whole runs ----------

  /** One step of a run: the input grows and the filter is called, or the provider reports its usage. */
  datatype Step = CallStep(more: seq<Item>, condense: Condenser, reply: Reply) | LlmEndStep(tokens: nat)

  /** A run so far: the context, the input of the last call, and the intervals folded, oldest first. */
  datatype Run = Run(ctx: Ctx, full: seq<Item>, folds: seq<(nat, nat)>)

  function NextRun(r: Run, step: Step): Run {
    match step
    case LlmEndStep(tokens) => r.(ctx := LlmEnd(r.ctx, tokens))
    case CallStep(more, condense, reply) =>
      var full := r.full + more;
      var ctx' := Filter(r.ctx, full, condense, reply).0;
      var f := FoldOf(r.ctx, ctx');
      Run(ctx', full, r.folds + if f.Some? then [f.value] else [])
  }

  function Execute(r: Run, steps: seq<Step>): Run {
    if steps == [] then r else NextRun(Execute(r, steps[..|steps| - 1]), steps[|steps| - 1])
  }

  /** Consecutive non-empty intervals from `lo` to `hi`. */
  predicate Tiles(folds: seq<(nat, nat)>, lo: nat, hi: nat) {
    if folds == [] then lo == hi
    else
      var last := folds[|folds| - 1];
      last.0 < last.1 == hi && Tiles(folds[..|folds| - 1], lo, last.0)
  }

  predicate RunOk(r: Run, base: nat) {
    && CursorOk(r.ctx, r.full)
    && Tiles(r.folds, base, r.ctx.foldIdx)
  }

  lemma CursorSurvivesGrowth(ctx: Ctx, full: seq<Item>, more: seq<Item>)
    requires CursorOk(ctx, full)
    ensures CursorOk(ctx, full + more)
  {
  }

  lemma TilesSnoc(folds: seq<(nat, nat)>, lo: nat, mid: nat, hi: nat)
    requires Tiles(folds, lo, mid) && mid < hi
    ensures Tiles(folds + [(mid, hi)], lo, hi)
  {
    assert (folds + [(mid, hi)])[..|folds|] == folds;
  }

  lemma StepKeepsRun(r: Run, step: Step, base: nat)
    requires RunOk(r, base)
    ensures RunOk(NextRun(r, step), base) && r.ctx.foldIdx <= NextRun(r, step).ctx.foldIdx
    ensures r.folds <= NextRun(r, step).folds
  {
    if step.CallStep? {
      CursorSurvivesGrowth(r.ctx, r.full, step.more);
      FilterMovesCursor(r.ctx, r.full + step.more, step.condense, step.reply);
      var ctx' := Filter(r.ctx, r.full + step.more, step.condense, step.reply).0;
      if ctx'.foldIdx > r.ctx.foldIdx {
        TilesSnoc(r.folds, base, r.ctx.foldIdx, ctx'.foldIdx);
      } else {
        assert NextRun(r, step).folds == r.folds;
      }
    }
  }

  /** Fold bookkeeping: over any run whose input grows by appending, the cursor is always 0 or a turn start, it
      never moves back, and the accepted folds cover [0, cursor) in consecutive intervals. */
  lemma {:induction false} FoldBookkeeping(r: Run, steps: seq<Step>)
    requires RunOk(r, 0)
    ensures RunOk(Execute(r, steps), 0) && r.ctx.foldIdx <= Execute(r, steps).ctx.foldIdx
    ensures r.folds <= Execute(r, steps).folds
  {
    if steps != [] {
      FoldBookkeeping(r, steps[..|steps| - 1]);
      StepKeepsRun(Execute(r, steps[..|steps| - 1]), steps[|steps| - 1], 0);
    }
  }

  /** Every position below the cursor lies in exactly one fold, and no position above it in any. */
  lemma {:induction false} FoldedExactlyOnce(folds: seq<(nat, nat)>, lo: nat, hi: nat, x: nat)
    requires Tiles(folds, lo, hi)
    ensures lo <= hi
    ensures lo <= x < hi ==> exists k :: 0 <= k < |folds| && folds[k].0 <= x < folds[k].1
    ensures forall k :: 0 <= k < |folds| && folds[k].0 <= x < folds[k].1 ==> lo <= x < hi
    ensures forall j, k | 0 <= j < |folds| && 0 <= k < |folds| ::
              folds[j].0 <= x < folds[j].1 && folds[k].0 <= x < folds[k].1 ==> j == k
  {
    if folds != [] {
      var n := |folds| - 1;
      FoldedExactlyOnce(folds[..n], lo, folds[n].0, x);
      assert forall k :: 0 <= k < n ==> folds[..n][k] == folds[k];
      if lo <= x < folds[n].0 {
        var k :| 0 <= k < n && folds[..n][k].0 <= x < folds[..n][k].1;
        assert folds[k].0 <= x < folds[k].1;
      }
    }
  }

  lemma {:induction false} DisabledStep(r: Run, step: Step)
    requires r.ctx.l2Disabled
    ensures var r' := NextRun(r, step); r'.ctx.l2Disabled && r'.folds == r.folds && r'.ctx.summary == r.ctx.summary
    ensures NextRun(r, step).ctx.foldIdx == r.ctx.foldIdx
  {
    if step.CallStep? { DisabledFilter(r.ctx, r.full + step.more, step.condense, step.reply); }
  }

  lemma DisabledFilter(ctx: Ctx, full: seq<Item>, condense: Condenser, reply: Reply)
    requires ctx.l2Disabled
    ensures var c := Filter(ctx, full, condense, reply).0;
            c.l2Disabled && c.summary == ctx.summary && c.foldIdx == ctx.foldIdx
  {
    if ctx.enabled {
      var ctx1, items1, est, folded := StageIsL2(ctx.(lastSentLen := |full|), full, condense, reply);
      assert L2(ctx1, items1, est, folded, reply) == Stage(ctx1, items1, est, folded, false);
      FinishKeepsCursor(ctx1, full, items1, est, folded);
    }
  }

  /** Two rejected summaries in a row switch folding off for the rest of the run. */
  lemma {:induction false} BackOff(r: Run, steps: seq<Step>)
    requires r.ctx.l2Disabled
    ensures var r' := Execute(r, steps);
            r'.ctx.l2Disabled && r'.folds == r.folds && r'.ctx.summary == r.ctx.summary
                && r'.ctx.foldIdx == r.ctx.foldIdx
  {
    if steps != [] {
      BackOff(r, steps[..|steps| - 1]);
      DisabledStep(Execute(r, steps[..|steps| - 1]), steps[|steps| - 1]);
    }
  }

  // ---------- What is sent ----------

  lemma TruncateKeepsPairs(items: seq<Item>, keepTurns: nat)
    requires PairsWhole(items) && OutputsHaveCalls(items)
    ensures OutputsHaveCalls(TruncateTurns(items, keepTurns))
  {
    var cut := CutKeepRecentTurns(items, keepTurns);
    CutKeepsTurns(items, keepTurns);
    if 0 < cut {
      CutKeepsPairs(items, cut);
      if items[0].User? { HeadUserKeepsPairs(items[0], items[cut..]); }
      else { assert [] + items[cut..] == items[cut..]; }
    }
  }

  lemma FinishKeepsPairs(ctx: Ctx, full: seq<Item>, items: seq<Item>, est: nat, folded: bool)
    requires PairsWhole(items) && OutputsHaveCalls(items)
    ensures OutputsHaveCalls(Finish(ctx, full, items, est, folded).1)
  {
    TruncateKeepsPairs(items, HARD_KEEP_TURNS);
    if full != [] && full[0].User? { HeadUserKeepsPairs(full[0], TruncateTurns(items, HARD_KEEP_TURNS)); }
  }

  lemma L2KeepsPairs(ctx: Ctx, items: seq<Item>, est: nat, folded: bool, reply: Reply)
    requires PairsWhole(items) && OutputsHaveCalls(items)
    ensures var st := L2(ctx, items, est, folded, reply); PairsWhole(st.items) && OutputsHaveCalls(st.items)
  {
    var cut := L2Cut(ctx, est, items);
    CutKeepsTurns(items, RECENT_TOOL_TURNS);
    CutKeepsPairs(items, cut);
    PairsWholeOfSuffix(items, cut);
  }

  lemma StageKeepsPairs(ctx: Ctx, full: seq<Item>, condense: Condenser, reply: Reply)
    requires CursorOk(ctx, full) && PairsWhole(full) && OutputsHaveCalls(full)
    ensures var st := StageOf(ctx, full, condense, reply); PairsWhole(st.items) && OutputsHaveCalls(st.items)
  {
    var items := Unfolded(ctx, full);
    CutKeepsPairs(full, Offset(ctx, full));
    PairsWholeOfSuffix(full, Offset(ctx, full));
    L1KeepsShape(ctx, items, condense);
    var (ctx1, items1) := L1(ctx, items, condense);
    RewritingKeepsPairs(items, items1);
    L2KeepsPairs(ctx1, items1, Estimate1(ctx, items, condense), Offset(ctx, full) > 0, reply);
  }

  /** When no boundary separates a call from its output, nothing the filter sends has an output without its call. */
  lemma FilterKeepsPairs(ctx: Ctx, full: seq<Item>, condense: Condenser, reply: Reply)
    requires CursorOk(ctx, full) && PairsWhole(full) && OutputsHaveCalls(full)
    ensures OutputsHaveCalls(Filter(ctx, full, condense, reply).1)
  {
    if ctx.enabled {
      var st := StageOf(ctx.(lastSentLen := |full|), full, condense, reply);
      StageKeepsPairs(ctx.(lastSentLen := |full|), full, condense, reply);
      FinishKeepsPairs(st.ctx, full, st.items, st.est, st.folded);
    }
  }

  lemma FilterIs(ctx: Ctx, full: seq<Item>, condense: Condenser, reply: Reply, st: Stage)
    requires ctx.enabled && st == StageOf(ctx.(lastSentLen := |full|), full, condense, reply)
    ensures Filter(ctx, full, condense, reply) ==
            if st.raised then (st.ctx, full) else Finish(st.ctx, full, st.items, st.est, st.folded)
  {
  }

  // ---------- The object ----------

  /** The run context as the source mutates it. */
  class RunCtx {
    var window: int
    var overhead: nat
    var lastInputTokens: nat
    var itemsSeen: nat
    var lastSentLen: nat
    var summary: string
    var foldIdx: nat
    var l1Count: nat
    var l1Reasoning: nat
    var l2Count: nat
    var l2Fails: nat
    var l2Disabled: bool
    var truncCount: nat
    var hasSummarizer: bool
    var enabled: bool

    function Value(): Ctx
      reads this
    {
      Ctx(window, overhead, lastInputTokens, itemsSeen, lastSentLen, summary, foldIdx, l1Count, l1Reasoning, l2Count,
          l2Fails, l2Disabled, truncCount, hasSummarizer, enabled)
    }

    constructor (window: int, overhead: nat, summary: string, hasSummarizer: bool, enabled: bool)
      ensures Value() == Ctx(window, overhead, 0, 0, 0, summary, 0, 0, 0, 0, 0, false, 0, hasSummarizer, enabled)
    {
      this.window, this.overhead, this.summary, this.hasSummarizer, this.enabled :=
        window, overhead, summary, hasSummarizer, enabled;
      lastInputTokens, itemsSeen, lastSentLen, foldIdx := 0, 0, 0, 0;
      l1Count, l1Reasoning, l2Count, l2Fails, l2Disabled, truncCount := 0, 0, 0, 0, false, 0;
    }

    method Stage1(items: seq<Item>, condense: Condenser) returns (items1: seq<Item>, est: nat)
      modifies this`l1Count, this`l1Reasoning
      ensures (Value(), items1) == L1(old(Value()), items, condense)
      ensures est == Estimate1(old(Value()), items, condense)
    {
      items1 := items;
      est := Estimate0(Value(), items);
      if est * 100 > 35 * Max(window, 1) {
        var n;
        items1, n := MicroCompactLoop(items, condense);
        l1Count, l1Reasoning := l1Count + n, l1Reasoning + ReasoningChanged(items, items1);
        est := FullEstimate(Value(), items1);
      }
    }

    method AcceptFold(cut: nat, text: string)
      modifies this`summary, this`foldIdx, this`l2Count, this`l2Fails
      ensures Value() == L2Accept(old(Value()), cut, old(foldIdx), text)
    {
      summary := Strip(text);
      foldIdx := foldIdx + cut;
      l2Count := l2Count + 1;
      l2Fails := 0;
    }

    method RejectFold()
      modifies this`l2Fails, this`l2Disabled
      ensures Value() == L2Reject(old(Value()))
    {
      l2Fails := l2Fails + 1;
      if l2Fails >= 2 { l2Disabled := true; }
    }

    method Stage2(items: seq<Item>, est: nat, folded: bool, reply: Reply) returns (st: Stage)
      modifies this`summary, this`foldIdx, this`l2Count, this`l2Fails, this`l2Disabled
      ensures st == L2(old(Value()), items, est, folded, reply) && Value() == st.ctx
    {
      var cut := L2Cut(Value(), est, items);
      if cut == 0 {
        return Stage(Value(), items, est, folded, false);
      }
      if reply.Raised? {
        return Stage(Value(), items, est, folded, true);
      }
      if WorthKeeping(reply.text, FoldText(items[..cut])) {
        AcceptFold(cut, reply.text);
        return Stage(Value(), items[cut..], FullEstimate(Value(), items[cut..]), true, false);
      }
      RejectFold();
      st := Stage(Value(), items, est, folded, false);
    }

    method Stages(full: seq<Item>, condense: Condenser, reply: Reply) returns (st: Stage)
      modifies this`l1Count, this`l1Reasoning, this`summary, this`foldIdx, this`l2Count, this`l2Fails, this`l2Disabled
      ensures st == StageOf(old(Value()), full, condense, reply) && Value() == st.ctx
    {
      var folded := 0 < foldIdx <= |full|;
      var items := full[if folded then foldIdx else 0..];
      var items1, est := Stage1(items, condense);
      st := Stage2(items1, est, folded, reply);
    }

    method Stage3(full: seq<Item>, items: seq<Item>, est: nat, folded: bool) returns (out: seq<Item>)
      modifies this`truncCount
      ensures (Value(), out) == Finish(old(Value()), full, items, est, folded)
    {
      out := items;
      if est * 100 > 85 * Max(window, 1) {
        out := Hard(full, items, folded);
        truncCount := truncCount + 1;
      }
    }

    /** The model-input filter. */
    method CompactionFilter(full: seq<Item>, condense: Condenser, reply: Reply) returns (out: seq<Item>)
      modifies this
      ensures (Value(), out) == Filter(old(Value()), full, condense, reply)
    {
      if !enabled { return full; }
      ghost var ctx := Value();
      lastSentLen := |full|;
      var st := Stages(full, condense, reply);
      FilterIs(ctx, full, condense, reply, st);
      out := full;
      if !st.raised { out := Stage3(full, st.items, st.est, st.folded); }
    }

    method OnLlmEnd(tokens: nat)
      modifies this`lastInputTokens, this`itemsSeen
      ensures Value() == LlmEnd(old(Value()), tokens)
    {
      if tokens == 0 { return; }
      lastInputTokens := tokens;
      itemsSeen := lastSentLen;
    }
  }
}
