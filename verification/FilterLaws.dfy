/**
  What the mid-run filter promises about one call (agent/compaction_filter.py),
  stated on its input and its output: when the input is sent as it is, when
  the older turns are folded, and when and how the list is cut down.
 */
module FilterLaws {
  import opened Common
  import opened Items
  import opened Turns
  import opened Estimates
  import opened MicroCompact
  import opened MidRun

  predicate Within(ctx: Ctx, est: nat, percent: nat) {
    est * 100 <= percent * Max(ctx.window, 1)
  }

  /** Nothing has to be done: the estimate is within 35 percent of the window and so is, before the first fold, the
      provider's last count with what came since. */
  predicate Small(ctx: Ctx, full: seq<Item>) {
    var items := Unfolded(ctx, full);
    && Within(ctx, FullEstimate(ctx, items), 35)
    && (ctx.foldIdx == 0 && ctx.lastInputTokens > 0 ==>
          Within(ctx, ctx.lastInputTokens + EstimateItems(items[Min(ctx.itemsSeen, |items|)..]), 35))
  }

  /** The items behind the old cursor, old outputs and reasoning shortened unless the input is small. */
  function Shortened(ctx: Ctx, full: seq<Item>, condense: Condenser): seq<Item> {
    if Small(ctx, full) then Unfolded(ctx, full) else Micro(Unfolded(ctx, full), condense)
  }

  /** Something is left to fold when the last k turns are kept. */
  predicate HasMoreThan(items: seq<Item>, k: nat) {
    |TurnStarts(items)| > k || (|TurnStarts(items)| == k && !IsStart(items, 0))
  }

  /** A fold is due: the shortened items still take more than 70 percent of the window, and there is a summarizer that
      was not given up and something older than the last turns. */
  predicate FoldDue(ctx: Ctx, full: seq<Item>, condense: Condenser) {
    && ctx.hasSummarizer && !ctx.l2Disabled && !Small(ctx, full)
    && !Within(ctx, FullEstimate(ctx, Shortened(ctx, full, condense)), 70)
    && HasMoreThan(Unfolded(ctx, full), RECENT_TOOL_TURNS)
  }

  /** The text a due fold replaces. */
  function FoldedText(ctx: Ctx, full: seq<Item>, condense: Condenser): string {
    var items := Shortened(ctx, full, condense);
    FoldText(items[..CutKeepRecentTurns(items, RECENT_TOOL_TURNS)])
  }

  /** The last RECENT_TOOL_TURNS turns are left and the summary is the reply. */
  predicate Accepts(ctx: Ctx, ctx': Ctx, full: seq<Item>, text: string) {
    && ctx.foldIdx < ctx'.foldIdx < |full| && IsStart(full, ctx'.foldIdx)
    && |TurnStarts(full[ctx'.foldIdx..])| == RECENT_TOOL_TURNS
    && ctx'.summary == Strip(text) && ctx'.l2Fails == 0 && ctx'.l2Disabled == ctx.l2Disabled
  }

  /** `fails` more rejections than before; the second in a row switches folding off. */
  predicate Leaves(ctx: Ctx, ctx': Ctx, fails: nat) {
    && ctx'.foldIdx == ctx.foldIdx && ctx'.summary == ctx.summary && ctx'.l2Fails == ctx.l2Fails + fails
    && ctx'.l2Disabled == (ctx.l2Disabled || (fails > 0 && ctx.l2Fails + fails >= 2))
  }

  /** What the call does to the cursor, the summary and the back-off. */
  predicate Folds(ctx: Ctx, ctx': Ctx, full: seq<Item>, condense: Condenser, reply: Reply) {
    if FoldDue(ctx, full, condense) && reply.Said? then
      if WorthKeeping(reply.text, FoldedText(ctx, full, condense)) then Accepts(ctx, ctx', full, reply.text)
      else Leaves(ctx, ctx', 1)
    else Leaves(ctx, ctx', 0)
  }

  lemma CutIsPositiveIff(items: seq<Item>, k: nat)
    requires k > 0
    ensures CutKeepRecentTurns(items, k) > 0 <==> HasMoreThan(items, k)
  {
    StartsAre(items);
    var starts := TurnStarts(items);
    if |starts| >= k {
      var at := |starts| - k;
      if at > 0 { assert starts[0] < starts[at]; }
      else if IsStart(items, 0) { assert 0 in starts; }
      else { assert starts[0] in starts; }
    }
  }

  lemma SmallIff(ctx: Ctx, full: seq<Item>)
    ensures Small(ctx, full) <==> !L1Fires(ctx, Unfolded(ctx, full))
  {
  }

  /** Stage 1 by what it leaves. */
  lemma FirstStage(ctx: Ctx, full: seq<Item>, condense: Condenser) returns (ctx1: Ctx, est: nat)
    ensures L1(ctx, Unfolded(ctx, full), condense) == (ctx1, Shortened(ctx, full, condense))
    ensures est == Estimate1(ctx, Unfolded(ctx, full), condense)
    ensures ctx1 == ctx.(l1Count := ctx1.l1Count, l1Reasoning := ctx1.l1Reasoning)
    ensures if Small(ctx, full) then ctx1 == ctx && Within(ctx, est, 35)
            else est == FullEstimate(ctx1, Shortened(ctx, full, condense))
    ensures SameShape(Unfolded(ctx, full), Shortened(ctx, full, condense))
    ensures TurnStarts(Shortened(ctx, full, condense)) == TurnStarts(Unfolded(ctx, full))
  {
    SmallIff(ctx, full);
    MicroKeepsShape(Unfolded(ctx, full), condense);
    ctx1, est := L1(ctx, Unfolded(ctx, full), condense).0, Estimate1(ctx, Unfolded(ctx, full), condense);
  }

  /** The estimate stage 2 hands on: the exact one, or a small one. */
  predicate Estimated(ctx: Ctx, items: seq<Item>, est: nat, small: bool) {
    if small then Within(ctx, est, 35) else est == FullEstimate(ctx, items)
  }

  function Drop(items: seq<Item>, n: int): (r: seq<Item>)
    ensures 0 <= n <= |items| ==> r == items[n..]
  {
    if 0 <= n <= |items| then items[n..] else items
  }

  /** The items behind the new cursor, as stage 1 left them. */
  function Kept(ctx: Ctx, ctx': Ctx, full: seq<Item>, condense: Condenser): seq<Item> {
    Drop(Shortened(ctx, full, condense), ctx'.foldIdx - ctx.foldIdx)
  }

  lemma FoldLeaves(ctx: Ctx, full: seq<Item>, items: seq<Item>, cut: nat)
    requires CursorOk(ctx, full)
    requires TurnStarts(items) == TurnStarts(Unfolded(ctx, full)) && |items| == |Unfolded(ctx, full)|
    requires cut == CutKeepRecentTurns(items, RECENT_TOOL_TURNS) && cut > 0
    ensures ctx.foldIdx + cut < |full| && |TurnStarts(full[ctx.foldIdx + cut..])| == RECENT_TOOL_TURNS
    ensures IsStart(full, ctx.foldIdx + cut)
  {
    var rest := Unfolded(ctx, full);
    CutKeepsTurns(items, RECENT_TOOL_TURNS);
    CutKeepsTurns(rest, RECENT_TOOL_TURNS);
    FoldEndsAtStart(full, ctx.foldIdx, items, cut);
    assert rest[cut..] == full[ctx.foldIdx + cut..];
  }

  /** What stages 1 and 2 leave. */
  predicate Staged(ctx: Ctx, full: seq<Item>, condense: Condenser, reply: Reply, st: Stage) {
    && Folds(ctx, st.ctx, full, condense, reply) && st.raised == (FoldDue(ctx, full, condense) && reply.Raised?)
    && (!st.raised ==> st.items == Kept(ctx, st.ctx, full, condense)
                       && Estimated(st.ctx, st.items, st.est, Small(ctx, full)))
    && st.folded == (st.ctx.foldIdx > 0) && st.ctx.truncCount == ctx.truncCount
    && st.ctx.window == ctx.window && st.ctx.overhead == ctx.overhead
  }

  /** Stage 1 changed two counters only. */
  predicate Counted(ctx: Ctx, ctx1: Ctx) { ctx1 == ctx.(l1Count := ctx1.l1Count, l1Reasoning := ctx1.l1Reasoning) }

  lemma CutWhenDue(ctx: Ctx, full: seq<Item>, condense: Condenser, ctx1: Ctx, est: nat)
    requires Counted(ctx, ctx1) && TurnStarts(Shortened(ctx, full, condense)) == TurnStarts(Unfolded(ctx, full))
    requires Estimated(ctx1, Shortened(ctx, full, condense), est, Small(ctx, full))
    ensures var items := Shortened(ctx, full, condense);
            L2Cut(ctx1, est, items) ==
            if FoldDue(ctx, full, condense) then CutKeepRecentTurns(items, RECENT_TOOL_TURNS) else 0
    ensures FoldDue(ctx, full, condense) ==>
              CutKeepRecentTurns(Shortened(ctx, full, condense), RECENT_TOOL_TURNS) > 0
  {
    var items := Shortened(ctx, full, condense);
    CutIsPositiveIff(items, RECENT_TOOL_TURNS);
    SameStarts(items, Unfolded(ctx, full), 0);
  }

  lemma NotFolded(ctx: Ctx, full: seq<Item>, condense: Condenser, reply: Reply, ctx1: Ctx, est: nat)
    requires CursorOk(ctx, full) && Counted(ctx, ctx1) && !(FoldDue(ctx, full, condense) && reply.Said?)
    requires Estimated(ctx1, Shortened(ctx, full, condense), est, Small(ctx, full))
    ensures Staged(ctx, full, condense, reply, Stage(ctx1, Shortened(ctx, full, condense), est, ctx.foldIdx > 0,
        FoldDue(ctx, full, condense)))
  {
  }

  lemma FoldRejected(ctx: Ctx, full: seq<Item>, condense: Condenser, reply: Reply, ctx1: Ctx, est: nat)
    requires CursorOk(ctx, full) && Counted(ctx, ctx1) && FoldDue(ctx, full, condense) && reply.Said?
    requires Estimated(ctx1, Shortened(ctx, full, condense), est, Small(ctx, full))
    requires !WorthKeeping(reply.text, FoldedText(ctx, full, condense))
    ensures Staged(ctx, full, condense, reply,
        Stage(L2Reject(ctx1), Shortened(ctx, full, condense), est, ctx.foldIdx > 0, false))
  {
  }

  lemma FoldAccepted(ctx: Ctx, full: seq<Item>, condense: Condenser, reply: Reply, cut: nat, st: Stage)
    requires FoldDue(ctx, full, condense) && reply.Said?
    requires WorthKeeping(reply.text, FoldedText(ctx, full, condense)) && Accepts(ctx, st.ctx, full, reply.text)
    requires st.ctx.foldIdx == ctx.foldIdx + cut && 0 < cut <= |Shortened(ctx, full, condense)|
    requires st.items == Shortened(ctx, full, condense)[cut..] && st.est == FullEstimate(st.ctx, st.items)
    requires st.folded && !st.raised && st.ctx.truncCount == ctx.truncCount
    requires st.ctx.window == ctx.window && st.ctx.overhead == ctx.overhead
    ensures Staged(ctx, full, condense, reply, st)
  {
    assert Folds(ctx, st.ctx, full, condense, reply);
    assert Kept(ctx, st.ctx, full, condense) == st.items;
  }

  lemma AcceptedCursor(ctx: Ctx, full: seq<Item>, items: seq<Item>, ctx1: Ctx, cut: nat, text: string)
    requires CursorOk(ctx, full) && Counted(ctx, ctx1) && |items| == |Unfolded(ctx, full)|
    requires TurnStarts(items) == TurnStarts(Unfolded(ctx, full))
    requires cut == CutKeepRecentTurns(items, RECENT_TOOL_TURNS) && cut > 0
    ensures Accepts(ctx, L2Accept(ctx1, cut, ctx1.foldIdx, text), full, text)
  {
    FoldLeaves(ctx, full, items, cut);
  }

  /** Stages 1 and 2 of a call, by their effect. */
  lemma TwoStages(ctx: Ctx, full: seq<Item>, condense: Condenser, reply: Reply)
    requires CursorOk(ctx, full)
    ensures Staged(ctx, full, condense, reply, StageOf(ctx, full, condense, reply))
  {
    var ctx1, est := FirstStage(ctx, full, condense);
    var items, due := Shortened(ctx, full, condense), FoldDue(ctx, full, condense);
    CutWhenDue(ctx, full, condense, ctx1, est);
    var cut := L2Cut(ctx1, est, items);
    assert StageOf(ctx, full, condense, reply) == L2(ctx1, items, est, ctx.foldIdx > 0, reply);
    if !due || reply.Raised? {
      NotFolded(ctx, full, condense, reply, ctx1, est);
    } else if WorthKeeping(reply.text, FoldText(items[..cut])) {
      AcceptedCursor(ctx, full, items, ctx1, cut, reply.text);
      FoldAccepted(ctx, full, condense, reply, cut, L2(ctx1, items, est, ctx.foldIdx > 0, reply));
    } else {
      FoldRejected(ctx, full, condense, reply, ctx1, est);
    }
  }

  // ---------- The whole call ----------

  /** The list that is sent when even the kept items are too long: the first user message, and behind it no more than
      the last HARD_KEEP_TURNS turns of what was kept. */
  predicate CutDown(full: seq<Item>, kept: seq<Item>, out: seq<Item>) {
    && |TurnStarts(out)| == Min(HARD_KEEP_TURNS, |TurnStarts(kept)|)
    && (full != [] && full[0].User? ==> out != [] && out[0] == full[0])
    && exists c: nat :: c <= |kept| && Reattached(full, kept, c, out)
  }

  /** `out` is `kept` from position c on, at a turn start or uncut, with or without the first user message. */
  predicate Reattached(full: seq<Item>, kept: seq<Item>, c: nat, out: seq<Item>)
    requires c <= |kept|
  {
    && (c == 0 || IsStart(kept, c))
    && (out == kept[c..] || (full != [] && full[0].User? && out == [full[0]] + kept[c..]))
  }

  lemma {:induction false} UserInFront(u: Item, items: seq<Item>)
    requires u.User?
    ensures |TurnStarts([u] + items)| == |TurnStarts(items)|
  {
    if items == [] {
      assert [u] + items == [u] && [u][..0] == [];
      assert TurnStarts([u]) == TurnStarts([]);
    } else {
      var front, m := items[..|items| - 1], items[|items| - 1];
      UserInFront(u, front);
      assert items == front + [m];
      Assoc([u], front, [m]);
      StartsSnoc([u] + front, m);
      StartsSnoc(front, m);
      assert IsStart([u] + front + [m], |front| + 1) == IsStart(front + [m], |front|);
    }
  }

  lemma HardCuts(full: seq<Item>, kept: seq<Item>, folded: bool)
    requires if folded then kept != [] && IsTurnItem(kept[0])
             else |kept| == |full| && (full != [] && (full[0].User? || kept[0].User?) ==> kept[0] == full[0])
    ensures CutDown(full, kept, Hard(full, kept, folded))
  {
    var cut := CutKeepRecentTurns(kept, HARD_KEEP_TURNS);
    var tail := kept[cut..];
    CutKeepsTurns(kept, HARD_KEEP_TURNS);
    assert kept[0..] == kept;
    assert |TurnStarts(tail)| == Min(HARD_KEEP_TURNS, |TurnStarts(kept)|);
    if full != [] && full[0].User? { UserInFront(full[0], tail); }
    assert [] + tail == tail;
    assert Reattached(full, kept, cut, Hard(full, kept, folded));
  }

  lemma KeptShape(ctx: Ctx, ctx': Ctx, full: seq<Item>, condense: Condenser)
    requires CursorOk(ctx, full) && CursorOk(ctx', full) && ctx.foldIdx <= ctx'.foldIdx
    ensures SameShape(Unfolded(ctx', full), Kept(ctx, ctx', full, condense))
  {
    var d := ctx'.foldIdx - ctx.foldIdx;
    ShortenedShape(ctx, full, condense);
    DropsTo(ctx, ctx', full);
    ShapeOfSuffix(Unfolded(ctx, full), Shortened(ctx, full, condense), d);
  }

  lemma ShortenedShape(ctx: Ctx, full: seq<Item>, condense: Condenser)
    ensures SameShape(Unfolded(ctx, full), Shortened(ctx, full, condense))
  {
    MicroKeepsShape(Unfolded(ctx, full), condense);
  }

  lemma DropsTo(ctx: Ctx, ctx': Ctx, full: seq<Item>)
    requires CursorOk(ctx, full) && CursorOk(ctx', full) && ctx.foldIdx <= ctx'.foldIdx
    ensures ctx'.foldIdx - ctx.foldIdx <= |Unfolded(ctx, full)|
    ensures Unfolded(ctx, full)[ctx'.foldIdx - ctx.foldIdx..] == Unfolded(ctx', full)
  {
  }

  lemma ShapeOfSuffix(a: seq<Item>, b: seq<Item>, d: nat)
    requires SameShape(a, b) && d <= |a|
    ensures SameShape(a[d..], b[d..])
  {
  }

  lemma UsersAreKept(ctx: Ctx, full: seq<Item>, condense: Condenser)
    requires ctx.foldIdx == 0 && full != [] && full[0].User?
    ensures Shortened(ctx, full, condense) != [] && Shortened(ctx, full, condense)[0] == full[0]
  {
    assert full[0..] == full;
  }

  /** Stage 3 cuts down what stage 2 settled. */
  lemma SettledCuts(ctx: Ctx, ctx': Ctx, full: seq<Item>, condense: Condenser)
    requires CursorOk(ctx, full) && CursorOk(ctx', full) && ctx.foldIdx <= ctx'.foldIdx
    ensures var kept := Kept(ctx, ctx', full, condense); CutDown(full, kept, Hard(full, kept, ctx'.foldIdx > 0))
  {
    var kept := Kept(ctx, ctx', full, condense);
    KeptShape(ctx, ctx', full, condense);
    if ctx'.foldIdx > 0 {
      assert Unfolded(ctx', full)[0] == full[ctx'.foldIdx];
    } else if full != [] {
      if full[0].User? { UsersAreKept(ctx, full, condense); }
      assert Unfolded(ctx', full) == full;
    }
    HardCuts(full, kept, ctx'.foldIdx > 0);
  }

  /** What is sent for the items that are kept: all of them, unless they take more than 85 percent of the window. */
  predicate Sends(ctx': Ctx, truncCount: nat, full: seq<Item>, kept: seq<Item>, small: bool, out: seq<Item>) {
    if small || Within(ctx', FullEstimate(ctx', kept), 85)
    then out == kept && ctx'.truncCount == truncCount
    else CutDown(full, kept, out) && ctx'.truncCount == truncCount + 1
  }

  /** What one call promises, for every input.  Folding happens exactly when it is due and the reply is worth keeping,
      and it leaves the last RECENT_TOOL_TURNS turns.  A summarizer that raises where a fold is due has the input sent
      as it is.  Otherwise the items behind the new cursor are sent, all of them, unless they take more than 85 percent
      of the window: exactly then the list is cut down, and the truncation is counted. */
  predicate Promise(ctx: Ctx, ctx': Ctx, full: seq<Item>, condense: Condenser, reply: Reply, out: seq<Item>) {
    && Folds(ctx, ctx', full, condense, reply)
    && if FoldDue(ctx, full, condense) && reply.Raised? then out == full && ctx'.truncCount == ctx.truncCount
       else Sends(ctx', ctx.truncCount, full, Kept(ctx, ctx', full, condense), Small(ctx, full), out)
  }

  lemma FinishSends(ctx: Ctx, full: seq<Item>, items: seq<Item>, est: nat, small: bool)
    requires Estimated(ctx, items, est, small) && CutDown(full, items, Hard(full, items, ctx.foldIdx > 0))
    ensures var (ctx', out) := Finish(ctx, full, items, est, ctx.foldIdx > 0);
            && ctx' == ctx.(truncCount := ctx'.truncCount)
            && Sends(ctx', ctx.truncCount, full, items, small, out)
  {
  }

  /** A change of a counter that the promise does not look at. */
  lemma FoldsAlike(ctx: Ctx, a: Ctx, b: Ctx, full: seq<Item>, condense: Condenser, reply: Reply)
    requires b == a.(truncCount := b.truncCount)
    ensures Folds(ctx, a, full, condense, reply) == Folds(ctx, b, full, condense, reply)
    ensures Kept(ctx, a, full, condense) == Kept(ctx, b, full, condense)
  {
  }

  lemma EndsAsPromised(ctx: Ctx, full: seq<Item>, condense: Condenser, reply: Reply, st: Stage)
    requires CursorOk(ctx, full) && CursorOk(st.ctx, full) && ctx.foldIdx <= st.ctx.foldIdx && !st.raised
    requires Staged(ctx, full, condense, reply, st)
    ensures var (ctx', out) := Finish(st.ctx, full, st.items, st.est, st.folded);
            Promise(ctx, ctx', full, condense, reply, out)
  {
    SettledCuts(ctx, st.ctx, full, condense);
    FinishSends(st.ctx, full, st.items, st.est, Small(ctx, full));
    FoldsAlike(ctx, st.ctx, Finish(st.ctx, full, st.items, st.est, st.folded).0, full, condense, reply);
  }

  lemma SmallAlike(ctx: Ctx, n: nat, full: seq<Item>)
    ensures Small(ctx.(lastSentLen := n), full) == Small(ctx, full)
    ensures Unfolded(ctx.(lastSentLen := n), full) == Unfolded(ctx, full)
  {
  }

  lemma DueAlike(ctx: Ctx, n: nat, full: seq<Item>, condense: Condenser)
    ensures Shortened(ctx.(lastSentLen := n), full, condense) == Shortened(ctx, full, condense)
    ensures FoldDue(ctx.(lastSentLen := n), full, condense) == FoldDue(ctx, full, condense)
  {
    SmallAlike(ctx, n, full);
  }

  lemma FoldsSame(ctx: Ctx, n: nat, ctx': Ctx, full: seq<Item>, condense: Condenser, reply: Reply)
    ensures Folds(ctx.(lastSentLen := n), ctx', full, condense, reply) == Folds(ctx, ctx', full, condense, reply)
    ensures Kept(ctx.(lastSentLen := n), ctx', full, condense) == Kept(ctx, ctx', full, condense)
  {
    DueAlike(ctx, n, full, condense);
  }

  lemma PromiseAlike(ctx: Ctx, n: nat, ctx': Ctx, full: seq<Item>, condense: Condenser, reply: Reply, out: seq<Item>)
    ensures Promise(ctx.(lastSentLen := n), ctx', full, condense, reply, out)
        == Promise(ctx, ctx', full, condense, reply, out)
  {
    SmallAlike(ctx, n, full);
    DueAlike(ctx, n, full, condense);
    FoldsSame(ctx, n, ctx', full, condense, reply);
  }

  lemma CallAsPromised(ctx: Ctx, full: seq<Item>, condense: Condenser, reply: Reply)
    requires ctx.enabled && CursorOk(ctx, full)
    ensures var (ctx', out) := Filter(ctx, full, condense, reply); Promise(ctx, ctx', full, condense, reply, out)
  {
    var c := ctx.(lastSentLen := |full|);
    var st := StageOf(c, full, condense, reply);
    var (ctx', out) := Filter(ctx, full, condense, reply);
    FilterIs(ctx, full, condense, reply, st);
    TwoStages(c, full, condense, reply);
    StageMovesCursor(c, full, condense, reply);
    if !st.raised { EndsAsPromised(c, full, condense, reply, st); }
    PromiseAlike(ctx, |full|, ctx', full, condense, reply, out);
  }

  /** What no call changes, and the length it notes down. */
  predicate Frame(ctx: Ctx, ctx': Ctx, sent: nat) {
    && ctx'.window == ctx.window && ctx'.overhead == ctx.overhead && ctx'.enabled == ctx.enabled
    && ctx'.lastInputTokens == ctx.lastInputTokens && ctx'.itemsSeen == ctx.itemsSeen
    && ctx'.hasSummarizer == ctx.hasSummarizer && ctx'.lastSentLen == sent
  }

  lemma CallFrame(ctx: Ctx, full: seq<Item>, condense: Condenser, reply: Reply)
    requires ctx.enabled
    ensures Frame(ctx, Filter(ctx, full, condense, reply).0, |full|)
  {
    var c := ctx.(lastSentLen := |full|);
    var ctx1, items1, est, folded := StageIsL2(c, full, condense, reply);
    StageFrame(ctx1, items1, est, folded, reply);
    var st := StageOf(c, full, condense, reply);
    FilterIs(ctx, full, condense, reply, st);
    FinishKeepsCursor(st.ctx, full, st.items, st.est, st.folded);
  }

  lemma StageFrame(ctx: Ctx, items: seq<Item>, est: nat, folded: bool, reply: Reply)
    ensures Frame(ctx, L2(ctx, items, est, folded, reply).ctx, ctx.lastSentLen)
  {
  }

  /** Whatever the summarizer answers, what is sent fits 85 percent of the window or has no more than the last
      HARD_KEEP_TURNS turns. */
  lemma FitsOrIsShort(ctx: Ctx, full: seq<Item>, condense: Condenser, reply: Reply)
    requires ctx.enabled && CursorOk(ctx, full) && (reply.Said? || !FoldDue(ctx, full, condense))
    ensures var (ctx', out) := Filter(ctx, full, condense, reply);
            Within(ctx', FullEstimate(ctx', out), 85) || |TurnStarts(out)| <= HARD_KEEP_TURNS
  {
    CallAsPromised(ctx, full, condense, reply);
    CallFrame(ctx, full, condense, reply);
    var (ctx', out) := Filter(ctx, full, condense, reply);
    if Small(ctx, full) {
      SmallIsLeft(ctx, full, condense);
      assert Leaves(ctx, ctx', 0);
      assert out == Unfolded(ctx, full);
    } else {
      SentFits(ctx', ctx.truncCount, full, Kept(ctx, ctx', full, condense), out);
    }
  }

  lemma SentFits(ctx': Ctx, truncCount: nat, full: seq<Item>, kept: seq<Item>, out: seq<Item>)
    requires Sends(ctx', truncCount, full, kept, false, out)
    ensures Within(ctx', FullEstimate(ctx', out), 85) || |TurnStarts(out)| <= HARD_KEEP_TURNS
  {
  }

  lemma SmallIsLeft(ctx: Ctx, full: seq<Item>, condense: Condenser)
    requires Small(ctx, full)
    ensures Kept(ctx, ctx, full, condense) == Unfolded(ctx, full)
    ensures Within(ctx, FullEstimate(ctx, Kept(ctx, ctx, full, condense)), 85)
  {
  }

  /** A small input is sent as it is, and nothing is counted, folded or given up; a filter that is off sends
      everything. */
  lemma SmallIsUntouched(ctx: Ctx, full: seq<Item>, condense: Condenser, reply: Reply)
    requires !ctx.enabled || Small(ctx, full)
    ensures Filter(ctx, full, condense, reply) ==
            if ctx.enabled then (ctx.(lastSentLen := |full|), Unfolded(ctx, full)) else (ctx, full)
  {
    if ctx.enabled {
      var c, items := ctx.(lastSentLen := |full|), Unfolded(ctx, full);
      SmallAlike(ctx, |full|, full);
      SmallIff(c, full);
      assert L2(c, items, Estimate0(c, items), Offset(c, full) > 0, reply) ==
             Stage(c, items, Estimate0(c, items), Offset(c, full) > 0, false);
      FilterIs(ctx, full, condense, reply, StageOf(c, full, condense, reply));
    }
  }

  /** No item behind the cursor is lost unless the list had to be cut down: the items sent are those of the input,
      one for one, shortened at most. */
  lemma NothingIsLost(ctx: Ctx, full: seq<Item>, condense: Condenser, reply: Reply)
    requires ctx.enabled && CursorOk(ctx, full) && (reply.Said? || !FoldDue(ctx, full, condense))
    ensures var (ctx', out) := Filter(ctx, full, condense, reply);
            && CursorOk(ctx', full)
            && (ctx'.truncCount == ctx.truncCount ==> SameShape(Unfolded(ctx', full), out))
            && (ctx'.truncCount != ctx.truncCount ==>
                  ctx'.truncCount == ctx.truncCount + 1
                  && !Within(ctx', FullEstimate(ctx', Kept(ctx, ctx', full, condense)), 85))
  {
    CallAsPromised(ctx, full, condense, reply);
    FilterMovesCursor(ctx, full, condense, reply);
    KeptShape(ctx, Filter(ctx, full, condense, reply).0, full, condense);
  }

  /** The provider's usage report counts for the next call: the budget is what it reported for the list it was sent and
      what was appended since; an empty report changes nothing. */
  lemma UsageIsRemembered(ctx: Ctx, full: seq<Item>, condense: Condenser, reply: Reply, tokens: nat, more: seq<Item>)
    requires ctx.enabled
    ensures var sent := Filter(ctx, full, condense, reply).0;
            var c := LlmEnd(sent, tokens);
            && (tokens > 0 ==> Budget(c, full + more) == tokens + EstimateItems(more))
            && c.(lastInputTokens := sent.lastInputTokens, itemsSeen := sent.itemsSeen) == sent
            && (tokens == 0 ==> c == sent)
  {
    CallFrame(ctx, full, condense, reply);
    assert (full + more)[|full|..] == more;
  }
}
