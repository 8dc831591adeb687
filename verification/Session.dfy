/**
  A session across runs (agent/agent.py, `AgentRunner.run` and
  `_persist_midrun_state`): the saved history, the rolling summary and the
  cursor `folded_upto`, while compaction stays on and runs end normally.
 */
module Session {
  import opened Common
  import opened Items
  import opened Turns
  import PreRun
  import MidRun
  import MicroCompact
  import opened Estimates

  /** The session row.  `covered` records the positions whose text went into an accepted summary. */
  datatype Session = Session(history: seq<Item>, summary: string, folded: nat, covered: set<nat>)

  /** What a run is given and what happens in it: the new user message (none when a run is continued), the sizes,
      the answers of the summarizer, the model calls, and the items produced after the last call. */
  datatype Input = Input(user: Option<string>, cfg: PreRun.Settings, reply: PreRun.Reply, hasSummarizer: bool,
                         steps: seq<MidRun.Step>, tail: seq<Item>)

  function UserItems(user: Option<string>): seq<Item> {
    if user.Some? then [User(user.value)] else []
  }

  /** Everything the model calls of a run appended to the input. */
  function Produced(steps: seq<MidRun.Step>): seq<Item> {
    if steps == [] then []
    else
      var last := steps[|steps| - 1];
      Produced(steps[..|steps| - 1]) + if last.CallStep? then last.more else []
  }

  /** The new turn of a run, as the conversation sees it. */
  function NewTurn(i: Input): seq<Item> {
    UserItems(i.user) + (Produced(i.steps) + i.tail)
  }

  function Range(lo: nat, hi: nat): (r: set<nat>)
    ensures forall x :: x in r <==> lo <= x < hi
  {
    if hi <= lo then {} else Range(lo, hi - 1) + {hi - 1}
  }

  function Pre(s: Session, i: Input): PreRun.Outcome {
    PreRun.Compact(true, false, s.summary, s.folded, s.history, i.cfg, i.reply)
  }

  /** How much of the history is not sent. */
  function Dropped(s: Session, i: Input): (d: nat)
    ensures d <= |s.history|
  {
    PreRun.CompactSendsSuffix(true, false, s.summary, s.folded, s.history, i.cfg, i.reply);
    |s.history| - |Pre(s, i).send|
  }

  function StartRun(s: Session, i: Input): MidRun.Run {
    var pre := Pre(s, i);
    var ctx := MidRun.Ctx(i.cfg.window, i.cfg.overhead, 0, 0, 0, pre.summary, 0, 0, 0, 0, 0, false, 0,
                          i.hasSummarizer, true);
    MidRun.Run(ctx, Inject(pre.send + UserItems(i.user)), [])
  }

  function EndRun(s: Session, i: Input): MidRun.Run {
    MidRun.Execute(StartRun(s, i), i.steps)
  }

  /** One run: compact, inject, call the model, save prefix plus input plus output, and move the cursor when the
      run itself folded something. */
  function RunOnce(s: Session, i: Input): Session {
    Commit(s, i, Pre(s, i), Dropped(s, i), EndRun(s, i))
  }

  function Commit(s: Session, i: Input, pre: PreRun.Outcome, d: nat, end: MidRun.Run): Session
    requires d <= |s.history|
  {
    var saved := s.history[..d] + (end.full + i.tail);
    var covered := s.covered + Range(s.folded, pre.folded);
    if end.ctx.l2Count > 0 && end.ctx.summary != ""
    then Session(saved, end.ctx.summary, d + end.ctx.foldIdx, covered + Range(d, d + end.ctx.foldIdx))
    else Session(saved, pre.summary, pre.folded, covered)
  }

  function RunAll(s: Session, inputs: seq<Input>): Session {
    if inputs == [] then s else RunOnce(RunAll(s, inputs[..|inputs| - 1]), inputs[|inputs| - 1])
  }

  /** The cursor lies inside the history and nothing beyond it was summarised. */
  predicate Valid(s: Session) {
    s.folded <= |s.history| && s.covered <= Range(0, s.folded)
  }

  /** The cursor did not move back and the items below it are the same. */
  predicate KeepsFolded(s: Session, s': Session) {
    s.folded <= s'.folded && s.folded <= |s.history| && s.folded <= |s'.history|
    && s'.history[..s.folded] == s.history[..s.folded]
  }

  lemma KeepsTransitive(a: Session, b: Session, c: Session)
    requires KeepsFolded(a, b) && KeepsFolded(b, c)
    ensures KeepsFolded(a, c)
  {
    assert c.history[..b.folded][..a.folded] == c.history[..a.folded];
    assert b.history[..b.folded][..a.folded] == b.history[..a.folded];
  }

  // ---------- The input of a run only grows ----------

  lemma {:induction false} FullGrows(r: MidRun.Run, steps: seq<MidRun.Step>)
    ensures MidRun.Execute(r, steps).full == r.full + Produced(steps)
  {
    if steps == [] {
      assert r.full + [] == r.full;
    } else {
      var front, last := steps[..|steps| - 1], steps[|steps| - 1];
      FullGrows(r, front);
      Assoc(r.full, Produced(front), if last.CallStep? then last.more else []);
      if last.LlmEndStep? { assert Produced(front) + [] == Produced(front); }
    }
  }

  lemma {:induction false} FoldedMeansCounted(r: MidRun.Run, steps: seq<MidRun.Step>)
    requires r.ctx.foldIdx == 0 && r.folds == [] && r.ctx.l2Count == 0
    ensures var e := MidRun.Execute(r, steps);
            && MidRun.RunOk(e, 0)
            && (e.ctx.l2Count > 0 <==> e.ctx.foldIdx > 0) && (e.ctx.l2Count > 0 ==> e.ctx.summary != "")
  {
    if steps != [] {
      var front, last := steps[..|steps| - 1], steps[|steps| - 1];
      FoldedMeansCounted(r, front);
      var m := MidRun.Execute(r, front);
      MidRun.StepKeepsRun(m, last, 0);
      if last.CallStep? {
        MidRun.CursorSurvivesGrowth(m.ctx, m.full, last.more);
        MidRun.FilterMovesCursor(m.ctx, m.full + last.more, last.condense, last.reply);
      }
    }
  }

  // ---------- Which summary is saved ----------

  /** The last reply of the summarizer that the run accepted, stripped; None when it accepted none. */
  function LastAccepted(r: MidRun.Run, steps: seq<MidRun.Step>): Option<string> {
    if steps == [] then None
    else
      var front, last := steps[..|steps| - 1], steps[|steps| - 1];
      var m := MidRun.Execute(r, front);
      if last.CallStep? && last.reply.Said? && MidRun.NextRun(m, last).ctx.foldIdx > m.ctx.foldIdx
      then Some(Strip(last.reply.text)) else LastAccepted(r, front)
  }

  lemma {:induction false} SummaryFollows(r: MidRun.Run, steps: seq<MidRun.Step>)
    requires MidRun.RunOk(r, 0)
    ensures var e, last := MidRun.Execute(r, steps), LastAccepted(r, steps);
            && e.ctx.summary == (if last.Some? then last.value else r.ctx.summary)
            && (last.Some? <==> e.ctx.foldIdx > r.ctx.foldIdx)
            && r.ctx.foldIdx <= e.ctx.foldIdx && MidRun.RunOk(e, 0)
  {
    if steps != [] {
      var front, last := steps[..|steps| - 1], steps[|steps| - 1];
      SummaryFollows(r, front);
      var m := MidRun.Execute(r, front);
      MidRun.StepKeepsRun(m, last, 0);
      if last.CallStep? { SummaryStep(m, last); }
    }
  }

  lemma SummaryStep(m: MidRun.Run, step: MidRun.Step)
    requires MidRun.CursorOk(m.ctx, m.full) && step.CallStep?
    ensures MidRun.CursorStep(m.ctx, MidRun.NextRun(m, step).ctx, step.reply)
  {
    MidRun.CursorSurvivesGrowth(m.ctx, m.full, step.more);
    MidRun.FilterMovesCursor(m.ctx, m.full + step.more, step.condense, step.reply);
  }

  /** The summary a run saves is the last one it accepted: that of its last fold, else that of the pre-run fold, else
      the old one; and the cursor is where that fold ended. */
  lemma SavedSummaryIsLastAccepted(s: Session, i: Input)
    ensures var s', pre, last := RunOnce(s, i), Pre(s, i), LastAccepted(StartRun(s, i), i.steps);
            && s'.summary == (if last.Some? then last.value
                              else if pre.folded > PreRun.Cursor(s.folded, s.history)
                              then (if i.reply.Some? then Strip(i.reply.value) else "")
                              else s.summary)
            && s'.folded == if last.Some? then Dropped(s, i) + EndRun(s, i).ctx.foldIdx else pre.folded
  {
    var r := StartRun(s, i);
    PreRun.CursorMovesWithSummary(s.summary, s.folded, s.history, i.cfg, i.reply);
    SummaryFollows(r, i.steps);
    FoldedMeansCounted(r, i.steps);
  }

  // ---------- One run ----------

  /** The saved history of a run, seen without synthesized items: the old one followed by the new turn. */
  lemma RunConserves(s: Session, i: Input)
    ensures Erase(RunOnce(s, i).history) == Erase(s.history) + Erase(NewTurn(i))
  {
    var d := Dropped(s, i);
    SavedIs(s, i, d);
    SavedConserves(s.history, d, UserItems(i.user), Produced(i.steps), i.tail);
  }

  lemma SavedIs(s: Session, i: Input, d: nat)
    requires d == Dropped(s, i)
    ensures RunOnce(s, i).history ==
            s.history[..d] + ((Inject(s.history[d..] + UserItems(i.user)) + Produced(i.steps)) + i.tail)
  {
    FullGrows(StartRun(s, i), i.steps);
    InputIs(s, i, d);
    CommitSaves(s, i, Pre(s, i), d, EndRun(s, i));
  }

  lemma SentIs(s: Session, i: Input, d: nat)
    requires d == Dropped(s, i)
    ensures Pre(s, i).send == s.history[d..]
  {
    PreRun.CompactSendsSuffix(true, false, s.summary, s.folded, s.history, i.cfg, i.reply);
  }

  lemma InputIs(s: Session, i: Input, d: nat)
    requires d == Dropped(s, i)
    ensures StartRun(s, i).full == Inject(s.history[d..] + UserItems(i.user))
  {
    SentIs(s, i, d);
  }

  lemma CommitSaves(s: Session, i: Input, pre: PreRun.Outcome, d: nat, end: MidRun.Run)
    requires d <= |s.history|
    ensures Commit(s, i, pre, d, end).history == s.history[..d] + (end.full + i.tail)
  {
  }

  lemma SavedConserves(history: seq<Item>, d: nat, users: seq<Item>, made: seq<Item>, tail: seq<Item>)
    requires d <= |history|
    ensures Erase(history[..d] + ((Inject(history[d..] + users) + made) + tail)) ==
            Erase(history) + Erase(users + (made + tail))
  {
    var prefix, send := history[..d], history[d..];
    var input := Inject(send + users);
    calc {
      Erase(prefix + ((input + made) + tail));
      { EraseConcat(prefix, (input + made) + tail); Assoc(input, made, tail); }
      Erase(prefix) + Erase(input + (made + tail));
      { EraseConcat(input, made + tail); EraseInject(send + users); EraseConcat(send, users); }
      Erase(prefix) + ((Erase(send) + Erase(users)) + Erase(made + tail));
      { Regroup(Erase(prefix), Erase(send), Erase(users), Erase(made + tail)); }
      (Erase(prefix) + Erase(send)) + (Erase(users) + Erase(made + tail));
      { EraseConcat(prefix, send); assert prefix + send == history; EraseConcat(users, made + tail); }
      Erase(history) + Erase(users + (made + tail));
    }
  }

  lemma Regroup<T>(a: seq<T>, b: seq<T>, c: seq<T>, d: seq<T>)
    ensures a + ((b + c) + d) == (a + b) + (c + d)
  {
  }

  lemma PrefixOfConcat<T>(a: seq<T>, d: nat, b: seq<T>, n: nat)
    requires n <= d <= |a|
    ensures (a[..d] + b)[..n] == a[..n]
  {
  }

  /** A run keeps the session valid, never moves the cursor back and never touches an item below it. */
  lemma RunKeepsFoldedItems(s: Session, i: Input)
    requires Valid(s)
    ensures Valid(RunOnce(s, i)) && KeepsFolded(s, RunOnce(s, i))
  {
    var pre, d, end := Pre(s, i), Dropped(s, i), EndRun(s, i);
    PreRun.CompactSendsSuffix(true, false, s.summary, s.folded, s.history, i.cfg, i.reply);
    FullGrows(StartRun(s, i), i.steps);
    FoldedMeansCounted(StartRun(s, i), i.steps);
    PrefixOfConcat(s.history, d, end.full + i.tail, s.folded);
  }

  // ---------- Across runs ----------

  function NewTurns(inputs: seq<Input>): seq<Item> {
    if inputs == [] then [] else NewTurns(inputs[..|inputs| - 1]) + Erase(NewTurn(inputs[|inputs| - 1]))
  }

  /** History conservation: after any number of runs the saved history, without synthesized items, is the first
      one followed by the turns of the runs, in order. */
  lemma {:induction false} HistoryConservation(s: Session, inputs: seq<Input>)
    ensures Erase(RunAll(s, inputs).history) == Erase(s.history) + NewTurns(inputs)
  {
    if inputs == [] {
      assert Erase(s.history) + [] == Erase(s.history);
    } else {
      var front, last := inputs[..|inputs| - 1], inputs[|inputs| - 1];
      HistoryConservation(s, front);
      RunConserves(RunAll(s, front), last);
      Assoc(Erase(s.history), NewTurns(front), Erase(NewTurn(last)));
    }
  }

  /** Whatever lies below the cursor, a mid-run cursor included, is never changed by any later run. */
  lemma {:induction false} FoldedItemsAreFinal(s: Session, inputs: seq<Input>)
    requires Valid(s)
    ensures Valid(RunAll(s, inputs)) && KeepsFolded(s, RunAll(s, inputs))
  {
    if inputs != [] {
      var front, last := inputs[..|inputs| - 1], inputs[|inputs| - 1];
      FoldedItemsAreFinal(s, front);
      RunKeepsFoldedItems(RunAll(s, front), last);
      KeepsTransitive(s, RunAll(s, front), RunAll(s, inputs));
    }
  }

  /** No item is summarised twice: what the start of a run folds, what the run itself folds and what was folded
      before are disjoint. */
  lemma SummarisedAtMostOnce(s: Session, i: Input)
    requires Valid(s)
    ensures var before, d := Range(s.folded, Pre(s, i).folded), Dropped(s, i);
            var during := Range(d, d + EndRun(s, i).ctx.foldIdx);
            s.covered !! before && s.covered !! during && before !! during
  {
    PreRun.CompactSendsSuffix(true, false, s.summary, s.folded, s.history, i.cfg, i.reply);
    forall x | x in s.covered ensures x < s.folded { assert x in Range(0, s.folded); }
  }

  /** The summary covers everything below the cursor after a run exactly when it did before and the run did not
      fold behind items that the start of the run had truncated away. */
  lemma CoverageIsCompleteIff(s: Session, i: Input)
    requires Valid(s) && s.covered == Range(0, s.folded)
    ensures RunOnce(s, i).covered == Range(0, RunOnce(s, i).folded) <==>
            !(EndRun(s, i).ctx.foldIdx > 0 && Dropped(s, i) > Pre(s, i).folded)
  {
    PreRun.CompactSendsSuffix(true, false, s.summary, s.folded, s.history, i.cfg, i.reply);
    FoldedMeansCounted(StartRun(s, i), i.steps);
    CommitCovers(s, i, Pre(s, i), Dropped(s, i), EndRun(s, i));
  }

  lemma CommitCovers(s: Session, i: Input, pre: PreRun.Outcome, d: nat, end: MidRun.Run)
    requires s.covered == Range(0, s.folded) && s.folded <= pre.folded <= d <= |s.history|
    requires end.ctx.l2Count > 0 && end.ctx.summary != "" <==> end.ctx.foldIdx > 0
    ensures var s' := Commit(s, i, pre, d, end);
            s'.covered == Range(0, s'.folded) <==> !(end.ctx.foldIdx > 0 && d > pre.folded)
  {
    RangeGap(s.folded, pre.folded, d, d + end.ctx.foldIdx);
  }

  lemma RangeGap(a: nat, b: nat, c: nat, d: nat)
    requires a <= b <= c <= d
    ensures Range(0, a) + Range(a, b) == Range(0, b)
    ensures c < d ==> (Range(0, b) + Range(c, d) == Range(0, d) <==> b == c)
  {
    if c < d && b < c { assert b in Range(0, d) && b !in Range(0, b) + Range(c, d); }
  }

  // ---------- The gap is real ----------

  const MIN_CONTEXT_WINDOW := 1024

  /** n finished tool calls. */
  function CallPairs(n: nat, name: string, text: string): seq<Item> {
    if n == 0 then [] else CallPairs(n - 1, name, text) + [Call(Some(n), name, text), Output(Some(n), text)]
  }

  /** One more finished call is one more turn. */
  lemma OneMoreTurn(front: seq<Item>, c: Item, o: Item)
    requires front != [] && !IsTurnItem(front[|front| - 1]) && c.Call? && o.Output?
    ensures var items := front + [c] + [o];
            |TurnStarts(items)| == |TurnStarts(front)| + 1 && !IsTurnItem(items[|items| - 1])
  {
    assert (front + [c])[..|front|] == front;
    assert (front + [c] + [o])[..|front| + 1] == front + [c];
  }

  lemma {:induction false} PairsAreTurns(u: Item, n: nat, name: string, text: string)
    requires u.User?
    ensures var items := [u] + CallPairs(n, name, text);
            |TurnStarts(items)| == n && !IsTurnItem(items[|items| - 1])
  {
    if n == 0 {
      assert [u] + CallPairs(0, name, text) == [u] && [u][..0] == [];
      assert TurnStarts([u]) == [];
    } else {
      var front := [u] + CallPairs(n - 1, name, text);
      var c, o := Call(Some(n), name, text), Output(Some(n), text);
      PairsAreTurns(u, n - 1, name, text);
      OneMoreTurn(front, c, o);
      assert [u] + CallPairs(n, name, text) == front + [c] + [o];
    }
  }

  /** A history of two user messages, the first as long as the window: nothing can be folded, and the first one is
      truncated away. */
  lemma FirstIsTruncated(big: string, small: string, cfg: PreRun.Settings)
    requires cfg.window > 0 && |big| >= 4 * cfg.window
    ensures PreRun.Compact(true, false, "", 0, [User(big), User(small)], cfg, None) ==
            PreRun.Outcome("", 0, [User(small)])
  {
    var h := [User(big), User(small)];
    assert h[..1] == [User(big)] && [User(big)][..0] == [] && h[0..] == h;
    assert UserIndices([User(big)]) == [0] && UserIndices(h) == [0, 1];
    assert TurnStarts([User(big)]) == [] && TurnStarts(h) == [];
    assert KeepKCutIsZero(h);
    LongText(big, cfg.window);
    assert EstimateItems(h) >= EstimateTokens(ItemText(h[0])) >= cfg.window > PreRun.Line(cfg.window);
    assert PreRun.FirstFit(h, [0, 1], 0, PreRun.Cost(cfg, "", []), PreRun.Line(cfg.window)) == 1;
    assert h[1..] == [User(small)];
  }

  predicate KeepKCutIsZero(h: seq<Item>) { KeepKCut(h, PreRun.RECENT_TURNS, RECENT_TOOL_TURNS) == 0 }

  lemma FoldHappens(ctx: MidRun.Ctx, full: seq<Item>, k: nat, condense: MicroCompact.Condenser)
    requires ctx.enabled && ctx.hasSummarizer && !ctx.l2Disabled && ctx.foldIdx == 0 && ctx.window > 0
    requires full != [] && full[0].User? && |full[0].text| >= 5 && |TurnStarts(full)| >= RECENT_TOOL_TURNS
    requires k < |full| && full[k].Call? && |full[k].text| >= 4 * ctx.window
    ensures MidRun.Filter(ctx, full, condense, MidRun.Said("s")).0.foldIdx > 0
  {
    var c := ctx.(lastSentLen := |full|);
    assert full[0..] == full;
    var est := MidRun.Estimate1(c, full, condense);
    var ctx1, items1 := MidRun.L1Effect(c, full, condense);
    L1KeepsItem(c, full, condense, 0);
    L1KeepsItem(c, full, condense, k);
    LongCall(full, k, ctx.window);
    LongCall(items1, k, ctx.window);
    FoldAccepted(ctx1, items1, est);
    var st := MidRun.StageOf(c, full, condense, MidRun.Said("s"));
    MidRun.FinishKeepsCursor(st.ctx, full, st.items, st.est, st.folded);
  }

  lemma L1KeepsItem(ctx: MidRun.Ctx, items: seq<Item>, condense: MicroCompact.Condenser, k: nat)
    requires k < |items| && (items[k].User? || items[k].Call?)
    ensures var items1 := MidRun.L1(ctx, items, condense).1; |items1| == |items| && items1[k] == items[k]
  {
  }

  lemma ShortSummaryIsKept(foldText: string)
    requires |foldText| >= 5
    ensures WorthKeeping("s", foldText)
  {
    FiveCharacters(foldText);
    assert "s"[..0] == "" && CountCjk("s") == 0;
    assert Strip("s") == "s";
  }

  lemma CutBehindHead(items: seq<Item>) returns (cut: nat)
    requires items != [] && items[0].User? && |items[0].text| >= 5 && |TurnStarts(items)| >= RECENT_TOOL_TURNS
    ensures cut == CutKeepRecentTurns(items, RECENT_TOOL_TURNS) && 0 < cut <= |items|
    ensures |FoldText(items[..cut])| >= 5
  {
    StartsAre(items);
    cut := CutKeepRecentTurns(items, RECENT_TOOL_TURNS);
    assert cut in TurnStarts(items);
    FoldTextHasHead(items[..cut]);
  }

  lemma FoldAccepted(ctx: MidRun.Ctx, items: seq<Item>, est: nat)
    requires ctx.hasSummarizer && !ctx.l2Disabled && est >= ctx.window > 0
    requires items != [] && items[0].User? && |items[0].text| >= 5 && |TurnStarts(items)| >= RECENT_TOOL_TURNS
    ensures var st := MidRun.L2(ctx, items, est, false, MidRun.Said("s")); st.ctx.foldIdx > ctx.foldIdx && !st.raised
  {
    var cut := CutBehindHead(items);
    ShortSummaryIsKept(FoldText(items[..cut]));
  }

  /** A run that begins with one user message and in which six tool calls are made before the next model call. */
  function GapInput(window: nat, overhead: nat, name: string, text: string, condense: MicroCompact.Condenser): Input {
    Input(None, PreRun.Settings(window, overhead, ""), None, true,
          [MidRun.CallStep(CallPairs(6, name, text), condense, MidRun.Said("s"))], [])
  }

  lemma GapStart(s: Session, i: Input, u: Item)
    requires Pre(s, i) == PreRun.Outcome("", 0, [u]) && u.User? && i.user == None
    ensures StartRun(s, i).full == [u]
  {
    assert [u][..0] == [] && [u] + [] == [u];
    assert Inject([u]) == Inject([]) + [] + [u];
  }

  lemma OneCall(r: MidRun.Run, step: MidRun.Step)
    ensures MidRun.Execute(r, [step]) == MidRun.NextRun(r, step)
  {
    assert [step][..0] == [];
  }

  lemma GapFolds(s: Session, i: Input, u: Item, name: string, text: string, condense: MicroCompact.Condenser)
    requires i == GapInput(i.cfg.window, i.cfg.overhead, name, text, condense) && u.User? && |u.text| >= 5
    requires i.cfg.window > 0 && |text| >= 4 * i.cfg.window && Pre(s, i) == PreRun.Outcome("", 0, [u])
    ensures EndRun(s, i).ctx.foldIdx > 0
  {
    GapStart(s, i, u);
    PairsAreTurns(u, 6, name, text);
    var full := [u] + CallPairs(6, name, text);
    assert full[|full| - 2] == Call(Some(6), name, text);
    FoldHappens(StartRun(s, i).ctx, full, |full| - 2, condense);
    OneCall(StartRun(s, i), i.steps[0]);
  }

  /** The failing case, for every context window the code accepts: the first message is truncated away before the run,
      the run itself folds, and the new cursor lies behind a message that no summary ever saw. */
  lemma CoverageCanBeIncomplete(window: nat, overhead: nat, big: string, small: string, name: string, text: string,
                                condense: MicroCompact.Condenser)
    requires window >= MIN_CONTEXT_WINDOW && |small| >= 5 && |big| >= 4 * window && |text| >= 4 * window
    ensures var s := Session([User(big), User(small)], "", 0, {});
            var i := GapInput(window, overhead, name, text, condense);
            && Valid(s) && EndRun(s, i).ctx.foldIdx > 0 && Dropped(s, i) == 1 && Pre(s, i).folded == 0
            && 0 < RunOnce(s, i).folded && 0 !in RunOnce(s, i).covered
  {
    var s := Session([User(big), User(small)], "", 0, {});
    var i := GapInput(window, overhead, name, text, condense);
    FirstIsTruncated(big, small, i.cfg);
    GapFolds(s, i, User(small), name, text, condense);
    FoldedMeansCounted(StartRun(s, i), i.steps);
  }
}
