/**
  Tool pairs across runs (agent/agent.py, agent/context_compaction.py,
  agent/compaction_filter.py): as long as the conversation itself keeps a call
  and its output in one turn, no cut of any run separates them, whatever was
  injected, folded or truncated before.
 */
module SessionPairs {
  import opened Common
  import opened Items
  import opened Turns
  import opened Session
  import PreRun
  import MidRun

  // ---------- Injection keeps pairs ----------

  /** Every identified output has its call before it, read from left to right. */
  predicate CalledFrom(open: set<Id>, items: seq<Item>)
    decreases |items|
  {
    items == [] || (OutputId(items[0]) <= open && CalledFrom(open + CallId(items[0]), items[1..]))
  }

  lemma CalledStep(open: set<Id>, m: Item, rest: seq<Item>)
    ensures CalledFrom(open, [m] + rest) <==> OutputId(m) <= open && CalledFrom(open + CallId(m), rest)
  {
    HeadTail(m, rest);
  }

  lemma {:induction false} CalledIs(a: seq<Item>, b: seq<Item>)
    ensures CalledFrom(CallIds(a), b) <==>
            forall j :: |a| <= j < |a + b| && IsOutputOf((a + b)[j]) ==> (a + b)[j].id.value in CallIds((a + b)[..j])
    decreases |b|
  {
    if b != [] {
      var a', b', l := a + [b[0]], b[1..], a + b;
      assert a' + b' == l;
      CalledIs(a', b');
      IdsConcat(a, [b[0]]);
      assert [b[0]][1..] == [] && CallIds([b[0]]) == CallId(b[0]);
      assert l[..|a|] == a && l[|a|] == b[0];
    }
  }

  lemma WholeIs(items: seq<Item>)
    ensures PairsWhole(items) <==> WholeFrom(false, {}, items)
  {
    WholeFromIsPairsWhole([], items);
    assert [] + items == items;
  }

  lemma PairedIs(items: seq<Item>)
    ensures PairsWhole(items) <==> WholeFrom(false, {}, items)
    ensures OutputsHaveCalls(items) <==> CalledFrom({}, items)
  {
    WholeIs(items);
    CalledIs([], items);
    assert [] + items == items;
  }

  /** Reasoning directly before an assistant message moves no boundary over a call or an output. */
  lemma {:induction false} ReasoningKeeps(prevTurn: bool, open: set<Id>, a: seq<Item>, r: Item, m: Item, b: seq<Item>)
    requires r.Reasoning? && m.Assistant?
    ensures WholeFrom(prevTurn, open, a + ([m] + b)) <==> WholeFrom(prevTurn, open, a + ([r] + ([m] + b)))
    ensures CalledFrom(open, a + ([m] + b)) <==> CalledFrom(open, a + ([r] + ([m] + b)))
    ensures OutputIds(a + ([m] + b)) == OutputIds(a + ([r] + ([m] + b)))
    decreases |a|
  {
    var x, y := [m] + b, [r] + ([m] + b);
    IdsOf(m, b);
    IdsOf(r, x);
    if a == [] {
      assert a + x == x && a + y == y;
      WholeStep(prevTurn, open, m, b);
      WholeStep(prevTurn, open, r, x);
      WholeStep(true, open, m, b);
      CalledStep(open, m, b);
      CalledStep(open, r, x);
      assert open + CallId(r) == open && open + CallId(m) == open;
    } else {
      var h, t := a[0], a[1..];
      assert a + x == [h] + (t + x) && a + y == [h] + (t + y);
      ReasoningKeeps(IsTurnItem(h), open + CallId(h), t, r, m, b);
      WholeStep(prevTurn, open, h, t + x);
      WholeStep(prevTurn, open, h, t + y);
      CalledStep(open, h, t + x);
      CalledStep(open, h, t + y);
      IdsOf(h, t + x);
      IdsOf(h, t + y);
    }
  }

  predicate Paired(items: seq<Item>) { PairsWhole(items) && OutputsHaveCalls(items) }

  lemma ReasoningKeepsPaired(a: seq<Item>, m: Item, b: seq<Item>)
    requires m.Assistant?
    ensures Paired(a + ([m] + b)) <==> Paired(a + ([SYNTHETIC] + ([m] + b)))
  {
    PairedIs(a + ([m] + b));
    PairedIs(a + ([SYNTHETIC] + ([m] + b)));
    ReasoningKeeps(false, {}, a, SYNTHETIC, m, b);
  }

  lemma Shuffle<T>(a: seq<T>, b: seq<T>, x: seq<T>, y: seq<T>, c: seq<T>)
    ensures a + (b + x + y) + c == (a + b) + (x + (y + c))
    ensures a + (b + y) + c == (a + b) + (y + c)
  {
  }

  /** Injection into any part of a history keeps its pairs. */
  lemma {:induction false} InjectKeepsPaired(a: seq<Item>, items: seq<Item>, b: seq<Item>)
    ensures Paired(a + items + b) <==> Paired(a + Inject(items) + b)
    decreases |items|
  {
    if items != [] {
      var front, m := items[..|items| - 1], items[|items| - 1];
      var out := Inject(front);
      assert items == front + [m];
      Shuffle(a, front, [], [m], b);
      InjectKeepsPaired(a, front, [m] + b);
      Shuffle(a, out, [SYNTHETIC], [m], b);
      if m.Assistant? && !(out != [] && out[|out| - 1].Reasoning?) {
        ReasoningKeepsPaired(a + out, m, b);
      } else {
        assert Inject(items) == out + [m];
      }
    }
  }

  lemma PairedPrefix(a: seq<Item>, b: seq<Item>)
    requires Paired(a + b)
    ensures Paired(a)
  {
    var l := a + b;
    forall s | 0 <= s <= |a| && IsBoundary(a, s) ensures CallIds(a[..s]) !! OutputIds(a[s..]) {
      assert IsBoundary(l, s);
      assert l[..s] == a[..s] && l[s..] == a[s..] + b;
      IdsConcat(a[s..], b);
    }
    forall j | 0 <= j < |a| && IsOutputOf(a[j]) ensures a[j].id.value in CallIds(a[..j]) {
      assert l[j] == a[j] && l[..j] == a[..j];
    }
  }

  // ---------- Boundaries ----------

  /** A cut that the code may make: the beginning or a boundary. */
  predicate CleanAt(items: seq<Item>, c: nat) { c == 0 || IsBoundary(items, c) }

  lemma PairedSuffix(items: seq<Item>, c: nat)
    requires Paired(items) && CleanAt(items, c)
    ensures c <= |items| && Paired(items[c..])
  {
    PairsWholeOfSuffix(items, c);
    CutKeepsPairs(items, c);
  }

  /** `send` begins at a clean cut of the history. */
  predicate CleanSuffix(send: seq<Item>, history: seq<Item>) {
    |send| <= |history| && CleanAt(history, |history| - |send|)
  }

  lemma SuffixIsClean(history: seq<Item>, f: nat, c: nat)
    requires f <= |history| && CleanAt(history, f) && CleanAt(history[f..], c)
    ensures CleanSuffix(PreRun.Tail(history[f..], c), history)
  {
    if c > 0 { BoundaryOfSuffix(history, f, c); }
  }

  lemma TruncatedIsClean(history: seq<Item>, f: nat, base: nat, line: nat)
    requires f <= |history| && CleanAt(history, f)
    ensures CleanSuffix(PreRun.TruncateToFit(history[f..], base, line), history)
  {
    var send := history[f..];
    BoundsAre(send);
    if Bounds(send) == [] {
      SuffixIsClean(history, f, 0);
    } else {
      SuffixIsClean(history, f, PreRun.FirstFit(send, Bounds(send), 0, base, line));
    }
  }

  lemma SendIsClean(history: seq<Item>, summary: string, f: nat, cfg: PreRun.Settings)
    requires f <= |history| && CleanAt(history, f)
    ensures CleanSuffix(PreRun.SendFrom(history, summary, f, cfg), history)
  {
    SuffixIsClean(history, f, 0);
    TruncatedIsClean(history, f, PreRun.Cost(cfg, summary, []), PreRun.Line(cfg.window));
  }

  lemma FoldIsClean(history: seq<Item>, summary: string, f: nat, cfg: PreRun.Settings, reply: PreRun.Reply)
    requires f <= |history| && CleanAt(history, f)
    ensures CleanAt(history, PreRun.Fold(history, summary, f, cfg, reply).1)
  {
    PreRun.FoldEndsAtBoundary(history, summary, f, cfg, reply);
  }

  predicate CleanOutcome(o: PreRun.Outcome, history: seq<Item>) {
    CleanAt(history, o.folded) && CleanSuffix(o.send, history)
  }

  lemma CompactIsClean(summary: string, f: nat, history: seq<Item>, cfg: PreRun.Settings, reply: PreRun.Reply)
    requires f <= |history| && CleanAt(history, f)
    ensures CleanOutcome(PreRun.CompactFrom(summary, f, history, cfg, reply), history)
  {
    SuffixIsClean(history, f, 0);
    FoldIsClean(history, summary, f, cfg, reply);
    var (summary', f') := PreRun.Fold(history, summary, f, cfg, reply);
    SendIsClean(history, summary', f', cfg);
  }

  lemma PreIs(s: Session, i: Input) returns (o: PreRun.Outcome, d: nat)
    requires Valid(s)
    ensures o == Pre(s, i) && o == PreRun.CompactFrom(s.summary, s.folded, s.history, i.cfg, i.reply)
    ensures d == Dropped(s, i) && d == |s.history| - |o.send|
  {
    o, d := Pre(s, i), Dropped(s, i);
  }

  lemma OutcomeIsClean(s: Session, i: Input, o: PreRun.Outcome)
    requires Valid(s) && CleanAt(s.history, s.folded)
    requires o == PreRun.CompactFrom(s.summary, s.folded, s.history, i.cfg, i.reply)
    ensures CleanOutcome(o, s.history)
  {
    CompactIsClean(s.summary, s.folded, s.history, i.cfg, i.reply);
  }

  lemma DroppedIsClean(s: Session, i: Input)
    requires Valid(s) && CleanAt(s.history, s.folded)
    ensures CleanAt(s.history, Dropped(s, i)) && CleanAt(s.history, Pre(s, i).folded)
  {
    var o, d := PreIs(s, i);
    PreIsClean(s, i);
    CleanParts(o, s.history, d);
  }

  lemma PreIsClean(s: Session, i: Input)
    requires Valid(s) && CleanAt(s.history, s.folded)
    ensures CleanOutcome(Pre(s, i), s.history)
  {
    var o, d := PreIs(s, i);
    OutcomeIsClean(s, i, o);
  }

  lemma CleanParts(o: PreRun.Outcome, history: seq<Item>, d: nat)
    requires CleanOutcome(o, history) && d == |history| - |o.send|
    ensures CleanAt(history, d) && CleanAt(history, o.folded)
  {
  }

  lemma {:induction false} InjectHead(items: seq<Item>)
    requires items != []
    ensures var out := Inject(items);
            out != [] && (out[0] == items[0] || (items[0].Assistant? && out[0].Reasoning?))
  {
    if |items| > 1 { InjectHead(items[..|items| - 1]); } else { assert items[..0] == []; }
  }

  /** A clean cut before or at the injected part stays clean. */
  lemma CleanAfterSave(history: seq<Item>, d: nat, c: nat, rest: seq<Item>)
    requires c <= d <= |history| && CleanAt(history, c) && CleanAt(history, d)
    ensures CleanAt(history[..d] + Inject(history[d..]) + rest, c)
  {
    var saved := history[..d] + Inject(history[d..]) + rest;
    if 0 < c < d {
      assert saved[c] == history[c] && saved[c - 1] == history[c - 1];
    } else if 0 < c {
      InjectHead(history[d..]);
      assert saved[d - 1] == history[d - 1] && saved[d] == Inject(history[d..])[0];
    }
  }

  // ---------- Runs ----------

  /** The session is valid, its cursor is clean and its history keeps pairs together. */
  predicate PairedSession(s: Session) { Valid(s) && CleanAt(s.history, s.folded) && Paired(s.history) }

  /** The new turn keeps calls and outputs together. */
  predicate Continues(s: Session, i: Input) { Paired(s.history + NewTurn(i)) }

  lemma RegroupTurn<T>(p: seq<T>, x: seq<T>, u: seq<T>, m: seq<T>, t: seq<T>)
    ensures p + (((x + u) + m) + t) == p + x + (u + (m + t))
  {
  }

  /** The saved history: what was not sent, the injected rest, and the new turn. */
  lemma SavedParts(s: Session, i: Input, d: nat)
    requires d == Dropped(s, i)
    ensures RunOnce(s, i).history == s.history[..d] + Inject(s.history[d..]) + NewTurn(i)
    ensures StartRun(s, i).full == Inject(s.history[d..]) + UserItems(i.user)
  {
    SavedIs(s, i, d);
    InputIs(s, i, d);
    InjectUser(s.history[d..], UserItems(i.user));
    RegroupTurn(s.history[..d], Inject(s.history[d..]), UserItems(i.user), Produced(i.steps), i.tail);
  }

  lemma InjectSuffixKeepsPaired(history: seq<Item>, d: nat, turn: seq<Item>)
    requires d <= |history| && Paired(history + turn)
    ensures Paired(history[..d] + Inject(history[d..]) + turn)
  {
    assert history[..d] + history[d..] == history;
    InjectKeepsPaired(history[..d], history[d..], turn);
  }

  lemma SavedIsPaired(s: Session, i: Input)
    requires Continues(s, i)
    ensures Paired(RunOnce(s, i).history)
  {
    SavedParts(s, i, Dropped(s, i));
    InjectSuffixKeepsPaired(s.history, Dropped(s, i), NewTurn(i));
  }

  /** A cursor that the run itself moved is at a turn start of its input. */
  lemma MovedCursorIsClean(s: Session, i: Input, d: nat, pre: PreRun.Outcome, end: MidRun.Run)
    requires d <= |s.history| && end.ctx.foldIdx > 0 && IsStart(end.full, end.ctx.foldIdx)
    requires end.ctx.l2Count > 0 && end.ctx.summary != ""
    ensures var s' := Commit(s, i, pre, d, end); CleanAt(s'.history, s'.folded)
  {
    StartInside(s.history[..d], end.full, i.tail, end.ctx.foldIdx);
  }

  lemma KeptCursorIsClean(s: Session, i: Input)
    requires PairedSession(s)
    ensures CleanAt(RunOnce(s, i).history, Pre(s, i).folded)
  {
    var d := Dropped(s, i);
    PreRun.CompactSendsSuffix(true, false, s.summary, s.folded, s.history, i.cfg, i.reply);
    DroppedIsClean(s, i);
    SavedParts(s, i, d);
    CleanAfterSave(s.history, d, Pre(s, i).folded, NewTurn(i));
  }

  lemma CursorStaysClean(s: Session, i: Input)
    requires PairedSession(s)
    ensures CleanAt(RunOnce(s, i).history, RunOnce(s, i).folded)
  {
    FoldedMeansCounted(StartRun(s, i), i.steps);
    if EndRun(s, i).ctx.foldIdx > 0 {
      MovedCursorIsClean(s, i, Dropped(s, i), Pre(s, i), EndRun(s, i));
    } else {
      KeptCursorIsClean(s, i);
    }
  }

  lemma StartInside(prefix: seq<Item>, full: seq<Item>, tail: seq<Item>, c: nat)
    requires 0 < c && IsStart(full, c)
    ensures IsBoundary(prefix + (full + tail), |prefix| + c)
  {
    var l := prefix + (full + tail);
    assert l[|prefix| + c] == full[c] && l[|prefix| + c - 1] == full[c - 1];
  }

  /** A run keeps the session paired. */
  lemma RunKeepsPairs(s: Session, i: Input)
    requires PairedSession(s) && Continues(s, i)
    ensures PairedSession(RunOnce(s, i))
  {
    RunKeepsFoldedItems(s, i);
    SavedIsPaired(s, i);
    CursorStaysClean(s, i);
  }

  lemma {:induction false} ProducedGrows(steps: seq<MidRun.Step>, k: nat)
    requires k <= |steps|
    ensures exists rest :: Produced(steps) == Produced(steps[..k]) + rest
    decreases |steps|
  {
    if k == |steps| {
      assert steps[..k] == steps && Produced(steps) == Produced(steps[..k]) + [];
    } else {
      var front, last := steps[..|steps| - 1], steps[|steps| - 1];
      ProducedGrows(front, k);
      assert front[..k] == steps[..k];
      var rest :| Produced(front) == Produced(steps[..k]) + rest;
      var more := if last.CallStep? then last.more else [];
      Assoc(Produced(steps[..k]), rest, more);
      assert Produced(steps) == Produced(steps[..k]) + (rest + more);
    }
  }

  /** The input of the k-th step's model call is paired: it is part of the saved history behind a clean cut. */
  lemma InputIsPaired(s: Session, i: Input, k: nat)
    requires PairedSession(s) && Continues(s, i) && k <= |i.steps|
    ensures Paired(StartRun(s, i).full + Produced(i.steps[..k]))
  {
    var d := Dropped(s, i);
    SavedParts(s, i, d);
    SavedIsPaired(s, i);
    DroppedIsClean(s, i);
    CleanAfterSave(s.history, d, d, NewTurn(i));
    var saved := RunOnce(s, i).history;
    PairedSuffix(saved, d);
    ProducedGrows(i.steps, k);
    var rest :| Produced(i.steps) == Produced(i.steps[..k]) + rest;
    SuffixParts(s.history[..d], Inject(s.history[d..]), UserItems(i.user), Produced(i.steps[..k]), rest, i.tail);
    PairedPrefix(StartRun(s, i).full + Produced(i.steps[..k]), rest + i.tail);
  }

  lemma SuffixParts<T>(p: seq<T>, x: seq<T>, u: seq<T>, m: seq<T>, rest: seq<T>, t: seq<T>)
    ensures (p + x + (u + ((m + rest) + t)))[|p|..] == ((x + u) + m) + (rest + t)
  {
  }

  lemma InputGrows(start: MidRun.Run, steps: seq<MidRun.Step>, k: nat)
    requires k < |steps| && steps[k].CallStep?
    ensures MidRun.Execute(start, steps[..k]).full + steps[k].more == start.full + Produced(steps[..k + 1])
  {
    FullGrows(start, steps[..k]);
    assert steps[..k + 1][..k] == steps[..k];
    Assoc(start.full, Produced(steps[..k]), steps[k].more);
  }

  lemma CursorAtCall(start: MidRun.Run, steps: seq<MidRun.Step>, k: nat)
    requires start.ctx.foldIdx == 0 && start.folds == [] && start.ctx.l2Count == 0 && k < |steps| && steps[k].CallStep?
    ensures var r := MidRun.Execute(start, steps[..k]); MidRun.CursorOk(r.ctx, r.full + steps[k].more)
  {
    FoldedMeansCounted(start, steps[..k]);
    var r := MidRun.Execute(start, steps[..k]);
    MidRun.CursorSurvivesGrowth(r.ctx, r.full, steps[k].more);
  }

  /** Nothing that any model call of a run is sent has an output without its call. */
  lemma SentIsPaired(s: Session, i: Input, k: nat)
    requires PairedSession(s) && Continues(s, i) && k < |i.steps| && i.steps[k].CallStep?
    ensures var r, step := MidRun.Execute(StartRun(s, i), i.steps[..k]), i.steps[k];
            OutputsHaveCalls(MidRun.Filter(r.ctx, r.full + step.more, step.condense, step.reply).1)
  {
    var step, r := i.steps[k], MidRun.Execute(StartRun(s, i), i.steps[..k]);
    InputGrows(StartRun(s, i), i.steps, k);
    CursorAtCall(StartRun(s, i), i.steps, k);
    InputIsPaired(s, i, k + 1);
    MidRun.FilterKeepsPairs(r.ctx, r.full + step.more, step.condense, step.reply);
  }

  // ---------- Across runs ----------

  /** Every run of the sequence continues what the runs before it saved. */
  predicate AllContinue(s: Session, inputs: seq<Input>) {
    inputs == [] ||
    (AllContinue(s, inputs[..|inputs| - 1]) && Continues(RunAll(s, inputs[..|inputs| - 1]), inputs[|inputs| - 1]))
  }

  /** Over any number of runs the cursor stays on a boundary and the saved history keeps its pairs. */
  lemma {:induction false} PairsAcrossRuns(s: Session, inputs: seq<Input>)
    requires PairedSession(s) && AllContinue(s, inputs)
    ensures PairedSession(RunAll(s, inputs))
  {
    if inputs != [] {
      var front := inputs[..|inputs| - 1];
      PairsAcrossRuns(s, front);
      RunKeepsPairs(RunAll(s, front), inputs[|inputs| - 1]);
    }
  }

  lemma {:induction false} ContinuesFront(s: Session, inputs: seq<Input>)
    requires AllContinue(s, inputs) && inputs != []
    ensures AllContinue(s, inputs[..|inputs| - 1])
  {
  }

  lemma {:induction false} ContinuesUpTo(s: Session, inputs: seq<Input>, n: nat)
    requires AllContinue(s, inputs) && n <= |inputs|
    ensures AllContinue(s, inputs[..n])
    decreases |inputs|
  {
    if n < |inputs| {
      ContinuesFront(s, inputs);
      ContinuesUpTo(s, inputs[..|inputs| - 1], n);
      assert inputs[..|inputs| - 1][..n] == inputs[..n];
    } else {
      assert inputs[..n] == inputs;
    }
  }

  lemma PairedBefore(s: Session, inputs: seq<Input>, n: nat)
    requires PairedSession(s) && AllContinue(s, inputs) && n < |inputs|
    ensures PairedSession(RunAll(s, inputs[..n])) && Continues(RunAll(s, inputs[..n]), inputs[n])
  {
    ContinuesUpTo(s, inputs, n + 1);
    assert inputs[..n + 1][..n] == inputs[..n];
    PairsAcrossRuns(s, inputs[..n]);
  }

  /** And nothing sent in any model call of any run has an output without its call. */
  lemma NothingSentIsTorn(s: Session, inputs: seq<Input>, n: nat, k: nat)
    requires PairedSession(s) && AllContinue(s, inputs) && n < |inputs|
    requires k < |inputs[n].steps| && inputs[n].steps[k].CallStep?
    ensures var i, step := inputs[n], inputs[n].steps[k];
            var r := MidRun.Execute(StartRun(RunAll(s, inputs[..n]), i), i.steps[..k]);
            OutputsHaveCalls(MidRun.Filter(r.ctx, r.full + step.more, step.condense, step.reply).1)
  {
    PairedBefore(s, inputs, n);
    SentIsPaired(RunAll(s, inputs[..n]), inputs[n], k);
  }
}
