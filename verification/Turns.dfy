/**
  Turn boundaries (agent/context_compaction.py): where an assistant turn
  begins, how the boundaries behave when a history grows, is cut or is
  rewritten item by item, and what a cut at a boundary does to tool pairs.
 */
module Turns {
  import opened Common
  import opened Items

  const RECENT_TOOL_TURNS := 6

  predicate IsTurnItem(m: Item) { m.Call? || m.Reasoning? || m.Assistant? }

  /** A turn item whose predecessor is not part of the same turn. */
  predicate IsStart(items: seq<Item>, i: nat) {
    i < |items| && IsTurnItem(items[i]) && (i == 0 || !IsTurnItem(items[i - 1]))
  }

  function TurnStarts(items: seq<Item>): seq<nat> {
    if items == [] then []
    else
      var n := |items| - 1;
      TurnStarts(items[..n]) + if IsStart(items, n) then [n] else []
  }

  function UserIndices(items: seq<Item>): seq<nat> {
    if items == [] then []
    else
      var n := |items| - 1;
      UserIndices(items[..n]) + if items[n].User? then [n] else []
  }

  predicate Increasing(s: seq<nat>) {
    forall i, j :: 0 <= i < j < |s| ==> s[i] < s[j]
  }

  lemma {:induction false} StartsAre(items: seq<Item>)
    ensures Increasing(TurnStarts(items))
    ensures forall s: nat :: s in TurnStarts(items) <==> IsStart(items, s)
  {
    if items != [] {
      var n := |items| - 1;
      var front := items[..n];
      StartsAre(front);
      forall s: nat ensures s in TurnStarts(items) <==> IsStart(items, s) {
        assert s < n ==> (IsStart(items, s) <==> IsStart(front, s));
      }
      var ts := TurnStarts(front);
      forall k | 0 <= k < |ts| ensures ts[k] < n { assert ts[k] in ts; assert IsStart(front, ts[k]); }
    }
  }

  lemma {:induction false} UsersAre(items: seq<Item>)
    ensures Increasing(UserIndices(items))
    ensures forall s: nat :: s in UserIndices(items) <==> s < |items| && items[s].User?
  {
    if items != [] {
      var n := |items| - 1;
      UsersAre(items[..n]);
      var us := UserIndices(items[..n]);
      forall k | 0 <= k < |us| ensures us[k] < n { assert us[k] in us; }
    }
  }

  // ---------- Growth, cuts and rewriting ----------

  /** Boundaries found once stay: appending items only adds boundaries behind them. */
  lemma {:induction false} StartsStableUnderAppend(a: seq<Item>, b: seq<Item>)
    ensures TurnStarts(a) <= TurnStarts(a + b)
  {
    if b == [] {
      assert a + b == a;
    } else {
      var b' := b[..|b| - 1];
      StartsStableUnderAppend(a, b');
      assert (a + b)[..|a + b| - 1] == a + b';
    }
  }

  function Shift(s: seq<nat>, d: nat): (r: seq<nat>)
    ensures |r| == |s| && forall k :: 0 <= k < |r| ==> r[k] == s[k] + d
  {
    seq(|s|, k requires 0 <= k < |s| => s[k] + d)
  }

  lemma ShiftConcat(s: seq<nat>, t: seq<nat>, d: nat)
    ensures Shift(s, d) + Shift(t, d) == Shift(s + t, d)
  {
  }

  /** `b` may follow `a` as a slice: it is empty or begins a turn there. */
  predicate CleanCut(a: seq<Item>, b: seq<Item>) {
    a == [] || b == [] || IsStart(a + b, |a|)
  }

  lemma StartInConcat(a: seq<Item>, b: seq<Item>, n: nat)
    requires CleanCut(a, b) && n < |b|
    ensures IsStart(a + b, |a| + n) == IsStart(b, n)
    ensures CleanCut(a, b[..n])
  {
    assert (a + b)[|a| + n] == b[n];
    if n > 0 {
      assert (a + b)[|a| + n - 1] == b[n - 1];
      assert forall k :: 0 <= k <= |a| ==> (a + b)[k] == (a + b[..n])[k];
    }
  }

  lemma {:induction false} StartsSnoc(front: seq<Item>, m: Item)
    ensures TurnStarts(front + [m]) == TurnStarts(front) + if IsStart(front + [m], |front|) then [|front|] else []
  {
    assert (front + [m])[..|front + [m]| - 1] == front;
  }

  lemma StartsOfConcat(a: seq<Item>, b: seq<Item>)
    requires CleanCut(a, b) && b != []
    ensures var n := |b| - 1;
            TurnStarts(a + b) == TurnStarts(a + b[..n]) + Shift(if IsStart(b, n) then [n] else [], |a|)
  {
    var n, whole := |b| - 1, a + b;
    assert whole[..|whole| - 1] == a + b[..n] && |whole| - 1 == |a| + n;
    StartInConcat(a, b, n);
    StartsUnfold(whole);
    ShiftIf(IsStart(b, n), n, |a|);
  }

  lemma {:induction false} StartsUnfold(items: seq<Item>)
    requires items != []
    ensures var n := |items| - 1; TurnStarts(items) == TurnStarts(items[..n]) + if IsStart(items, n) then [n] else []
  {
  }

  lemma ShiftIf(one: bool, n: nat, d: nat)
    ensures Shift(if one then [n] else [], d) == if one then [d + n] else []
  {
  }

  lemma ShiftBehind(s: seq<nat>, t: seq<nat>, u: seq<nat>, d: nat)
    ensures (s + Shift(t, d)) + Shift(u, d) == s + Shift(t + u, d)
  {
    Assoc(s, Shift(t, d), Shift(u, d));
    ShiftConcat(t, u, d);
  }

  /** Cutting at a boundary cuts the list of boundaries. */
  lemma {:induction false} StartsCommuteWithSlicing(a: seq<Item>, b: seq<Item>)
    requires CleanCut(a, b)
    ensures TurnStarts(a + b) == TurnStarts(a) + Shift(TurnStarts(b), |a|)
  {
    if b == [] {
      assert a + b == a;
    } else {
      var n := |b| - 1;
      StartInConcat(a, b, n);
      StartsCommuteWithSlicing(a, b[..n]);
      StartsOfConcat(a, b);
      ShiftBehind(TurnStarts(a), TurnStarts(b[..n]), if IsStart(b, n) then [n] else [], |a|);
    }
  }

  predicate SameKinds(a: seq<Item>, b: seq<Item>) {
    |a| == |b| && forall i :: 0 <= i < |a| ==> (IsTurnItem(a[i]) <==> IsTurnItem(b[i]))
  }

  /** Rewriting items without changing their kinds moves no boundary. */
  lemma {:induction false} StartsDependOnKinds(a: seq<Item>, b: seq<Item>)
    requires SameKinds(a, b)
    ensures TurnStarts(a) == TurnStarts(b)
  {
    if a != [] {
      StartsDependOnKinds(a[..|a| - 1], b[..|b| - 1]);
    }
  }

  // ---------- Cuts ----------

  function CutKeepRecentTurns(items: seq<Item>, k: nat): (c: nat)
    ensures c <= |items|
  {
    var starts := TurnStarts(items);
    if k == 0 || |starts| < k then 0
    else
      StartsAre(items);
      assert starts[|starts| - k] in starts;
      starts[|starts| - k]
  }

  function KeepKCut(history: seq<Item>, keepTurns: nat, recentToolTurns: nat): nat
    requires keepTurns > 0
  {
    var us := UserIndices(history);
    if |us| > keepTurns then us[|us| - keepTurns] else CutKeepRecentTurns(history, recentToolTurns)
  }

  /** The boundaries a pre-run cut moves along: user messages when there are two, else turn starts. */
  function Bounds(history: seq<Item>): seq<nat> {
    if |UserIndices(history)| >= 2 then UserIndices(history) else TurnStarts(history)
  }

  predicate IsBoundary(items: seq<Item>, c: nat) {
    c < |items| && (IsStart(items, c) || items[c].User?)
  }

  lemma BoundsAre(history: seq<Item>)
    ensures Increasing(Bounds(history))
    ensures forall c: nat :: c in Bounds(history) ==> IsBoundary(history, c)
  {
    StartsAre(history);
    UsersAre(history);
  }

  /** The cut is 0 or a turn start, and what it keeps is exactly the last k turns. */
  lemma CutIsStart(items: seq<Item>, k: nat)
    ensures var c := CutKeepRecentTurns(items, k); c == 0 || IsStart(items, c)
  {
    StartsAre(items);
    var starts := TurnStarts(items);
    if 0 < k <= |starts| { assert starts[|starts| - k] in starts; }
  }

  lemma CutKeepsTurns(items: seq<Item>, k: nat)
    ensures var c := CutKeepRecentTurns(items, k); c == 0 || IsStart(items, c)
    ensures var c := CutKeepRecentTurns(items, k);
            if 0 < k <= |TurnStarts(items)| then |TurnStarts(items[c..])| == k else c == 0
  {
    StartsAre(items);
    var starts := TurnStarts(items);
    if 0 < k <= |starts| {
      var at := |starts| - k;
      var c := starts[at];
      assert c in starts;
      assert items == items[..c] + items[c..];
      StartsCommuteWithSlicing(items[..c], items[c..]);
      CountBelow(items, c, at);
    }
  }

  /** The starts before the start at position `at` are the first `at` ones. */
  lemma CountBelow(items: seq<Item>, c: nat, at: nat)
    requires at < |TurnStarts(items)| && TurnStarts(items)[at] == c && c < |items|
    ensures |TurnStarts(items[..c])| == at
  {
    var starts, low := TurnStarts(items), TurnStarts(items[..c]);
    StartsAre(items);
    StartsAre(items[..c]);
    assert c in starts;
    assert items == items[..c] + items[c..];
    StartsCommuteWithSlicing(items[..c], items[c..]);
    forall k | 0 <= k < |low| ensures low[k] < c { assert low[k] in low; }
    PositionOf(low, Shift(TurnStarts(items[c..]), c), c, at);
  }

  lemma PositionOf(low: seq<nat>, high: seq<nat>, c: nat, at: nat)
    requires Increasing(low + high) && at < |low + high| && (low + high)[at] == c
    requires (forall k :: 0 <= k < |low| ==> low[k] < c) && forall k :: 0 <= k < |high| ==> high[k] >= c
    ensures |low| == at
  {
    assert |low| < |low + high| ==> (low + high)[|low|] == high[0];
  }

  lemma KeepKCutIsBoundary(history: seq<Item>, keepTurns: nat, recentToolTurns: nat)
    requires keepTurns > 0
    ensures var c := KeepKCut(history, keepTurns, recentToolTurns); c == 0 || IsBoundary(history, c)
  {
    UsersAre(history);
    CutKeepsTurns(history, recentToolTurns);
    var us := UserIndices(history);
    if |us| > keepTurns { assert us[|us| - keepTurns] in us; }
  }

  lemma UsersOfConcat(a: seq<Item>, b: seq<Item>)
    requires b != []
    ensures var n := |b| - 1;
            UserIndices(a + b) == UserIndices(a + b[..n]) + Shift(if b[n].User? then [n] else [], |a|)
  {
    var n, whole := |b| - 1, a + b;
    assert whole[..|whole| - 1] == a + b[..n] && |whole| - 1 == |a| + n && whole[|whole| - 1] == b[n];
    UsersUnfold(whole);
    ShiftIf(b[n].User?, n, |a|);
  }

  lemma {:induction false} UsersUnfold(items: seq<Item>)
    requires items != []
    ensures var n := |items| - 1; UserIndices(items) == UserIndices(items[..n]) + if items[n].User? then [n] else []
  {
  }

  lemma {:induction false} UsersCommuteWithSlicing(a: seq<Item>, b: seq<Item>)
    ensures UserIndices(a + b) == UserIndices(a) + Shift(UserIndices(b), |a|)
  {
    if b == [] {
      assert a + b == a;
    } else {
      var n := |b| - 1;
      UsersCommuteWithSlicing(a, b[..n]);
      UsersOfConcat(a, b);
      ShiftBehind(UserIndices(a), UserIndices(b[..n]), if b[n].User? then [n] else [], |a|);
    }
  }

  /** With more user messages than are to be kept, the pre-run cut keeps exactly the last `keepTurns` of them, the first
      of which it begins with; otherwise it keeps the last tool turns. */
  lemma KeepKCutKeeps(history: seq<Item>, keepTurns: nat, recentToolTurns: nat)
    requires keepTurns > 0
    ensures var c := KeepKCut(history, keepTurns, recentToolTurns);
            if |UserIndices(history)| > keepTurns
            then 0 < c < |history| && history[c].User? && |UserIndices(history[c..])| == keepTurns
            else c == CutKeepRecentTurns(history, recentToolTurns)
  {
    var us := UserIndices(history);
    UsersAre(history);
    if |us| > keepTurns {
      var at := |us| - keepTurns;
      var c := us[at];
      assert us[0] < c && c in us;
      UsersFrom(history, c, at);
    }
  }

  lemma UsersFrom(history: seq<Item>, c: nat, at: nat)
    requires at < |UserIndices(history)| && UserIndices(history)[at] == c && c < |history|
    ensures |UserIndices(history[c..])| == |UserIndices(history)| - at
  {
    var low, high := UsersSplit(history, c);
    UsersAre(history);
    PositionOf(low, high, c, at);
  }

  /** The user messages before c and those from c on. */
  lemma UsersSplit(history: seq<Item>, c: nat) returns (low: seq<nat>, high: seq<nat>)
    requires c <= |history|
    ensures UserIndices(history) == low + high && |high| == |UserIndices(history[c..])|
    ensures (forall k :: 0 <= k < |low| ==> low[k] < c) && forall k :: 0 <= k < |high| ==> high[k] >= c
  {
    low, high := UserIndices(history[..c]), Shift(UserIndices(history[c..]), c);
    assert history == history[..c] + history[c..];
    UsersCommuteWithSlicing(history[..c], history[c..]);
    forall k | 0 <= k < |low| ensures low[k] < c { UsersBelow(history[..c], k); }
  }

  lemma UsersBelow(items: seq<Item>, k: nat)
    requires k < |UserIndices(items)|
    ensures UserIndices(items)[k] < |items|
  {
    UsersAre(items);
    assert UserIndices(items)[k] in UserIndices(items);
  }

  // ---------- Tool pairs ----------

  /** No boundary separates a call from an output with its id. */
  predicate PairsWhole(items: seq<Item>) {
    forall s :: 0 <= s <= |items| && IsBoundary(items, s) ==> CallIds(items[..s]) !! OutputIds(items[s..])
  }

  /** Every identified output has its call before it. */
  predicate OutputsHaveCalls(items: seq<Item>) {
    forall j :: 0 <= j < |items| && IsOutputOf(items[j]) ==> items[j].id.value in CallIds(items[..j])
  }

  lemma {:induction false} OutputIn(items: seq<Item>, j: nat)
    requires j < |items| && IsOutputOf(items[j])
    ensures items[j].id.value in OutputIds(items)
  {
    if j > 0 { OutputIn(items[1..], j - 1); }
  }

  /** A cut at a boundary of a history with whole pairs leaves no output without its call. */
  lemma CutKeepsPairs(items: seq<Item>, c: nat)
    requires PairsWhole(items) && OutputsHaveCalls(items) && (c == 0 || IsBoundary(items, c))
    ensures OutputsHaveCalls(items[c..])
  {
    forall j | 0 <= j < |items[c..]| && IsOutputOf(items[c..][j])
      ensures items[c..][j].id.value in CallIds(items[c..][..j])
    {
      OutputIn(items[c..], j);
      assert items[..c + j] == items[..c] + items[c..][..j];
      IdsConcat(items[..c], items[c..][..j]);
      if c == 0 { assert items[..c] == []; }
    }
  }

  /** Re-attaching a leading user message does no harm. */
  lemma HeadUserKeepsPairs(u: Item, items: seq<Item>)
    requires u.User? && OutputsHaveCalls(items)
    ensures OutputsHaveCalls([u] + items)
  {
    forall j | 0 <= j < |[u] + items| && IsOutputOf(([u] + items)[j])
      ensures ([u] + items)[j].id.value in CallIds(([u] + items)[..j])
    {
      assert ([u] + items)[..j] == [u] + items[..j - 1];
      IdsOf(u, items[..j - 1]);
    }
  }

  /** Item-wise rewriting that keeps kinds and ids keeps the pairing. */
  predicate SameShape(a: seq<Item>, b: seq<Item>) {
    |a| == |b| && forall i :: 0 <= i < |a| ==>
      && (IsTurnItem(a[i]) <==> IsTurnItem(b[i])) && (a[i].User? <==> b[i].User?)
      && CallId(a[i]) == CallId(b[i]) && OutputId(a[i]) == OutputId(b[i])
  }

  lemma {:induction false} SameIds(a: seq<Item>, b: seq<Item>)
    requires SameShape(a, b)
    ensures CallIds(a) == CallIds(b) && OutputIds(a) == OutputIds(b)
  {
    if a != [] { SameIds(a[1..], b[1..]); }
  }

  lemma RewritingKeepsPairs(a: seq<Item>, b: seq<Item>)
    requires SameShape(a, b)
    ensures OutputsHaveCalls(a) ==> OutputsHaveCalls(b)
    ensures PairsWhole(a) ==> PairsWhole(b)
  {
    if OutputsHaveCalls(a) {
      forall j | 0 <= j < |b| && IsOutputOf(b[j]) ensures b[j].id.value in CallIds(b[..j]) {
        SameIds(a[..j], b[..j]);
        assert OutputId(a[j]) == OutputId(b[j]) == {b[j].id.value};
        assert b[j].id.value in OutputId(a[j]);
      }
    }
    if PairsWhole(a) {
      forall s | 0 <= s <= |b| && IsBoundary(b, s) ensures CallIds(b[..s]) !! OutputIds(b[s..]) {
        assert IsBoundary(a, s);
        SameIds(a[..s], b[..s]);
        SameIds(a[s..], b[s..]);
      }
    }
  }

  lemma PairsWholeOfSuffix(items: seq<Item>, c: nat)
    requires PairsWhole(items) && (c == 0 || IsBoundary(items, c))
    ensures PairsWhole(items[c..])
  {
    forall s | 0 <= s <= |items[c..]| && IsBoundary(items[c..], s)
      ensures CallIds(items[c..][..s]) !! OutputIds(items[c..][s..])
    {
      BoundaryOfSuffix(items, c, s);
      IdsOfSuffix(items, c, s);
    }
  }

  lemma IdsOfSuffix(items: seq<Item>, c: nat, s: nat)
    requires c + s <= |items|
    ensures CallIds(items[c..][..s]) <= CallIds(items[..c + s])
        && OutputIds(items[c..][s..]) == OutputIds(items[c + s..])
  {
    assert items[..c + s] == items[..c] + items[c..][..s];
    IdsConcat(items[..c], items[c..][..s]);
    assert items[c + s..] == items[c..][s..];
  }

  lemma BoundaryOfSuffix(items: seq<Item>, c: nat, s: nat)
    requires c <= |items| && IsBoundary(items[c..], s) && (c == 0 || IsBoundary(items, c))
    ensures IsBoundary(items, c + s)
  {
    assert items[c..][s] == items[c + s];
    if s > 0 { assert items[c..][s - 1] == items[c + s - 1]; }
  }

  // ---------- Closing dangling calls and the boundaries ----------

  predicate BoundaryAfter(prevTurn: bool, m: Item) { (IsTurnItem(m) && !prevTurn) || m.User? }

  /** PairsWhole, read from left to right: `open` holds the call ids seen so far. */
  predicate WholeFrom(prevTurn: bool, open: set<Id>, items: seq<Item>)
    decreases |items|
  {
    items == [] ||
    ((BoundaryAfter(prevTurn, items[0]) ==> open !! OutputIds(items))
     && WholeFrom(IsTurnItem(items[0]), open + CallId(items[0]), items[1..]))
  }

  /** Where the repair would do harm: an unanswered call directly followed by another turn item while the
      output of an earlier call is still to come. */
  predicate ClosesInsidePair(open: set<Id>, items: seq<Item>, satisfied: set<Id>)
    decreases |items|
  {
    items != [] &&
    ((Dangling(items[0], satisfied) && |items| > 1 && IsTurnItem(items[1]) && !(open !! OutputIds(items[1..])))
     || ClosesInsidePair(open + CallId(items[0]), items[1..], satisfied + CallId(items[0])))
  }

  lemma WholeStep(prevTurn: bool, open: set<Id>, m: Item, rest: seq<Item>)
    ensures WholeFrom(prevTurn, open, [m] + rest) <==>
            (BoundaryAfter(prevTurn, m) ==> open !! OutputId(m) + OutputIds(rest))
            && WholeFrom(IsTurnItem(m), open + CallId(m), rest)
  {
    HeadTail(m, rest);
    IdsOf(m, rest);
  }

  lemma WholeAfterOutput(open: set<Id>, rest: seq<Item>)
    ensures WholeFrom(false, open, rest) <==>
            WholeFrom(true, open, rest) && (rest != [] && IsTurnItem(rest[0]) ==> open !! OutputIds(rest))
  {
  }

  lemma {:induction false} CloseWhole(prevTurn: bool, open: set<Id>, items: seq<Item>, satisfied: set<Id>)
    requires open <= satisfied && OutputIds(items) <= satisfied
    ensures WholeFrom(prevTurn, open, CloseFrom(items, satisfied)) <==>
            WholeFrom(prevTurn, open, items) && !ClosesInsidePair(open, items, satisfied)
    decreases |items|
  {
    if items != [] {
      var m, rest := items[0], items[1..];
      assert items == [m] + rest;
      WholeStep(prevTurn, open, m, rest);
      if Dangling(m, satisfied) {
        CloseWholeDangling(prevTurn, open, items, satisfied);
      } else {
        assert satisfied + CallId(m) == satisfied;
        CloseWhole(IsTurnItem(m), open + CallId(m), rest, satisfied);
        WholeStep(prevTurn, open, m, CloseFrom(rest, satisfied));
        CloseOutputs(rest, satisfied);
        assert open !! OutputIds(CloseFrom(rest, satisfied)) <==> open !! OutputIds(rest);
      }
    }
  }

  lemma {:induction false} CloseWholeDangling(prevTurn: bool, open: set<Id>, items: seq<Item>, satisfied: set<Id>)
    requires open <= satisfied && OutputIds(items) <= satisfied && items != [] && Dangling(items[0], satisfied)
    ensures WholeFrom(prevTurn, open, CloseFrom(items, satisfied)) <==>
            WholeFrom(prevTurn, open, items) && !ClosesInsidePair(open, items, satisfied)
    decreases |items|, 0
  {
    var m, rest := items[0], items[1..];
    var d := m.id.value;
    var s, tail := Output(m.id, NOT_COMPLETED), CloseFrom(rest, satisfied + {d});
    assert items == [m] + rest;
    WholeStep(prevTurn, open, m, rest);
    CloseWhole(false, open + {d}, rest, satisfied + {d});
    WholeAfterOutput(open + {d}, rest);
    CloseStep(items, satisfied);
    WholeStep(prevTurn, open, m, [s] + tail);
    WholeStep(true, open + {d}, s, tail);
    CloseOutputs(rest, satisfied + {d});
    IdsOf(s, tail);
    assert (open + {d}) + CallId(s) == open + {d};
    assert open !! {d} + OutputIds(tail) <==> open !! OutputIds(rest);
    assert open + {d} !! OutputIds(rest) <==> open !! OutputIds(rest);
  }

  lemma {:induction false} WholeFromIsPairsWhole(a: seq<Item>, b: seq<Item>)
    ensures WholeFrom(a != [] && IsTurnItem(a[|a| - 1]), CallIds(a), b) <==>
            forall s :: |a| <= s <= |a + b| && IsBoundary(a + b, s) ==> CallIds((a + b)[..s]) !! OutputIds((a + b)[s..])
    decreases |b|
  {
    if b != [] {
      var a', b', l := a + [b[0]], b[1..], a + b;
      assert a' + b' == l;
      WholeFromIsPairsWhole(a', b');
      IdsConcat(a, [b[0]]);
      assert [b[0]][1..] == [];
      assert CallIds([b[0]]) == CallId(b[0]);
      assert l[..|a|] == a && l[|a|..] == b && l[|a|] == b[0];
      assert |a| > 0 ==> l[|a| - 1] == a[|a| - 1];
    }
  }

  /** The repair keeps calls and outputs on one side of every boundary if and only if the input did and no
      call is closed inside the pair of another one. */
  lemma DanglingRepairKeepsPairsWhole(items: seq<Item>)
    ensures PairsWhole(RepairDangling(items)) <==>
            PairsWhole(items) && !ClosesInsidePair({}, items, OutputIds(items))
  {
    CloseWhole(false, {}, items, OutputIds(items));
    WholeFromIsPairsWhole([], items);
    WholeFromIsPairsWhole([], RepairDangling(items));
    assert [] + items == items && [] + RepairDangling(items) == RepairDangling(items);
  }

  /** Calls 1, 2, 3 with outputs for 1 and 3: closing 2 puts a turn start between call 1 and its output. */
  lemma DanglingRepairCanSplitAPair(name: string, text: string)
    ensures var items := [Call(Some(1), name, text), Call(Some(2), name, text), Call(Some(3), name, text),
                          Output(Some(1), text), Output(Some(3), text)];
            PairsWhole(items) && !PairsWhole(RepairDangling(items))
  {
    var o1, o3 := Output(Some(1), text), Output(Some(3), text);
    var c1, c2, c3 := Call(Some(1), name, text), Call(Some(2), name, text), Call(Some(3), name, text);
    var items := [c1, c2, c3, o1, o3];
    PairsOfExample(c1, c2, c3, o1, o3);
    assert [o3][1..] == [] && OutputIds([o3]) == {3};
    assert [o1, o3][1..] == [o3] && OutputIds([o1, o3]) == {1, 3};
    assert [c3, o1, o3][1..] == [o1, o3] && OutputIds([c3, o1, o3]) == {1, 3};
    assert items[1..] == [c2, c3, o1, o3] && items[1..][1..] == [c3, o1, o3];
    assert OutputIds(items[1..]) == {1, 3} && OutputIds(items) == {1, 3};
    assert ClosesInsidePair({1}, items[1..], {1, 3});
    assert {} + CallId(c1) == {1} && {1, 3} + CallId(c1) == {1, 3};
    assert ClosesInsidePair({}, items, {1, 3});
    DanglingRepairKeepsPairsWhole(items);
  }

  lemma PairsOfExample(c1: Item, c2: Item, c3: Item, o1: Item, o3: Item)
    requires c1.Call? && c2.Call? && c3.Call? && o1.Output? && o3.Output?
    ensures PairsWhole([c1, c2, c3, o1, o3])
  {
    var items := [c1, c2, c3, o1, o3];
    forall s | 0 <= s <= |items| && IsBoundary(items, s) ensures CallIds(items[..s]) !! OutputIds(items[s..]) {
      assert s == 0;
      assert items[..0] == [];
    }
  }

  // ---------- The loops of the source ----------

  method ComputeTurnStarts(items: seq<Item>) returns (starts: seq<nat>)
    ensures starts == TurnStarts(items)
  {
    starts := [];
    for i := 0 to |items|
      invariant starts == TurnStarts(items[..i])
    {
      assert items[..i + 1][..i] == items[..i];
      assert IsStart(items[..i + 1], i) == IsStart(items, i);
      if IsTurnItem(items[i]) && (i == 0 || !IsTurnItem(items[i - 1])) {
        starts := starts + [i];
      }
    }
    assert items[..|items|] == items;
  }
}
