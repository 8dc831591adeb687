/** L1 micro-compaction (agent/compaction_filter.py): old tool outputs and old reasoning are shortened in place. */
module MicroCompact {
  import opened Common
  import opened Items
  import opened Turns
  import opened Estimates

  const KEEP_RECENT_TOOL_RESULTS := 4
  const MICRO_KEEP_CHARS := 800
  const REASONING_KEEP_CHARS := 200
  const STUB := " ...(reasoning compacted)"

  /** How a long output is shortened (head, trailer, stored file), or None when it already was: the regular
      expressions and the file store of the source are a parameter of the model. */
  type Condenser = Item -> Option<string>

  function CountOutputs(items: seq<Item>): nat {
    if items == [] then 0 else CountOutputs(items[1..]) + if items[0].Output? then 1 else 0
  }

  lemma {:induction false} CountConcat(a: seq<Item>, b: seq<Item>)
    ensures CountOutputs(a + b) == CountOutputs(a) + CountOutputs(b)
  {
    if a == [] {
      assert a + b == b;
    } else {
      assert (a + b)[1..] == a[1..] + b;
      CountConcat(a[1..], b);
    }
  }

  lemma CountSuffix(items: seq<Item>, i: nat, j: nat)
    requires i <= j <= |items|
    ensures CountOutputs(items[i..]) >= CountOutputs(items[j..])
  {
    assert items[i..] == items[i..j] + items[j..];
    CountConcat(items[i..j], items[j..]);
  }

  /** The position of the keep-th output from the end. */
  function NthOutput(items: seq<Item>, keep: nat): (r: Option<nat>)
    ensures r.Some? ==> r.value < |items| && items[r.value].Output?
  {
    if items == [] then None
    else
      var n := |items| - 1;
      if items[n].Output? then (if keep <= 1 then Some(n) else NthOutput(items[..n], keep - 1))
      else NthOutput(items[..n], keep)
  }

  lemma {:induction false} NthOutputCounts(items: seq<Item>, keep: nat)
    requires keep >= 1
    ensures NthOutput(items, keep).Some? <==> CountOutputs(items) >= keep
    ensures NthOutput(items, keep).Some? ==> CountOutputs(items[NthOutput(items, keep).value..]) == keep
  {
    if items != [] {
      var n := |items| - 1;
      var front, last := items[..n], [items[n]];
      assert items == front + last;
      CountConcat(front, last);
      assert last[1..] == [];
      var keep' := if items[n].Output? then keep - 1 else keep;
      if items[n].Output? && keep == 1 {
        assert items[n..] == last;
      } else {
        NthOutputCounts(front, keep');
        var r := NthOutput(front, keep');
        if r.Some? {
          assert items[r.value..] == front[r.value..] + last;
          CountConcat(front[r.value..], last);
        }
      }
    }
  }

  /** The greatest start not after `idx`, or `idx` when there is none. */
  function LastAtMost(starts: seq<nat>, idx: nat): (s: nat)
    ensures s <= idx && (s in starts || s == idx)
  {
    if starts == [] then idx
    else if starts[|starts| - 1] <= idx then starts[|starts| - 1]
    else LastAtMost(starts[..|starts| - 1], idx)
  }

  function RecentBoundary(items: seq<Item>, keep: nat): (b: nat)
    ensures b <= |items|
  {
    var r := NthOutput(items, keep);
    if r.None? then 0 else LastAtMost(TurnStarts(items), r.value)
  }

  /** Names of the calls, the last one winning. */
  function CallNames(items: seq<Item>): map<Id, string> {
    if items == [] then map[]
    else
      var m := items[|items| - 1];
      var names := CallNames(items[..|items| - 1]);
      if IsCallOf(m) then names[m.id.value := m.name] else names
  }

  predicate Exempt(name: string) { name == "delegate" || name == "update_plan" }

  function NameFor(names: map<Id, string>, m: Item): string
    requires m.Output?
  {
    if m.id.Some? && m.id.value in names then names[m.id.value] else ""
  }

  function CompactOutput(m: Item, name: string, condense: Condenser): (r: Option<Item>)
    requires m.Output?
    ensures r.Some? ==> r.value.Output? && r.value.id == m.id && |m.text| > MICRO_KEEP_CHARS && !Exempt(name)
  {
    if Exempt(name) || |m.text| <= MICRO_KEEP_CHARS then None
    else
      var t := condense(m);
      if t.None? then None else Some(Output(m.id, t.value))
  }

  predicate AlreadyStub(summary: seq<string>) {
    |summary| == 1 && |summary[0]| >= |STUB| && summary[0][|summary[0]| - |STUB|..] == STUB
  }

  function CompactReasoning(m: Item): (r: Item)
    requires m.Reasoning?
    ensures r.Reasoning? && r.synthetic == m.synthetic
  {
    var text := Join(m.summary, " ");
    if m.synthetic || AlreadyStub(m.summary) || text == "" then m
    else Reasoning(false, [(if |text| <= REASONING_KEEP_CHARS then text else text[..REASONING_KEEP_CHARS]) + STUB])
  }

  function MicroItem(m: Item, names: map<Id, string>, condense: Condenser): Item {
    if m.Output? then
      var r := CompactOutput(m, NameFor(names, m), condense);
      if r.Some? then r.value else m
    else if m.Reasoning? then CompactReasoning(m)
    else m
  }

  function Micro(items: seq<Item>, condense: Condenser): (out: seq<Item>)
    ensures |out| == |items|
  {
    var b := RecentBoundary(items, KEEP_RECENT_TOOL_RESULTS);
    var names := CallNames(items);
    seq(|items|, i requires 0 <= i < |items| => if i < b then MicroItem(items[i], names, condense) else items[i])
  }

  /** How many outputs were replaced. */
  function Replaced(items: seq<Item>, condense: Condenser, upto: nat): nat
    requires upto <= |items|
  {
    if upto == 0 then 0
    else
      var m := items[upto - 1];
      Replaced(items, condense, upto - 1)
      + if upto - 1 < RecentBoundary(items, KEEP_RECENT_TOOL_RESULTS) && m.Output?
           && CompactOutput(m, NameFor(CallNames(items), m), condense).Some? then 1 else 0
  }

  /** Length, kinds, ids and user messages are kept, so every boundary stays where it was. */
  lemma MicroKeepsShape(items: seq<Item>, condense: Condenser)
    ensures SameShape(items, Micro(items, condense))
    ensures TurnStarts(Micro(items, condense)) == TurnStarts(items)
  {
    StartsDependOnKinds(items, Micro(items, condense));
  }

  /** Whatever was altered is old: an altered item has at least KEEP_RECENT_TOOL_RESULTS outputs behind it, so
      the last ones are untouched, and with fewer outputs than that nothing is altered at all. */
  lemma MicroKeepsRecent(items: seq<Item>, condense: Condenser, i: nat)
    requires i < |items| && Micro(items, condense)[i] != items[i]
    ensures CountOutputs(items[i + 1..]) >= KEEP_RECENT_TOOL_RESULTS
    ensures items[i].Output? || (items[i].Reasoning? && !items[i].synthetic)
    ensures items[i].Output? ==> |items[i].text| > MICRO_KEEP_CHARS && !Exempt(NameFor(CallNames(items), items[i]))
  {
    AlteredIsOld(items, i);
  }

  lemma AlteredIsOld(items: seq<Item>, i: nat)
    requires i < |items| && i < RecentBoundary(items, KEEP_RECENT_TOOL_RESULTS)
    ensures CountOutputs(items[i + 1..]) >= KEEP_RECENT_TOOL_RESULTS
  {
    NthOutputCounts(items, KEEP_RECENT_TOOL_RESULTS);
    CountSuffix(items, i + 1, NthOutput(items, KEEP_RECENT_TOOL_RESULTS).value);
  }

  /** A kept turn is kept whole: the first untouched position starts a turn (or no turn begins before it). */
  lemma MicroSnapsToTurn(items: seq<Item>)
    ensures var b := RecentBoundary(items, KEEP_RECENT_TOOL_RESULTS);
            b == 0 || IsStart(items, b) || forall s: nat :: IsStart(items, s) ==> s > b
  {
    StartsAre(items);
    var r := NthOutput(items, KEEP_RECENT_TOOL_RESULTS);
    if r.Some? {
      var b := LastAtMost(TurnStarts(items), r.value);
      if s: nat :| IsStart(items, s) && s <= b {
        LastIsMember(TurnStarts(items), r.value, s);
      }
    }
  }

  lemma {:induction false} LastIsMember(starts: seq<nat>, idx: nat, s: nat)
    requires s in starts && s <= idx && Increasing(starts)
    ensures LastAtMost(starts, idx) in starts && s <= LastAtMost(starts, idx)
  {
    if starts[|starts| - 1] > idx {
      LastIsMember(starts[..|starts| - 1], idx, s);
    }
  }

  lemma OutputAt(items: seq<Item>, r: nat, s: nat)
    requires r < s <= |items| && items[r].Output?
    ensures CountOutputs(items[r..]) > CountOutputs(items[s..])
  {
    SliceTail(items, r);
    CountSuffix(items, r + 1, s);
  }

  /** A turn start with KEEP_RECENT_TOOL_RESULTS outputs from there on is not behind the boundary. */
  lemma OldIsBeforeBoundary(items: seq<Item>, s: nat)
    requires IsStart(items, s) && CountOutputs(items[s..]) >= KEEP_RECENT_TOOL_RESULTS
    ensures s <= RecentBoundary(items, KEEP_RECENT_TOOL_RESULTS)
  {
    NthOutputCounts(items, KEEP_RECENT_TOOL_RESULTS);
    CountSuffix(items, 0, s);
    assert items[0..] == items;
    var r := NthOutput(items, KEEP_RECENT_TOOL_RESULTS).value;
    if r < s { OutputAt(items, r, s); }
    StartsAre(items);
    LastIsMember(TurnStarts(items), r, s);
  }

  /** Whatever is old is shortened: of the items before a turn from which on KEEP_RECENT_TOOL_RESULTS outputs follow,
      each long output that can be condensed is replaced, and of each reasoning only a marked head is left. */
  lemma OldIsShortened(items: seq<Item>, condense: Condenser, s: nat, i: nat)
    requires IsStart(items, s) && CountOutputs(items[s..]) >= KEEP_RECENT_TOOL_RESULTS && i < s
    ensures var m, m' := items[i], Micro(items, condense)[i];
            && (m.Output? && |m.text| > MICRO_KEEP_CHARS && !Exempt(NameFor(CallNames(items), m)) ==>
                  condense(m).Some? ==> m' == Output(m.id, condense(m).value))
            && (m.Reasoning? && !m.synthetic && !AlreadyStub(m.summary) && Join(m.summary, " ") != "" ==>
                  m'.Reasoning? && AlreadyStub(m'.summary)
                  && |m'.summary[0]| <= REASONING_KEEP_CHARS + |STUB|
                  && m'.summary[0][..|m'.summary[0]| - |STUB|] <= Join(m.summary, " "))
  {
    OldIsBeforeBoundary(items, s);
  }

  // ---------- The loops of the source ----------

  method RecentOutputBoundary(items: seq<Item>, keep: nat) returns (b: nat)
    ensures b == RecentBoundary(items, keep)
  {
    var seen, i, idx := 0, |items|, None;
    assert items[..|items|] == items;
    while i > 0 && idx.None?
      invariant 0 <= i <= |items|
      invariant idx.None? ==> (seen < keep || seen == 0) && NthOutput(items, keep) == NthOutput(items[..i], keep - seen)
      invariant idx.Some? ==> NthOutput(items, keep) == idx
      decreases i
    {
      i := i - 1;
      assert items[..i + 1][..i] == items[..i];
      if items[i].Output? {
        seen := seen + 1;
        if seen >= keep { idx := Some(i); }
      }
    }
    if idx.None? { return 0; }
    var starts := ComputeTurnStarts(items);
    var k := |starts|;
    assert starts[..k] == starts;
    while k > 0 && starts[k - 1] > idx.value
      invariant 0 <= k <= |starts|
      invariant LastAtMost(starts, idx.value) == LastAtMost(starts[..k], idx.value)
    {
      assert starts[..k][..k - 1] == starts[..k - 1];
      k := k - 1;
    }
    b := if k > 0 then starts[k - 1] else idx.value;
  }

  method MicroCompactLoop(items: seq<Item>, condense: Condenser) returns (out: seq<Item>, replaced: nat)
    ensures out == Micro(items, condense) && replaced == Replaced(items, condense, |items|)
  {
    var boundary := RecentOutputBoundary(items, KEEP_RECENT_TOOL_RESULTS);
    var names := CallNames(items);
    out, replaced := [], 0;
    ghost var all := Micro(items, condense);
    for i := 0 to |items|
      invariant out == all[..i] && replaced == Replaced(items, condense, i)
    {
      var m := items[i];
      SliceSnoc(all, 0, i);
      if i < boundary && m.Output? {
        var new_ := CompactOutput(m, NameFor(names, m), condense);
        if new_.Some? {
          out, replaced := out + [new_.value], replaced + 1;
        } else {
          out := out + [m];
        }
      } else if i < boundary && m.Reasoning? {
        out := out + [CompactReasoning(m)];
      } else {
        out := out + [m];
      }
    }
  }
}
