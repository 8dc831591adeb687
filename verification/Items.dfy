/**
  The items of a saved conversation and the two repairs made on them
  (agent/agent.py): `_repair_dangling_tool_calls` before a partial turn is
  saved, and `_inject_synthetic_reasoning` before every run.
 */
module Items {
  import opened Common

  type Id = nat

  /** One history item.  `id` is None when neither "call_id" nor "id" is usable; `text` is the readable text. */
  datatype Item =
    | User(text: string)
    | Assistant(text: string)
    | Call(id: Option<Id>, name: string, text: string)
    | Output(id: Option<Id>, text: string)
    | Reasoning(synthetic: bool, summary: seq<string>)
    | Other(text: string)

  // ---------- Dangling calls ----------

  const NOT_COMPLETED := "(tool did not complete; no result was produced)"

  predicate IsCallOf(m: Item) { m.Call? && m.id.Some? }
  predicate IsOutputOf(m: Item) { m.Output? && m.id.Some? }

  function CallId(m: Item): set<Id> { if IsCallOf(m) then {m.id.value} else {} }
  function OutputId(m: Item): set<Id> { if IsOutputOf(m) then {m.id.value} else {} }

  function CallIds(items: seq<Item>): set<Id> {
    if items == [] then {} else CallId(items[0]) + CallIds(items[1..])
  }

  function OutputIds(items: seq<Item>): set<Id> {
    if items == [] then {} else OutputId(items[0]) + OutputIds(items[1..])
  }

  lemma IdsOf(m: Item, rest: seq<Item>)
    ensures OutputIds([m] + rest) == OutputId(m) + OutputIds(rest)
    ensures CallIds([m] + rest) == CallId(m) + CallIds(rest)
  {
    HeadTail(m, rest);
  }

  lemma {:induction false} IdsConcat(a: seq<Item>, b: seq<Item>)
    ensures OutputIds(a + b) == OutputIds(a) + OutputIds(b)
    ensures CallIds(a + b) == CallIds(a) + CallIds(b)
  {
    if a == [] {
      assert a + b == b;
    } else {
      assert a + b == [a[0]] + (a[1..] + b);
      IdsConcat(a[1..], b);
      IdsOf(a[0], a[1..] + b);
    }
  }

  predicate Dangling(m: Item, satisfied: set<Id>) { IsCallOf(m) && m.id.value !in satisfied }

  function CloseFrom(items: seq<Item>, satisfied: set<Id>): seq<Item> {
    if items == [] then []
    else if Dangling(items[0], satisfied) then
      [items[0], Output(items[0].id, NOT_COMPLETED)] + CloseFrom(items[1..], satisfied + {items[0].id.value})
    else [items[0]] + CloseFrom(items[1..], satisfied)
  }

  function RepairDangling(items: seq<Item>): seq<Item> {
    CloseFrom(items, OutputIds(items))
  }

  predicate Subsequence<T(==)>(a: seq<T>, b: seq<T>)
    decreases |b|
  {
    if a == [] then true
    else if b == [] then false
    else if a[0] == b[0] then Subsequence(a[1..], b[1..]) else Subsequence(a, b[1..])
  }

  /** One step of the closing loop, as list algebra. */
  lemma CloseStep(items: seq<Item>, satisfied: set<Id>)
    requires items != []
    ensures Dangling(items[0], satisfied) ==>
              CloseFrom(items, satisfied) ==
              [items[0]] + ([Output(items[0].id, NOT_COMPLETED)] + CloseFrom(items[1..],
                  satisfied + {items[0].id.value}))
  {
  }

  lemma SetStep(d: Id, o: set<Id>, c: set<Id>, satisfied: set<Id>)
    requires d !in satisfied
    ensures {d} + (o + (c - (satisfied + {d}))) == o + (({d} + c) - satisfied)
  {
  }

  /** Exactly the unsatisfied ids are added to the outputs. */
  lemma {:induction false} CloseOutputs(items: seq<Item>, satisfied: set<Id>)
    ensures OutputIds(CloseFrom(items, satisfied)) == OutputIds(items) + (CallIds(items) - satisfied)
    ensures CallIds(CloseFrom(items, satisfied)) == CallIds(items)
  {
    if items != [] {
      var m, rest := items[0], items[1..];
      assert items == [m] + rest;
      IdsOf(m, rest);
      if Dangling(m, satisfied) {
        var s, tail := Output(m.id, NOT_COMPLETED), CloseFrom(rest, satisfied + {m.id.value});
        CloseOutputs(rest, satisfied + {m.id.value});
        CloseStep(items, satisfied);
        IdsOf(s, tail);
        IdsOf(m, [s] + tail);
        SetStep(m.id.value, OutputIds(rest), CallIds(rest), satisfied);
      } else {
        CloseOutputs(rest, satisfied);
        IdsOf(m, CloseFrom(rest, satisfied));
      }
    }
  }

  /** After the repair every identified call has an output. */
  lemma EveryCallHasOutput(items: seq<Item>)
    ensures CallIds(RepairDangling(items)) <= OutputIds(RepairDangling(items))
  {
    CloseOutputs(items, OutputIds(items));
  }

  /** The identified call at j, if there is one there, has an output behind it. */
  predicate Followed(items: seq<Item>, j: nat)
    requires j < |items|
  {
    IsCallOf(items[j]) ==> items[j].id.value in OutputIds(items[j + 1..])
  }

  /** The call at j has an output behind it, or it is the first call of an id without any output. */
  predicate Closable(items: seq<Item>, j: nat, satisfied: set<Id>)
    requires j < |items|
  {
    Followed(items, j) || (items[j].id.value !in satisfied && items[j].id.value !in CallIds(items[..j]))
  }

  predicate AllFollowed(items: seq<Item>) { forall j :: 0 <= j < |items| ==> Followed(items, j) }

  predicate AllClosable(items: seq<Item>, satisfied: set<Id>) {
    forall j :: 0 <= j < |items| ==> Closable(items, j, satisfied)
  }

  /** Both, read from left to right. */
  predicate FollowedFrom(items: seq<Item>) {
    items == [] || (CallId(items[0]) <= OutputIds(items[1..]) && FollowedFrom(items[1..]))
  }

  predicate ClosableFrom(items: seq<Item>, satisfied: set<Id>)
    decreases |items|
  {
    items == [] ||
    ((CallId(items[0]) <= OutputIds(items[1..]) || CallId(items[0]) !! satisfied)
     && ClosableFrom(items[1..], satisfied + CallId(items[0])))
  }

  lemma {:induction false} FollowedIsFrom(items: seq<Item>)
    ensures FollowedFrom(items) <==> AllFollowed(items)
  {
    if items != [] {
      var rest := items[1..];
      FollowedIsFrom(rest);
      forall j | 0 <= j < |rest| ensures Followed(rest, j) <==> Followed(items, j + 1) {
        assert rest[j + 1..] == items[j + 2..];
      }
      assert Followed(items, 0) <==> CallId(items[0]) <= OutputIds(rest);
      if FollowedFrom(items) {
        forall j | 0 <= j < |items| ensures Followed(items, j) { if j > 0 { assert Followed(rest, j - 1); } }
      }
    }
  }

  lemma ClosableShift(items: seq<Item>, j: nat, satisfied: set<Id>)
    requires 0 < j < |items|
    ensures Closable(items, j, satisfied) <==> Closable(items[1..], j - 1, satisfied + CallId(items[0]))
  {
    var m, rest := items[0], items[1..];
    assert rest[j..] == items[j + 1..] && items[..j] == [m] + rest[..j - 1];
    IdsOf(m, rest[..j - 1]);
  }

  lemma {:induction false} ClosableIsFrom(items: seq<Item>, satisfied: set<Id>)
    ensures ClosableFrom(items, satisfied) <==> AllClosable(items, satisfied)
    decreases |items|
  {
    if items != [] {
      var rest, more := items[1..], satisfied + CallId(items[0]);
      ClosableIsFrom(rest, more);
      forall j | 0 <= j < |rest| ensures Closable(rest, j, more) <==> Closable(items, j + 1, satisfied) {
        ClosableShift(items, j + 1, satisfied);
      }
      assert items[..0] == [];
      if ClosableFrom(items, satisfied) {
        forall j | 0 <= j < |items|
            ensures Closable(items, j, satisfied) { if j > 0 { assert Closable(rest, j - 1, more); } }
      } else if !ClosableFrom(rest, more) {
        var j :| 0 <= j < |rest| && !Closable(rest, j, more);
        assert !Closable(items, j + 1, satisfied);
      } else {
        assert !Closable(items, 0, satisfied);
      }
    }
  }

  lemma FollowedStep(m: Item, rest: seq<Item>)
    ensures FollowedFrom([m] + rest) <==> CallId(m) <= OutputIds(rest) && FollowedFrom(rest)
  {
    HeadTail(m, rest);
  }

  lemma {:induction false} CloseFollows(items: seq<Item>, satisfied: set<Id>)
    ensures FollowedFrom(CloseFrom(items, satisfied)) <==> ClosableFrom(items, satisfied)
    decreases |items|
  {
    if items != [] {
      var m, rest := items[0], items[1..];
      var more := satisfied + CallId(m);
      var tail := CloseFrom(rest, more);
      CloseFollows(rest, more);
      CloseOutputs(rest, more);
      if Dangling(m, satisfied) {
        var s := Output(m.id, NOT_COMPLETED);
        CloseStep(items, satisfied);
        FollowedStep(m, [s] + tail);
        FollowedStep(s, tail);
        IdsOf(s, tail);
      } else {
        assert more == satisfied;
        FollowedStep(m, tail);
      }
    }
  }

  /** Exactly when the documented guarantee holds: after the repair every identified call has an output behind it
      if and only if in the input each had one, or was the first call of an id without any output. */
  lemma FollowingOutputIff(items: seq<Item>)
    ensures AllFollowed(RepairDangling(items)) <==> AllClosable(items, OutputIds(items))
  {
    CloseFollows(items, OutputIds(items));
    FollowedIsFrom(RepairDangling(items));
    ClosableIsFrom(items, OutputIds(items));
  }

  /** An output before its call counts as its answer, and the second of two equal calls stays unanswered: in both
      cases the last call of the repaired list has no output behind it. */
  lemma FollowingOutputCanBeMissing(name: string, text: string)
    ensures var items := [Output(Some(1), text), Call(Some(1), name, text)];
            RepairDangling(items) == items && !Followed(RepairDangling(items), 1)
    ensures var c := Call(Some(1), name, text);
            RepairDangling([c, c]) == [c, Output(Some(1), NOT_COMPLETED), c] && !Followed(RepairDangling([c, c]), 2)
  {
    var o, c, s := Output(Some(1), text), Call(Some(1), name, text), Output(Some(1), NOT_COMPLETED);
    assert [o, c][1..] == [c] && [c][1..] == [] && [c, c][1..] == [c];
    assert OutputIds([]) == {} && OutputIds([c]) == {} && OutputIds([o, c]) == {1} && OutputIds([c, c]) == {};
    assert CloseFrom([c], {1}) == [c] + CloseFrom([c][1..], {1}) == [c];
    assert CloseFrom([o, c], {1}) == [o] + [c];
    assert {} + {1} == {1};
    assert CloseFrom([c, c], {}) == [c, s] + CloseFrom([c, c][1..], {} + {1}) == [c, s, c];
    assert [o, c][2..] == [] && [c, s, c][3..] == [];
    assert RepairDangling([o, c]) == [o, c] && RepairDangling([c, c]) == [c, s, c];
    assert [o, c][1] == c && [c, s, c][2] == c;
  }

  lemma {:induction false} CloseNothing(items: seq<Item>, satisfied: set<Id>)
    requires CallIds(items) <= satisfied
    ensures CloseFrom(items, satisfied) == items
  {
    if items != [] {
      assert items == [items[0]] + items[1..];
      IdsOf(items[0], items[1..]);
      CloseNothing(items[1..], satisfied);
    }
  }

  lemma DanglingIdempotent(items: seq<Item>)
    ensures RepairDangling(RepairDangling(items)) == RepairDangling(items)
  {
    EveryCallHasOutput(items);
    CloseNothing(RepairDangling(items), OutputIds(RepairDangling(items)));
  }

  /** Nothing is lost or reordered. */
  lemma {:induction false} DanglingKeepsInput(items: seq<Item>, satisfied: set<Id>)
    ensures Subsequence(items, CloseFrom(items, satisfied))
  {
    if items != [] {
      var m, rest := items[0], items[1..];
      if Dangling(m, satisfied) {
        var s, tail := Output(m.id, NOT_COMPLETED), CloseFrom(rest, satisfied + {m.id.value});
        DanglingKeepsInput(rest, satisfied + {m.id.value});
        CloseStep(items, satisfied);
        HeadTail(m, [s] + tail);
        HeadTail(s, tail);
        SubsequenceSkip(rest, s, tail);
      } else {
        DanglingKeepsInput(rest, satisfied);
        HeadTail(m, CloseFrom(rest, satisfied));
      }
    }
  }

  lemma {:induction false} SubsequenceSkip<T>(a: seq<T>, x: T, b: seq<T>)
    requires Subsequence(a, b)
    ensures Subsequence(a, [x] + b)
    decreases |b|, 1
  {
    HeadTail(x, b);
    if a != [] && a[0] == x { SubsequenceTail(a, b); }
  }

  lemma {:induction false} SubsequenceTail<T>(a: seq<T>, b: seq<T>)
    requires Subsequence(a, b) && a != []
    ensures Subsequence(a[1..], b)
    decreases |b|, 0
  {
    if a[0] == b[0] {
      SubsequenceSkip(a[1..], b[0], b[1..]);
      assert [b[0]] + b[1..] == b;
    } else {
      SubsequenceTail(a, b[1..]);
      SubsequenceSkip(a[1..], b[0], b[1..]);
      assert [b[0]] + b[1..] == b;
    }
  }

  /** The two loops of the source. */
  method RepairDanglingToolCalls(items: seq<Item>) returns (out: seq<Item>)
    ensures out == RepairDangling(items)
  {
    var satisfied: set<Id> := {};
    for i := 0 to |items|
      invariant satisfied == OutputIds(items[..i])
    {
      assert items[..i + 1] == items[..i] + [items[i]];
      IdsConcat(items[..i], [items[i]]);
      if IsOutputOf(items[i]) { satisfied := satisfied + {items[i].id.value}; }
    }
    assert items[..|items|] == items;
    out := [];
    for i := 0 to |items|
      invariant out + CloseFrom(items[i..], satisfied) == RepairDangling(items)
    {
      SliceTail(items, i);
      if Dangling(items[i], satisfied) {
        var s := Output(items[i].id, NOT_COMPLETED);
        Assoc(out, [items[i], s], CloseFrom(items[i + 1..], satisfied + {items[i].id.value}));
        out := out + [items[i], s];
        satisfied := satisfied + {items[i].id.value};
      } else {
        Assoc(out, [items[i]], CloseFrom(items[i + 1..], satisfied));
        out := out + [items[i]];
      }
    }
  }

  // ---------- Synthetic reasoning ----------

  const NO_REASONING := "(no reasoning captured for this turn)"
  const SYNTHETIC := Reasoning(true, [NO_REASONING])

  function Inject(items: seq<Item>): seq<Item> {
    if items == [] then []
    else
      var out, m := Inject(items[..|items| - 1]), items[|items| - 1];
      out + (if m.Assistant? && !(out != [] && out[|out| - 1].Reasoning?) then [SYNTHETIC] else []) + [m]
  }

  /** The items without the synthesized ones. */
  function Erase(items: seq<Item>): seq<Item> {
    if items == [] then []
    else
      var m := items[|items| - 1];
      Erase(items[..|items| - 1]) + if m.Reasoning? && m.synthetic then [] else [m]
  }

  lemma EraseSnoc(items: seq<Item>, m: Item)
    ensures Erase(items + [m]) == Erase(items) + if m.Reasoning? && m.synthetic then [] else [m]
  {
    assert (items + [m])[..|items + [m]| - 1] == items;
  }

  lemma {:induction false} EraseConcat(a: seq<Item>, b: seq<Item>)
    ensures Erase(a + b) == Erase(a) + Erase(b)
  {
    if b == [] {
      assert a + b == a;
    } else {
      var b', m := b[..|b| - 1], b[|b| - 1];
      assert a + b == (a + b') + [m];
      EraseConcat(a, b');
      EraseSnoc(a + b', m);
      Assoc(Erase(a), Erase(b'), if m.Reasoning? && m.synthetic then [] else [m]);
    }
  }

  lemma EraseSynthetic(out: seq<Item>, m: Item)
    ensures Erase(out + [SYNTHETIC] + [m]) == Erase(out + [m])
  {
    EraseSnoc(out, SYNTHETIC);
    EraseSnoc(out + [SYNTHETIC], m);
    EraseSnoc(out, m);
  }

  /** Injection adds synthesized items only. */
  lemma {:induction false} EraseInject(items: seq<Item>)
    ensures Erase(Inject(items)) == Erase(items)
  {
    if items != [] {
      var front, m := items[..|items| - 1], items[|items| - 1];
      var out := Inject(front);
      EraseInject(front);
      EraseSynthetic(out, m);
      EraseSnoc(out, m);
      assert out + [] + [m] == out + [m];
    }
  }

  /** Every assistant message is directly preceded by a reasoning item. */
  predicate Reasoned(items: seq<Item>) {
    forall i :: 0 <= i < |items| && items[i].Assistant? ==> i > 0 && items[i - 1].Reasoning?
  }

  lemma {:induction false} InjectReasoned(items: seq<Item>)
    ensures Reasoned(Inject(items))
    ensures items != [] ==> Inject(items) != [] && Inject(items)[|Inject(items)| - 1] == items[|items| - 1]
  {
    if items != [] { InjectReasoned(items[..|items| - 1]); }
  }

  lemma {:induction false} ReasonedIsFixed(items: seq<Item>)
    requires Reasoned(items)
    ensures Inject(items) == items
  {
    if items != [] {
      var front, m := items[..|items| - 1], items[|items| - 1];
      ReasonedIsFixed(front);
      assert items == front + [] + [m];
    }
  }

  lemma InjectIdempotent(items: seq<Item>)
    ensures Inject(Inject(items)) == Inject(items)
    ensures Inject(items) == items <==> Reasoned(items)
  {
    InjectReasoned(items);
    ReasonedIsFixed(Inject(items));
    if Reasoned(items) { ReasonedIsFixed(items); }
  }

  lemma InjectUser(send: seq<Item>, users: seq<Item>)
    requires users == [] || (|users| == 1 && users[0].User?)
    ensures Inject(send + users) == Inject(send) + users
  {
    if users == [] {
      assert send + users == send;
    } else {
      assert (send + users)[..|send + users| - 1] == send;
    }
  }

  method InjectSyntheticReasoning(items: seq<Item>) returns (out: seq<Item>)
    ensures out == Inject(items)
  {
    out := [];
    for i := 0 to |items|
      invariant out == Inject(items[..i])
    {
      assert items[..i + 1][..i] == items[..i];
      if items[i].Assistant? && !(out != [] && out[|out| - 1].Reasoning?) {
        out := out + [SYNTHETIC];
      }
      out := out + [items[i]];
    }
    assert items[..|items|] == items;
  }
}
