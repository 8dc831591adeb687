/**
  The normaliser for Chat Completions messages (agent/agent.py,
  `_repair_tool_messages`): every identified tool call is answered by one
  adjacent reply, no tool message stands alone, and for DeepSeek a message with
  several calls becomes one message per call.
 */
module ToolMessages {
  import opened Common

  type Id = nat

  /** `id` is None for an entry without a usable id. */
  datatype ToolCall = ToolCall(id: Option<Id>, body: string)
  /** `Placeholder` is the text of a synthesized tool result. */
  datatype Content = NoContent | Blank | Placeholder | Text(text: string)
  datatype Role = User | System | Assistant | Tool
  datatype Msg =
    | Msg(role: Role, calls: seq<ToolCall>, replyTo: Option<Id>, content: Content, reasoning: string, extra: string)
    | NotADict(raw: string)

  predicate IsCaller(m: Msg) { m.Msg? && m.role == Assistant && m.calls != [] }
  predicate IsTool(m: Msg) { m.Msg? && m.role == Tool }
  predicate IsEmptyAssistant(m: Msg) {
    m.Msg? && m.role == Assistant && m.calls == [] && (m.content == NoContent || m.content == Blank)
  }
  /** What the scan behind a calling message reads over. */
  predicate Skippable(m: Msg) { IsTool(m) || IsEmptyAssistant(m) }

  function Synthetic(id: Id): Msg {
    Msg(Tool, [], Some(id), Placeholder, "", "")
  }

  /** The calls that can be answered, in order. */
  function Identified(calls: seq<ToolCall>): (r: seq<ToolCall>)
    ensures forall c :: c in r ==> c in calls && c.id.Some?
    ensures |r| <= |calls|
  {
    if calls == [] then []
    else (if calls[0].id.Some? then [calls[0]] else []) + Identified(calls[1..])
  }

  function FirstReply(run: seq<Msg>, id: Id): (r: Option<Msg>)
    ensures r.Some? ==> r.value in run && IsTool(r.value) && r.value.replyTo == Some(id)
    ensures r.None? ==> forall m :: m in run && IsTool(m) ==> m.replyTo != Some(id)
  {
    if run == [] then None
    else if IsTool(run[0]) && run[0].replyTo == Some(id) then Some(run[0])
    else FirstReply(run[1..], id)
  }

  /** The reply a call gets: the first one in the run behind it, else a placeholder. */
  function ReplyFor(run: seq<Msg>, id: Id): (r: Msg)
    ensures IsTool(r) && r.replyTo == Some(id)
  {
    var f := FirstReply(run, id);
    if f.Some? then f.value else Synthetic(id)
  }

  function Replies(ordered: seq<ToolCall>, run: seq<Msg>): (r: seq<Msg>)
    requires forall c :: c in ordered ==> c.id.Some?
    ensures |r| == |ordered|
    ensures forall k :: 0 <= k < |r| ==> r[k] == ReplyFor(run, ordered[k].id.value)
  {
    seq(|ordered|, k requires 0 <= k < |ordered| => ReplyFor(run, ordered[k].id.value))
  }

  /** Part k of a split message: the first keeps every other field, the rest carry the reasoning only. */
  function Part(m: Msg, c: ToolCall, k: nat): Msg
    requires IsCaller(m)
  {
    if k == 0 then m.(calls := [c]) else Msg(Assistant, [c], None, NoContent, m.reasoning, "")
  }

  function Parts(m: Msg, ordered: seq<ToolCall>, run: seq<Msg>, k: nat): (r: seq<Msg>)
    requires IsCaller(m) && forall c :: c in ordered ==> c.id.Some?
    ensures |r| == 2 * |ordered|
    decreases |ordered|
  {
    if ordered == [] then []
    else [Part(m, ordered[0], k), ReplyFor(run, ordered[0].id.value)] + Parts(m, ordered[1..], run, k + 1)
  }

  /** What replaces a calling message and the run behind it. */
  function Answered(m: Msg, run: seq<Msg>, split: bool): seq<Msg>
    requires IsCaller(m)
  {
    var ordered := Identified(m.calls);
    if split && |ordered| > 1 then Parts(m, ordered, run, 0) else [m] + Replies(ordered, run)
  }

  function RunLength(ms: seq<Msg>): (n: nat)
    ensures n <= |ms|
    ensures forall k :: 0 <= k < n ==> Skippable(ms[k])
    ensures n < |ms| ==> !Skippable(ms[n])
  {
    if ms == [] || !Skippable(ms[0]) then 0 else 1 + RunLength(ms[1..])
  }

  function Repair(ms: seq<Msg>, split: bool): seq<Msg>
    decreases |ms|
  {
    if ms == [] then []
    else if IsCaller(ms[0]) then
      var n := RunLength(ms[1..]);
      Answered(ms[0], ms[1..][..n], split) + Repair(ms[1..][n..], split)
    else if IsTool(ms[0]) then Repair(ms[1..], split)
    else [ms[0]] + Repair(ms[1..], split)
  }

  // ---------- What a provider accepts ----------

  /** The replies behind calls `ordered`: one each, in call order; equal ids get equal replies. */
  predicate Matching(ordered: seq<ToolCall>, replies: seq<Msg>) {
    && |replies| == |ordered|
    && (forall k :: 0 <= k < |replies| ==> IsTool(replies[k]) && replies[k].replyTo == ordered[k].id)
    && forall i, k :: 0 <= i < k < |replies| && ordered[i].id == ordered[k].id ==> replies[i] == replies[k]
  }

  predicate StartsClean(ms: seq<Msg>) { ms == [] || !Skippable(ms[0]) }

  /** Length of the block at the head: a calling message with its replies, or one message. */
  function HeadLen(ms: seq<Msg>): (n: nat)
    requires ms != []
    ensures 0 < n
  {
    1 + if IsCaller(ms[0]) then |Identified(ms[0].calls)| else 0
  }

  /** A calling message is followed by exactly its replies and then by nothing that could be read as another
      one; no block begins with a tool message. */
  predicate HeadOk(ms: seq<Msg>)
    requires ms != []
  {
    var n := HeadLen(ms);
    && n <= |ms| && !IsTool(ms[0])
    && (IsCaller(ms[0]) ==> Matching(Identified(ms[0].calls), ms[1..n]) && StartsClean(ms[n..]))
  }

  /** The accepted sequences. */
  predicate Canonical(ms: seq<Msg>)
    decreases |ms|
  {
    ms == [] || (HeadOk(ms) && Canonical(ms[HeadLen(ms)..]))
  }

  predicate SingleCalls(ms: seq<Msg>) {
    forall i :: 0 <= i < |ms| && IsCaller(ms[i]) ==> |Identified(ms[i].calls)| <= 1
  }

  // ---------- Blocks ----------

  lemma CanonicalBlock(m: Msg, replies: seq<Msg>, rest: seq<Msg>)
    requires IsCaller(m) && Matching(Identified(m.calls), replies)
    requires StartsClean(rest) && Canonical(rest)
    ensures Canonical([m] + replies + rest)
  {
    var ms := [m] + replies + rest;
    var n := |Identified(m.calls)|;
    assert ms[1..1 + n] == replies && ms[1 + n..] == rest;
  }

  lemma {:induction false} RunOf(replies: seq<Msg>, rest: seq<Msg>)
    requires forall k :: 0 <= k < |replies| ==> Skippable(replies[k])
    requires StartsClean(rest)
    ensures RunLength(replies + rest) == |replies|
  {
    assert forall k :: 0 <= k < |replies| ==> (replies + rest)[k] == replies[k];
    assert rest != [] ==> (replies + rest)[|replies|] == rest[0];
  }

  lemma RepairBlock(m: Msg, run: seq<Msg>, rest: seq<Msg>, split: bool)
    requires IsCaller(m) && (forall k :: 0 <= k < |run| ==> Skippable(run[k])) && StartsClean(rest)
    ensures Repair([m] + run + rest, split) == Answered(m, run, split) + Repair(rest, split)
  {
    var ms := [m] + run + rest;
    assert ms[1..] == run + rest;
    RunOf(run, rest);
    assert ms[1..][..|run|] == run && ms[1..][|run|..] == rest;
  }

  lemma {:induction false} RepairStartsClean(ms: seq<Msg>, split: bool)
    requires StartsClean(ms)
    ensures StartsClean(Repair(ms, split))
  {
    if ms != [] && IsCaller(ms[0]) {
      var n := RunLength(ms[1..]);
      var a := Answered(ms[0], ms[1..][..n], split);
      assert IsCaller(a[0]);
    }
  }

  lemma FirstOfReplies(ordered: seq<ToolCall>, replies: seq<Msg>, k: nat)
    requires (forall c :: c in ordered ==> c.id.Some?) && Matching(ordered, replies) && k < |ordered|
    ensures FirstReply(replies, ordered[k].id.value) == Some(replies[k])
    decreases k
  {
    var id := ordered[k].id.value;
    assert replies[k] in replies;
    FirstIsFirst(replies, id, k);
  }

  /** If position k answers `id` and every answer to `id` up to k is that one, the first reply is it. */
  lemma {:induction false} FirstIsFirst(run: seq<Msg>, id: Id, k: nat)
    requires k < |run| && IsTool(run[k]) && run[k].replyTo == Some(id)
    requires forall i :: 0 <= i < k && IsTool(run[i]) && run[i].replyTo == Some(id) ==> run[i] == run[k]
    ensures FirstReply(run, id) == Some(run[k])
    decreases |run|
  {
    if !(IsTool(run[0]) && run[0].replyTo == Some(id)) {
      FirstIsFirst(run[1..], id, k - 1);
    }
  }

  lemma MatchingReplies(ordered: seq<ToolCall>, run: seq<Msg>)
    requires forall c :: c in ordered ==> c.id.Some?
    ensures Matching(ordered, Replies(ordered, run))
  {
  }

  lemma RepliesOfReplies(ordered: seq<ToolCall>, replies: seq<Msg>)
    requires (forall c :: c in ordered ==> c.id.Some?) && Matching(ordered, replies)
    ensures Replies(ordered, replies) == replies
  {
    forall k | 0 <= k < |ordered| ensures ReplyFor(replies, ordered[k].id.value) == replies[k] {
      FirstOfReplies(ordered, replies, k);
    }
  }

  /** A list that begins with a calling message, taken apart the way repair does. */
  lemma TakeApart(ms: seq<Msg>) returns (run: seq<Msg>, rest: seq<Msg>)
    requires ms != [] && IsCaller(ms[0])
    ensures ms[1..] == run + rest && |rest| < |ms| && StartsClean(rest)
    ensures forall k :: 0 <= k < |run| ==> Skippable(run[k])
    ensures forall split :: Repair(ms, split) == Answered(ms[0], run, split) + Repair(rest, split)
  {
    var n := RunLength(ms[1..]);
    run, rest := ms[1..][..n], ms[1..][n..];
    forall split ensures Repair(ms, split) == Answered(ms[0], run, split) + Repair(rest, split) {}
  }

  // ---------- Repair is a normaliser ----------

  /** The output is canonical, for every input. */
  lemma {:induction false} RepairIsCanonical(ms: seq<Msg>)
    ensures Canonical(Repair(ms, false))
    decreases |ms|
  {
    if ms == [] {
    } else if IsCaller(ms[0]) {
      var run, rest := TakeApart(ms);
      RepairIsCanonical(rest);
      RepairStartsClean(rest, false);
      MatchingReplies(Identified(ms[0].calls), run);
      CanonicalBlock(ms[0], Replies(Identified(ms[0].calls), run), Repair(rest, false));
    } else {
      RepairIsCanonical(ms[1..]);
      if !IsTool(ms[0]) {
        assert ([ms[0]] + Repair(ms[1..], false))[1..] == Repair(ms[1..], false);
      }
    }
  }

  lemma {:induction false} CanonicalIsFixed(ms: seq<Msg>, split: bool)
    requires Canonical(ms) && (split ==> SingleCalls(ms))
    ensures Repair(ms, split) == ms
    decreases |ms|
  {
    if ms == [] {
    } else if IsCaller(ms[0]) {
      var ordered := Identified(ms[0].calls);
      var run, rest := ms[1..1 + |ordered|], ms[1 + |ordered|..];
      assert ms == [ms[0]] + run + rest;
      assert split ==> |ordered| <= 1;
      CanonicalIsFixed(rest, split);
      RepliesOfReplies(ordered, run);
      RepairBlock(ms[0], run, rest, split);
    } else {
      CanonicalIsFixed(ms[1..], split);
    }
  }

  /** The fixed points are exactly the canonical sequences. */
  lemma FixedPoints(ms: seq<Msg>)
    ensures Repair(ms, false) == ms <==> Canonical(ms)
  {
    RepairIsCanonical(ms);
    if Canonical(ms) { CanonicalIsFixed(ms, false); }
  }

  // ---------- The DeepSeek split ----------

  lemma IdentifiedOne(c: ToolCall)
    requires c.id.Some?
    ensures Identified([c]) == [c]
  {
    assert [c][1..] == [];
  }

  lemma PartsStep(m: Msg, ordered: seq<ToolCall>, run: seq<Msg>, k: nat, rest: seq<Msg>)
    requires IsCaller(m) && (forall c :: c in ordered ==> c.id.Some?) && ordered != []
    ensures Parts(m, ordered, run, k) + rest ==
            [Part(m, ordered[0], k)] + [ReplyFor(run, ordered[0].id.value)] + (Parts(m, ordered[1..], run,
                k + 1) + rest)
  {
    var p, r := Part(m, ordered[0], k), ReplyFor(run, ordered[0].id.value);
    assert [p, r] == [p] + [r];
    Assoc([p] + [r], Parts(m, ordered[1..], run, k + 1), rest);
  }

  lemma PartBlock(m: Msg, c: ToolCall, run: seq<Msg>, k: nat, tail: seq<Msg>)
    requires IsCaller(m) && c.id.Some? && Canonical(tail) && SingleCalls(tail) && StartsClean(tail)
    ensures var out := [Part(m, c, k)] + [ReplyFor(run, c.id.value)] + tail;
            Canonical(out) && SingleCalls(out) && StartsClean(out)
  {
    IdentifiedOne(c);
    CanonicalBlock(Part(m, c, k), [ReplyFor(run, c.id.value)], tail);
    SingleSnoc(Part(m, c, k), ReplyFor(run, c.id.value), tail);
  }

  lemma {:induction false} PartsCanonical(m: Msg, ordered: seq<ToolCall>, run: seq<Msg>, k: nat, rest: seq<Msg>)
    requires IsCaller(m) && (forall c :: c in ordered ==> c.id.Some?)
    requires Canonical(rest) && SingleCalls(rest) && StartsClean(rest)
    ensures var out := Parts(m, ordered, run, k) + rest; Canonical(out) && SingleCalls(out) && StartsClean(out)
    decreases |ordered|
  {
    if ordered == [] {
      assert Parts(m, ordered, run, k) + rest == rest;
    } else {
      var c := ordered[0];
      var p, r := Part(m, c, k), ReplyFor(run, c.id.value);
      var tail := Parts(m, ordered[1..], run, k + 1) + rest;
      PartsCanonical(m, ordered[1..], run, k + 1, rest);
      PartBlock(m, c, run, k, tail);
      PartsStep(m, ordered, run, k, rest);
    }
  }

  lemma SingleSnoc(p: Msg, r: Msg, tail: seq<Msg>)
    requires SingleCalls(tail) && !IsCaller(r) && (IsCaller(p) ==> |Identified(p.calls)| <= 1)
    ensures SingleCalls([p] + [r] + tail)
  {
  }

  lemma SingleAppend(a: seq<Msg>, b: seq<Msg>)
    requires SingleCalls(a) && SingleCalls(b)
    ensures SingleCalls(a + b)
  {
  }

  /** The split output is canonical and every message in it has at most one identified call. */
  lemma {:induction false} SplitIsCanonical(ms: seq<Msg>)
    ensures Canonical(Repair(ms, true)) && SingleCalls(Repair(ms, true))
    decreases |ms|
  {
    if ms == [] {
    } else if IsCaller(ms[0]) {
      var run, rest := TakeApart(ms);
      var ordered := Identified(ms[0].calls);
      SplitIsCanonical(rest);
      RepairStartsClean(rest, true);
      if |ordered| > 1 {
        PartsCanonical(ms[0], ordered, run, 0, Repair(rest, true));
      } else {
        MatchingReplies(ordered, run);
        CanonicalBlock(ms[0], Replies(ordered, run), Repair(rest, true));
        SingleAppend([ms[0]] + Replies(ordered, run), Repair(rest, true));
      }
    } else {
      SplitIsCanonical(ms[1..]);
      if !IsTool(ms[0]) {
        assert ([ms[0]] + Repair(ms[1..], true))[1..] == Repair(ms[1..], true);
        SingleAppend([ms[0]], Repair(ms[1..], true));
      }
    }
  }

  /** Repairing twice is repairing once, in both modes. */
  lemma RepairIdempotent(ms: seq<Msg>, split: bool)
    ensures Repair(Repair(ms, split), split) == Repair(ms, split)
  {
    if split { SplitIsCanonical(ms); } else { RepairIsCanonical(ms); }
    CanonicalIsFixed(Repair(ms, split), split);
  }

  /** Splitting after a generic repair is splitting directly. */
  lemma {:induction false} SplitAfterRepair(ms: seq<Msg>)
    ensures Repair(Repair(ms, false), true) == Repair(ms, true)
    decreases |ms|
  {
    if ms == [] {
    } else if IsCaller(ms[0]) {
      var run, rest := TakeApart(ms);
      var ordered := Identified(ms[0].calls);
      var replies := Replies(ordered, run);
      SplitAfterRepair(rest);
      RepairStartsClean(rest, false);
      MatchingReplies(ordered, run);
      RepairBlock(ms[0], replies, Repair(rest, false), true);
      RepliesOfReplies(ordered, replies);
      PartsOfReplies(ms[0], ordered, run, replies, 0);
    } else {
      SplitAfterRepair(ms[1..]);
      if !IsTool(ms[0]) {
        assert ([ms[0]] + Repair(ms[1..], false))[1..] == Repair(ms[1..], false);
      }
    }
  }

  lemma {:induction false} PartsOfReplies(m: Msg, ordered: seq<ToolCall>, run: seq<Msg>, run': seq<Msg>, k: nat)
    requires IsCaller(m) && (forall c :: c in ordered ==> c.id.Some?)
    requires forall i :: 0 <= i < |ordered| ==>
        ReplyFor(run', ordered[i].id.value) == ReplyFor(run, ordered[i].id.value)
    ensures Parts(m, ordered, run', k) == Parts(m, ordered, run, k)
    decreases |ordered|
  {
    if ordered != [] {
      assert ReplyFor(run', ordered[0].id.value) == ReplyFor(run, ordered[0].id.value);
      PartsOfReplies(m, ordered[1..], run, run', k + 1);
    }
  }

  // ---------- What repair keeps ----------

  /** The ordered (call, reply) pairs a provider reads off a message list. */
  function Pairs(ms: seq<Msg>): seq<(ToolCall, Msg)>
    decreases |ms|
  {
    if ms == [] then []
    else if IsCaller(ms[0]) && 1 + |Identified(ms[0].calls)| <= |ms| then
      var n := |Identified(ms[0].calls)|;
      Zip(Identified(ms[0].calls), ms[1..1 + n]) + Pairs(ms[1 + n..])
    else Pairs(ms[1..])
  }

  function Zip(cs: seq<ToolCall>, rs: seq<Msg>): (z: seq<(ToolCall, Msg)>)
    requires |cs| == |rs|
    ensures |z| == |cs| && forall k :: 0 <= k < |z| ==> z[k] == (cs[k], rs[k])
  {
    seq(|cs|, k requires 0 <= k < |cs| => (cs[k], rs[k]))
  }

  lemma PairsBlock(m: Msg, replies: seq<Msg>, rest: seq<Msg>)
    requires IsCaller(m) && |replies| == |Identified(m.calls)|
    ensures Pairs([m] + replies + rest) == Zip(Identified(m.calls), replies) + Pairs(rest)
  {
    var ms, n := [m] + replies + rest, |replies|;
    assert ms[1..1 + n] == replies && ms[1 + n..] == rest;
  }

  lemma ZipStep(ordered: seq<ToolCall>, run: seq<Msg>)
    requires ordered != [] && forall c :: c in ordered ==> c.id.Some?
    ensures Zip(ordered, Replies(ordered, run)) ==
            Zip([ordered[0]], [ReplyFor(run, ordered[0].id.value)]) + Zip(ordered[1..], Replies(ordered[1..], run))
  {
  }

  lemma PairsOfPart(m: Msg, c: ToolCall, run: seq<Msg>, k: nat, tail: seq<Msg>)
    requires IsCaller(m) && c.id.Some?
    ensures Pairs([Part(m, c, k)] + [ReplyFor(run, c.id.value)] + tail) ==
        Zip([c], [ReplyFor(run, c.id.value)]) + Pairs(tail)
  {
    IdentifiedOne(c);
    PairsBlock(Part(m, c, k), [ReplyFor(run, c.id.value)], tail);
  }

  lemma {:induction false} PairsOfParts(m: Msg, ordered: seq<ToolCall>, run: seq<Msg>, k: nat, rest: seq<Msg>)
    requires IsCaller(m) && forall c :: c in ordered ==> c.id.Some?
    ensures Pairs(Parts(m, ordered, run, k) + rest) == Zip(ordered, Replies(ordered, run)) + Pairs(rest)
    decreases |ordered|
  {
    if ordered == [] {
      assert Parts(m, ordered, run, k) + rest == rest;
    } else {
      var c, cs := ordered[0], ordered[1..];
      calc {
        Pairs(Parts(m, ordered, run, k) + rest);
        { PartsStep(m, ordered, run, k, rest); }
        Pairs([Part(m, c, k)] + [ReplyFor(run, c.id.value)] + (Parts(m, cs, run, k + 1) + rest));
        { PairsOfPart(m, c, run, k, Parts(m, cs, run, k + 1) + rest); }
        Zip([c], [ReplyFor(run, c.id.value)]) + Pairs(Parts(m, cs, run, k + 1) + rest);
        { PairsOfParts(m, cs, run, k + 1, rest); }
        Zip([c], [ReplyFor(run, c.id.value)]) + (Zip(cs, Replies(cs, run)) + Pairs(rest));
        { Assoc(Zip([c], [ReplyFor(run, c.id.value)]), Zip(cs, Replies(cs, run)), Pairs(rest)); ZipStep(ordered, run); }
        Zip(ordered, Replies(ordered, run)) + Pairs(rest);
      }
    }
  }

  /** The split changes the grouping only: the ordered (call, reply) pairs are those of the unsplit repair. */
  lemma {:induction false} SplitKeepsPairs(ms: seq<Msg>)
    ensures Pairs(Repair(ms, true)) == Pairs(Repair(ms, false))
    decreases |ms|
  {
    if ms == [] {
    } else if IsCaller(ms[0]) {
      var run, rest := TakeApart(ms);
      var ordered := Identified(ms[0].calls);
      SplitKeepsPairs(rest);
      PairsBlock(ms[0], Replies(ordered, run), Repair(rest, false));
      PairsBlock(ms[0], Replies(ordered, run), Repair(rest, true));
      PairsOfParts(ms[0], ordered, run, 0, Repair(rest, true));
    } else {
      SplitKeepsPairs(ms[1..]);
      PlainPairs(ms[0], Repair(ms[1..], true));
      PlainPairs(ms[0], Repair(ms[1..], false));
    }
  }

  lemma PlainPairs(m: Msg, rest: seq<Msg>)
    ensures !IsCaller(m) ==> Pairs([m] + rest) == Pairs(rest)
  {
    assert ([m] + rest)[1..] == rest;
  }

  /** The calling messages and what they carry besides the calls: (reasoning, calls), one entry per call. */
  function Reasons(ms: seq<Msg>): seq<(ToolCall, string)> {
    if ms == [] then []
    else (if IsCaller(ms[0]) then Tag(Identified(ms[0].calls), ms[0].reasoning) else []) + Reasons(ms[1..])
  }

  function Tag(cs: seq<ToolCall>, reasoning: string): (r: seq<(ToolCall, string)>)
    ensures |r| == |cs| && forall k :: 0 <= k < |r| ==> r[k] == (cs[k], reasoning)
  {
    seq(|cs|, k requires 0 <= k < |cs| => (cs[k], reasoning))
  }

  lemma {:induction false} ReasonsConcat(a: seq<Msg>, b: seq<Msg>)
    ensures Reasons(a + b) == Reasons(a) + Reasons(b)
  {
    if a == [] {
      assert a + b == b;
    } else {
      ReasonsConcat(a[1..], b);
      assert (a + b)[1..] == a[1..] + b;
      Assoc(if IsCaller(a[0]) then Tag(Identified(a[0].calls), a[0].reasoning) else [], Reasons(a[1..]), Reasons(b));
    }
  }

  lemma {:induction false} ReasonsOfTools(ms: seq<Msg>)
    requires forall k :: 0 <= k < |ms| ==> !IsCaller(ms[k])
    ensures Reasons(ms) == []
  {
    if ms != [] { ReasonsOfTools(ms[1..]); }
  }

  lemma ReasonsOfPair(p: Msg, r: Msg)
    requires IsCaller(p) && !IsCaller(r)
    ensures Reasons([p, r]) == Tag(Identified(p.calls), p.reasoning)
  {
    assert [p, r][1..] == [r] && [r][1..] == [];
    assert Reasons([r]) == [];
  }

  lemma {:induction false} ReasonsOfParts(m: Msg, ordered: seq<ToolCall>, run: seq<Msg>, k: nat)
    requires IsCaller(m) && forall c :: c in ordered ==> c.id.Some?
    ensures Reasons(Parts(m, ordered, run, k)) == Tag(ordered, m.reasoning)
    decreases |ordered|
  {
    if ordered != [] {
      var c, cs := ordered[0], ordered[1..];
      var p, r := Part(m, c, k), ReplyFor(run, c.id.value);
      calc {
        Reasons(Parts(m, ordered, run, k));
        { ReasonsConcat([p, r], Parts(m, cs, run, k + 1)); }
        Reasons([p, r]) + Reasons(Parts(m, cs, run, k + 1));
        { ReasonsOfPair(p, r); IdentifiedOne(c); ReasonsOfParts(m, cs, run, k + 1); }
        Tag([c], m.reasoning) + Tag(cs, m.reasoning);
        Tag(ordered, m.reasoning);
      }
    }
  }

  lemma ReasonsOfAnswered(m: Msg, run: seq<Msg>, split: bool)
    requires IsCaller(m)
    ensures Reasons(Answered(m, run, split)) == Tag(Identified(m.calls), m.reasoning)
  {
    var ordered := Identified(m.calls);
    if split && |ordered| > 1 {
      ReasonsOfParts(m, ordered, run, 0);
    } else {
      ReasonsOfTools(Replies(ordered, run));
      HeadTail(m, Replies(ordered, run));
    }
  }

  /** Every identified call keeps its order and the reasoning it was made with, in both modes. */
  lemma {:induction false} RepairKeepsReasons(ms: seq<Msg>, split: bool)
    ensures Reasons(Repair(ms, split)) == Reasons(ms)
    decreases |ms|
  {
    if ms == [] {
    } else if IsCaller(ms[0]) {
      var run, rest := TakeApart(ms);
      calc {
        Reasons(Repair(ms, split));
        { ReasonsConcat(Answered(ms[0], run, split), Repair(rest, split)); }
        Reasons(Answered(ms[0], run, split)) + Reasons(Repair(rest, split));
        { ReasonsOfAnswered(ms[0], run, split); RepairKeepsReasons(rest, split); }
        Tag(Identified(ms[0].calls), ms[0].reasoning) + Reasons(rest);
        { ReasonsOfTools(run); ReasonsConcat(run, rest); assert [] + Reasons(rest) == Reasons(rest); }
        Reasons(ms);
      }
    } else {
      RepairKeepsReasons(ms[1..], split);
      HeadTail(ms[0], Repair(ms[1..], split));
    }
  }

  /** What the calling messages say besides their calls and reasoning; silent ones are left out. */
  function Spoken(ms: seq<Msg>): seq<(Content, string)> {
    if ms == [] then [] else SpokenBy(ms[0]) + Spoken(ms[1..])
  }

  function SpokenBy(m: Msg): seq<(Content, string)> {
    if IsCaller(m) && (m.content != NoContent || m.extra != "") then [(m.content, m.extra)] else []
  }

  lemma {:induction false} SpokenConcat(a: seq<Msg>, b: seq<Msg>)
    ensures Spoken(a + b) == Spoken(a) + Spoken(b)
  {
    if a == [] {
      assert a + b == b;
    } else {
      SpokenConcat(a[1..], b);
      assert (a + b)[1..] == a[1..] + b;
      Assoc(SpokenBy(a[0]), Spoken(a[1..]), Spoken(b));
    }
  }

  lemma {:induction false} SpokenByNone(ms: seq<Msg>)
    requires forall k :: 0 <= k < |ms| ==> SpokenBy(ms[k]) == []
    ensures Spoken(ms) == []
  {
    if ms != [] { SpokenByNone(ms[1..]); }
  }

  lemma {:induction false} PartsAreSilent(m: Msg, ordered: seq<ToolCall>, run: seq<Msg>, k: nat)
    requires IsCaller(m) && k > 0 && forall c :: c in ordered ==> c.id.Some?
    ensures forall i :: 0 <= i < |Parts(m, ordered, run, k)| ==> SpokenBy(Parts(m, ordered, run, k)[i]) == []
    decreases |ordered|
  {
    if ordered != [] { PartsAreSilent(m, ordered[1..], run, k + 1); }
  }

  lemma SpokenOfAnswered(m: Msg, run: seq<Msg>, split: bool)
    requires IsCaller(m)
    ensures Spoken(Answered(m, run, split)) == SpokenBy(m)
  {
    var ordered := Identified(m.calls);
    var a := Answered(m, run, split);
    if split && |ordered| > 1 {
      PartsAreSilent(m, ordered[1..], run, 1);
      assert a[1..] == [ReplyFor(run, ordered[0].id.value)] + Parts(m, ordered[1..], run, 1);
    } else {
      assert a[1..] == Replies(ordered, run);
    }
    SpokenByNone(a[1..]);
  }

  /** Nothing a calling message says is lost, repeated or moved: text and other fields come out once and in order, also
      when the message is split. */
  lemma {:induction false} RepairKeepsTexts(ms: seq<Msg>, split: bool)
    ensures Spoken(Repair(ms, split)) == Spoken(ms)
    decreases |ms|
  {
    if ms == [] {
    } else if IsCaller(ms[0]) {
      var run, rest := TakeApart(ms);
      calc {
        Spoken(Repair(ms, split));
        { SpokenConcat(Answered(ms[0], run, split), Repair(rest, split)); }
        Spoken(Answered(ms[0], run, split)) + Spoken(Repair(rest, split));
        { SpokenOfAnswered(ms[0], run, split); RepairKeepsTexts(rest, split); }
        SpokenBy(ms[0]) + Spoken(rest);
        { SpokenByNone(run); SpokenConcat(run, rest); assert [] + Spoken(rest) == Spoken(rest); }
        Spoken(ms);
      }
    } else {
      RepairKeepsTexts(ms[1..], split);
      HeadTail(ms[0], Repair(ms[1..], split));
    }
  }

  /** The messages repair has no business with. */
  function Plain(ms: seq<Msg>): seq<Msg> {
    if ms == [] then []
    else (if IsCaller(ms[0]) || Skippable(ms[0]) then [] else [ms[0]]) + Plain(ms[1..])
  }

  lemma {:induction false} PlainConcat(a: seq<Msg>, b: seq<Msg>)
    ensures Plain(a + b) == Plain(a) + Plain(b)
  {
    if a == [] {
      assert a + b == b;
    } else {
      PlainConcat(a[1..], b);
      assert (a + b)[1..] == a[1..] + b;
      Assoc(if IsCaller(a[0]) || Skippable(a[0]) then [] else [a[0]], Plain(a[1..]), Plain(b));
    }
  }

  lemma {:induction false} PlainOfNone(ms: seq<Msg>)
    requires forall k :: 0 <= k < |ms| ==> IsCaller(ms[k]) || Skippable(ms[k])
    ensures Plain(ms) == []
  {
    if ms != [] { PlainOfNone(ms[1..]); }
  }

  lemma {:induction false} PartsNotPlain(m: Msg, ordered: seq<ToolCall>, run: seq<Msg>, k: nat)
    requires IsCaller(m) && forall c :: c in ordered ==> c.id.Some?
    ensures forall i :: 0 <= i < |Parts(m, ordered, run, k)| ==>
              IsCaller(Parts(m, ordered, run, k)[i]) || Skippable(Parts(m, ordered, run, k)[i])
    decreases |ordered|
  {
    if ordered != [] { PartsNotPlain(m, ordered[1..], run, k + 1); }
  }

  lemma PlainOfAnswered(m: Msg, run: seq<Msg>, split: bool)
    requires IsCaller(m)
    ensures Plain(Answered(m, run, split)) == []
  {
    PartsNotPlain(m, Identified(m.calls), run, 0);
    PlainOfNone(Answered(m, run, split));
  }

  lemma PlainHead(m: Msg, rest: seq<Msg>)
    ensures Plain([m] + rest) == (if IsCaller(m) || Skippable(m) then [] else [m]) + Plain(rest)
  {
    HeadTail(m, rest);
  }

  /** All other messages survive, in order, in both modes. */
  lemma {:induction false} RepairKeepsPlain(ms: seq<Msg>, split: bool)
    ensures Plain(Repair(ms, split)) == Plain(ms)
    decreases |ms|
  {
    if ms == [] {
    } else if IsCaller(ms[0]) {
      var run, rest := TakeApart(ms);
      calc {
        Plain(Repair(ms, split));
        { PlainConcat(Answered(ms[0], run, split), Repair(rest, split)); PlainOfAnswered(ms[0], run, split); }
        [] + Plain(Repair(rest, split));
        { RepairKeepsPlain(rest, split); PlainOfNone(run); }
        Plain(run) + Plain(rest);
        { PlainConcat(run, rest); }
        Plain(ms[1..]);
        Plain(ms);
      }
    } else {
      RepairKeepsPlain(ms[1..], split);
      PlainHead(ms[0], Repair(ms[1..], split));
    }
  }

  /** The message at j is the first reply to the k-th identified call of message i, reached over tool replies
      and empty assistant messages only. */
  predicate RealReply(ms: seq<Msg>, i: nat, j: nat, k: nat) {
    && i < j < |ms| && IsCaller(ms[i]) && k < |Identified(ms[i].calls)| && IsTool(ms[j])
    && ms[j].replyTo == Identified(ms[i].calls)[k].id
    && forall h :: i < h < j ==> Skippable(ms[h]) && (IsTool(ms[h]) ==> ms[h].replyTo != ms[j].replyTo)
  }

  lemma ShiftReal(ms: seq<Msg>, d: nat, i: nat, j: nat, k: nat)
    requires RealReply(ms, i, j, k) && d <= i
    ensures RealReply(ms[d..], i - d, j - d, k) && ms[d..][i - d] == ms[i] && ms[d..][j - d] == ms[j]
  {
  }

  /** A real reply is never lost to a placeholder: it is what the repaired list pairs the call with, in both modes. */
  lemma RealReplyUsed(ms: seq<Msg>, i: nat, j: nat, k: nat, split: bool)
    requires RealReply(ms, i, j, k)
    ensures (Identified(ms[i].calls)[k], ms[j]) in Pairs(Repair(ms, split))
  {
    RealReplyPaired(ms, i, j, k);
    if split { SplitKeepsPairs(ms); }
  }

  lemma {:induction false} RealReplyPaired(ms: seq<Msg>, i: nat, j: nat, k: nat)
    requires RealReply(ms, i, j, k)
    ensures (Identified(ms[i].calls)[k], ms[j]) in Pairs(Repair(ms, false))
  {
    if i == 0 {
      RealReplyHead(ms, j, k);
    } else if IsCaller(ms[0]) {
      var n := RunLength(ms[1..]);
      assert n <= i - 1 by { assert ms[1..][i - 1] == ms[i]; }
      ShiftReal(ms, 1 + n, i, j, k);
      RealReplyPaired(ms[1 + n..], i - 1 - n, j - 1 - n, k);
      PairsOfRest(ms, n);
    } else {
      ShiftReal(ms, 1, i, j, k);
      var rest := ms[1..];
      RealReplyPaired(rest, i - 1, j - 1, k);
      PairsBehindPlain(ms);
    }
  }

  lemma {:induction false} PairsBehindPlain(ms: seq<Msg>)
    requires ms != [] && !IsCaller(ms[0])
    ensures Pairs(Repair(ms, false)) == Pairs(Repair(ms[1..], false))
  {
    PlainPairs(ms[0], Repair(ms[1..], false));
  }

  /** The pairs of what comes behind a calling message and its run are pairs of the whole repaired list. */
  lemma {:induction false} PairsOfRest(ms: seq<Msg>, n: nat)
    requires ms != [] && IsCaller(ms[0]) && n == RunLength(ms[1..])
    ensures 1 + n <= |ms|
    ensures forall q :: q in Pairs(Repair(ms[1 + n..], false)) ==> q in Pairs(Repair(ms, false))
  {
    assert ms[1..][n..] == ms[1 + n..];
    PairsBlock(ms[0], Replies(Identified(ms[0].calls), ms[1..][..n]), Repair(ms[1 + n..], false));
  }

  lemma RealReplyHead(ms: seq<Msg>, j: nat, k: nat)
    requires RealReply(ms, 0, j, k)
    ensures (Identified(ms[0].calls)[k], ms[j]) in Pairs(Repair(ms, false))
  {
    var n := RunLength(ms[1..]);
    var run, rest := ms[1..][..n], ms[1..][n..];
    var ordered := Identified(ms[0].calls);
    RunCovers(ms, j);
    assert forall h :: 0 <= h < n ==> run[h] == ms[h + 1];
    FirstIsFirst(run, ordered[k].id.value, j - 1);
    PairsBlock(ms[0], Replies(ordered, run), Repair(rest, false));
    assert Zip(ordered, Replies(ordered, run))[k] == (ordered[k], ms[j]);
  }

  lemma RunCovers(ms: seq<Msg>, j: nat)
    requires 0 < j < |ms| && forall h :: 0 < h <= j ==> Skippable(ms[h])
    ensures j <= RunLength(ms[1..])
  {
    var n := RunLength(ms[1..]);
    assert n < |ms[1..]| ==> ms[1..][n] == ms[n + 1];
  }

  // ---------- The guarantees, index by index ----------

  /** The k-th identified call of message h is answered at h + 1 + k. */
  predicate Answers(ms: seq<Msg>, h: nat, k: nat) {
    && h + 1 + k < |ms| && IsCaller(ms[h]) && k < |Identified(ms[h].calls)|
    && IsTool(ms[h + 1 + k]) && ms[h + 1 + k].replyTo == Identified(ms[h].calls)[k].id
  }

  /** The number of replies message d calls for. */
  function Fanout(m: Msg): nat { if IsCaller(m) then |Identified(m.calls)| else 0 }

  ghost predicate BlockAt(ms: seq<Msg>, d: nat) {
    d < |ms| && !IsTool(ms[d]) && forall k: nat :: k < Fanout(ms[d]) ==> Answers(ms, d, k)
  }

  /** Blocks from position d to the end, read by index. */
  ghost predicate Blocks(ms: seq<Msg>, d: nat)
    decreases |ms| - d
  {
    d == |ms| || (BlockAt(ms, d) && Blocks(ms, d + 1 + Fanout(ms[d])))
  }

  lemma HeadIsBlock(ms: seq<Msg>, d: nat)
    requires d < |ms| && HeadOk(ms[d..])
    ensures BlockAt(ms, d) && ms[d..][0] == ms[d]
  {
    var s := ms[d..];
    forall k: nat | k < Fanout(ms[d]) ensures Answers(ms, d, k) {
      var replies := s[1..HeadLen(s)];
      assert replies[k] == s[1 + k] == ms[d + 1 + k];
    }
  }

  lemma CanonicalStep(ms: seq<Msg>, d: nat) returns (d': nat)
    requires d < |ms| && Canonical(ms[d..])
    ensures BlockAt(ms, d) && d' == d + 1 + Fanout(ms[d]) && d' <= |ms| && Canonical(ms[d'..])
  {
    HeadIsBlock(ms, d);
    d' := d + 1 + Fanout(ms[d]);
    assert ms[d..][HeadLen(ms[d..])..] == ms[d'..];
  }

  lemma {:induction false} CanonicalIsBlocks(ms: seq<Msg>, d: nat)
    requires d <= |ms| && Canonical(ms[d..])
    ensures Blocks(ms, d)
    decreases |ms| - d
  {
    if d < |ms| {
      var d' := CanonicalStep(ms, d);
      CanonicalIsBlocks(ms, d');
    }
  }

  lemma ReplyInBlock(ms: seq<Msg>, d: nat, i: nat)
    requires BlockAt(ms, d) && d < i < |ms|
    ensures i < d + 1 + Fanout(ms[d]) ==> IsTool(ms[i])
  {
    if i < d + 1 + Fanout(ms[d]) { assert Answers(ms, d, i - d - 1); }
  }

  lemma {:induction false} AnsweredFrom(ms: seq<Msg>, d: nat, i: nat, k: nat)
    requires Blocks(ms, d) && d <= i < |ms| && k < Fanout(ms[i])
    ensures Answers(ms, i, k)
    decreases |ms| - d
  {
    if d < i {
      ReplyInBlock(ms, d, i);
      AnsweredFrom(ms, d + 1 + Fanout(ms[d]), i, k);
    }
  }

  lemma {:induction false} CalledFrom(ms: seq<Msg>, d: nat, i: nat)
    requires Blocks(ms, d) && d <= i < |ms| && IsTool(ms[i])
    ensures exists h: nat, k: nat :: Answers(ms, h, k) && h + 1 + k == i
    decreases |ms| - d
  {
    if i < d + 1 + Fanout(ms[d]) {
      assert Answers(ms, d, i - d - 1);
    } else {
      CalledFrom(ms, d + 1 + Fanout(ms[d]), i);
    }
  }

  /** Forward guarantee: every identified call in a repaired list has its reply at its own offset. */
  lemma EveryCallAnswered(ms: seq<Msg>, split: bool, i: nat, k: nat)
    requires i < |Repair(ms, split)| && k < Fanout(Repair(ms, split)[i])
    ensures Answers(Repair(ms, split), i, k)
  {
    RepairIsBlocks(ms, split);
    AnsweredFrom(Repair(ms, split), 0, i, k);
  }

  /** Reverse guarantee: every tool message in a repaired list is the reply to some call. */
  lemma NoOrphanReply(ms: seq<Msg>, split: bool, i: nat)
    requires i < |Repair(ms, split)| && IsTool(Repair(ms, split)[i])
    ensures exists h: nat, k: nat :: Answers(Repair(ms, split), h, k) && h + 1 + k == i
  {
    RepairIsBlocks(ms, split);
    CalledFrom(Repair(ms, split), 0, i);
  }

  lemma RepairIsBlocks(ms: seq<Msg>, split: bool)
    ensures Blocks(Repair(ms, split), 0)
  {
    if split { SplitIsCanonical(ms); } else { RepairIsCanonical(ms); }
    var out := Repair(ms, split);
    assert out[0..] == out;
    CanonicalIsBlocks(out, 0);
  }

  // ---------- The loop of the source ----------

  lemma {:induction false} FirstReplySnoc(run: seq<Msg>, m: Msg, id: Id)
    ensures FirstReply(run + [m], id) ==
            if FirstReply(run, id).Some? then FirstReply(run, id)
            else if IsTool(m) && m.replyTo == Some(id) then Some(m) else None
  {
    if run != [] {
      FirstReplySnoc(run[1..], m, id);
      assert (run + [m])[1..] == run[1..] + [m];
    } else {
      assert [m][1..] == [] && run + [m] == [m];
    }
  }

  /** `byId` holds the first reply per id in `run`. */
  ghost predicate Indexes(byId: map<Id, Msg>, run: seq<Msg>) {
    forall id :: FirstReply(run, id) == if id in byId then Some(byId[id]) else None
  }

  function Index(byId: map<Id, Msg>, m: Msg): map<Id, Msg> {
    if IsTool(m) && m.replyTo.Some? && m.replyTo.value !in byId then byId[m.replyTo.value := m] else byId
  }

  lemma IndexSnoc(byId: map<Id, Msg>, run: seq<Msg>, m: Msg)
    requires Indexes(byId, run)
    ensures Indexes(Index(byId, m), run + [m])
  {
    forall id { FirstReplySnoc(run, m, id); }
  }

  /** The run from position i on and the first reply per id in it. */
  method IndexReplies(ms: seq<Msg>, i: nat) returns (j: nat, byId: map<Id, Msg>)
    requires i <= |ms|
    ensures i <= j <= |ms| && j == i + RunLength(ms[i..]) && Indexes(byId, ms[i..j])
  {
    j, byId := i, map[];
    while j < |ms| && Skippable(ms[j])
      invariant i <= j <= |ms|
      invariant forall k :: i <= k < j ==> Skippable(ms[k])
      invariant Indexes(byId, ms[i..j])
    {
      IndexSnoc(byId, ms[i..j], ms[j]);
      SliceSnoc(ms, i, j);
      byId, j := Index(byId, ms[j]), j + 1;
    }
    RunAt(ms, i, j);
  }

  lemma RunAt(ms: seq<Msg>, i: nat, j: nat)
    requires i <= j <= |ms| && (forall k :: i <= k < j ==> Skippable(ms[k])) && (j < |ms| ==> !Skippable(ms[j]))
    ensures j == i + RunLength(ms[i..])
  {
    assert ms[i..] == ms[i..j] + ms[j..];
    RunOf(ms[i..j], ms[j..]);
  }

  method Identify(calls: seq<ToolCall>) returns (ordered: seq<ToolCall>)
    ensures ordered == Identified(calls)
  {
    ordered := [];
    for k := 0 to |calls|
      invariant ordered + Identified(calls[k..]) == Identified(calls)
    {
      IdentifiedTail(calls, k, ordered);
      if calls[k].id.Some? { ordered := ordered + [calls[k]]; }
    }
  }

  lemma IdentifiedTail(calls: seq<ToolCall>, k: nat, ordered: seq<ToolCall>)
    requires k < |calls|
    ensures ordered + Identified(calls[k..]) ==
            (if calls[k].id.Some? then ordered + [calls[k]] else ordered) + Identified(calls[k + 1..])
  {
    SliceTail(calls, k);
    Assoc(ordered, if calls[k].id.Some? then [calls[k]] else [], Identified(calls[k + 1..]));
  }

  method SplitCalls(m: Msg, ordered: seq<ToolCall>, byId: map<Id, Msg>, ghost run: seq<Msg>) returns (out: seq<Msg>)
    requires IsCaller(m) && forall c :: c in ordered ==> c.id.Some?
    requires Indexes(byId, run)
    ensures out == Parts(m, ordered, run, 0)
  {
    out := [];
    for k := 0 to |ordered|
      invariant out + Parts(m, ordered[k..], run, k) == Parts(m, ordered, run, 0)
    {
      var c := ordered[k];
      SliceTail(ordered, k);
      var reply := if c.id.value in byId then byId[c.id.value] else Synthetic(c.id.value);
      assert reply == ReplyFor(run, c.id.value);
      Assoc(out, [Part(m, c, k), reply], Parts(m, ordered[k + 1..], run, k + 1));
      out := out + [Part(m, c, k), reply];
    }
  }

  method KeepCalls(m: Msg, ordered: seq<ToolCall>, byId: map<Id, Msg>, ghost run: seq<Msg>) returns (out: seq<Msg>)
    requires forall c :: c in ordered ==> c.id.Some?
    requires Indexes(byId, run)
    ensures out == [m] + Replies(ordered, run)
  {
    out := [m];
    for k := 0 to |ordered|
      invariant out == [m] + Replies(ordered, run)[..k]
    {
      var id := ordered[k].id.value;
      out := out + [if id in byId then byId[id] else Synthetic(id)];
    }
  }

  method RepairToolMessages(ms: seq<Msg>, split: bool) returns (out: seq<Msg>)
    ensures out == Repair(ms, split)
  {
    out := [];
    var i := 0;
    while i < |ms|
      invariant 0 <= i <= |ms|
      invariant out + Repair(ms[i..], split) == Repair(ms, split)
    {
      SliceTail(ms, i);
      if IsCaller(ms[i]) {
        var j, byId := IndexReplies(ms, i + 1);
        var ordered := Identify(ms[i].calls);
        var block;
        if split && |ordered| > 1 {
          block := SplitCalls(ms[i], ordered, byId, ms[i + 1..j]);
        } else {
          block := KeepCalls(ms[i], ordered, byId, ms[i + 1..j]);
        }
        RepairAt(ms, i, j, split);
        Assoc(out, block, Repair(ms[j..], split));
        out, i := out + block, j;
      } else if IsTool(ms[i]) {
        i := i + 1;
      } else {
        Assoc(out, [ms[i]], Repair(ms[i + 1..], split));
        out, i := out + [ms[i]], i + 1;
      }
    }
    assert ms[i..] == [];
  }

  lemma {:induction false} RepairCaller(ms: seq<Msg>, split: bool)
    requires ms != [] && IsCaller(ms[0])
    ensures var n := RunLength(ms[1..]);
            Repair(ms, split) == Answered(ms[0], ms[1..][..n], split) + Repair(ms[1..][n..], split)
  {
  }

  lemma {:induction false} RepairIs(m: Msg, run: seq<Msg>, rest: seq<Msg>, split: bool)
    requires IsCaller(m) && |run| == RunLength(run + rest)
    ensures Repair([m] + run + rest, split) == Answered(m, run, split) + Repair(rest, split)
  {
    var ms := [m] + run + rest;
    RepairCaller(ms, split);
    assert ms[1..] == run + rest && (run + rest)[..|run|] == run && (run + rest)[|run|..] == rest;
  }

  lemma RepairAt(ms: seq<Msg>, i: nat, j: nat, split: bool)
    requires i < |ms| && IsCaller(ms[i]) && j == i + 1 + RunLength(ms[i + 1..])
    ensures Repair(ms[i..], split) == Answered(ms[i], ms[i + 1..j], split) + Repair(ms[j..], split)
  {
    assert ms[i + 1..] == ms[i + 1..j] + ms[j..];
    assert ms[i..] == [ms[i]] + ms[i + 1..j] + ms[j..];
    RepairIs(ms[i], ms[i + 1..j], ms[j..], split);
  }
}
