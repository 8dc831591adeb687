/** Readable text and token estimates (agent/context_compaction.py). */
module Estimates {
  import opened Common
  import opened Items

  const SUMMARY_OUTPUT_MAX_CHARS := 500

  predicate IsCjk(c: char) {
    var o := c as int;
    0x4E00 <= o <= 0x9FFF || 0x3400 <= o <= 0x4DBF || 0x3040 <= o <= 0x30FF || 0xAC00 <= o <= 0xD7AF
  }

  function CountCjk(t: string): (n: nat)
    ensures n <= |t|
  {
    if t == "" then 0 else CountCjk(t[..|t| - 1]) + if IsCjk(t[|t| - 1]) then 1 else 0
  }

  /** One token per CJK character, one per four others, plus 15 percent. */
  function EstimateTokens(t: string): nat {
    if t == "" then 0
    else
      var cjk := CountCjk(t);
      (cjk + (|t| - cjk + 3) / 4) * 115 / 100
  }

  function Join(parts: seq<string>, sep: string): string {
    if parts == [] then ""
    else if |parts| == 1 then parts[0]
    else parts[0] + sep + Join(parts[1..], sep)
  }

  function ItemText(m: Item): string {
    match m
    case Call(_, name, args) => name + ": " + args
    case Reasoning(_, summary) => Join(summary, " ")
    case _ => m.text
  }

  /** The text given to the summarizer: tool outputs are capped. */
  function FoldPart(m: Item): string {
    if m.Output? && |m.text| > SUMMARY_OUTPUT_MAX_CHARS
    then m.text[..SUMMARY_OUTPUT_MAX_CHARS] + "[+" + Decimal(|m.text| - SUMMARY_OUTPUT_MAX_CHARS) + " chars]"
    else ItemText(m)
  }

  function FoldText(items: seq<Item>): string {
    Join(seq(|items|, i requires 0 <= i < |items| => FoldPart(items[i])), "\n")
  }

  function EstimateItems(items: seq<Item>): nat {
    if items == [] then 0 else EstimateTokens(ItemText(items[0])) + EstimateItems(items[1..])
  }

  /** A suffix never costs more than the whole. */
  lemma {:induction false} SuffixCostsLess(items: seq<Item>, c: nat)
    requires c <= |items|
    ensures EstimateItems(items[c..]) <= EstimateItems(items)
  {
    if c > 0 {
      SuffixCostsLess(items[1..], c - 1);
      assert items[1..][c - 1..] == items[c..];
    } else {
      assert items[c..] == items;
    }
  }

  /** Five characters are worth at least two tokens. */
  lemma FiveCharacters(t: string)
    requires |t| >= 5
    ensures EstimateTokens(t) >= 2
  {
    var cjk := CountCjk(t);
    assert cjk + (|t| - cjk + 3) / 4 >= 2;
  }

  /** Four characters per token are always enough. */
  lemma LongText(t: string, n: nat)
    requires |t| >= 4 * n
    ensures EstimateTokens(t) >= n
  {
    var cjk := CountCjk(t);
    assert cjk + (|t| - cjk + 3) / 4 >= n;
  }

  /** A list costs at least what a call in it costs. */
  lemma LongCall(items: seq<Item>, k: nat, n: nat)
    requires k < |items| && items[k].Call? && |items[k].text| >= 4 * n
    ensures EstimateItems(items) >= n
  {
    LongText(ItemText(items[k]), n);
    SuffixCostsLess(items, k);
  }

  lemma FoldTextHasHead(items: seq<Item>)
    requires items != [] && items[0].User?
    ensures |FoldText(items)| >= |items[0].text|
  {
    var parts := seq(|items|, i requires 0 <= i < |items| => FoldPart(items[i]));
    assert parts[0] == items[0].text && |Join(parts, "\n")| >= |parts[0]|;
  }

  predicate FoundAt(t: string, part: string, k: nat) { k + |part| <= |t| && t[k..k + |part|] == part }

  /** Where a part stands in the joined text. */
  lemma {:induction false} JoinHolds(parts: seq<string>, sep: string, i: nat) returns (k: nat)
    requires i < |parts|
    ensures FoundAt(Join(parts, sep), parts[i], k)
  {
    k := 0;
    if i > 0 {
      var at := JoinHolds(parts[1..], sep, i - 1);
      var head, rest := parts[0] + sep, Join(parts[1..], sep);
      FoundBehind(head, rest, parts[i], at);
      k := |head| + at;
    }
  }

  lemma FoundBehind(head: string, rest: string, part: string, k: nat)
    requires FoundAt(rest, part, k)
    ensures FoundAt(head + rest, part, |head| + k)
  {
  }

  lemma FoundPrefix(t: string, part: string, n: nat, k: nat)
    requires FoundAt(t, part, k) && n <= |part|
    ensures FoundAt(t, part[..n], k)
  {
    assert t[k..k + n] == t[k..k + |part|][..n];
  }

  /** What of an item must reach the summarizer: all of it, of a long tool output the beginning. */
  function MustReach(m: Item): string {
    if m.Output? && |m.text| > SUMMARY_OUTPUT_MAX_CHARS then m.text[..SUMMARY_OUTPUT_MAX_CHARS] else ItemText(m)
  }

  /** Nothing that is folded is kept from the summarizer: the text it is given has all of every item, of a tool output
      at least the first SUMMARY_OUTPUT_MAX_CHARS characters. */
  lemma FoldTextHoldsAll(items: seq<Item>, i: nat)
    requires i < |items|
    ensures exists k :: FoundAt(FoldText(items), MustReach(items[i]), k)
  {
    var parts := seq(|items|, i requires 0 <= i < |items| => FoldPart(items[i]));
    var k := JoinHolds(parts, "\n", i);
    var must := MustReach(items[i]);
    assert |must| <= |parts[i]| && parts[i][..|must|] == must;
    FoundPrefix(FoldText(items), parts[i], |must|, k);
  }

  predicate IsSpace(c: char) { c == ' ' || c == '\t' || c == '\n' || c == '\r' }

  function TrimLeft(t: string): string {
    if t != "" && IsSpace(t[0]) then TrimLeft(t[1..]) else t
  }

  function TrimRight(t: string): string {
    if t != "" && IsSpace(t[|t| - 1]) then TrimRight(t[..|t| - 1]) else t
  }

  function Strip(t: string): string { TrimRight(TrimLeft(t)) }

  /** A summary is taken only when it says something and is shorter than what it replaces. */
  predicate WorthKeeping(summary: string, foldText: string) {
    Strip(summary) != "" && EstimateTokens(summary) < EstimateTokens(foldText)
  }
}
