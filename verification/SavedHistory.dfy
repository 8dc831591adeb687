/**
  How a saved run looks to the recall index (agent/agent.py, agent/recall_index.py):
  synthetic reasoning is inserted in the middle of the history that the index
  addresses by position, and the new turn is appended.
 */
module SavedHistory {
  import opened Common
  import opened Items
  import opened Estimates
  import Recall
  import Session

  /** What the index reads of an item: "role: text" of a message with text, nothing of calls, outputs and reasoning. */
  function MessageOf(m: Item): Recall.Message {
    if (m.User? || m.Assistant? || m.Other?) && Strip(m.text) != ""
    then Some((if m.User? then "user: " else if m.Assistant? then "assistant: " else "other: ") + m.text)
    else None
  }

  function Messages(items: seq<Item>): (r: seq<Recall.Message>)
    ensures |r| == |items| && forall i :: 0 <= i < |r| ==> r[i] == MessageOf(items[i])
  {
    seq(|items|, i requires 0 <= i < |items| => MessageOf(items[i]))
  }

  /** The positions at which injection inserts, one after the other, into a list that has `base` items before. */
  function Positions(items: seq<Item>, base: nat): seq<nat> {
    if items == [] then []
    else
      var front, m := items[..|items| - 1], items[|items| - 1];
      var out := Inject(front);
      Positions(front, base)
      + if m.Assistant? && !(out != [] && out[|out| - 1].Reasoning?) then [base + |out|] else []
  }

  function InsertAll(h: seq<Recall.Message>, ps: seq<nat>): seq<Recall.Message> {
    if ps == [] then h
    else
      var h', at := InsertAll(h, ps[..|ps| - 1]), ps[|ps| - 1];
      if at <= |h'| then Recall.InsertBlank(h', at) else h'
  }

  lemma InsertReasoning(a: seq<Item>, b: seq<Item>)
    ensures Messages(a + [SYNTHETIC] + b) == Recall.InsertBlank(Messages(a + b), |a|)
  {
    var h := Messages(a + b);
    assert h[..|a|] == Messages(a) && h[|a|..] == Messages(b);
    assert MessageOf(SYNTHETIC) == None;
  }

  lemma InsertLast(h: seq<Recall.Message>, ps: seq<nat>, at: nat)
    requires at <= |InsertAll(h, ps)|
    ensures InsertAll(h, ps + [at]) == Recall.InsertBlank(InsertAll(h, ps), at)
  {
    assert (ps + [at])[..|ps + [at]| - 1] == ps;
  }

  lemma Regroup4<T>(a: seq<T>, b: seq<T>, x: seq<T>, y: seq<T>, c: seq<T>)
    ensures a + (b + x + y) + c == (a + b) + x + (y + c)
    ensures a + (b + y) + c == a + b + (y + c)
  {
  }

  /** Injection into the middle of a history is a sequence of insertions. */
  lemma {:induction false} InjectIsInserts(a: seq<Item>, items: seq<Item>, b: seq<Item>)
    ensures InsertAll(Messages(a + items + b), Positions(items, |a|)) == Messages(a + Inject(items) + b)
    decreases |items|
  {
    if items != [] {
      var front, m := items[..|items| - 1], items[|items| - 1];
      InjectIsInserts(a, front, [m] + b);
      InjectOneMore(a, front, m, items, b);
    }
  }

  lemma {:induction false} InjectOneMore(a: seq<Item>, front: seq<Item>, m: Item, items: seq<Item>, b: seq<Item>)
    requires items != [] && front == items[..|items| - 1] && m == items[|items| - 1]
    requires InsertAll(Messages(a + front + ([m] + b)), Positions(front, |a|)) ==
             Messages(a + Inject(front) + ([m] + b))
    ensures InsertAll(Messages(a + items + b), Positions(items, |a|)) == Messages(a + Inject(items) + b)
  {
    SplitLast(a, front, m, items, b);
    LastInjected(front, m, items, |a|);
    OneMoreAdded(Messages(a + items + b), Positions(front, |a|), a, Inject(front), m, b, Positions(items, |a|),
                 Inject(items));
  }

  lemma OneMoreAdded(h: seq<Recall.Message>, ps: seq<nat>, a: seq<Item>, out: seq<Item>, m: Item, b: seq<Item>,
                     ps': seq<nat>, out': seq<Item>)
    requires InsertAll(h, ps) == Messages(a + out + ([m] + b))
    requires || (out' == out + [SYNTHETIC] + [m] && ps' == ps + [|a| + |out|])
             || (out' == out + [m] && ps' == ps)
    ensures InsertAll(h, ps') == Messages(a + out' + b)
  {
    OneMoreItem(h, ps, a, out, m, b);
  }

  lemma SplitLast<T>(a: seq<T>, front: seq<T>, m: T, items: seq<T>, b: seq<T>)
    requires items != [] && front == items[..|items| - 1] && m == items[|items| - 1]
    ensures a + items + b == a + front + ([m] + b)
  {
  }

  lemma {:induction false} LastInjected(front: seq<Item>, m: Item, items: seq<Item>, base: nat)
    requires items != [] && front == items[..|items| - 1] && m == items[|items| - 1]
    ensures var out, ps := Inject(front), Positions(front, base);
            var added := m.Assistant? && !(out != [] && out[|out| - 1].Reasoning?);
            && Inject(items) == (if added then out + [SYNTHETIC] + [m] else out + [m])
            && Positions(items, base) == (if added then ps + [base + |out|] else ps)
  {
  }

  /** One more item behind an injected list, with reasoning before it or without. */
  lemma OneMoreItem(h: seq<Recall.Message>, ps: seq<nat>, a: seq<Item>, out: seq<Item>, m: Item, b: seq<Item>)
    requires InsertAll(h, ps) == Messages(a + out + ([m] + b))
    ensures InsertAll(h, ps + [|a| + |out|]) == Messages(a + (out + [SYNTHETIC] + [m]) + b)
    ensures InsertAll(h, ps) == Messages(a + (out + [m]) + b)
  {
    Regroup4(a, out, [SYNTHETIC], [m], b);
    InsertLast(h, ps, |a| + |out|);
    InsertReasoning(a + out, [m] + b);
  }

  lemma MessagesConcat(a: seq<Item>, b: seq<Item>)
    ensures Messages(a + b) == Messages(a) + Messages(b)
  {
  }

  lemma Regroup5<T>(p: seq<T>, x: seq<T>, u: seq<T>, m: seq<T>, t: seq<T>)
    ensures p + (((x + u) + m) + t) == (p + x) + (u + (m + t))
    ensures p + x + [] == p + x
  {
  }

  lemma SavedMessages(history: seq<Item>, d: nat, users: seq<Item>, made: seq<Item>, tail: seq<Item>)
    requires d <= |history| && (users == [] || (|users| == 1 && users[0].User?))
    ensures Messages(history[..d] + ((Inject(history[d..] + users) + made) + tail)) ==
            InsertAll(Messages(history), Positions(history[d..], d)) + Messages(users + (made + tail))
  {
    InjectUser(history[d..], users);
    assert history[..d] + history[d..] == history;
    PartsMessages(history[..d], history[d..], Inject(history[d..]), users, made, tail);
  }

  lemma PartsMessages(prefix: seq<Item>, send: seq<Item>, x: seq<Item>, users: seq<Item>, made: seq<Item>,
      tail: seq<Item>)
    requires x == Inject(send)
    ensures Messages(prefix + (((x + users) + made) + tail)) ==
            InsertAll(Messages(prefix + send), Positions(send, |prefix|)) + Messages(users + (made + tail))
  {
    InjectIsInserts(prefix, send, []);
    Regroup5(prefix, send, users, made, tail);
    Regroup5(prefix, x, users, made, tail);
    MessagesConcat(prefix + x, users + (made + tail));
  }

  /** A history with the insertions that injection makes behind its first d items. */
  function Rewritten(history: seq<Item>, d: nat): seq<Recall.Message>
    requires d <= |history|
  {
    InsertAll(Messages(history), Positions(history[d..], d))
  }

  /** A saved run is the old history with insertions behind what was not sent, and the new turn. */
  lemma SavedIsInserts(s: Session.Session, i: Session.Input)
    ensures Messages(Session.RunOnce(s, i).history) ==
            Rewritten(s.history, Session.Dropped(s, i)) + Messages(Session.NewTurn(i))
  {
    var d := Session.Dropped(s, i);
    Session.SavedIs(s, i, d);
    SavedMessages(s.history, d, Session.UserItems(i.user), Session.Produced(i.steps), i.tail);
  }

  // ---------- What this does to the index ----------

  function InsertSteps(ps: seq<nat>): seq<Recall.Step> {
    if ps == [] then [] else InsertSteps(ps[..|ps| - 1]) + [Recall.InsertStep(ps[|ps| - 1])]
  }

  lemma OnlyInserts(r: Recall.State, ps: seq<nat>, at: nat)
    requires Recall.Sane(r)
    ensures InsertSteps(ps + [at]) == InsertSteps(ps) + [Recall.InsertStep(at)]
    ensures Recall.Run(r, InsertSteps(ps + [at])) == Recall.Next(Recall.Run(r, InsertSteps(ps)), Recall.InsertStep(at))
    ensures var m := Recall.Run(r, InsertSteps(ps));
            Recall.Legal(r, InsertSteps(ps + [at])) <==>
              Recall.Legal(r, InsertSteps(ps)) && !Recall.Displaces(m, Recall.InsertStep(at))
  {
    assert (ps + [at])[..|ps + [at]| - 1] == ps;
    var steps, step := InsertSteps(ps), Recall.InsertStep(at);
    assert (steps + [step])[..|steps + [step]| - 1] == steps;
  }

  /** The index holds more lines than the indexed prefix. */
  predicate TooMuch(r: Recall.State, history: seq<Recall.Message>) {
    && r.cursor <= |history| && (forall k :: 0 <= k < r.chunkSeq ==> k in r.store)
    && |Recall.Lines(history[..r.cursor])| < |Recall.Flatten(Recall.Stored(r.store, r.chunkSeq))|
  }

  /** The state after the insertions: only the history and the end of what was seen have changed, and unless they were
      legal the index holds more lines than the indexed prefix. */
  lemma {:induction false} AfterInserts(r: Recall.State, ps: seq<nat>)
    requires Recall.Inv(r) && Recall.Clean(r)
    ensures var r' := Recall.Run(r, InsertSteps(ps));
            && r' == r.(history := InsertAll(r.history, ps), seen := r'.seen)
            && (!Recall.Legal(r, InsertSteps(ps)) ==> TooMuch(r, r'.history))
  {
    if ps != [] {
      var front, at := ps[..|ps| - 1], ps[|ps| - 1];
      assert ps == front + [at];
      AfterInserts(r, front);
      OnlyInserts(r, front, at);
      if Recall.Legal(r, InsertSteps(front)) { Recall.RunKeepsInv(r, InsertSteps(front)); }
      OneMore(r, Recall.Run(r, InsertSteps(front)), at);
      StepInserts(r, Recall.Run(r, InsertSteps(front)), at);
    }
  }

  lemma StepInserts(r: Recall.State, m: Recall.State, at: nat)
    requires Recall.Sane(m) && m == r.(history := m.history, seen := m.seen)
    ensures var m' := Recall.Next(m, Recall.InsertStep(at));
            m' == r.(history := if at <= |m.history| then Recall.InsertBlank(m.history, at) else m.history,
                     seen := m'.seen)
  {
  }

  lemma OneMore(r: Recall.State, m: Recall.State, at: nat)
    requires Recall.Inv(r) && Recall.Sane(m) && m == r.(history := m.history, seen := m.seen)
    ensures var m' := Recall.Next(m, Recall.InsertStep(at));
            && (Recall.Inv(m) && Recall.Displaces(m, Recall.InsertStep(at)) ==> TooMuch(r, m'.history))
            && (TooMuch(r, m.history) ==> TooMuch(r, m'.history))
  {
    if at <= |m.history| { Recall.FewerLines(m.history, at, m.cursor); }
  }

  /** Exactly when saving a run leaves the index right: no synthetic reasoning it inserts pushes a line over the
      cursor of the index; and exactly when the attempt in flight during the save, if it succeeds next, leaves it
      right: none pushes a line over the length which that attempt remembers either. */
  lemma SaveKeepsIndexIff(r: Recall.State, s: Session.Session, i: Session.Input)
    requires Recall.Inv(r) && Recall.Clean(r) && r.history == Messages(s.history)
    ensures var d := Session.Dropped(s, i);
            var inserts := InsertSteps(Positions(s.history[d..], d));
            var r' := Recall.Next(Recall.Run(r, inserts), Recall.AppendStep(Messages(Session.NewTurn(i))));
            && r'.history == Messages(Session.RunOnce(s, i).history)
            && (Recall.Exact(r') <==> Recall.Legal(r, inserts))
            && (Recall.Exact(r') && Recall.Finishes(r', Recall.FinishStep) ==>
                  (Recall.Exact(Recall.Finish(r')) <==> !Recall.Tainted(r, inserts)))
  {
    var d := Session.Dropped(s, i);
    var ps := Positions(s.history[d..], d);
    AfterInserts(r, ps);
    SavedIsInserts(s, i);
    AppendAfterInserts(r, InsertSteps(ps), Messages(Session.NewTurn(i)));
  }

  lemma AppendAfterInserts(r: Recall.State, inserts: seq<Recall.Step>, more: seq<Recall.Message>)
    requires Recall.Inv(r) && Recall.Clean(r)
    requires var m := Recall.Run(r, inserts);
             && m == r.(history := m.history, seen := m.seen)
             && (!Recall.Legal(r, inserts) ==> TooMuch(r, m.history))
    ensures var r' := Recall.Next(Recall.Run(r, inserts), Recall.AppendStep(more));
            && (Recall.Exact(r') <==> Recall.Legal(r, inserts))
            && (Recall.Exact(r') && Recall.Finishes(r', Recall.FinishStep) ==>
                  (Recall.Exact(Recall.Finish(r')) <==> !Recall.Tainted(r, inserts)))
  {
    var m, step := Recall.Run(r, inserts), Recall.AppendStep(more);
    var r' := Recall.Next(m, step);
    assert r'.history[..m.cursor] == m.history[..m.cursor];
    if Recall.Legal(r, inserts) {
      Recall.RunKeepsInv(r, inserts);
      Recall.NextKeepsInv(m, step);
      Recall.StepCleanIff(m, step);
      if Recall.Finishes(r', Recall.FinishStep) { Recall.FinishKeeps(r'); }
    }
  }
}
