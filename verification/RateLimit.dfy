/** The rolling-window rate limiter (wiki_summary_worker/rate_limit.py), whose log is pruned on every grant. */
module RateLimit {
  import opened Common

  const WINDOW_MS := 3_600_000

  /** A line of the log file. */
  datatype Line = Stamp(ms: int) | Garbage
  datatype Answer = Granted | Exceeded | IndexError

  /** The stamps after `cutoff`, in order. */
  function After(log: seq<Line>, cutoff: int): seq<int> {
    if log == [] then []
    else
      var l := log[|log| - 1];
      After(log[..|log| - 1], cutoff) + if l.Stamp? && l.ms > cutoff then [l.ms] else []
  }

  function Stamps(ts: seq<int>): seq<Line> {
    seq(|ts|, i requires 0 <= i < |ts| => Stamp(ts[i]))
  }

  /** What the file holds after a call at `now`, and the answer. */
  function Take(log: seq<Line>, now: int, max: int): (seq<Line>, Answer) {
    var existing := After(log, now - WINDOW_MS);
    if |existing| >= max then (log, if existing == [] then IndexError else Exceeded)
    else (Stamps(existing + [now]), Granted)
  }

  class RateLimiter {
    var log: seq<Line>

    constructor (log: seq<Line>)
      ensures this.log == log
    {
      this.log := log;
    }

    method TakeOrDie(now: int, max: int) returns (answer: Answer)
      modifies this
      ensures (log, answer) == Take(old(log), now, max)
    {
      var cutoff := now - WINDOW_MS;
      var existing: seq<int> := [];
      for i := 0 to |log|
        invariant existing == After(log[..i], cutoff)
      {
        assert log[..i + 1][..i] == log[..i];
        if log[i].Stamp? && log[i].ms > cutoff { existing := existing + [log[i].ms]; }
      }
      assert log[..|log|] == log;
      if |existing| >= max {
        return if existing == [] then IndexError else Exceeded;
      }
      existing := existing + [now];
      log := Stamps(existing);
      answer := Granted;
    }
  }

  // ---------- Runs ----------

  /** The log after calls at the given times and the times of the granted ones. */
  datatype Run = Run(log: seq<Line>, grants: seq<int>)

  function Calls(log: seq<Line>, times: seq<int>, max: int): Run {
    if times == [] then Run(log, [])
    else
      var r, now := Calls(log, times[..|times| - 1], max), times[|times| - 1];
      var (log', a) := Take(r.log, now, max);
      Run(log', if a.Granted? then r.grants + [now] else r.grants)
  }

  /** How many of the times lie in (lo, hi]. */
  function Count(ts: seq<int>, lo: int, hi: int): nat {
    if ts == [] then 0 else Count(ts[..|ts| - 1], lo, hi) + if lo < ts[|ts| - 1] <= hi then 1 else 0
  }

  predicate NonDecreasing(ts: seq<int>) { forall i, j :: 0 <= i < j < |ts| ==> ts[i] <= ts[j] }

  lemma CountSnoc(ts: seq<int>, t: int, lo: int, hi: int)
    ensures Count(ts + [t], lo, hi) == Count(ts, lo, hi) + if lo < t <= hi then 1 else 0
  {
    assert (ts + [t])[..|ts + [t]| - 1] == ts;
  }

  /** A window all of whose times lie in another one counts at least as little. */
  lemma {:induction false} CountNarrow(ts: seq<int>, lo: int, hi: int, lo': int, hi': int)
    requires forall i :: 0 <= i < |ts| && lo' < ts[i] <= hi' ==> lo < ts[i] <= hi
    ensures Count(ts, lo', hi') <= Count(ts, lo, hi)
  {
    if ts != [] { CountNarrow(ts[..|ts| - 1], lo, hi, lo', hi'); }
  }

  // ---------- What a clock that goes back can make the log forget ----------

  /** A call at i, one an hour or more later at j, and after it one at k within an hour of the first again. */
  predicate ForgetsAt(times: seq<int>, i: nat, j: nat, k: nat) {
    && i < j < k < |times|
    && times[i] <= times[j] - WINDOW_MS && times[i] - WINDOW_MS < times[k] < times[i] + WINDOW_MS
  }

  ghost predicate Forgets(times: seq<int>) {
    exists i: nat, j: nat, k: nat :: ForgetsAt(times, i, j, k)
  }

  lemma MonotoneNeverForgets(times: seq<int>)
    requires NonDecreasing(times)
    ensures !Forgets(times)
  {
  }

  lemma ForgetsMore(times: seq<int>, c: int)
    ensures Forgets(times) ==> Forgets(times + [c])
  {
    if i: nat, j: nat, k: nat :| ForgetsAt(times, i, j, k) {
      assert ForgetsAt(times + [c], i, j, k);
    }
  }

  lemma ForgetsBetween(times: seq<int>, now: int, c: int)
    ensures Forgets(times + [c]) ==> Forgets(times + [now] + [c])
  {
    if i: nat, j: nat, k: nat :| ForgetsAt(times + [c], i, j, k) {
      assert ForgetsAt(times + [now] + [c], i, j, if k == |times| then k + 1 else k);
    }
  }


  lemma {:induction false} PrunedTwice(log: seq<Line>, c: int, cutoff: int)
    ensures |After(Stamps(After(log, c)), cutoff)| == |After(log, Max(c, cutoff))|
  {
    if log != [] {
      var front, l := log[..|log| - 1], log[|log| - 1];
      PrunedTwice(front, c, cutoff);
      if l.Stamp? && l.ms > c {
        assert Stamps(After(front, c) + [l.ms])[..|After(front, c)|] == Stamps(After(front, c));
        assert After(log, c) == After(front, c) + [l.ms];
      } else {
        assert After(log, c) == After(front, c);
      }
    }
  }

  lemma {:induction false} PrunedLog(log: seq<Line>, now: int, cutoff: int)
    ensures |After(Stamps(After(log, now - WINDOW_MS) + [now]), cutoff)| ==
            |After(log, Max(now - WINDOW_MS, cutoff))| + if now > cutoff then 1 else 0
  {
    var kept := After(log, now - WINDOW_MS);
    assert Stamps(kept + [now])[..|kept|] == Stamps(kept);
    PrunedTwice(log, now - WINDOW_MS, cutoff);
  }

  /** Seen from a call at `now`, the log counts every grant less than an hour away, before or after. */
  predicate RemembersAt(r: Run, now: int) {
    |After(r.log, now - WINDOW_MS)| >= Count(r.grants, now - WINDOW_MS, now + WINDOW_MS - 1)
  }

  lemma {:induction false} GrantsAreCalls(log: seq<Line>, times: seq<int>, max: int)
    ensures forall g :: g in Calls(log, times, max).grants ==> g in times
  {
    if times != [] {
      var front := times[..|times| - 1];
      GrantsAreCalls(log, front, max);
      assert times == front + [times[|times| - 1]];
    }
  }

  function Grant(r: Run, now: int): Run {
    Run(Stamps(After(r.log, now - WINDOW_MS) + [now]), r.grants + [now])
  }

  /** A grant after which the clock goes back prunes no grant that the next call must see. */
  lemma GrantKeepsMemory(r: Run, now: int, c: int)
    requires RemembersAt(r, now) && RemembersAt(r, c)
    requires forall g :: g in r.grants && c - WINDOW_MS < g < c + WINDOW_MS ==> g > now - WINDOW_MS
    ensures RemembersAt(Grant(r, now), c)
  {
    var lo, hi := c - WINDOW_MS, c + WINDOW_MS - 1;
    PrunedLog(r.log, now, lo);
    CountSnoc(r.grants, now, lo, hi);
    assert |After(r.log, Max(now - WINDOW_MS, lo))| >= Count(r.grants, lo, hi) by { KeptCount(r, now, c); }
  }

  /** What is left after pruning counts what the next call must see. */
  lemma KeptCount(r: Run, now: int, c: int)
    requires RemembersAt(r, now) && RemembersAt(r, c)
    requires forall g :: g in r.grants && c - WINDOW_MS < g < c + WINDOW_MS ==> g > now - WINDOW_MS
    ensures |After(r.log, Max(now, c) - WINDOW_MS)| >= Count(r.grants, c - WINDOW_MS, c + WINDOW_MS - 1)
  {
    var lo, hi := c - WINDOW_MS, c + WINDOW_MS - 1;
    if now > c {
      forall i | 0 <= i < |r.grants| && lo < r.grants[i] <= hi ensures r.grants[i] > now - WINDOW_MS {
        assert r.grants[i] in r.grants;
      }
      CountNarrow(r.grants, now - WINDOW_MS, now + WINDOW_MS - 1, lo, hi);
    }
  }

  lemma StillSeen(times: seq<int>, now: int, c: int, g: int)
    requires !Forgets(times + [now] + [c]) && g in times && c - WINDOW_MS < g < c + WINDOW_MS
    ensures g > now - WINDOW_MS
  {
    var i :| 0 <= i < |times| && times[i] == g;
    var all := times + [now] + [c];
    assert !ForgetsAt(all, i, |times|, |times| + 1);
  }

  /** The pruned log still counts every grant that the next call, at c, must see. */
  lemma {:induction false} CallsRemember(log: seq<Line>, times: seq<int>, max: int, c: int)
    requires !Forgets(times + [c])
    ensures RemembersAt(Calls(log, times, max), c)
    decreases |times|
  {
    if times != [] {
      var front, now := times[..|times| - 1], times[|times| - 1];
      assert times == front + [now];
      ForgetsMore(times, c);
      ForgetsBetween(front, now, c);
      CallsRemember(log, front, max, now);
      CallsRemember(log, front, max, c);
      var m := Calls(log, front, max);
      if Take(m.log, now, max).1.Granted? {
        GrantsAreCalls(log, front, max);
        forall g | g in m.grants && c - WINDOW_MS < g < c + WINDOW_MS ensures g > now - WINDOW_MS {
          StillSeen(front, now, c, g);
        }
        GrantKeepsMemory(m, now, c);
      }
    }
  }

  /** The bound holds in every window around a granted call. */
  lemma GrantWithinLimit(r: Run, now: int, max: int, t: int)
    requires RemembersAt(r, now) && Take(r.log, now, max).1.Granted? && t - WINDOW_MS < now <= t
    ensures Count(r.grants + [now], t - WINDOW_MS, t) <= max
  {
    CountSnoc(r.grants, now, t - WINDOW_MS, t);
    CountNarrow(r.grants, now - WINDOW_MS, now + WINDOW_MS - 1, t - WINDOW_MS, t);
  }

  /** Rolling-window bound: unless the clock goes back far enough to forget, every window (t - WINDOW_MS, t] holds
      at most `max` granted calls, whatever the log file held at the start. */
  lemma {:induction false} WindowBound(log: seq<Line>, times: seq<int>, max: int, t: int)
    requires !Forgets(times) && max >= 0
    ensures Count(Calls(log, times, max).grants, t - WINDOW_MS, t) <= max
    decreases |times|
  {
    if times != [] {
      var front, now := times[..|times| - 1], times[|times| - 1];
      assert times == front + [now];
      ForgetsMore(front, now);
      WindowBound(log, front, max, t);
      CallsRemember(log, front, max, now);
      var m := Calls(log, front, max);
      if Take(m.log, now, max).1.Granted? {
        CountSnoc(m.grants, now, t - WINDOW_MS, t);
        if t - WINDOW_MS < now <= t { GrantWithinLimit(m, now, max, t); }
      }
    }
  }

  /** The promised case: a clock that never goes back. */
  lemma RollingWindowBound(log: seq<Line>, times: seq<int>, max: int, t: int)
    requires NonDecreasing(times) && max >= 0
    ensures Count(Calls(log, times, max).grants, t - WINDOW_MS, t) <= max
  {
    MonotoneNeverForgets(times);
    WindowBound(log, times, max, t);
  }

  // ---------- When a call is granted ----------

  lemma {:induction false} AfterCounts(log: seq<Line>, times: seq<int>, max: int, c: int)
    requires forall i :: 0 <= i < |times| ==> times[i] <= c
    ensures |After(Calls(log, times, max).log, c - WINDOW_MS)| ==
            |After(log, c - WINDOW_MS)| + Count(Calls(log, times, max).grants, c - WINDOW_MS, c)
  {
    if times != [] {
      var front, now := times[..|times| - 1], times[|times| - 1];
      AfterCounts(log, front, max, c);
      var m := Calls(log, front, max);
      assert Max(now - WINDOW_MS, c - WINDOW_MS) == c - WINDOW_MS;
      if Take(m.log, now, max).1.Granted? {
        PrunedLog(m.log, now, c - WINDOW_MS);
        CountSnoc(m.grants, now, c - WINDOW_MS, c);
      }
    }
  }

  /** Exactly when a call is granted that is not earlier than the ones before it: if and only if fewer than `max` stamps
      of the last hour are there, those of the file at the start and those of the grants since. */
  lemma GrantedIff(log: seq<Line>, times: seq<int>, max: int, now: int)
    requires forall i :: 0 <= i < |times| ==> times[i] <= now
    ensures var r := Calls(log, times, max);
            Take(r.log, now, max).1.Granted? <==>
            |After(log, now - WINDOW_MS)| + Count(r.grants, now - WINDOW_MS, now) < max
  {
    AfterCounts(log, times, max, now);
  }

  /** The lines of the file that are stamps after `cutoff`, by position. */
  function Live(log: seq<Line>, cutoff: int): set<nat> {
    set i: nat | i < |log| && log[i].Stamp? && log[i].ms > cutoff
  }

  /** `kept` holds the stamps of the file after `cutoff`, in order. */
  predicate IsFiltered(log: seq<Line>, cutoff: int, kept: seq<Line>) {
    if log == [] then kept == []
    else
      var n := |log| - 1;
      if log[n].Stamp? && log[n].ms > cutoff
      then kept != [] && kept[|kept| - 1] == log[n] && IsFiltered(log[..n], cutoff, kept[..|kept| - 1])
      else IsFiltered(log[..n], cutoff, kept)
  }

  lemma {:induction false} Filtered(log: seq<Line>, cutoff: int)
    ensures IsFiltered(log, cutoff, Stamps(After(log, cutoff)))
  {
    if log != [] {
      var front, l := log[..|log| - 1], log[|log| - 1];
      Filtered(front, cutoff);
      if l.Stamp? && l.ms > cutoff {
        assert Stamps(After(front, cutoff) + [l.ms])[..|After(front, cutoff)|] == Stamps(After(front, cutoff));
      } else {
        assert After(log, cutoff) == After(front, cutoff);
      }
    }
  }

  lemma {:induction false} LiveCount(log: seq<Line>, cutoff: int)
    ensures |Live(log, cutoff)| == |After(log, cutoff)|
  {
    if log != [] {
      var n := |log| - 1;
      LiveCount(log[..n], cutoff);
      if log[n].Stamp? && log[n].ms > cutoff {
        assert Live(log, cutoff) == Live(log[..n], cutoff) + {n};
      } else {
        assert Live(log, cutoff) == Live(log[..n], cutoff);
      }
    }
  }

  /** One call on any file: it is granted if and only if fewer than `max` stamps of the last hour are there; then the
      file holds those, in order, and the new stamp behind them; a refusal leaves the file alone, and it is an error
      when there is no stamp to wait for. */
  lemma TakeIsExact(log: seq<Line>, now: int, max: int)
    ensures var (log', answer) := Take(log, now, max);
            var live := |Live(log, now - WINDOW_MS)|;
            && answer == (if live < max then Granted else if live == 0 then IndexError else Exceeded)
            && (answer.Granted? ==>
                  && |log'| == live + 1 && log'[live] == Stamp(now)
                  && IsFiltered(log, now - WINDOW_MS, log'[..live]))
            && (!answer.Granted? ==> log' == log)
  {
    LiveCount(log, now - WINDOW_MS);
    Filtered(log, now - WINDOW_MS);
    var existing := After(log, now - WINDOW_MS);
    assert Stamps(existing + [now])[..|existing|] == Stamps(existing);
  }

  // ---------- Exactly when a clock keeps the bound ----------

  /** Calls made at readings of a clock, in its order; several calls may see the same reading. */
  predicate DrawnBy(times: seq<int>, clock: seq<int>, at: seq<nat>) {
    && |at| == |times| && (forall n :: 0 <= n < |at| ==> at[n] < |clock| && times[n] == clock[at[n]])
    && forall m, n :: 0 <= m < n < |at| ==> at[m] <= at[n]
  }

  ghost predicate Drawn(times: seq<int>, clock: seq<int>) {
    exists at :: DrawnBy(times, clock, at)
  }

  ghost predicate Keeps(times: seq<int>) {
    forall log, max: nat, t :: WithinAt(log, times, max, t)
  }

  predicate WithinAt(log: seq<Line>, times: seq<int>, max: nat, t: int) {
    Count(Calls(log, times, max).grants, t - WINDOW_MS, t) <= max
  }

  lemma DrawnForgets(times: seq<int>, clock: seq<int>)
    requires Drawn(times, clock) && Forgets(times)
    ensures Forgets(clock)
  {
    var at :| DrawnBy(times, clock, at);
    var i: nat, j: nat, k: nat :| ForgetsAt(times, i, j, k);
    assert ForgetsAt(clock, at[i], at[j], at[k]);
  }

  lemma Snoc(log: seq<Line>, times: seq<int>, now: int, max: int)
    ensures Calls(log, times + [now], max) ==
            var r := Calls(log, times, max);
            Run(Take(r.log, now, max).0, if Take(r.log, now, max).1.Granted? then r.grants + [now] else r.grants)
  {
    assert (times + [now])[..|times + [now]| - 1] == times;
  }

  lemma AfterOne(x: int, cutoff: int)
    ensures After([Stamp(x)], cutoff) == (if x > cutoff then [x] else [])
    ensures After([Stamp(x), Stamp(x)], cutoff) == (if x > cutoff then [x, x] else [])
  {
    assert [Stamp(x)][..0] == [] && [Stamp(x), Stamp(x)][..1] == [Stamp(x)];
  }

  lemma TwoCalls(a: int)
    ensures Calls([], [a, a], 2) == Run([Stamp(a), Stamp(a)], [a, a])
  {
    AfterOne(a, a - WINDOW_MS);
    Snoc([], [], a, 2);
    assert [] + [a] == [a] && Stamps([a]) == [Stamp(a)];
    assert Calls([], [a], 2) == Run([Stamp(a)], [a]);
    Snoc([], [a], a, 2);
    assert [a] + [a] == [a, a] && Stamps([a, a]) == [Stamp(a), Stamp(a)];
  }

  lemma ThreeCalls(a: int, b: int)
    requires a <= b - WINDOW_MS
    ensures Calls([], [a, a, b], 2) == Run([Stamp(b)], [a, a, b])
  {
    TwoCalls(a);
    AfterOne(a, b - WINDOW_MS);
    Snoc([], [a, a], b, 2);
    assert [] + [b] == [b] && [a, a] + [b] == [a, a, b] && Stamps([b]) == [Stamp(b)];
  }

  lemma FourCount(a: int, b: int, c: int, t: int)
    requires t - WINDOW_MS < a <= t && t - WINDOW_MS < c <= t
    ensures Count([a, a, b, c], t - WINDOW_MS, t) > 2
  {
    CountSnoc([], a, t - WINDOW_MS, t);
    CountSnoc([a], a, t - WINDOW_MS, t);
    CountSnoc([a, a], b, t - WINDOW_MS, t);
    CountSnoc([a, a, b], c, t - WINDOW_MS, t);
    assert [] + [a] == [a] && [a] + [a] == [a, a] && [a, a] + [b] == [a, a, b] && [a, a, b] + [c] == [a, a, b, c];
  }

  /** Two calls at a, one at b an hour or more later, and one at c back within the hour of a: all are granted with a
      limit of two, although three of them share a window. */
  lemma BackwardClockBreaksTheBound(a: int, b: int, c: int)
    requires a <= b - WINDOW_MS && a - WINDOW_MS < c < a + WINDOW_MS
    ensures var r := Calls([], [a, a, b, c], 2);
            r.grants == [a, a, b, c] && Count(r.grants, Max(a, c) - WINDOW_MS, Max(a, c)) > 2
  {
    ThreeCalls(a, b);
    AfterOne(b, c - WINDOW_MS);
    Snoc([], [a, a, b], c, 2);
    assert [a, a, b] + [c] == [a, a, b, c];
    FourCount(a, b, c, Max(a, c));
  }

  lemma FourDrawn(clock: seq<int>, i: nat, j: nat, k: nat)
    requires ForgetsAt(clock, i, j, k)
    ensures Drawn([clock[i], clock[i], clock[j], clock[k]], clock)
  {
    var times, at: seq<nat> := [clock[i], clock[i], clock[j], clock[k]], [i, i, j, k];
    assert forall n :: 0 <= n < |at| ==> at[n] < |clock| && times[n] == clock[at[n]];
    assert DrawnBy(times, clock, at);
  }

  /** A clock keeps the bound for all calls that read it if and only if it never goes back within an hour of a
      reading after being an hour past it. */
  lemma BoundIffClockNeverForgets(clock: seq<int>)
    ensures (forall times :: Drawn(times, clock) ==> Keeps(times)) <==> !Forgets(clock)
  {
    if Forgets(clock) {
      var i: nat, j: nat, k: nat :| ForgetsAt(clock, i, j, k);
      var times := [clock[i], clock[i], clock[j], clock[k]];
      FourDrawn(clock, i, j, k);
      BackwardClockBreaksTheBound(clock[i], clock[j], clock[k]);
      assert !WithinAt([], times, 2, Max(clock[i], clock[k]));
      assert !Keeps(times);
    } else {
      forall times | Drawn(times, clock) ensures Keeps(times) {
        if Forgets(times) { DrawnForgets(times, clock); }
        forall log, max: nat, t ensures WithinAt(log, times, max, t) { WindowBound(log, times, max, t); }
      }
    }
  }
}
