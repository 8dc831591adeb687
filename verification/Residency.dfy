/**
  The OpenVINO residency manager (service/openvino_loader.go): which models are
  loaded, who is evicted for a new one, and the config file that mirrors the
  resident set.
 */
module Residency {
  import opened Common

  type Servable = nat

  /** ANY_DEVICE is the empty device name: no restriction. */
  type Device = nat
  const ANY_DEVICE: Device := 0

  datatype Loaded = Loaded(device: Device, lastUsed: int)
  type Table = map<Servable, Loaded>

  datatype OvmsState = Available | LoadingFailed | Timeout

  /** One load attempt as the outside answers it: whether the config could be written, and the state waited for. */
  datatype Attempt = Attempt(wrote: bool, state: OvmsState)

  /** What the outside does during one call: whether the model server has the model available, whether the servable
      could be staged, the load attempts in order, and whether the config of a rollback could be written. */
  datatype Outside = Outside(available: bool, staged: bool, attempts: nat -> Attempt, rolledBack: bool)

  // ---------- Selecting victims ----------

  /** Who may be evicted for `except` on `device`. */
  predicate Candidate(t: Table, device: Device, except: Option<Servable>, n: Servable) {
    n in t && Some(n) != except && (device == ANY_DEVICE || t[n].device == device)
  }

  predicate IsLru(t: Table, device: Device, except: Option<Servable>, n: Servable) {
    && Candidate(t, device, except, n)
    && forall m :: m in t && Candidate(t, device, except, m) ==> t[n].lastUsed <= t[m].lastUsed
  }

  /** Least recently used candidate; None when there is no candidate.  Ties are broken by map order. */
  method SelectLRU(t: Table, device: Device, except: Option<Servable>) returns (pick: Option<Servable>)
    ensures pick.Some? ==> IsLru(t, device, except, pick.value)
    ensures pick.None? ==> forall n :: n in t ==> !Candidate(t, device, except, n)
  {
    pick := None;
    var todo := t.Keys;
    while todo != {}
      invariant todo <= t.Keys
      invariant pick.None? ==> forall n :: n in t && n !in todo ==> !Candidate(t, device, except, n)
      invariant pick.Some? ==> Candidate(t, device, except, pick.value)
      invariant pick.Some? ==> forall n :: n in t && n !in todo && Candidate(t, device, except, n) ==>
                                 t[pick.value].lastUsed <= t[n].lastUsed
      decreases todo
    {
      var n :| n in todo;
      todo := todo - {n};
      if Some(n) == except { continue; }
      if device != ANY_DEVICE && t[n].device != device { continue; }
      if pick.None? || t[n].lastUsed < t[pick.value].lastUsed { pick := Some(n); }
    }
  }

  /** The models idle for at least `ttl`; none when `ttl` is not positive. */
  method SelectExpired(t: Table, ttl: int, now: int) returns (out: set<Servable>)
    ensures forall n :: n in out <==> ttl > 0 && n in t && now - t[n].lastUsed >= ttl
  {
    out := {};
    if ttl <= 0 { return; }
    var todo := t.Keys;
    while todo != {}
      invariant todo <= t.Keys
      invariant forall n :: n in out <==> n in t && n !in todo && now - t[n].lastUsed >= ttl
      decreases todo
    {
      var n :| n in todo;
      todo := todo - {n};
      if now - t[n].lastUsed >= ttl { out := out + {n}; }
    }
  }

  // ---------- Eviction in LRU order ----------

  /** `t'` is `t` without `victims`, and every victim was used no later than every surviving candidate. */
  ghost predicate EvictedLru(t: Table, t': Table, victims: set<Servable>, device: Device, except: Option<Servable>) {
    && victims <= t.Keys && t' == t - victims
    && (forall v :: v in victims ==> Candidate(t, device, except, v))
    && forall v, m :: v in victims && m in t' && Candidate(t, device, except, m) ==> t[v].lastUsed <= t[m].lastUsed
  }

  lemma EvictOneMore(t: Table, t': Table, victims: set<Servable>, device: Device, except: Option<Servable>, v: Servable)
    requires EvictedLru(t, t', victims, device, except) && IsLru(t', device, except, v)
    ensures EvictedLru(t, t' - {v}, victims + {v}, device, except)
  {
    assert t' - {v} == t - (victims + {v});
    forall u, m | u in victims + {v} && m in t' - {v} && Candidate(t, device, except, m)
      ensures t[u].lastUsed <= t[m].lastUsed
    {
      assert Candidate(t', device, except, m);
    }
  }

  // ---------- How loading ends ----------

  /** The first k attempts failed to load, each for a written config. */
  ghost predicate AllFail(attempts: nat -> Attempt, k: nat) {
    forall i: nat :: i < k ==> attempts(i) == Attempt(true, LoadingFailed)
  }

  /** Loading ended with attempt k, on the table `t` the evictions left: it succeeds exactly when that attempt makes
      the model available, and it gives up on a failed load only when no model of the device is left to evict. */
  ghost predicate LoadEnds(t: Table, device: Device, s: Servable, attempts: nat -> Attempt, k: nat, ok: bool) {
    && AllFail(attempts, k)
    && (ok <==> attempts(k) == Attempt(true, Available))
    && (attempts(k) == Attempt(true, LoadingFailed) ==> forall n :: n in t ==> !Candidate(t, device, Some(s), n))
  }

  /** Loading goes on: every attempt so far failed and cost a model of the device, but not the new one. */
  ghost predicate Trying(t: Table, t': Table, victims: set<Servable>, device: Device, s: Servable,
                         attempts: nat -> Attempt)
  {
    s in t' && EvictedLru(t, t', victims, device, Some(s)) && AllFail(attempts, |victims|)
  }

  lemma TryingStarts(t: Table, device: Device, s: Servable, attempts: nat -> Attempt)
    requires s in t
    ensures Trying(t, t, {}, device, s, attempts)
  {
    assert t - {} == t;
  }

  /** An attempt that does not fail to load ends the loading. */
  lemma TryingEnds(t: Table, t': Table, victims: set<Servable>, device: Device, s: Servable, attempts: nat -> Attempt)
    requires Trying(t, t', victims, device, s, attempts) && attempts(|victims|) != Attempt(true, LoadingFailed)
    ensures t' == t - victims && EvictedLru(t, t - victims, victims, device, Some(s)) && s !in victims
    ensures LoadEnds(t - victims, device, s, attempts, |victims|, attempts(|victims|) == Attempt(true, Available))
  {
  }

  /** One more failed load, and one more model of the device gone. */
  lemma TryingGoesOn(t: Table, t': Table, victims: set<Servable>, device: Device, s: Servable,
                     attempts: nat -> Attempt, v: Servable)
    requires Trying(t, t', victims, device, s, attempts) && attempts(|victims|) == Attempt(true, LoadingFailed)
    requires IsLru(t', device, Some(s), v)
    ensures Trying(t, t' - {v}, victims + {v}, device, s, attempts)
    ensures |victims + {v}| == |victims| + 1 && |t' - {v}| < |t'|
  {
    EvictOneMore(t, t', victims, device, Some(s), v);
    RemoveCounts(t', v);
  }

  /** The end is determined by the outside: two ways to load from the same table stop after the same number of
      evictions and with the same outcome. */
  lemma LoadEndIsUnique(t: Table, t1: Table, t2: Table, v1: set<Servable>, v2: set<Servable>, device: Device,
                        s: Servable, attempts: nat -> Attempt, ok1: bool, ok2: bool)
    requires EvictedLru(t, t1, v1, device, Some(s)) && LoadEnds(t1, device, s, attempts, |v1|, ok1)
    requires EvictedLru(t, t2, v2, device, Some(s)) && LoadEnds(t2, device, s, attempts, |v2|, ok2)
    ensures |v1| == |v2| && ok1 == ok2
  {
    if |v1| < |v2| { EndsEarlier(t, t1, v1, v2, device, s, attempts); }
    if |v2| < |v1| { EndsEarlier(t, t2, v2, v1, device, s, attempts); }
  }

  lemma EndsEarlier(t: Table, t1: Table, v1: set<Servable>, v2: set<Servable>, device: Device, s: Servable,
                    attempts: nat -> Attempt)
    requires EvictedLru(t, t1, v1, device, Some(s)) && EvictedLru(t, t - v2, v2, device, Some(s)) && |v1| < |v2|
    requires attempts(|v1|) == Attempt(true, LoadingFailed) ==>
               forall n :: n in t1 ==> !Candidate(t1, device, Some(s), n)
    ensures attempts(|v1|) != Attempt(true, LoadingFailed)
  {
    if v2 <= v1 { SubsetCounts(v2, v1); }
    var n :| n in v2 && n !in v1;
    assert Candidate(t, device, Some(s), n) && Candidate(t1, device, Some(s), n);
  }

  // ---------- The adapter ----------

  class Adapter {
    var loaded: Table
    const maxLoaded: int
    const idleTTL: int
    var config: set<Servable>  // the model names in config.json, when the last write succeeded
    ghost var written: bool    // the last attempted write succeeded

    constructor (maxLoaded: int, idleTTL: int, served: Table)
      ensures loaded == served && this.maxLoaded == maxLoaded && this.idleTTL == idleTTL && !written
    {
      loaded, this.maxLoaded, this.idleTTL, config, written := served, maxLoaded, idleTTL, {}, false;
    }

    /** The config file mirrors the resident set, unless the last write failed. */
    ghost predicate Mirrors()
      reads this
    {
      written ==> config == loaded.Keys
    }

    /** Serialises the resident set; a failed write leaves the file in an unknown state. */
    method WriteConfig(wrote: bool)
      modifies this`config, this`written
      ensures written == wrote && Mirrors()
    {
      config := loaded.Keys;
      if !wrote { config := *; }
      written := wrote;
    }

    /** The count cap: global LRU victims until one slot is free. */
    method MakeRoom() returns (ghost victims: set<Servable>)
      modifies this`loaded
      ensures EvictedLru(old(loaded), loaded, victims, ANY_DEVICE, None)
      ensures maxLoaded > 0 ==> |loaded| < maxLoaded
      ensures maxLoaded <= 0 || |old(loaded)| < maxLoaded ==> victims == {}
      ensures maxLoaded > 0 && victims != {} ==> |loaded| == maxLoaded - 1
    {
      victims := {};
      assert loaded - {} == loaded;
      while maxLoaded > 0 && |loaded| >= maxLoaded
        invariant EvictedLru(old(loaded), loaded, victims, ANY_DEVICE, None)
        invariant maxLoaded <= 0 || |old(loaded)| < maxLoaded ==> victims == {}
        invariant maxLoaded > 0 && victims != {} ==> |loaded| >= maxLoaded - 1
        decreases |loaded|
      {
        var v := SelectLRU(loaded, ANY_DEVICE, None);
        NonEmptyHasCandidate(loaded);
        EvictOneMore(old(loaded), loaded, victims, ANY_DEVICE, None, v.value);
        RemoveCounts(loaded, v.value);
        loaded := loaded - {v.value};
        victims := victims + {v.value};
      }
    }

    /** Takes the new model out again and rewrites the config; the rewrite may fail, which is only logged. */
    method Rollback(servable: Servable, wrote: bool)
      modifies this`loaded, this`config, this`written
      ensures loaded == old(loaded) - {servable} && Mirrors() && written == wrote
    {
      loaded := loaded - {servable};
      WriteConfig(wrote);
    }

    /** Room for a model that failed to load: the least recently used model of its device leaves, if there is one. */
    method EvictFor(servable: Servable, device: Device, ghost t: Table, ghost victims: set<Servable>,
                    ghost attempts: nat -> Attempt) returns (found: bool, ghost victims': set<Servable>)
      requires Trying(t, loaded, victims, device, servable, attempts)
      requires attempts(|victims|) == Attempt(true, LoadingFailed)
      modifies this`loaded
      ensures if found
              then Trying(t, loaded, victims', device, servable, attempts)
                   && |victims'| == |victims| + 1 && |loaded| < |old(loaded)|
              else victims' == victims && loaded == old(loaded)
                   && LoadEnds(loaded, device, servable, attempts, |victims|, false)
    {
      var v := SelectLRU(loaded, device, Some(servable));
      found, victims' := v.Some?, victims;
      if found {
        TryingGoesOn(t, loaded, victims, device, servable, attempts, v.value);
        victims' := victims + {v.value};
        loaded := loaded - {v.value};
      }
    }

    /** Write, wait, and on a failed load evict a model of the same device and try again, for every behaviour of
        the outside. */
    method LoadLoop(servable: Servable, device: Device, readyAt: int, outside: Outside)
      returns (ok: bool, ghost victims: set<Servable>)
      requires servable in loaded
      modifies this`loaded, this`config, this`written
      ensures Mirrors() && written == (ok || outside.rolledBack)
      ensures EvictedLru(old(loaded), old(loaded) - victims, victims, device, Some(servable))
      ensures loaded == if ok then (old(loaded) - victims)[servable := old(loaded)[servable].(lastUsed := readyAt)]
                        else old(loaded) - victims - {servable}
      ensures LoadEnds(old(loaded) - victims, device, servable, outside.attempts, |victims|, ok)
    {
      victims, ok := {}, false;
      var k, found := 0, true;
      TryingStarts(loaded, device, servable, outside.attempts);
      while true
        invariant k == |victims| && Trying(old(loaded), loaded, victims, device, servable, outside.attempts)
        decreases |loaded|
      {
        var attempt := outside.attempts(k);
        if attempt != Attempt(true, LoadingFailed) {
          TryingEnds(old(loaded), loaded, victims, device, servable, outside.attempts);
        }
        WriteConfig(attempt.wrote);
        if !attempt.wrote { break; }
        if attempt.state.Available? {
          loaded := loaded[servable := loaded[servable].(lastUsed := readyAt)];
          return true, victims;
        }
        if attempt.state.Timeout? { break; }
        found, victims := EvictFor(servable, device, old(loaded), victims, outside.attempts);
        if !found { break; }
        k := k + 1;
      }
      Rollback(servable, outside.rolledBack);
    }

    /** Makes a model resident and available.  `Renewed`: it already was; `StageFailed`: nothing was changed. */
    method EnsureLoaded(servable: Servable, device: Device, now: int, readyAt: int, outside: Outside)
      returns (r: Result, ghost cap: set<Servable>, ghost failed: set<Servable>)
      requires Mirrors()
      modifies this`loaded, this`config, this`written
      ensures Mirrors() && (r.LoadedNow? ==> written)
      ensures Ensured(old(loaded), loaded, maxLoaded, servable, device, now, readyAt, r, cap, failed)
      ensures r.Renewed? <==> servable in old(loaded) && outside.available
      ensures r.StageFailed? <==> !(servable in old(loaded) && outside.available) && !outside.staged
      ensures r.LoadedNow? || r.LoadFailed? ==>
                LoadEnds((old(loaded) - cap)[servable := Loaded(device, now)] - failed, device, servable,
                         outside.attempts, |failed|, r.LoadedNow?)
    {
      cap, failed := {}, {};
      if servable in loaded && outside.available {
        loaded := loaded[servable := loaded[servable].(lastUsed := now)];
        return Renewed, cap, failed;
      }
      if !outside.staged { return StageFailed, cap, failed; }
      if servable !in loaded {
        cap := MakeRoom();
      } else {
        assert loaded - {} == loaded;
      }
      loaded := loaded[servable := Loaded(device, now)];
      var ok;
      ok, failed := LoadLoop(servable, device, readyAt, outside);
      r := if ok then LoadedNow else LoadFailed;
    }

    /** Unloads what has been idle for too long. */
    method ReapOnce(now: int)
      requires Mirrors()
      modifies this`loaded, this`config, this`written
      ensures Mirrors()
      ensures forall n :: n in loaded <==> n in old(loaded) && (idleTTL <= 0 || now - old(loaded)[n].lastUsed < idleTTL)
      ensures forall n :: n in loaded ==> loaded[n] == old(loaded)[n]
    {
      var expired := SelectExpired(loaded, idleTTL, now);
      if expired == {} { return; }
      loaded := loaded - expired;
      var wrote: bool := *;
      WriteConfig(wrote);
    }
  }

  datatype Result = Renewed | StageFailed | LoadFailed | LoadedNow

  /** The victims of the cap: the global LRU ones, none for a resident model or below the cap, and no more than
      needed to have one slot free. */
  ghost predicate RoomMade(t: Table, max: int, s: Servable, cap: set<Servable>) {
    && EvictedLru(t, t - cap, cap, ANY_DEVICE, None)
    && (s in t || max <= 0 || |t| < max ==> cap == {})
    && (s !in t && max > 0 ==> |t - cap| < max)
    && (cap != {} ==> |t - cap| == max - 1)
  }

  /** What a call of EnsureLoaded may do to the table: who was evicted for the cap (the global LRU ones, for a model
      that is not resident) and for failed loads (same-device LRU ones, never the new model), and nothing else. */
  ghost predicate Ensured(t: Table, t': Table, max: int, s: Servable, device: Device, now: int, readyAt: int,
                          r: Result, cap: set<Servable>, failed: set<Servable>)
  {
    match r
    case Renewed => s in t && t' == t[s := t[s].(lastUsed := now)] && cap == failed == {}
    case StageFailed => t' == t && cap == failed == {}
    case _ =>
      && RoomMade(t, max, s, cap)
      && var t1 := (t - cap)[s := Loaded(device, now)];
      && EvictedLru(t1, t1 - failed, failed, device, Some(s))
      && t' == if r.LoadedNow? then (t1 - failed)[s := Loaded(device, readyAt)] else t1 - failed - {s}
  }

  // ---------- Consequences ----------

  lemma AddCounts(t: Table, n: Servable, l: Loaded)
    ensures |t[n := l]| == |t| + if n in t then 0 else 1
  {
    assert t[n := l].Keys == t.Keys + {n};
    assert |t[n := l].Keys| == |t[n := l]| && |t.Keys| == |t|;
  }

  lemma RemoveMany(t: Table, ns: set<Servable>)
    ensures |t - ns| <= |t|
  {
    assert (t - ns).Keys <= t.Keys;
    SubsetCounts((t - ns).Keys, t.Keys);
    assert |(t - ns).Keys| == |t - ns| && |t.Keys| == |t|;
  }

  lemma SubsetCounts(a: set<Servable>, b: set<Servable>)
    requires a <= b
    ensures |a| <= |b|
  {
    assert b == a + (b - a);
  }

  /** The end of a load attempt on a table that already holds the new model. */
  lemma LoadOutcome(t1: Table, t': Table, s: Servable, l: Loaded, ok: bool, failed: set<Servable>)
    requires s in t1 && s !in failed
    requires t' == if ok then (t1 - failed)[s := l] else t1 - failed - {s}
    ensures |t'| <= |t1| && (s in t' <==> ok)
    ensures ok && failed == {} ==> t'.Keys == t1.Keys && |t'| == |t1|
  {
    RemoveMany(t1, failed);
    RemoveMany(t1 - failed, {s});
    AddCounts(t1 - failed, s, l);
    if failed == {} { assert t1 - failed == t1; }
  }

  /** Success leaves the model resident, a failed load leaves it absent, and with a cap the number of residents
      exceeds neither the cap nor what it was before. */
  lemma EnsuredBound(t: Table, t': Table, max: int, s: Servable, device: Device, now: int, readyAt: int,
                     r: Result, cap: set<Servable>, failed: set<Servable>)
    requires Ensured(t, t', max, s, device, now, readyAt, r, cap, failed)
    ensures (r.Renewed? || r.LoadedNow? ==> s in t') && (r.LoadFailed? ==> s !in t')
    ensures max > 0 ==> |t'| <= max || |t'| <= |t|
  {
    match r
    case Renewed => AddCounts(t, s, t[s].(lastUsed := now));
    case StageFailed =>
    case _ =>
      var t1 := RoomFor(t, max, s, cap, Loaded(device, now));
      NewModelIsSpared(t1, failed, device, s);
      LoadOutcome(t1, t', s, Loaded(device, readyAt), r.LoadedNow?, failed);
  }

  lemma NewModelIsSpared(t: Table, failed: set<Servable>, device: Device, s: Servable)
    requires EvictedLru(t, t - failed, failed, device, Some(s))
    ensures s !in failed
  {
  }

  lemma RoomFor(t: Table, max: int, s: Servable, cap: set<Servable>, l: Loaded) returns (t1: Table)
    requires RoomMade(t, max, s, cap)
    ensures t1 == (t - cap)[s := l] && s in t1 && (max > 0 ==> |t1| <= max || |t1| <= |t|)
  {
    RoomBound(t, max, s, cap, l);
    t1 := (t - cap)[s := l];
  }

  lemma RoomBound(t: Table, max: int, s: Servable, cap: set<Servable>, l: Loaded)
    requires RoomMade(t, max, s, cap)
    ensures max > 0 ==> |(t - cap)[s := l]| <= max || |(t - cap)[s := l]| <= |t|
    ensures max > 0 && cap != {} ==> |(t - cap)[s := l]| == max
    ensures cap == {} ==> (t - cap)[s := l] == t[s := l]
  {
    AddCounts(t - cap, s, l);
    if cap == {} { assert t - cap == t; }
  }

  // ---------- Over runs: the residents are the most recently used ----------

  /** A successful call, its outcome included; `time` is the stamp it leaves. */
  datatype Call = Call(s: Servable, device: Device, now: int, readyAt: int, r: Result, cap: set<Servable>)

  function Time(c: Call): int { if c.r.Renewed? then c.now else c.readyAt }

  /** What happens to the adapter: a successful call, or a pass of the reaper. */
  datatype Event = Ask(c: Call) | Reap(now: int, ttl: int)

  /** When each model was last asked for. */
  function LastUse(events: seq<Event>): map<Servable, int> {
    if events == [] then map[]
    else
      var last, e := LastUse(events[..|events| - 1]), events[|events| - 1];
      if e.Ask? then last[e.c.s := Time(e.c)] else last
  }

  ghost predicate Reaped(t: Table, t': Table, now: int, ttl: int) {
    && (forall n :: n in t' <==> n in t && (ttl <= 0 || now - t[n].lastUsed < ttl))
    && forall n :: n in t' ==> t'[n] == t[n]
  }

  ghost predicate Happens(t: Table, t': Table, e: Event, max: int) {
    match e
    case Ask(c) => (c.r.Renewed? || c.r.LoadedNow?)
                   && Ensured(t, t', max, c.s, c.device, c.now, c.readyAt, c.r, c.cap, {})
    case Reap(now, ttl) => Reaped(t, t', now, ttl)
  }

  /** The tables of a run of successful calls under a cap, without load failures, and of reaper passes. */
  ghost predicate IsRun(ts: seq<Table>, events: seq<Event>, max: int) {
    |ts| == |events| + 1 && ts[0] == map[] && forall i :: 0 <= i < |events| ==>
        Happens(ts[i], ts[i + 1], events[i], max)
  }

  predicate Ticking(events: seq<Event>) {
    forall i, j :: 0 <= i < j < |events| && events[i].Ask? && events[j].Ask? ==> Time(events[i].c) < Time(events[j].c)
  }

  /** The stamps are the last uses, and no absent model was used after a resident one. */
  predicate MostRecent(t: Table, last: map<Servable, int>) {
    && (forall n :: n in t ==> n in last && t[n].lastUsed == last[n])
    && forall n, m :: n in t && m in last && m !in t ==> last[m] < last[n]
  }

  predicate Distinct(last: map<Servable, int>) {
    forall n, m :: n in last && m in last && n != m ==> last[n] != last[m]
  }

  predicate Full(t: Table, last: map<Servable, int>, max: int) {
    |t| <= max && (|t| == max || t.Keys == last.Keys)
  }

  /** A successful call without load failures, entry by entry. */
  ghost predicate Admitted(t: Table, t': Table, c: Call) {
    && (forall n :: n in t' <==> n == c.s || (n in t && n !in c.cap))
    && t'[c.s].lastUsed == Time(c)
    && (forall n :: n in t' && n != c.s ==> t'[n] == t[n])
    && forall v, m :: v in c.cap && m in t && m !in c.cap ==> v in t && t[v].lastUsed <= t[m].lastUsed
  }

  lemma AdmittedIf(t: Table, t': Table, max: int, c: Call)
    requires (c.r.Renewed? || c.r.LoadedNow?) && Ensured(t, t', max, c.s, c.device, c.now, c.readyAt, c.r, c.cap, {})
    ensures Admitted(t, t', c)
  {
    if c.r.LoadedNow? {
      var t1 := (t - c.cap)[c.s := Loaded(c.device, c.now)];
      assert t1 - {} == t1;
      forall v, m | v in c.cap && m in t && m !in c.cap ensures v in t && t[v].lastUsed <= t[m].lastUsed {
        assert m in t - c.cap && Candidate(t, ANY_DEVICE, None, m);
      }
    }
  }

  lemma LruStep(t: Table, t': Table, last: map<Servable, int>, c: Call)
    requires Admitted(t, t', c)
    requires MostRecent(t, last) && Distinct(last) && forall n :: n in last ==> last[n] < Time(c)
    ensures MostRecent(t', last[c.s := Time(c)]) && Distinct(last[c.s := Time(c)])
  {
  }

  lemma FullStep(t: Table, t': Table, last: map<Servable, int>, max: int, c: Call)
    requires max > 0 && (c.r.Renewed? || c.r.LoadedNow?) && Full(t, last, max)
    requires Ensured(t, t', max, c.s, c.device, c.now, c.readyAt, c.r, c.cap, {})
    ensures Full(t', last[c.s := Time(c)], max)
  {
    if c.r.Renewed? {
      FullRenewed(t, last, max, c.s, t[c.s].(lastUsed := c.now), Time(c));
    } else {
      FullLoaded(t, t', last, max, c);
    }
  }

  lemma FullLoaded(t: Table, t': Table, last: map<Servable, int>, max: int, c: Call)
    requires max > 0 && c.r.LoadedNow? && Full(t, last, max)
    requires Ensured(t, t', max, c.s, c.device, c.now, c.readyAt, c.r, c.cap, {})
    ensures Full(t', last[c.s := Time(c)], max)
  {
    var l := Loaded(c.device, c.now);
    var t1 := LoadedIs(t, t', max, c);
    RoomBound(t, max, c.s, c.cap, l);
    FullAfterLoad(t, t', t1, last, max, c.s, l, c.cap, Time(c));
  }

  /** A load without failures: room was made, and the names are those of the table before the load. */
  lemma LoadedIs(t: Table, t': Table, max: int, c: Call) returns (t1: Table)
    requires c.r.LoadedNow? && Ensured(t, t', max, c.s, c.device, c.now, c.readyAt, c.r, c.cap, {})
    ensures t1 == (t - c.cap)[c.s := Loaded(c.device, c.now)] && RoomMade(t, max, c.s, c.cap)
    ensures t'.Keys == t1.Keys && |t'| == |t1|
  {
    t1 := (t - c.cap)[c.s := Loaded(c.device, c.now)];
    LoadOutcome(t1, t', c.s, Loaded(c.device, c.readyAt), true, {});
  }

  lemma FullRenewed(t: Table, last: map<Servable, int>, max: int, s: Servable, l: Loaded, time: int)
    requires Full(t, last, max) && s in t
    ensures Full(t[s := l], last[s := time], max)
  {
    AddCounts(t, s, l);
    assert t[s := l].Keys == t.Keys;
    assert last[s := time].Keys == last.Keys + {s};
  }

  lemma FullAfterLoad(t: Table, t': Table, t1: Table, last: map<Servable, int>, max: int, s: Servable, l: Loaded,
                      cap: set<Servable>, time: int)
    requires max > 0 && Full(t, last, max) && RoomMade(t, max, s, cap)
    requires t'.Keys == t1.Keys && |t'| == |t1|
    requires (cap != {} ==> |t1| == max) && (cap == {} ==> t1 == t[s := l])
    ensures Full(t', last[s := time], max)
  {
    if cap == {} {
      AddCounts(t, s, l);
      assert t - cap == t;
      assert t1.Keys == t.Keys + {s};
    }
  }

  lemma ReapStep(t: Table, t': Table, last: map<Servable, int>, now: int, ttl: int)
    requires Reaped(t, t', now, ttl) && MostRecent(t, last)
    ensures MostRecent(t', last) && |t'| <= |t|
  {
    assert t'.Keys <= t.Keys;
    SubsetCounts(t'.Keys, t.Keys);
    assert |t'.Keys| == |t'| && |t.Keys| == |t|;
  }

  lemma RunPrefix(ts: seq<Table>, events: seq<Event>, max: int)
    requires IsRun(ts, events, max) && events != []
    ensures IsRun(ts[..|events|], events[..|events| - 1], max)
  {
    forall i | 0 <= i < |events| - 1
      ensures Happens(ts[..|events|][i], ts[..|events|][i + 1], events[..|events| - 1][i], max)
    {
      assert Happens(ts[i], ts[i + 1], events[i], max);
    }
  }

  lemma {:induction false} LastUseIsATime(events: seq<Event>, n: Servable)
    requires n in LastUse(events)
    ensures exists i :: 0 <= i < |events| && events[i].Ask? && Time(events[i].c) == LastUse(events)[n]
  {
    var front, k := events[..|events| - 1], |events| - 1;
    if !(events[k].Ask? && events[k].c.s == n) {
      LastUseIsATime(front, n);
      var i :| 0 <= i < |front| && front[i].Ask? && Time(front[i].c) == LastUse(front)[n];
      assert events[i] == front[i];
    }
  }

  lemma AskStep(t: Table, t': Table, events: seq<Event>, max: int)
    requires events != [] && events[|events| - 1].Ask? && Ticking(events) && max > 0 && |t| <= max
    requires Happens(t, t', events[|events| - 1], max)
    requires var last := LastUse(events[..|events| - 1]); MostRecent(t, last) && Distinct(last)
    ensures MostRecent(t', LastUse(events)) && Distinct(LastUse(events)) && |t'| <= max
  {
    var front, c := events[..|events| - 1], events[|events| - 1].c;
    forall n | n in LastUse(front) ensures LastUse(front)[n] < Time(c) {
      LastUseIsATime(front, n);
      var i :| 0 <= i < |front| && front[i].Ask? && Time(front[i].c) == LastUse(front)[n];
      assert events[i] == front[i];
    }
    AdmittedIf(t, t', max, c);
    LruStep(t, t', LastUse(front), c);
    EnsuredBound(t, t', max, c.s, c.device, c.now, c.readyAt, c.r, c.cap, {});
  }

  /** With a cap and no load failures, whatever the reaper does, the residents after any run are within the cap and
      the most recently used models: nobody absent was used after somebody resident. */
  lemma {:induction false} ResidentsAreMostRecent(ts: seq<Table>, events: seq<Event>, max: int)
    requires max > 0 && IsRun(ts, events, max) && Ticking(events)
    ensures var t, last := ts[|events|], LastUse(events); MostRecent(t, last) && Distinct(last) && |t| <= max
  {
    if events != [] {
      var k := |events| - 1;
      RunPrefix(ts, events, max);
      ResidentsAreMostRecent(ts[..|events|], events[..k], max);
      assert Happens(ts[k], ts[k + 1], events[k], max);
      match events[k]
      case Ask(_) => AskStep(ts[k], ts[k + 1], events, max);
      case Reap(now, ttl) => ReapStep(ts[k], ts[k + 1], LastUse(events[..k]), now, ttl);
    }
  }

  /** Without a reaper they are exactly the `max` most recently used ones, or all while there are fewer. */
  lemma {:induction false} ResidentsAreAllThatFit(ts: seq<Table>, events: seq<Event>, max: int)
    requires max > 0 && IsRun(ts, events, max) && forall i :: 0 <= i < |events| ==> events[i].Ask?
    ensures Full(ts[|events|], LastUse(events), max)
  {
    if events != [] {
      var k := |events| - 1;
      RunPrefix(ts, events, max);
      ResidentsAreAllThatFit(ts[..|events|], events[..k], max);
      assert Happens(ts[k], ts[k + 1], events[k], max);
      FullStep(ts[k], ts[k + 1], LastUse(events[..k]), max, events[k].c);
    }
  }

  lemma RemoveCounts(t: Table, n: Servable)
    requires n in t
    ensures |t - {n}| == |t| - 1
  {
    assert (t - {n}).Keys == t.Keys - {n};
    assert |t.Keys| == |t| && |(t - {n}).Keys| == |t - {n}|;
  }

  lemma NonEmptyHasCandidate(t: Table)
    requires |t| > 0
    ensures exists n :: n in t && Candidate(t, ANY_DEVICE, None, n)
  {
    assert |t.Keys| == |t|;
    var n :| n in t.Keys;
    assert Candidate(t, ANY_DEVICE, None, n);
  }
}
