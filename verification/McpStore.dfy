/** The MCP tables as the services change and read them (service/mcp_runtime.go, service/mcp_approvals.go). */
module McpStore {
  import opened Common
  import opened Mcp

  /** The heartbeat of a prefix of the listing, without the server-level row. */
  function BeatListed(a: map<Key, Approval>, s: Server, tools: seq<ToolMeta>, now: int): (r: map<Key, Approval>)
    ensures r.Keys == a.Keys
    ensures forall k :: k in a ==> r[k] == if k.0 == s && Listed(tools, k.1) then a[k].(lastSeen := now) else a[k]
  {
    map k | k in a :: if k.0 == s && Listed(tools, k.1) then a[k].(lastSeen := now) else a[k]
  }

  lemma BeatSnoc(a: map<Key, Approval>, s: Server, tools: seq<ToolMeta>, m: ToolMeta, now: int)
    ensures var b := BeatListed(a, s, tools, now);
            BeatListed(a, s, tools + [m], now) ==
            if (s, m.name) in b then b[(s, m.name) := b[(s, m.name)].(lastSeen := now)] else b
  {
    forall n ensures Listed(tools + [m], n) <==> Listed(tools, n) || n == m.name {
      if i :| 0 <= i < |tools| && tools[i].name == n { assert (tools + [m])[i].name == n; }
      if n == m.name { assert (tools + [m])[|tools|].name == n; }
    }
  }

  class Store {
    var runtime: map<Server, Runtime>
    var approvals: map<Key, Approval>
    var owner: map<Server, User>

    function Value(): Db
      reads this
    {
      Db(runtime, approvals)
    }

    constructor (owner: map<Server, User>)
      ensures Value() == EMPTY_DB && this.owner == owner
    {
      runtime, approvals, this.owner := map[], map[], owner;
    }

    /** The single-flight lock: one conditional write. */
    method ClaimProbe(s: Server) returns (granted: bool)
      modifies this`runtime
      ensures granted == ProbeFree(old(Value()), s) && Value() == Apply(old(Value()), ProbeEv(s))
    {
      granted := s !in runtime || runtime[s].probe != Probing;
      if granted {
        runtime := runtime[s := (if s in runtime then runtime[s] else NEW_ROW).(probe := Probing)];
      }
    }

    method RecordSuccess(s: Server, identity: Hash, info: nat, tools: seq<ToolMeta>, now: int)
      modifies this`runtime, this`approvals
      ensures Value() == Apply(old(Value()), SuccessEv(s, identity, info, tools, now))
    {
      ghost var before := Value();
      var row := if s in runtime then runtime[s] else NEW_ROW;
      var empty := tools == [];
      var streak := if empty then row.emptyStreak + 1 else 0;
      var row' := row.(probe := Ok, lastOkAt := now, failStreak := 0, emptyStreak := streak);
      if !empty || row.emptyStreak + 1 >= 2 {
        row' := row'.(identity := identity, tools := tools, info := info, listedAt := now);
      }
      runtime := runtime[s := row'];
      BeatAll(s, tools, now);
    }

    /** The heartbeat loop and the server-level row behind it. */
    method BeatAll(s: Server, tools: seq<ToolMeta>, now: int)
      modifies this`approvals
      ensures approvals == Heartbeat(old(approvals), s, tools, now)
    {
      assert approvals == BeatListed(approvals, s, [], now);
      for i := 0 to |tools|
        invariant approvals == BeatListed(old(approvals), s, tools[..i], now)
      {
        assert tools[..i + 1] == tools[..i] + [tools[i]];
        BeatSnoc(old(approvals), s, tools[..i], tools[i], now);
        var k := (s, tools[i].name);
        if k in approvals { approvals := approvals[k := approvals[k].(lastSeen := now)]; }
      }
      assert tools[..|tools|] == tools;
      if tools != [] && (s, STAR) in approvals {
        approvals := approvals[(s, STAR) := approvals[(s, STAR)].(lastSeen := now)];
      }
    }

    method RecordFailure(s: Server, now: int)
      modifies this`runtime
      ensures Value() == Apply(old(Value()), FailureEv(s, now))
    {
      var row := if s in runtime then runtime[s] else NEW_ROW;
      runtime := runtime[s := row.(probe := Failed, lastErrorAt := now, failStreak := row.failStreak + 1)];
    }

    /** An ordinary approval; the reserved name is refused. */
    method Put(k: Key, identity: Hash, schema: Hash, desc: Hash, now: int) returns (ok: bool)
      modifies this`approvals
      ensures ok == (k.1 != STAR) && Value() == Apply(old(Value()), ApproveEv(k, identity, schema, desc, now))
    {
      ok := k.1 != STAR;
      if ok { approvals := approvals[k := Approval(identity, schema, desc, now, now)]; }
    }

    method PutServerLevel(s: Server, identity: Hash, now: int)
      modifies this`approvals
      ensures Value() == Apply(old(Value()), ApproveServerEv(s, identity, now))
    {
      approvals := approvals[(s, STAR) := Approval(identity, NONE, NONE, now, now)];
    }

    method AckDescription(k: Key, desc: Hash)
      modifies this`approvals
      ensures Value() == Apply(old(Value()), AckEv(k, desc))
    {
      if desc == NONE { return; }
      if k in approvals { approvals := approvals[k := approvals[k].(desc := desc)]; }
    }

    /** One row against the gates, with the parsed listing of its server. */
    method Passes(k: Key, tools: map<Tool, ToolMeta>, now: int) returns (yes: bool)
      requires k in approvals && ParsedFor(tools, Row(Value(), k.0).tools)
      ensures yes == Effective(Value(), k, now)
    {
      var a := approvals[k];
      if a.identity == NONE || k.0 !in runtime || runtime[k.0].identity == NONE || a.identity != runtime[k.0].identity {
        return false;
      }
      if k.1 == STAR { return true; }
      if k.1 !in tools || a.schema == NONE || tools[k.1].schema == NONE || tools[k.1].schema != a.schema {
          return false; }
      yes := now - a.lastSeen <= STALE_WINDOW;
    }

    /** The approvals that count for one user.  Expired rows are deleted first; listings are parsed once per server. */
    method EffectiveApprovals(user: User, now: int) returns (out: set<Key>)
      modifies this`approvals
      ensures Value() == Apply(old(Value()), ReadEv(now))
      ensures forall k :: k in out <==> k.0 in owner && owner[k.0] == user && Effective(Value(), k, now)
    {
      approvals := map k | k in approvals && !Expired(approvals[k], now) :: approvals[k];
      assert approvals == Hygiene(old(Value()), now).approvals;
      out := {};
      var cache: map<Server, map<Tool, ToolMeta>> := map[];
      var todo := approvals.Keys;
      while todo != {}
        invariant Value() == Apply(old(Value()), ReadEv(now)) && todo <= approvals.Keys
        invariant forall s :: s in cache ==> ParsedFor(cache[s], Row(Value(), s).tools)
        invariant forall k :: k in out <==>
                    k in approvals && k !in todo && k.0 in owner && owner[k.0] == user && Effective(Value(), k, now)
        decreases todo
      {
        var k :| k in todo;
        todo := todo - {k};
        if k.0 in owner && owner[k.0] == user {
          if k.0 !in cache {
            var parsed := ParseTools(if k.0 in runtime then runtime[k.0].tools else []);
            cache := cache[k.0 := parsed];
          }
          var yes := Passes(k, cache[k.0], now);
          if yes { out := out + {k}; }
        }
      }
    }

    /** Every approval of one server with the reason why it is void, if it is. */
    method ListForServer(s: Server, now: int) returns (out: map<Key, Reason>)
      ensures forall k :: k in out <==> k in approvals && k.0 == s
      ensures forall k :: k in out ==> out[k] == ReasonFor(Value(), k, now)
    {
      out := map[];
      var tools := ParseTools(if s in runtime then runtime[s].tools else []);
      var todo := approvals.Keys;
      while todo != {}
        invariant todo <= approvals.Keys
        invariant forall k :: k in out <==> k in approvals && k !in todo && k.0 == s
        invariant forall k :: k in out ==> out[k] == ReasonFor(Value(), k, now)
        decreases todo
      {
        var k :| k in todo;
        todo := todo - {k};
        if k.0 == s {
          var a := approvals[k];
          var reason := NoReason;
          if a.identity == NONE || s !in runtime || runtime[s].identity == NONE || a.identity != runtime[s].identity {
            reason := ConfigChanged;
          } else if k.1 != STAR {
            if k.1 !in tools { reason := ToolRemoved; }
            else if a.schema == NONE || tools[k.1].schema == NONE || tools[k.1].schema != a.schema {
                reason := SchemaChanged; }
            else if now - a.lastSeen > STALE_WINDOW { reason := Mcp.Stale; }
          }
          out := out[k := reason];
        }
      }
    }
  }

  /** The two readers agree: right after the approvals of a user were read, the settings page gives no reason for
      exactly those rows of a server of that user. */
  method ReadersAgree(store: Store, user: User, s: Server, now: int) returns (out: set<Key>, reasons: map<Key, Reason>)
    requires s in store.owner && store.owner[s] == user
    modifies store`approvals
    ensures forall k :: k in reasons ==> (reasons[k] == NoReason <==> k in out)
    ensures forall k :: k in out && k.0 == s ==> k in reasons
  {
    out := store.EffectiveApprovals(user, now);
    reasons := store.ListForServer(s, now);
    forall k | k in reasons ensures reasons[k] == NoReason <==> k in out {
      ReasonsMatchGates(store.Value(), k, now);
    }
  }

  /** The listing as a lookup table: the last entry of a name wins. */
  ghost predicate ParsedFor(m: map<Tool, ToolMeta>, tools: seq<ToolMeta>) {
    forall n :: FindTool(tools, n) == if n in m then Some(m[n]) else None
  }

  method ParseTools(tools: seq<ToolMeta>) returns (m: map<Tool, ToolMeta>)
    ensures ParsedFor(m, tools)
  {
    m := map[];
    for i := 0 to |tools|
      invariant ParsedFor(m, tools[..i])
    {
      assert tools[..i + 1][..i] == tools[..i];
      m := m[tools[i].name := tools[i]];
    }
    assert tools[..|tools|] == tools;
  }
}
