/**
  MCP server observation and tool approvals (service/mcp_runtime.go,
  service/mcp_approvals.go): probes write a runtime row, approvals are voided by
  gates that compare them with that row, and one bad probe must not void them.
 */
module Mcp {
  import opened Common

  type Server = nat
  type User = nat
  /** Fingerprints and hashes; NONE is the empty string. */
  type Hash = nat
  const NONE: Hash := 0
  /** Tool names; STAR is the reserved server-level name. */
  type Tool = nat
  const STAR: Tool := 0

  const STALE_WINDOW := 7 * 24 * 60 * 60
  const HYGIENE_WINDOW := 90 * 24 * 60 * 60

  datatype ToolMeta = ToolMeta(name: Tool, schema: Hash, desc: Hash)
  datatype ProbeState = Blank | Probing | Ok | Failed

  /** `info` stands for the descriptive columns that are written together with the list. */
  datatype Runtime = Runtime(probe: ProbeState, identity: Hash, tools: seq<ToolMeta>, info: nat, listedAt: int,
                             lastOkAt: int, lastErrorAt: int, failStreak: nat, emptyStreak: nat)
  const NEW_ROW := Runtime(Blank, NONE, [], 0, 0, 0, 0, 0, 0)

  datatype Approval = Approval(identity: Hash, schema: Hash, desc: Hash, approvedAt: int, lastSeen: int)
  type Key = (Server, Tool)

  datatype Db = Db(runtime: map<Server, Runtime>, approvals: map<Key, Approval>)
  const EMPTY_DB := Db(map[], map[])

  function Row(db: Db, s: Server): Runtime {
    if s in db.runtime then db.runtime[s] else NEW_ROW
  }

  // ---------- Probes ----------

  predicate ProbeFree(db: Db, s: Server) { Row(db, s).probe != Probing }

  function MarkProbing(db: Db, s: Server): Db {
    if ProbeFree(db, s) then db.(runtime := db.runtime[s := Row(db, s).(probe := Probing)]) else db
  }

  predicate Listed(tools: seq<ToolMeta>, name: Tool) { exists i :: 0 <= i < |tools| && tools[i].name == name }

  /** Which approvals a listing of server s refreshes. */
  predicate Beats(tools: seq<ToolMeta>, s: Server, k: Key) {
    k.0 == s && (Listed(tools, k.1) || (k.1 == STAR && tools != []))
  }

  function Heartbeat(a: map<Key, Approval>, s: Server, tools: seq<ToolMeta>, now: int): map<Key, Approval> {
    map k | k in a :: if Beats(tools, s, k) then a[k].(lastSeen := now) else a[k]
  }

  /** A first empty listing does not write the list. */
  predicate WritesList(db: Db, s: Server, tools: seq<ToolMeta>) {
    tools != [] || Row(db, s).emptyStreak + 1 >= 2
  }

  function SaveSuccess(db: Db, s: Server, identity: Hash, info: nat, tools: seq<ToolMeta>, now: int): Db {
    var row := Row(db, s);
    var streak := if tools == [] then row.emptyStreak + 1 else 0;
    var row' := row.(probe := Ok, lastOkAt := now, failStreak := 0, emptyStreak := streak);
    var row'' := if WritesList(db, s, tools)
                 then row'.(identity := identity, tools := tools, info := info, listedAt := now) else row';
    Db(db.runtime[s := row''], Heartbeat(db.approvals, s, tools, now))
  }

  function SaveFailure(db: Db, s: Server, now: int): Db {
    var row := Row(db, s);
    db.(runtime := db.runtime[s := row.(probe := Failed, lastErrorAt := now, failStreak := row.failStreak + 1)])
  }

  // ---------- Approvals ----------

  function PutRow(db: Db, k: Key, identity: Hash, schema: Hash, desc: Hash, now: int): Db {
    db.(approvals := db.approvals[k := Approval(identity, schema, desc, now, now)])
  }

  /** The expired rows that reading the approvals deletes first. */
  predicate Expired(a: Approval, now: int) { 0 < a.lastSeen < now - HYGIENE_WINDOW }

  function Hygiene(db: Db, now: int): Db {
    db.(approvals := map k | k in db.approvals && !Expired(db.approvals[k], now) :: db.approvals[k])
  }

  /** The current entry of a tool: the last one with its name. */
  function FindTool(tools: seq<ToolMeta>, name: Tool): (r: Option<ToolMeta>)
    ensures r.Some? <==> Listed(tools, name)
    ensures r.Some? ==> r.value in tools && r.value.name == name
  {
    if tools == [] then None
    else
      var m := tools[|tools| - 1];
      if m.name == name then Some(m) else FindTool(tools[..|tools| - 1], name)
  }

  predicate ConfigGate(db: Db, k: Key, a: Approval) {
    a.identity != NONE && k.0 in db.runtime && db.runtime[k.0].identity != NONE
        && a.identity == db.runtime[k.0].identity
  }

  predicate InterfaceGate(db: Db, k: Key, a: Approval) {
    var m := FindTool(Row(db, k.0).tools, k.1);
    m.Some? && a.schema != NONE && m.value.schema != NONE && m.value.schema == a.schema
  }

  predicate StaleGate(a: Approval, now: int) { now - a.lastSeen <= STALE_WINDOW }

  /** The approvals that count. */
  predicate Effective(db: Db, k: Key, now: int) {
    && k in db.approvals
    && var a := db.approvals[k];
    && ConfigGate(db, k, a)
    && (k.1 == STAR || (InterfaceGate(db, k, a) && StaleGate(a, now)))
  }

  datatype Reason = NoReason | ConfigChanged | ToolRemoved | SchemaChanged | Stale

  /** Why the settings page calls an approval void. */
  function ReasonFor(db: Db, k: Key, now: int): Reason
    requires k in db.approvals
  {
    var a := db.approvals[k];
    if a.identity == NONE || k.0 !in db.runtime || db.runtime[k.0].identity == NONE
        || a.identity != db.runtime[k.0].identity
    then ConfigChanged
    else if k.1 == STAR then NoReason
    else
      var m := FindTool(db.runtime[k.0].tools, k.1);
      if m.None? then ToolRemoved
      else if a.schema == NONE || m.value.schema == NONE || m.value.schema != a.schema then SchemaChanged
      else if now - a.lastSeen > STALE_WINDOW then Stale
      else NoReason
  }

  // ---------- Runs ----------

  datatype Event =
    | ProbeEv(s: Server)
    | SuccessEv(s: Server, identity: Hash, info: nat, tools: seq<ToolMeta>, now: int)
    | FailureEv(s: Server, now: int)
    | ApproveEv(k: Key, identity: Hash, schema: Hash, desc: Hash, now: int)
    | ApproveServerEv(s: Server, identity: Hash, now: int)
    | AckEv(k: Key, desc: Hash)
    | RevokeEv(k: Key)
    | RevokeAllEv(s: Server)
    | ReadEv(now: int)

  function Apply(db: Db, e: Event): Db {
    match e
    case ProbeEv(s) => MarkProbing(db, s)
    case SuccessEv(s, identity, info, tools, now) => SaveSuccess(db, s, identity, info, tools, now)
    case FailureEv(s, now) => SaveFailure(db, s, now)
    case ApproveEv(k, identity, schema, desc, now) =>
      if k.1 == STAR then db else PutRow(db, k, identity, schema, desc, now)
    case ApproveServerEv(s, identity, now) => PutRow(db, (s, STAR), identity, NONE, NONE, now)
    case AckEv(k, desc) =>
      if desc != NONE && k in db.approvals then db.(approvals := db.approvals[k := db.approvals[k].(desc := desc)])
          else db
    case RevokeEv(k) => db.(approvals := db.approvals - {k})
    case RevokeAllEv(s) => db.(approvals := map k | k in db.approvals && k.0 != s :: db.approvals[k])
    case ReadEv(now) => Hygiene(db, now)
  }

  function Run(trace: seq<Event>): Db {
    if trace == [] then EMPTY_DB else Apply(Run(trace[..|trace| - 1]), trace[|trace| - 1])
  }

  // ---------- What the trace says ----------

  /** Empty successes of s since its last non-empty one; nothing else interrupts the count. */
  function EmptyRun(trace: seq<Event>, s: Server): nat {
    if trace == [] then 0
    else
      var e, front := trace[|trace| - 1], trace[..|trace| - 1];
      if e.SuccessEv? && e.s == s then (if e.tools == [] then EmptyRun(front, s) + 1 else 0) else EmptyRun(front, s)
  }

  /** The last probe of s that wrote the list: a non-empty success, or an empty one right after an empty one
      among the successes. */
  function LastWrite(trace: seq<Event>, s: Server): (r: Option<Event>)
    ensures r.Some? ==> r.value in trace && r.value.SuccessEv? && r.value.s == s
  {
    if trace == [] then None
    else
      var e, front := trace[|trace| - 1], trace[..|trace| - 1];
      if e.SuccessEv? && e.s == s && (e.tools != [] || EmptyRun(front, s) >= 1) then Some(e) else LastWrite(front, s)
  }

  function LastIdentity(trace: seq<Event>, s: Server): Hash {
    var w := LastWrite(trace, s);
    if w.Some? then w.value.identity else NONE
  }

  function LastTools(trace: seq<Event>, s: Server): seq<ToolMeta> {
    var w := LastWrite(trace, s);
    if w.Some? then w.value.tools else []
  }

  /** The runtime row holds exactly what the last list-writing probe saw. */
  lemma {:induction false} RuntimeIsLastWrite(trace: seq<Event>, s: Server)
    ensures var row := Row(Run(trace), s);
            row.emptyStreak == EmptyRun(trace, s) && row.identity == LastIdentity(trace, s)
                && row.tools == LastTools(trace, s)
  {
    if trace != [] {
      RuntimeIsLastWrite(trace[..|trace| - 1], s);
    }
  }

  /** An event that approves k. */
  predicate Approves(e: Event, k: Key) {
    (e.ApproveEv? && e.k == k && k.1 != STAR) || (e.ApproveServerEv? && k == (e.s, STAR))
  }

  /** A listing of the tool of k (for the server-level row, any non-empty listing). */
  predicate Lists(e: Event, k: Key) { e.SuccessEv? && Beats(e.tools, e.s, k) }

  /** The last approval of k. */
  function LastApproval(trace: seq<Event>, k: Key): (r: Option<Event>)
    ensures r.Some? ==> r.value in trace && Approves(r.value, k)
  {
    if trace == [] then None
    else if Approves(trace[|trace| - 1], k) then Some(trace[|trace| - 1])
    else LastApproval(trace[..|trace| - 1], k)
  }

  /** The time of the last approval or listing of k; None when k was never approved, or was revoked or expired
      since. */
  function LastLease(trace: seq<Event>, k: Key): Option<int> {
    if trace == [] then None
    else
      var e, lease := trace[|trace| - 1], LastLease(trace[..|trace| - 1], k);
      if Approves(e, k) then Some(e.now)
      else if lease.None? then None
      else if e == RevokeEv(k) || e == RevokeAllEv(k.0) then None
      else if e.ReadEv? && 0 < lease.value < e.now - HYGIENE_WINDOW then None
      else if Lists(e, k) then Some(e.now)
      else lease
  }

  function SchemaOf(e: Event): Hash { if e.ApproveEv? then e.schema else NONE }

  /** The approval rows are what the trace says: present while there is a lease, last seen at its time, with the
      hashes of the last approval. */
  lemma {:induction false} ApprovalIsLastLease(trace: seq<Event>, k: Key)
    ensures k in Run(trace).approvals <==> LastLease(trace, k).Some?
    ensures k in Run(trace).approvals ==>
              var a, ok := Run(trace).approvals[k], LastApproval(trace, k);
              && a.lastSeen == LastLease(trace, k).value && ok.Some?
              && a.identity == ok.value.identity && a.schema == SchemaOf(ok.value)
  {
    if trace != [] {
      ApprovalIsLastLease(trace[..|trace| - 1], k);
    }
  }

  /** The description hash the user last saw: that of the last approval of k or acknowledgement since. */
  function LastDesc(trace: seq<Event>, k: Key): Hash {
    if trace == [] then NONE
    else
      var e := trace[|trace| - 1];
      if Approves(e, k) then (if e.ApproveEv? then e.desc else NONE)
      else if e.AckEv? && e.k == k && e.desc != NONE then e.desc
      else LastDesc(trace[..|trace| - 1], k)
  }

  lemma DatedStep(db: Db, e: Event, k: Key)
    requires k in Apply(db, e).approvals
    ensures var a := Apply(db, e).approvals[k];
            if Approves(e, k) then a.approvedAt == e.now && a.desc == if e.ApproveEv? then e.desc else NONE
            else k in db.approvals && a.approvedAt == db.approvals[k].approvedAt
                 && a.desc == if e.AckEv? && e.k == k && e.desc != NONE then e.desc else db.approvals[k].desc
  {
  }

  /** The other columns of an approval: when it was given, and the description that was last shown. */
  lemma {:induction false} ApprovalIsDated(trace: seq<Event>, k: Key)
    requires k in Run(trace).approvals
    ensures LastApproval(trace, k).Some? && Run(trace).approvals[k].approvedAt == LastApproval(trace, k).value.now
    ensures Run(trace).approvals[k].desc == LastDesc(trace, k)
  {
    var front, e := trace[..|trace| - 1], trace[|trace| - 1];
    DatedStep(Run(front), e, k);
    if !Approves(e, k) { ApprovalIsDated(front, k); }
  }

  /** The interface gate, read off the trace. */
  predicate SchemaIsListed(trace: seq<Event>, k: Key, schema: Hash) {
    var m := FindTool(LastTools(trace, k.0), k.1);
    m.Some? && schema == m.value.schema != NONE
  }

  /** Approval soundness, exactly: an ordinary approval counts if and only if it was last approved with the non-empty
      identity and the non-empty schema hash of the last list-writing probe, is neither revoked nor expired since,
      and was approved or listed within the last seven days. */
  lemma ApprovalSoundness(trace: seq<Event>, k: Key, now: int)
    requires k.1 != STAR
    ensures Effective(Run(trace), k, now) <==>
            var ok, lease := LastApproval(trace, k), LastLease(trace, k);
            && ok.Some? && lease.Some? && now - lease.value <= STALE_WINDOW
            && ok.value.identity == LastIdentity(trace, k.0) != NONE && SchemaIsListed(trace, k, SchemaOf(ok.value))
  {
    RuntimeIsLastWrite(trace, k.0);
    ApprovalIsLastLease(trace, k);
  }

  /** The server-level approval counts exactly while its identity is the non-empty one of the last list-writing
      probe. */
  lemma ServerApprovalSoundness(trace: seq<Event>, s: Server, now: int)
    requires (s, STAR) in Run(trace).approvals
    ensures Effective(Run(trace), (s, STAR), now) <==>
            Run(trace).approvals[(s, STAR)].identity == LastIdentity(trace, s) != NONE
  {
    RuntimeIsLastWrite(trace, s);
  }

  /** The settings page and the gates agree on every row. */
  lemma ReasonsMatchGates(db: Db, k: Key, now: int)
    requires k in db.approvals
    ensures ReasonFor(db, k, now).NoReason? <==> Effective(db, k, now)
  {
  }

  /** Hygiene never changes which ordinary approvals count; a server-level one is lost exactly when it expired. */
  lemma HygieneIsHarmless(db: Db, k: Key, now: int)
    ensures k.1 != STAR ==> (Effective(Hygiene(db, now), k, now) <==> Effective(db, k, now))
    ensures k.1 == STAR ==> (Effective(Hygiene(db, now), k, now) <==>
                             Effective(db, k, now) && !Expired(db.approvals[k], now))
  {
  }

  /** The listing time moves exactly with the list: not on a first empty success. */
  lemma ListedAtMovesWithTheList(trace: seq<Event>, e: Event)
    requires e.SuccessEv?
    ensures Row(Run(trace + [e]), e.s).listedAt ==
            if e.tools != [] || EmptyRun(trace, e.s) >= 1 then e.now else Row(Run(trace), e.s).listedAt
  {
    RuntimeIsLastWrite(trace, e.s);
    assert (trace + [e])[..|trace + [e]| - 1] == trace;
  }

  // ---------- Blips ----------

  /** Failures, claims and empty listings. */
  predicate IsBlip(e: Event, s: Server) {
    e.ProbeEv? || e.FailureEv? || (e.SuccessEv? && e.s == s && e.tools == [])
  }

  function CountEmpty(mid: seq<Event>): nat {
    if mid == [] then 0 else CountEmpty(mid[..|mid| - 1]) + if mid[|mid| - 1].SuccessEv? then 1 else 0
  }

  lemma RunSnoc(a: seq<Event>, mid: seq<Event>)
    requires mid != []
    ensures Run(a + mid) == Apply(Run(a + mid[..|mid| - 1]), mid[|mid| - 1])
  {
    assert (a + mid)[..|a + mid| - 1] == a + mid[..|mid| - 1];
  }

  /** Probe blips are harmless: whatever mix of failures, claims and empty listings of one server follows, all
      approvals stay as they are, and the list and the identity stay as they are as long as the empty listings,
      those before included, are not two in a row among the successes; from the second on the list is empty. */
  lemma {:induction false} BlipsAreHarmless(a: seq<Event>, mid: seq<Event>, s: Server)
    requires forall i :: 0 <= i < |mid| ==> IsBlip(mid[i], s)
    ensures var db, db' := Run(a), Run(a + mid);
            && db'.approvals == db.approvals
            && Row(db', s).emptyStreak == Row(db, s).emptyStreak + CountEmpty(mid)
            && (Row(db', s).emptyStreak <= 1 || CountEmpty(mid) == 0 ==>
                  Row(db', s).tools == Row(db, s).tools && Row(db', s).identity == Row(db, s).identity
                  && Row(db', s).listedAt == Row(db, s).listedAt)
            && (Row(db', s).emptyStreak >= 2 && CountEmpty(mid) > 0 ==> Row(db', s).tools == [])
  {
    if mid == [] {
      assert a + mid == a;
    } else {
      var front, e := mid[..|mid| - 1], mid[|mid| - 1];
      BlipsAreHarmless(a, front, s);
      RunSnoc(a, mid);
      BlipStep(Run(a + front), e, s);
    }
  }

  lemma BlipStep(db: Db, e: Event, s: Server)
    requires IsBlip(e, s)
    ensures var db' := Apply(db, e);
            && db'.approvals == db.approvals
            && Row(db', s).emptyStreak == Row(db, s).emptyStreak + (if e.SuccessEv? then 1 else 0)
            && (e.SuccessEv? && Row(db, s).emptyStreak >= 1 ==> Row(db', s).tools == [])
            && (!(e.SuccessEv? && Row(db, s).emptyStreak >= 1) ==>
                  Row(db', s).tools == Row(db, s).tools && Row(db', s).identity == Row(db, s).identity
                  && Row(db', s).listedAt == Row(db, s).listedAt)
  {
    if e.SuccessEv? {
      forall k | k in db.approvals ensures !Beats(e.tools, e.s, k) {}
      assert Heartbeat(db.approvals, e.s, e.tools, e.now) == db.approvals;
    }
  }

  /** Single flight: from a granted claim until the save of that server, no claim of it is granted. */
  lemma {:induction false} SingleFlight(a: seq<Event>, s: Server, mid: seq<Event>)
    requires ProbeFree(Run(a), s)
    requires forall i :: 0 <= i < |mid| ==>
        !(mid[i].SuccessEv? && mid[i].s == s) && !(mid[i].FailureEv? && mid[i].s == s)
    ensures !ProbeFree(Run(a + [ProbeEv(s)] + mid), s)
  {
    var b := a + [ProbeEv(s)];
    if mid == [] {
      RunSnoc(a, [ProbeEv(s)]);
      assert [ProbeEv(s)][..0] == [] && a + [] == a && b + mid == b;
    } else {
      SingleFlight(a, s, mid[..|mid| - 1]);
      RunSnoc(b, mid);
    }
  }

  predicate Saves(e: Event, s: Server) { (e.SuccessEv? || e.FailureEv?) && e.s == s }

  /** A probe of s was claimed and nothing was saved for s since. */
  predicate InFlight(trace: seq<Event>, s: Server) {
    trace != [] &&
    var e := trace[|trace| - 1];
    (e == ProbeEv(s) || (!Saves(e, s) && InFlight(trace[..|trace| - 1], s)))
  }

  /** The next claim of s is granted if and only if no probe of s is in flight: every save, good or bad, frees it. */
  lemma {:induction false} ClaimIffNoneInFlight(trace: seq<Event>, s: Server)
    ensures ProbeFree(Run(trace), s) <==> !InFlight(trace, s)
  {
    if trace != [] {
      ClaimIffNoneInFlight(trace[..|trace| - 1], s);
    }
  }

  /** Failures of s since its last success. */
  function FailRun(trace: seq<Event>, s: Server): nat {
    if trace == [] then 0
    else
      var e, n := trace[|trace| - 1], FailRun(trace[..|trace| - 1], s);
      if !Saves(e, s) then n else if e.FailureEv? then n + 1 else 0
  }

  /** The time of the last save of s that was a success (or a failure); 0 before the first. */
  function LastSave(trace: seq<Event>, s: Server, success: bool): int {
    if trace == [] then 0
    else
      var e := trace[|trace| - 1];
      if Saves(e, s) && e.SuccessEv? == success then e.now else LastSave(trace[..|trace| - 1], s, success)
  }

  /** The bookkeeping columns say what the trace says: consecutive failures, last success and last failure, and
      descriptive columns from the probe that wrote the list. */
  lemma {:induction false} BookkeepingIsExact(trace: seq<Event>, s: Server)
    ensures var row := Row(Run(trace), s);
            && row.failStreak == FailRun(trace, s) && row.lastOkAt == LastSave(trace, s, true)
            && row.lastErrorAt == LastSave(trace, s, false)
            && row.info == (if LastWrite(trace, s).Some? then LastWrite(trace, s).value.info else 0)
  {
    RuntimeIsLastWrite(trace, s);
    if trace != [] {
      RuntimeIsLastWrite(trace[..|trace| - 1], s);
      BookkeepingIsExact(trace[..|trace| - 1], s);
    }
  }

  // ---------- Leases only grow ----------

  function TimeOf(e: Event, otherwise: int): int {
    match e
    case SuccessEv(_, _, _, _, now) => now
    case FailureEv(_, now) => now
    case ApproveEv(_, _, _, _, now) => now
    case ApproveServerEv(_, _, now) => now
    case ReadEv(now) => now
    case _ => otherwise
  }

  /** The clock after a trace that started at t0, and that it never went back. */
  function Clock(trace: seq<Event>, t0: int): int {
    if trace == [] then t0
    else
      var t := Clock(trace[..|trace| - 1], t0);
      TimeOf(trace[|trace| - 1], t)
  }

  predicate Monotone(trace: seq<Event>, t0: int) {
    trace == [] || (Monotone(trace[..|trace| - 1], t0) && Clock(trace[..|trace| - 1], t0) <= Clock(trace, t0))
  }

  lemma {:induction false} LeasesAreInThePast(trace: seq<Event>, t0: int, k: Key)
    requires Monotone(trace, t0) && k in Run(trace).approvals
    ensures Run(trace).approvals[k].lastSeen <= Clock(trace, t0)
  {
    var front := trace[..|trace| - 1];
    if k in Run(front).approvals { LeasesAreInThePast(front, t0, k); }
  }

  /** With a clock that never goes back, no lease ever gets shorter, even across a revocation and a new approval. */
  lemma {:induction false} LeasesOnlyGrow(a: seq<Event>, b: seq<Event>, t0: int, k: Key)
    requires Monotone(a + b, t0) && k in Run(a).approvals && k in Run(a + b).approvals
    ensures Run(a).approvals[k].lastSeen <= Run(a + b).approvals[k].lastSeen && Monotone(a, t0)
  {
    if b == [] {
      assert a + b == a;
    } else {
      var front := b[..|b| - 1];
      assert (a + b)[..|a + b| - 1] == a + front;
      if k in Run(a + front).approvals {
        LeasesOnlyGrow(a, front, t0, k);
        LeasesAreInThePast(a + front, t0, k);
      } else {
        ClockGrows(a, front, t0);
        LeasesAreInThePast(a, t0, k);
      }
    }
  }

  lemma {:induction false} ClockGrows(a: seq<Event>, b: seq<Event>, t0: int)
    requires Monotone(a + b, t0)
    ensures Monotone(a, t0) && Clock(a, t0) <= Clock(a + b, t0)
  {
    if b == [] {
      assert a + b == a;
    } else {
      assert (a + b)[..|a + b| - 1] == a + b[..|b| - 1];
      ClockGrows(a, b[..|b| - 1], t0);
    }
  }

  // ---------- A stale approval can come back ----------

  /** No event of `mid` approves k. */
  predicate NoApproval(mid: seq<Event>, k: Key) {
    forall i :: 0 <= i < |mid| ==> !Approves(mid[i], k)
  }

  predicate ListedSince(mid: seq<Event>, k: Key, since: int) {
    exists i :: 0 <= i < |mid| && Lists(mid[i], k) && mid[i].now >= since
  }

  lemma ListedSnoc(front: seq<Event>, e: Event, k: Key, since: int)
    ensures ListedSince(front + [e], k, since) <==> ListedSince(front, k, since) || (Lists(e, k) && e.now >= since)
  {
    if ListedSince(front, k, since) {
      var i :| 0 <= i < |front| && Lists(front[i], k) && front[i].now >= since;
      assert (front + [e])[i] == front[i];
    }
    if Lists(e, k) && e.now >= since { assert (front + [e])[|front|] == e; }
  }

  /** Without a new approval a row that is there at the end was there all along, and its lease lies at or after
      `since` if and only if it did before or the tool was listed since. */
  lemma {:induction false} LeaseFromListing(a: seq<Event>, mid: seq<Event>, t0: int, k: Key, since: int)
    requires Monotone(a + mid, t0) && NoApproval(mid, k) && k in Run(a + mid).approvals
    ensures k in Run(a).approvals
    ensures Run(a + mid).approvals[k].lastSeen >= since <==>
            Run(a).approvals[k].lastSeen >= since || ListedSince(mid, k, since)
  {
    if mid == [] {
      assert a + mid == a;
    } else {
      var front, e := mid[..|mid| - 1], mid[|mid| - 1];
      assert (a + mid)[..|a + mid| - 1] == a + front && mid == front + [e];
      LeaseStep(Run(a + front), e, k);
      LeaseFromListing(a, front, t0, k, since);
      ListedSnoc(front, e, k, since);
      LeasesAreInThePast(a + front, t0, k);
    }
  }

  lemma LeaseStep(db: Db, e: Event, k: Key)
    requires !Approves(e, k) && k in Apply(db, e).approvals
    ensures k in db.approvals
    ensures Apply(db, e).approvals[k].lastSeen == if Lists(e, k) then e.now else db.approvals[k].lastSeen
  {
  }

  /** The stale gate is not permanent.  With a clock that never goes back, an ordinary approval that is stale after
      `a` counts at `now` after `mid`, nobody having approved it again, if and only if its row is still there, `mid`
      holds a listing of its tool within the last seven days, and the config and interface gates hold. */
  lemma StaleApprovalRevivesIff(a: seq<Event>, mid: seq<Event>, t0: int, k: Key, now: int)
    requires k.1 != STAR && Monotone(a + mid, t0) && now >= Clock(a + mid, t0) && NoApproval(mid, k)
    requires k in Run(a).approvals && !StaleGate(Run(a).approvals[k], Clock(a, t0))
    ensures Effective(Run(a + mid), k, now) <==>
            var db := Run(a + mid);
            && k in db.approvals && ListedSince(mid, k, now - STALE_WINDOW)
            && ConfigGate(db, k, db.approvals[k]) && InterfaceGate(db, k, db.approvals[k])
  {
    if k in Run(a + mid).approvals {
      LeaseFromListing(a, mid, t0, k, now - STALE_WINDOW);
      ClockGrows(a, mid, t0);
    }
  }

  /** A tool is listed and approved at time t, then only failures follow, and it comes back after more than a week. */
  function LongGone(s: Server, tool: ToolMeta, id: Hash, t: int): seq<Event> {
    [SuccessEv(s, id, 0, [tool], t), ApproveEv((s, tool.name), id, tool.schema, tool.desc, t),
     FailureEv(s, t + STALE_WINDOW + 1)]
  }

  /** It does happen, whenever it starts: a tool gone for more than a week comes back with the same name, identity and
      schema, and the old approval counts again without the user being asked. */
  lemma StaleApprovalRevives(s: Server, tool: ToolMeta, id: Hash, t: int)
    requires id != NONE && tool.schema != NONE && tool.name != STAR
    ensures var a, k, late := LongGone(s, tool, id, t), (s, tool.name), t + STALE_WINDOW + 1;
            && !Effective(Run(a), k, late)
            && Effective(Run(a + [SuccessEv(s, id, 0, [tool], late)]), k, late)
  {
    var a, k, late := LongGone(s, tool, id, t), (s, tool.name), t + STALE_WINDOW + 1;
    var e4 := SuccessEv(s, id, 0, [tool], late);
    assert a[..2] == [a[0], a[1]] && [a[0], a[1]][..1] == [a[0]] && [a[0]][..0] == [];
    assert (a + [e4])[..3] == a;
    assert [tool][|[tool]| - 1] == tool && Listed([tool], tool.name) by { assert [tool][0].name == tool.name; }
    ApprovalSoundness(a, k, late);
    ApprovalSoundness(a + [e4], k, late);
  }
}
