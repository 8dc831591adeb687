/**
  Document distillation (agent/notes_distill.py, agent/notes_distill_scan.py):
  a job table keyed by file path, a scanner that enqueues changed files, a
  worker that claims, retries and tombstones, and a sweep of dead tombstones.
  Notes belong to users and a scan looks at one user's notes and jobs, but a
  path has one job row, whoever asked last.
 */
module Distill {
  import opened Common

  const MAX_ATTEMPTS := 3

  type Path = nat
  type User = nat

  datatype Status = Pending | Running | Failed | Skipped

  /** `user` is whom the job is for; `cancelled` says that the reason of a tombstone is the user's cancellation; `noted`
      is where the worker stands: the running attempt has saved its note. */
  datatype Job = Job(user: User, mtime: nat, status: Status, attempts: nat, manual: bool, enqueuedAt: int,
                     cancelled: bool, noted: bool)

  /** A user's summary note of a file and the file time it was made from. */
  datatype Note = Note(mtime: nat, curated: bool)
  type Notes = map<(User, Path), Note>

  datatype State = State(jobs: map<Path, Job>, notes: Notes, disk: map<Path, nat>)

  predicate Tombstone(j: Job) { j.status == Failed || j.status == Skipped }

  /** The file time of a user's note, -1 without one. */
  function NoteTime(notes: Notes, u: User, p: Path): int { if (u, p) in notes then notes[(u, p)].mtime as int else -1 }

  predicate Curated(s: State, u: User, p: Path) { (u, p) in s.notes && s.notes[(u, p)].curated }

  /** The job row of the path is there and belongs to the user. */
  predicate Owns(jobs: map<Path, Job>, u: User, p: Path) { p in jobs && jobs[p].user == u }

  /** The file time the scanner knows for a user and a path, -1 when it knows none. */
  function Known(s: State, u: User, p: Path): int {
    var n := NoteTime(s.notes, u, p);
    if Owns(s.jobs, u, p) then Max(Max(n, 0), s.jobs[p].mtime) else n
  }

  // ---------- Row operations ----------

  /** The coalescing upsert: a running row is left alone, a manual origin is kept, and the row becomes the user's. */
  function EnqueueRow(jobs: map<Path, Job>, u: User, p: Path, mtime: nat, manual: bool, now: int): map<Path, Job> {
    if p in jobs && jobs[p].status == Running then jobs
    else jobs[p := Job(u, mtime, Pending, 0, manual || (p in jobs && jobs[p].manual), now, false, false)]
  }

  predicate Due(s: State, u: User, p: Path) { p in s.disk && s.disk[p] > Known(s, u, p) }

  /** The row of p after a scan for the user that reached it. */
  function ScannedRow(s: State, u: User, p: Path, now: int): Option<Job> {
    if Due(s, u, p) && !(p in s.jobs && s.jobs[p].status == Running)
    then Some(Job(u, s.disk[p], Pending, 0, p in s.jobs && s.jobs[p].manual, now, false, false))
    else if p in s.jobs then Some(s.jobs[p]) else None
  }

  /** One atomic scan of the given paths: everything newer than known is enqueued. */
  function Scan(s: State, u: User, paths: set<Path>, now: int): State {
    s.(jobs := map p | p in s.jobs.Keys + paths && (p in paths ==> ScannedRow(s, u, p, now).Some?) ::
                 if p in paths then ScannedRow(s, u, p, now).value else s.jobs[p])
  }

  /** A row that the sweep for a user deletes when its file is gone; cancelled ones never. */
  predicate Sweepable(j: Job, u: User) { j.user == u && Tombstone(j) && !j.cancelled }

  /** Tombstones of the user's files that are gone are deleted. */
  function Sweep(s: State, u: User): State {
    s.(jobs := map p | p in s.jobs && !(Sweepable(s.jobs[p], u) && p !in s.disk) :: s.jobs[p])
  }

  predicate IsRunning(s: State, p: Path) { p in s.jobs && s.jobs[p].status == Running }

  function SetRow(s: State, p: Path, j: Job): State { s.(jobs := s.jobs[p := j]) }

  function Claim(s: State, p: Path): State {
    if p in s.jobs && s.jobs[p].status == Pending
    then SetRow(s, p, s.jobs[p].(status := Running, attempts := s.jobs[p].attempts + 1, noted := false)) else s
  }

  function Bounce(s: State, p: Path): State {
    if IsRunning(s, p) && s.jobs[p].attempts > 0
    then SetRow(s, p, s.jobs[p].(status := Pending, attempts := s.jobs[p].attempts - 1)) else s
  }

  function Fail(s: State, p: Path, retryable: bool): State {
    if !IsRunning(s, p) then s
    else
      var j := s.jobs[p];
      SetRow(s, p, j.(status := if !retryable || j.attempts >= MAX_ATTEMPTS then Failed
          else Pending, cancelled := false))
  }

  function Skip(s: State, p: Path): State {
    if IsRunning(s, p) then SetRow(s, p, s.jobs[p].(status := Skipped, cancelled := false)) else s
  }

  /** The summary of a running job is written; a curated note keeps its text and its file time. */
  function WriteNote(s: State, p: Path): State {
    if !IsRunning(s, p) then s
    else
      var j := s.jobs[p];
      State(s.jobs[p := j.(noted := true)],
            if Curated(s, j.user, p) then s.notes else s.notes[(j.user, p) := Note(j.mtime, false)], s.disk)
  }

  /** The row of a job whose note was saved is deleted, whatever became of the note meanwhile. */
  function Finish(s: State, p: Path): State {
    if IsRunning(s, p) && s.jobs[p].noted then s.(jobs := s.jobs - {p}) else s
  }

  /** The user confirms a note, takes the confirmation back, or deletes the note. */
  function SetCurated(s: State, u: User, p: Path, curated: bool): State {
    if (u, p) in s.notes then s.(notes := s.notes[(u, p) := s.notes[(u, p)].(curated := curated)]) else s
  }

  function DeleteNote(s: State, u: User, p: Path): State { s.(notes := s.notes - {(u, p)}) }

  function Cancel(s: State, u: User, p: Path): State {
    if Owns(s.jobs, u, p) && s.jobs[p].status == Pending
    then SetRow(s, p, s.jobs[p].(status := Skipped, cancelled := true)) else s
  }

  function Restart(s: State): State {
    s.(jobs := map p | p in s.jobs :: if s.jobs[p].status == Running then s.jobs[p].(status := Pending) else s.jobs[p])
  }

  // ---------- Runs ----------

  datatype Step =
    | TouchStep(p: Path, mtime: nat)
    | RemoveStep(p: Path)
    | ScanStep(u: User, paths: set<Path>, now: int)
    | SweepStep(u: User)
    | ClaimStep(p: Path)
    | BounceStep(p: Path)
    | NoteStep(p: Path)
    | FinishStep(p: Path)
    | FailStep(p: Path, retryable: bool)
    | SkipStep(p: Path)
    | CancelStep(u: User, p: Path)
    | ManualStep(u: User, p: Path, mtime: nat, now: int)
    | CurateStep(u: User, p: Path)
    | UncurateStep(u: User, p: Path)
    | DeleteNoteStep(u: User, p: Path)
    | RestartStep

  function Next(s: State, step: Step): State {
    match step
    case TouchStep(p, m) => s.(disk := s.disk[p := m])
    case RemoveStep(p) => s.(disk := s.disk - {p})
    case ScanStep(u, paths, now) => Scan(s, u, paths, now)
    case SweepStep(u) => Sweep(s, u)
    case ClaimStep(p) => Claim(s, p)
    case BounceStep(p) => Bounce(s, p)
    case NoteStep(p) => WriteNote(s, p)
    case FinishStep(p) => Finish(s, p)
    case FailStep(p, retryable) => Fail(s, p, retryable)
    case SkipStep(p) => Skip(s, p)
    case CancelStep(u, p) => Cancel(s, u, p)
    case ManualStep(u, p, m, now) => s.(jobs := EnqueueRow(s.jobs, u, p, m, true, now))
    case CurateStep(u, p) => SetCurated(s, u, p, true)
    case UncurateStep(u, p) => SetCurated(s, u, p, false)
    case DeleteNoteStep(u, p) => DeleteNote(s, u, p)
    case RestartStep => Restart(s)
  }

  function Run(s: State, steps: seq<Step>): State {
    if steps == [] then s else Next(Run(s, steps[..|steps| - 1]), steps[|steps| - 1])
  }

  // ---------- Quiescence ----------

  /** Claims of the version (p, m), quota bounces taken back, along a run. */
  function Claims(s: State, steps: seq<Step>, p: Path, m: nat): int {
    if steps == [] then 0
    else
      var front, last := steps[..|steps| - 1], steps[|steps| - 1];
      Claims(s, front, p, m) + ClaimDelta(Run(s, front), last, p, m)
  }

  function ClaimDelta(s: State, step: Step, p: Path, m: nat): int {
    if p !in s.jobs || s.jobs[p].mtime != m then 0
    else if step == ClaimStep(p) && s.jobs[p].status == Pending then 1
    else if step == BounceStep(p) && s.jobs[p].status == Running && s.jobs[p].attempts > 0 then -1
    else 0
  }

  /** What a step adds to the claims a version may have: a restart lets the interrupted attempt be repeated, and a
      file that comes back or a note of the user that is deleted gives the version a fresh budget. */
  function Allowance(s: State, step: Step, u: User, p: Path): nat {
    if step.RestartStep? then 1
    else if step == DeleteNoteStep(u, p) || (step.TouchStep? && step.p == p && p !in s.disk) then MAX_ATTEMPTS
    else 0
  }

  function Allowances(s: State, steps: seq<Step>, u: User, p: Path): nat {
    if steps == [] then 0
    else
      var front, last := steps[..|steps| - 1], steps[|steps| - 1];
      Allowances(s, front, u, p) + Allowance(Run(s, front), last, u, p)
  }

  /** The steps the claim is about: only users in `who` have the file in a root that is scanned for them, none of them
      curates a note of it, and nobody asks for it by hand. */
  predicate Ordinary(steps: seq<Step>, who: set<User>, p: Path) {
    forall i :: 0 <= i < |steps| ==> OrdinaryStep(steps[i], who, p)
  }

  predicate OrdinaryStep(step: Step, who: set<User>, p: Path) {
    && !(step.ManualStep? && step.p == p)
    && (step.CurateStep? && step.p == p ==> step.u !in who)
    && (step.ScanStep? && p in step.paths ==> step.u in who)
  }

  /** The note is not curated, and a queued job is the user's and not older than the note. */
  predicate Fresh(s: State, u: User, p: Path) {
    && !Curated(s, u, p)
    && (p in s.jobs ==> s.jobs[p].user == u && NoteTime(s.notes, u, p) <= s.jobs[p].mtime)
  }

  /** The note that the running attempt saved is there. */
  predicate NoteInPlace(s: State, u: User, p: Path) {
    IsRunning(s, p) && s.jobs[p].noted ==> NoteTime(s.notes, u, p) == s.jobs[p].mtime
  }

  /** Where the version (p, m) stands after n net claims and b extra ones allowed. */
  predicate Tracked(s: State, u: User, p: Path, m: nat, n: int, b: nat) {
    && Fresh(s, u, p) && n <= MAX_ATTEMPTS + b
    && (p in s.disk && Known(s, u, p) < m ==> n <= b)
    && (p in s.jobs && s.jobs[p].mtime == m ==>
          n - s.jobs[p].attempts <= b && (s.jobs[p].status == Pending ==> n <= MAX_ATTEMPTS - 1 + b))
    && (NoteInPlace(s, u, p) || n <= b)
  }

  lemma TrackScan(s: State, paths: set<Path>, now: int, u: User, p: Path, m: nat, n: int, b: nat)
    requires Tracked(s, u, p, m, n, b)
    ensures Tracked(Scan(s, u, paths, now), u, p, m, n, b) && Known(s, u, p) <= Known(Scan(s, u, paths, now), u, p)
  {
  }

  lemma ScanElsewhere(s: State, v: User, paths: set<Path>, now: int, u: User, p: Path, m: nat, n: int, b: nat)
    requires Tracked(s, u, p, m, n, b) && p !in paths
    ensures Tracked(Scan(s, v, paths, now), u, p, m, n, b)
  {
  }

  /** The steps of the worker. */
  predicate IsWork(step: Step) {
    step.ClaimStep? || step.BounceStep? || step.NoteStep? || step.FinishStep? || step.FailStep? || step.SkipStep?
  }

  lemma TrackWork(s: State, step: Step, u: User, p: Path, m: nat, n: int, b: nat)
    requires Tracked(s, u, p, m, n, b) && IsWork(step)
    ensures Tracked(Next(s, step), u, p, m, n + ClaimDelta(s, step, p, m), b)
  {
    if step.ClaimStep? || step.BounceStep? { TrackClaim(s, step, u, p, m, n, b); }
  }

  lemma TrackClaim(s: State, step: Step, u: User, p: Path, m: nat, n: int, b: nat)
    requires Tracked(s, u, p, m, n, b) && (step.ClaimStep? || step.BounceStep?)
    ensures Tracked(Next(s, step), u, p, m, n + ClaimDelta(s, step, p, m), b)
  {
  }

  lemma TrackStep(s: State, step: Step, u: User, p: Path, m: nat, n: int, b: nat)
    requires Tracked(s, u, p, m, n, b) && OrdinaryStep(step, {u}, p)
    ensures Tracked(Next(s, step), u, p, m, n + ClaimDelta(s, step, p, m), b + Allowance(s, step, u, p))
  {
    if step.ScanStep? {
      if p in step.paths {
        TrackScan(s, step.paths, step.now, u, p, m, n, b);
      } else {
        ScanElsewhere(s, step.u, step.paths, step.now, u, p, m, n, b);
      }
    } else if IsWork(step) {
      TrackWork(s, step, u, p, m, n, b);
    } else {
      TrackRest(s, step, u, p, m, n, b);
    }
  }

  lemma TrackRest(s: State, step: Step, u: User, p: Path, m: nat, n: int, b: nat)
    requires Tracked(s, u, p, m, n, b) && OrdinaryStep(step, {u}, p) && !step.ScanStep? && !IsWork(step)
    ensures ClaimDelta(s, step, p, m) == 0 && Tracked(Next(s, step), u, p, m, n, b + Allowance(s, step, u, p))
  {
  }

  /** Quiescence: a version of a file that was not known before, in a root that is scanned for one user, is claimed at
      most MAX_ATTEMPTS times, quota bounces aside, one more for each restart and MAX_ATTEMPTS more each time the file
      comes back or its note is deleted, however scans, sweeps, changes of files and notes and worker passes
      interleave. */
  lemma {:induction false} Quiescence(s: State, steps: seq<Step>, u: User, p: Path, m: nat)
    requires Fresh(s, u, p) && Known(s, u, p) < m && Ordinary(steps, {u}, p)
    ensures Claims(s, steps, p, m) <= MAX_ATTEMPTS + Allowances(s, steps, u, p)
    ensures Tracked(Run(s, steps), u, p, m, Claims(s, steps, p, m), Allowances(s, steps, u, p))
  {
    if steps != [] {
      var front, last := steps[..|steps| - 1], steps[|steps| - 1];
      Quiescence(s, front, u, p, m);
      TrackStep(Run(s, front), last, u, p, m, Claims(s, front, p, m), Allowances(s, front, u, p));
    }
  }

  /** One scan, claim, note and finish of p. */
  function Round(u: User, p: Path, now: int): seq<Step> {
    [ScanStep(u, {p}, now), ClaimStep(p), NoteStep(p), FinishStep(p)]
  }

  /** The file gets time m, and then n rounds. */
  function Rounds(u: User, p: Path, m: nat, now: int, n: nat): seq<Step> {
    if n == 0 then [TouchStep(p, m)] else Rounds(u, p, m, now, n - 1) + Round(u, p, now)
  }

  lemma {:induction false} Snoc(s: State, steps: seq<Step>, step: Step, u: User, p: Path, m: nat)
    ensures Run(s, steps + [step]) == Next(Run(s, steps), step)
    ensures Claims(s, steps + [step], p, m) == Claims(s, steps, p, m) + ClaimDelta(Run(s, steps), step, p, m)
    ensures Allowances(s, steps + [step], u, p) == Allowances(s, steps, u, p) + Allowance(Run(s, steps), step, u, p)
  {
    assert (steps + [step])[..|steps + [step]| - 1] == steps;
  }

  /** The file is newer than its curated note and has no job. */
  predicate Rescanned(s: State, u: User, p: Path) {
    p in s.disk && Curated(s, u, p) && s.notes[(u, p)].mtime < s.disk[p] && p !in s.jobs
  }

  /** One scan and one claim of a file whose row, if any, is not running. */
  lemma ScanAndClaim(s: State, u: User, p: Path, now: int) returns (manual: bool)
    requires Due(s, u, p) && !IsRunning(s, p)
    ensures manual == (p in s.jobs && s.jobs[p].manual)
    ensures var s1, m := Scan(s, u, {p}, now), s.disk[p];
            && s1 == s.(jobs := s.jobs[p := Job(u, m, Pending, 0, manual, now, false, false)])
            && Claim(s1, p) == s.(jobs := s.jobs[p := Job(u, m, Running, 1, manual, now, false, false)])
  {
    manual := p in s.jobs && s.jobs[p].manual;
    assert Scan(s, u, {p}, now).jobs == s.jobs[p := Job(u, s.disk[p], Pending, 0, manual, now, false, false)];
  }

  lemma CuratedRound(s: State, u: User, p: Path, now: int)
    requires Rescanned(s, u, p)
    ensures var s2 := Claim(Scan(s, u, {p}, now), p);
            Finish(WriteNote(s2, p), p) == s
  {
    var manual := ScanAndClaim(s, u, p, now);
    assert s.jobs[p := Job(u, s.disk[p], Running, 1, manual, now, false, true)] - {p} == s.jobs;
  }

  /** A scan and a claim along a run. */
  lemma {:induction false} ClaimedOnce(s: State, steps: seq<Step>, w: User, u: User, p: Path, now: int)
    returns (r: seq<Step>)
    requires Due(Run(s, steps), w, p) && !IsRunning(Run(s, steps), p)
    ensures r == steps + [ScanStep(w, {p}, now)] + [ClaimStep(p)]
    ensures Run(s, r) == Claim(Scan(Run(s, steps), w, {p}, now), p)
    ensures var m := Run(s, steps).disk[p]; Claims(s, r, p, m) == Claims(s, steps, p, m) + 1
    ensures Allowances(s, r, u, p) == Allowances(s, steps, u, p)
  {
    var m := Run(s, steps).disk[p];
    var manual := ScanAndClaim(Run(s, steps), w, p, now);
    Snoc(s, steps, ScanStep(w, {p}, now), u, p, m);
    Snoc(s, steps + [ScanStep(w, {p}, now)], ClaimStep(p), u, p, m);
    r := steps + [ScanStep(w, {p}, now)] + [ClaimStep(p)];
  }

  /** A round along a run claims the file once, if it was due and without a job. */
  lemma {:induction false} RoundClaims(s: State, steps: seq<Step>, u: User, p: Path, now: int) returns (s': State)
    requires Due(Run(s, steps), u, p) && p !in Run(s, steps).jobs
    ensures s' == Finish(WriteNote(Claim(Scan(Run(s, steps), u, {p}, now), p), p), p)
    ensures Run(s, steps + Round(u, p, now)) == s'
    ensures var m := Run(s, steps).disk[p]; Claims(s, steps + Round(u, p, now), p, m) == Claims(s, steps, p, m) + 1
    ensures Allowances(s, steps + Round(u, p, now), u, p) == Allowances(s, steps, u, p)
  {
    var m := Run(s, steps).disk[p];
    var r2 := ClaimedOnce(s, steps, u, u, p, now);
    EndRound(s, r2, u, p, m);
    RoundIs(steps, u, p, now);
    s' := Run(s, r2 + [NoteStep(p)] + [FinishStep(p)]);
  }

  lemma RoundIs(steps: seq<Step>, u: User, p: Path, now: int)
    ensures steps + Round(u, p, now) ==
            steps + [ScanStep(u, {p}, now)] + [ClaimStep(p)] + [NoteStep(p)] + [FinishStep(p)]
  {
  }

  lemma {:induction false} EndRound(s: State, steps: seq<Step>, u: User, p: Path, m: nat)
    ensures var all := steps + [NoteStep(p)] + [FinishStep(p)];
            && Run(s, all) == Finish(WriteNote(Run(s, steps), p), p)
            && Claims(s, all, p, m) == Claims(s, steps, p, m) && Allowances(s, all, u, p) == Allowances(s, steps, u, p)
  {
    SnocNote(s, steps, u, p, m);
    SnocFinish(s, steps + [NoteStep(p)], u, p, m);
  }

  lemma {:induction false} SnocNote(s: State, steps: seq<Step>, u: User, p: Path, m: nat)
    ensures var all := steps + [NoteStep(p)];
            && Run(s, all) == WriteNote(Run(s, steps), p)
            && Claims(s, all, p, m) == Claims(s, steps, p, m) && Allowances(s, all, u, p) == Allowances(s, steps, u, p)
  {
    Snoc(s, steps, NoteStep(p), u, p, m);
  }

  lemma {:induction false} SnocFinish(s: State, steps: seq<Step>, u: User, p: Path, m: nat)
    ensures var all := steps + [FinishStep(p)];
            && Run(s, all) == Finish(Run(s, steps), p)
            && Claims(s, all, p, m) == Claims(s, steps, p, m) && Allowances(s, all, u, p) == Allowances(s, steps, u, p)
  {
    Snoc(s, steps, FinishStep(p), u, p, m);
  }

  /** The bound fails for a changed file whose note is curated: the note keeps its old file time, so every scan
      enqueues the file again, and for each n there is a run that claims it n times. */
  lemma {:induction false} CuratedNoteIsRescannedForever(s: State, u: User, p: Path, m: nat, now: int, n: nat)
    requires Curated(s, u, p) && s.notes[(u, p)].mtime < m && p !in s.jobs
    ensures Run(s, Rounds(u, p, m, now, n)) == s.(disk := s.disk[p := m])
    ensures Claims(s, Rounds(u, p, m, now, n), p, m) == n
    ensures Allowances(s, Rounds(u, p, m, now, n), u, p) <= MAX_ATTEMPTS
  {
    if n == 0 {
      Snoc(s, [], TouchStep(p, m), u, p, m);
      assert [] + [TouchStep(p, m)] == [TouchStep(p, m)];
    } else {
      CuratedNoteIsRescannedForever(s, u, p, m, now, n - 1);
      var s' := RoundClaims(s, Rounds(u, p, m, now, n - 1), u, p, now);
      CuratedRound(s.(disk := s.disk[p := m]), u, p, now);
    }
  }

  lemma {:induction false} RoundsAreOrdinary(who: set<User>, u: User, p: Path, m: nat, now: int, n: nat)
    requires u in who
    ensures Ordinary(Rounds(u, p, m, now, n), who, p)
  {
    if n > 0 { RoundsAreOrdinary(who, u, p, m, now, n - 1); }
  }

  // ---------- Two users and one file ----------

  /** A scan for the user and an attempt that fails for good. */
  function FailedRound(w: User, p: Path, now: int): seq<Step> {
    [ScanStep(w, {p}, now), ClaimStep(p), FailStep(p, false)]
  }

  /** A note of v is deleted, the file gets time m, and then n failing attempts, for u and v in turn. */
  function TakingTurns(u: User, v: User, p: Path, m: nat, now: int, n: nat): seq<Step> {
    if n == 0 then [DeleteNoteStep(v, p), TouchStep(p, m)]
    else TakingTurns(u, v, p, m, now, n - 1) + FailedRound(if n % 2 == 1 then u else v, p, now)
  }

  /** A failed round along a run ends in a tombstone that is the user's. */
  lemma {:induction false} RoundFails(s: State, steps: seq<Step>, w: User, u: User, p: Path, now: int)
    requires Due(Run(s, steps), w, p) && !IsRunning(Run(s, steps), p)
    ensures var s0, s' := Run(s, steps), Run(s, steps + FailedRound(w, p, now));
            && s' == s0.(jobs := s'.jobs) && Owns(s'.jobs, w, p) && s'.jobs[p].status == Failed
            && Claims(s, steps + FailedRound(w, p, now), p, s0.disk[p]) == Claims(s, steps, p, s0.disk[p]) + 1
            && Allowances(s, steps + FailedRound(w, p, now), u, p) == Allowances(s, steps, u, p)
  {
    var m := Run(s, steps).disk[p];
    var manual := ScanAndClaim(Run(s, steps), w, p, now);
    var r2 := ClaimedOnce(s, steps, w, u, p, now);
    Snoc(s, r2, FailStep(p, false), u, p, m);
    assert steps + FailedRound(w, p, now) == r2 + [FailStep(p, false)];
  }

  lemma {:induction false} TurnsBegin(s: State, u: User, v: User, p: Path, m: nat, now: int)
    requires u != v
    ensures var steps := TakingTurns(u, v, p, m, now, 0);
            && Run(s, steps) == State(s.jobs, s.notes - {(v, p)}, s.disk[p := m])
            && (p !in s.jobs ==> Claims(s, steps, p, m) == 0) && Allowances(s, steps, u, p) <= MAX_ATTEMPTS
  {
    var a, b := DeleteNoteStep(v, p), TouchStep(p, m);
    Snoc(s, [], a, u, p, m);
    Snoc(s, [a], b, u, p, m);
    assert [] + [a] == [a] && [a] + [b] == [a, b];
  }

  /** After n - 1 turns the file is due for the next one. */
  lemma {:induction false} TurnIsDue(s: State, s': State, u: User, v: User, p: Path, m: nat, n: nat)
    requires u != v && n > 0 && NoteTime(s.notes, u, p) < m
    requires s'.notes == s.notes - {(v, p)} && s'.disk == s.disk[p := m]
    requires if n == 1 then p !in s'.jobs
             else Owns(s'.jobs, if n % 2 == 0 then u else v, p) && s'.jobs[p].status == Failed
    ensures Due(s', if n % 2 == 1 then u else v, p) && !IsRunning(s', p)
  {
  }

  /** What n turns have done. */
  predicate AfterTurns(s: State, steps: seq<Step>, u: User, v: User, p: Path, m: nat, n: nat) {
    var s' := Run(s, steps);
    && Claims(s, steps, p, m) == n && Allowances(s, steps, u, p) <= MAX_ATTEMPTS
    && s'.notes == s.notes - {(v, p)} && s'.disk == s.disk[p := m]
    && (if n == 0 then p !in s'.jobs
        else Owns(s'.jobs, if n % 2 == 1 then u else v, p) && s'.jobs[p].status == Failed)
  }

  lemma {:induction false} OneMoreTurn(s: State, steps: seq<Step>, u: User, v: User, p: Path, m: nat, now: int, n: nat)
    requires u != v && n > 0 && NoteTime(s.notes, u, p) < m && AfterTurns(s, steps, u, v, p, m, n - 1)
    ensures AfterTurns(s, steps + FailedRound(if n % 2 == 1 then u else v, p, now), u, v, p, m, n)
  {
    TurnIsDue(s, Run(s, steps), u, v, p, m, n);
    RoundFails(s, steps, if n % 2 == 1 then u else v, u, p, now);
  }

  /** The bound fails when two users have the file in a root that is scanned for them: a scan knows nothing of the other
      user's job, so it takes the tombstone over with a fresh budget, and for each n there is a run that claims an
      unchanged file n times. */
  lemma {:induction false} TwoUsersTakeTurns(s: State, u: User, v: User, p: Path, m: nat, now: int, n: nat)
    requires u != v && p !in s.jobs && NoteTime(s.notes, u, p) < m
    ensures AfterTurns(s, TakingTurns(u, v, p, m, now, n), u, v, p, m, n)
    ensures Claims(s, TakingTurns(u, v, p, m, now, n), p, m) == n
    ensures Allowances(s, TakingTurns(u, v, p, m, now, n), u, p) <= MAX_ATTEMPTS
  {
    if n == 0 {
      TurnsBegin(s, u, v, p, m, now);
    } else {
      TwoUsersTakeTurns(s, u, v, p, m, now, n - 1);
      OneMoreTurn(s, TakingTurns(u, v, p, m, now, n - 1), u, v, p, m, now, n);
    }
  }

  lemma {:induction false} TurnsAreOrdinary(who: set<User>, u: User, v: User, p: Path, m: nat, now: int, n: nat)
    requires u in who && v in who
    ensures Ordinary(TakingTurns(u, v, p, m, now, n), who, p)
  {
    if n > 0 { TurnsAreOrdinary(who, u, v, p, m, now, n - 1); }
  }

  /** The bound on the claims of the version (p, m) holds along this run. */
  predicate Bounded(s: State, steps: seq<Step>, u: User, p: Path, m: nat) {
    Claims(s, steps, p, m) <= MAX_ATTEMPTS + Allowances(s, steps, u, p)
  }

  /** Exactly when the bound holds: for a file without a queued job, a version newer than known to a user is claimed
      boundedly often on every run if and only if the file is scanned for no other user and the user's note is not
      curated. */
  lemma QuiescenceIff(s: State, who: set<User>, u: User, p: Path, m: nat)
    requires u in who && p !in s.jobs && Known(s, u, p) < m
    ensures (forall steps :: Ordinary(steps, who, p) ==> Bounded(s, steps, u, p, m)) <==>
            who == {u} && !Curated(s, u, p)
  {
    var n := 2 * MAX_ATTEMPTS + 1;
    if v :| v in who && v != u {
      var steps := TakingTurns(u, v, p, m, 0, n);
      TwoUsersTakeTurns(s, u, v, p, m, 0, n);
      TurnsAreOrdinary(who, u, v, p, m, 0, n);
      assert Ordinary(steps, who, p) && !Bounded(s, steps, u, p, m);
    } else if Curated(s, u, p) {
      var steps := Rounds(u, p, m, 0, n);
      CuratedNoteIsRescannedForever(s, u, p, m, 0, n);
      RoundsAreOrdinary(who, u, p, m, 0, n);
      assert Ordinary(steps, who, p) && !Bounded(s, steps, u, p, m);
    } else {
      assert who == {u};
      forall steps | Ordinary(steps, who, p) ensures Bounded(s, steps, u, p, m) { Quiescence(s, steps, u, p, m); }
    }
  }

  // ---------- Deleted and curated notes ----------

  /** The note is deleted, and then n times the file is distilled and its note deleted again. */
  function DeletedRounds(u: User, p: Path, now: int, n: nat): seq<Step> {
    if n == 0 then [DeleteNoteStep(u, p)]
    else DeletedRounds(u, p, now, n - 1) + Round(u, p, now) + [DeleteNoteStep(u, p)]
  }

  lemma {:induction false} DeletedRoundsAreOrdinary(u: User, p: Path, now: int, n: nat)
    ensures Ordinary(DeletedRounds(u, p, now, n), {u}, p)
  {
    if n > 0 { DeletedRoundsAreOrdinary(u, p, now, n - 1); }
  }

  lemma {:induction false} AnotherDeletion(s: State, steps: seq<Step>, u: User, p: Path, now: int)
    requires var s' := Run(s, steps); p in s'.disk && (u, p) !in s'.notes && p !in s'.jobs
    ensures var all, s' := steps + Round(u, p, now) + [DeleteNoteStep(u, p)], Run(s, steps);
            Run(s, all) == s' && Claims(s, all, p, s'.disk[p]) == Claims(s, steps, p, s'.disk[p]) + 1
  {
    var s', m := Run(s, steps), Run(s, steps).disk[p];
    var s'' := RoundClaims(s, steps, u, p, now);
    Snoc(s, steps + Round(u, p, now), DeleteNoteStep(u, p), u, p, m);
    DeletedRound(s', u, p, now);
  }

  /** Why deletions must be counted: an unchanged file whose note is up to date is claimed as often as its note is
      deleted, without a restart and without any change of the file. */
  lemma {:induction false} DeletedNoteIsDistilledAgain(s: State, u: User, p: Path, now: int, n: nat)
    requires p in s.disk && NoteTime(s.notes, u, p) == s.disk[p] && !Curated(s, u, p) && p !in s.jobs
    ensures !Due(s, u, p) && Ordinary(DeletedRounds(u, p, now, n), {u}, p)
    ensures Run(s, DeletedRounds(u, p, now, n)) == DeleteNote(s, u, p)
    ensures Claims(s, DeletedRounds(u, p, now, n), p, s.disk[p]) == n
  {
    DeletedRoundsAreOrdinary(u, p, now, n);
    if n == 0 {
      Snoc(s, [], DeleteNoteStep(u, p), u, p, s.disk[p]);
      assert [] + [DeleteNoteStep(u, p)] == [DeleteNoteStep(u, p)];
    } else {
      DeletedNoteIsDistilledAgain(s, u, p, now, n - 1);
      AnotherDeletion(s, DeletedRounds(u, p, now, n - 1), u, p, now);
    }
  }

  lemma DeletedRound(s: State, u: User, p: Path, now: int)
    requires p in s.disk && (u, p) !in s.notes && p !in s.jobs
    ensures var s2 := Claim(Scan(s, u, {p}, now), p);
            DeleteNote(Finish(WriteNote(s2, p), p), u, p) == s
  {
    var manual := ScanAndClaim(s, u, p, now);
    assert s.jobs[p := Job(u, s.disk[p], Running, 1, manual, now, false, true)] - {p} == s.jobs;
    assert s.notes[(u, p) := Note(s.disk[p], false)] - {(u, p)} == s.notes;
  }

  lemma {:induction false} RunConcat(s: State, a: seq<Step>, b: seq<Step>, u: User, p: Path, m: nat)
    ensures Run(s, a + b) == Run(Run(s, a), b)
    ensures Claims(s, a + b, p, m) == Claims(s, a, p, m) + Claims(Run(s, a), b, p, m)
    ensures Allowances(s, a + b, u, p) == Allowances(s, a, u, p) + Allowances(Run(s, a), b, u, p)
  {
    if b == [] {
      assert a + b == a;
    } else {
      RunConcat(s, a, b[..|b| - 1], u, p, m);
      assert (a + b)[..|a + b| - 1] == a + b[..|b| - 1];
    }
  }

  lemma {:induction false} FirstStep(s: State, step: Step, rest: seq<Step>, u: User, p: Path, m: nat)
    ensures Claims(s, [step] + rest, p, m) == ClaimDelta(s, step, p, m) + Claims(Next(s, step), rest, p, m)
    ensures Allowances(s, [step] + rest, u, p) == Allowance(s, step, u, p) + Allowances(Next(s, step), rest, u, p)
  {
    Snoc(s, [], step, u, p, m);
    assert [] + [step] == [step];
    RunConcat(s, [step], rest, u, p, m);
  }

  /** Why curating must be excluded: once the user curates the note, a later version is claimed without bound. */
  lemma CuratingBreaksTheBound(s: State, u: User, p: Path, m: nat, now: int, n: nat)
    requires (u, p) in s.notes && s.notes[(u, p)].mtime < m && p !in s.jobs
    ensures var steps := [CurateStep(u, p)] + Rounds(u, p, m, now, n);
            Claims(s, steps, p, m) == n && Allowances(s, steps, u, p) <= MAX_ATTEMPTS
  {
    var rest := Rounds(u, p, m, now, n);
    FirstStep(s, CurateStep(u, p), rest, u, p, m);
    CuratedNoteIsRescannedForever(SetCurated(s, u, p, true), u, p, m, now, n);
  }

  // ---------- Changes are picked up ----------

  /** The file is scanned for one user, and nobody touches the file or that user's note. */
  predicate Quiet(steps: seq<Step>, u: User, p: Path) {
    Ordinary(steps, {u}, p) && forall i :: 0 <= i < |steps| ==> QuietStep(steps[i], u, p)
  }

  predicate QuietStep(step: Step, u: User, p: Path) {
    !(step.TouchStep? && step.p == p) && step != RemoveStep(p) && step != DeleteNoteStep(u, p)
  }

  /** A scan reached the file while its row was not running. */
  predicate Caught(s: State, steps: seq<Step>, p: Path) {
    steps != [] &&
    (Caught(s, steps[..|steps| - 1], p)
     || Catches(Run(s, steps[..|steps| - 1]), steps[|steps| - 1], p))
  }

  predicate Catches(s: State, step: Step, p: Path) { step.ScanStep? && p in step.paths && !IsRunning(s, p) }

  /** Only a scan that catches the file changes what is known of it, and then to the file's own time. */
  lemma KnownStep(s: State, step: Step, u: User, p: Path)
    requires Fresh(s, u, p) && NoteInPlace(s, u, p) && p in s.disk && Known(s, u, p) <= s.disk[p]
    requires OrdinaryStep(step, {u}, p) && QuietStep(step, u, p)
    ensures var s' := Next(s, step);
            && Fresh(s', u, p) && NoteInPlace(s', u, p) && p in s'.disk && s'.disk[p] == s.disk[p]
            && Known(s', u, p) == if Catches(s, step, p) then s.disk[p] else Known(s, u, p)
  {
    if step.ScanStep? {
      KnownScan(s, step.u, step.paths, step.now, u, p);
    } else if IsWork(step) {
      KnownWork(s, step, u, p);
    }
  }

  lemma KnownWork(s: State, step: Step, u: User, p: Path)
    requires Fresh(s, u, p) && NoteInPlace(s, u, p) && IsWork(step)
    ensures var s' := Next(s, step);
            Fresh(s', u, p) && NoteInPlace(s', u, p) && s'.disk == s.disk && Known(s', u, p) == Known(s, u, p)
  {
  }

  lemma KnownScan(s: State, v: User, paths: set<Path>, now: int, u: User, p: Path)
    requires Fresh(s, u, p) && NoteInPlace(s, u, p) && p in s.disk && Known(s, u, p) <= s.disk[p]
    requires p in paths ==> v == u
    ensures var s' := Scan(s, v, paths, now);
            && Fresh(s', u, p) && NoteInPlace(s', u, p)
            && Known(s', u, p) == if p in paths && !IsRunning(s, p) then s.disk[p] else Known(s, u, p)
  {
  }

  /** No change is lost: on every run in which nobody touches the file or the user's note again, a change stays due
      until a scan finds the row not running; that scan enqueues the new version with a fresh budget, and from then on
      the known time is the file's own. */
  lemma {:induction false} ChangeIsPickedUp(s: State, steps: seq<Step>, u: User, p: Path, paths: set<Path>, now: int)
    requires Fresh(s, u, p) && NoteInPlace(s, u, p) && Due(s, u, p) && Quiet(steps, u, p)
    ensures var s' := Run(s, steps);
            && p in s'.disk && s'.disk[p] == s.disk[p] && Fresh(s', u, p) && NoteInPlace(s', u, p)
            && Known(s', u, p) == (if Caught(s, steps, p) then s.disk[p] else Known(s, u, p))
            && (Due(s', u, p) <==> !Caught(s, steps, p))
    ensures var s' := Run(s, steps);
            !Caught(s, steps, p) && !IsRunning(s', p) && p in paths ==>
              var row := ScannedRow(s', u, p, now);
              && row.Some? && row.value.mtime == s.disk[p] && row.value.status == Pending && row.value.attempts == 0
              && Scan(s', u, paths, now).jobs[p] == row.value
  {
    if steps != [] {
      var front, last := steps[..|steps| - 1], steps[|steps| - 1];
      ChangeIsPickedUp(s, front, u, p, paths, now);
      KnownStep(Run(s, front), last, u, p);
    }
  }

  // ---------- Cancelled jobs ----------

  /** Only users in `who` have the file scanned, nobody asks for it by hand and its file becomes no newer than m. */
  predicate NotNewer(steps: seq<Step>, who: set<User>, p: Path, m: nat) {
    forall i :: 0 <= i < |steps| ==> NotNewerStep(steps[i], who, p, m)
  }

  predicate NotNewerStep(step: Step, who: set<User>, p: Path, m: nat) {
    && !(step.ManualStep? && step.p == p) && (step.TouchStep? && step.p == p ==> step.mtime <= m)
    && (step.ScanStep? && p in step.paths ==> step.u in who)
  }

  /** The row of p is the cancelled job j, and its file is not newer. */
  predicate Cancelled(s: State, p: Path, j: Job) {
    p in s.jobs && s.jobs[p] == j && j.status == Skipped && j.cancelled && (p in s.disk ==> s.disk[p] <= j.mtime)
  }

  lemma CancelledStep(s: State, step: Step, p: Path, j: Job)
    requires Cancelled(s, p, j) && NotNewerStep(step, {j.user}, p, j.mtime)
    ensures Cancelled(Next(s, step), p, j)
  {
  }

  /** A cancelled job of a file that is scanned for its user only stays cancelled, whether the file vanishes, comes back
      or is scanned, until it becomes newer or somebody asks for it. */
  lemma {:induction false} CancelledStaysCancelled(s: State, steps: seq<Step>, p: Path, j: Job)
    requires Cancelled(s, p, j) && NotNewer(steps, {j.user}, p, j.mtime)
    ensures Cancelled(Run(s, steps), p, j)
  {
    if steps != [] {
      var front := steps[..|steps| - 1];
      CancelledStaysCancelled(s, front, p, j);
      CancelledStep(Run(s, front), steps[|steps| - 1], p, j);
    }
  }

  /** Another user without a note of the file has it scanned. */
  function ScannedForAnother(v: User, p: Path, m: nat): seq<Step> {
    [DeleteNoteStep(v, p), TouchStep(p, m), ScanStep(v, {p}, 0)]
  }

  /** The scan for another user takes the cancelled row over and queues the unchanged file again. */
  lemma {:induction false} CancellationIsErased(s: State, v: User, p: Path, j: Job)
    requires Cancelled(s, p, j) && v != j.user
    ensures NotNewer(ScannedForAnother(v, p, j.mtime), {v}, p, j.mtime)
    ensures var s' := Run(s, ScannedForAnother(v, p, j.mtime));
            Owns(s'.jobs, v, p) && s'.jobs[p].status == Pending && s'.jobs[p].attempts == 0 && !s'.jobs[p].cancelled
  {
    var a, b, c := DeleteNoteStep(v, p), TouchStep(p, j.mtime), ScanStep(v, {p}, 0);
    Snoc(s, [], a, v, p, 0);
    Snoc(s, [a], b, v, p, 0);
    Snoc(s, [a, b], c, v, p, 0);
    assert [] + [a] == [a] && [a] + [b] == [a, b] && [a, b] + [c] == [a, b, c];
    var manual := ScanAndClaim(Run(s, [a, b]), v, p, 0);
  }

  /** Exactly when a cancellation lasts: it survives all runs in which the file becomes no newer and nobody asks for it
      if and only if the file is scanned for nobody but its user. */
  lemma CancelledStaysIff(s: State, who: set<User>, p: Path, j: Job)
    requires Cancelled(s, p, j)
    ensures (forall steps :: NotNewer(steps, who, p, j.mtime) ==> Cancelled(Run(s, steps), p, j)) <==> who <= {j.user}
  {
    if v :| v in who && v != j.user {
      var steps := ScannedForAnother(v, p, j.mtime);
      CancellationIsErased(s, v, p, j);
      assert NotNewer(steps, who, p, j.mtime) && !Cancelled(Run(s, steps), p, j);
    } else {
      forall steps | NotNewer(steps, who, p, j.mtime) ensures Cancelled(Run(s, steps), p, j) {
        assert NotNewer(steps, {j.user}, p, j.mtime);
        CancelledStaysCancelled(s, steps, p, j);
      }
    }
  }

  /** A tombstone whose file is gone is swept, so that the file is distilled when it comes back, whatever its time; a
      cancelled one stays and holds back everything that is not newer. */
  lemma ReturningFileIsDue(s: State, u: User, p: Path, m: nat)
    requires Owns(s.jobs, u, p) && Tombstone(s.jobs[p]) && p !in s.disk && (u, p) !in s.notes
    ensures Due(Next(Next(s, SweepStep(u)), TouchStep(p, m)), u, p) <==> !s.jobs[p].cancelled || m > s.jobs[p].mtime
  {
    var s' := Sweep(s, u);
    assert p in s'.jobs <==> s.jobs[p].cancelled;
  }

  /** The path has a row at every moment of a run. */
  predicate HasRow(s: State, steps: seq<Step>, p: Path) {
    p in s.jobs && (steps == [] || (HasRow(s, steps[..|steps| - 1], p) && p in Run(s, steps).jobs))
  }

  /** A manual request outranks every later automatic one: as long as its row is there, it stays manual. */
  lemma {:induction false} ManualIsNeverDemoted(s: State, steps: seq<Step>, p: Path)
    requires HasRow(s, steps, p) && s.jobs[p].manual
    ensures p in Run(s, steps).jobs && Run(s, steps).jobs[p].manual
  {
    if steps != [] {
      var front, last := steps[..|steps| - 1], steps[|steps| - 1];
      ManualIsNeverDemoted(s, front, p);
      ManualStepStays(Run(s, front), last, p);
    }
  }

  lemma ManualStepStays(s: State, step: Step, p: Path)
    requires p in s.jobs && s.jobs[p].manual && p in Next(s, step).jobs
    ensures Next(s, step).jobs[p].manual
  {
  }

  // ---------- The table as the source changes it ----------

  /** What happens to a claimed job. */
  datatype Fate =
    | NoModel | NoCredentials | FileGone | TooLarge | NoText
    | Raised(retryable: bool, noted: bool) | Summarized

  /** The worker got as far as writing the summary. */
  predicate Writes(fate: Fate) { fate.Summarized? || (fate.Raised? && fate.noted) }

  /** The notes after a pass that wrote the summary of the job j: it has the job's file time, and a note the user has
      confirmed is left alone. */
  predicate NoteSaved(notes: Notes, notes': Notes, j: Job, p: Path) {
    var k := (j.user, p);
    if k in notes && notes[k].curated then notes' == notes else notes' == notes[k := Note(j.mtime, false)]
  }

  /** The row of a tried job: same file, same user, one attempt more. */
  predicate Tried(j: Job, row: Option<Job>, status: Status) {
    && row.Some? && row.value.status == status && row.value.attempts == j.attempts + 1 && !row.value.cancelled
    && row.value.user == j.user && row.value.mtime == j.mtime
    && row.value.manual == j.manual && row.value.enqueuedAt == j.enqueuedAt
  }

  /** What becomes of the row of a job that was worked on. */
  predicate Ended(j: Job, row: Option<Job>, fate: Fate) {
    match fate
    case Summarized => row.None?
    case NoCredentials => Tried(j, row, if j.attempts + 1 < MAX_ATTEMPTS then Pending else Failed)
    case Raised(retryable, _) => Tried(j, row, if retryable && j.attempts + 1 < MAX_ATTEMPTS then Pending else Failed)
    case NoModel => Tried(j, row, Skipped)
    case FileGone => Tried(j, row, Skipped)
    case TooLarge => Tried(j, row, Skipped)
    case NoText => Tried(j, row, Skipped)
  }

  function Lookup(jobs: map<Path, Job>, p: Path): Option<Job> { if p in jobs then Some(jobs[p]) else None }

  /** The step that ends an attempt. */
  function EndStep(p: Path, fate: Fate): Step {
    match fate
    case NoCredentials => FailStep(p, true)
    case Raised(retryable, _) => FailStep(p, retryable)
    case Summarized => FinishStep(p)
    case _ => SkipStep(p)
  }

  /** A claim touches one row, and without quota the row is as it was. */
  lemma BounceUndoesClaim(s: State, p: Path)
    requires p in s.jobs && s.jobs[p].status == Pending
    ensures var c, b := Claim(s, p), Bounce(Claim(s, p), p);
            && c.notes == s.notes == b.notes && c.jobs - {p} == s.jobs - {p} == b.jobs - {p}
            && IsRunning(c, p)
            && c.jobs[p] == s.jobs[p].(status := Running, attempts := s.jobs[p].attempts + 1, noted := false)
            && Lookup(b.jobs, p) == Some(s.jobs[p].(noted := false))
  {
  }

  /** A claimed job that was worked on, from table to table. */
  lemma EndsByFate(s: State, p: Path, fate: Fate)
    requires IsRunning(s, p) && s.jobs[p].attempts > 0
    ensures var j := s.jobs[p];
            var s' := Next(if Writes(fate) then WriteNote(s, p) else s, EndStep(p, fate));
            && s'.jobs - {p} == s.jobs - {p}
            && Ended(j.(attempts := j.attempts - 1), Lookup(s'.jobs, p), fate)
            && if Writes(fate) then NoteSaved(s.notes, s'.notes, j, p) else s'.notes == s.notes
  {
    var s' := Next(if Writes(fate) then WriteNote(s, p) else s, EndStep(p, fate));
    forall q | q != p ensures Lookup(s'.jobs, q) == Lookup(s.jobs, q) {}
    SameElsewhere(s.jobs, s'.jobs, p);
  }

  lemma SameElsewhere(jobs: map<Path, Job>, jobs': map<Path, Job>, p: Path)
    requires forall q :: q != p ==> Lookup(jobs', q) == Lookup(jobs, q)
    ensures jobs' - {p} == jobs - {p}
  {
    var a, b := jobs - {p}, jobs' - {p};
    forall q ensures Lookup(a, q) == Lookup(b, q) { assert q != p ==> Lookup(jobs', q) == Lookup(jobs, q); }
    forall q ensures q in a <==> q in b { assert Lookup(a, q) == Lookup(b, q); }
    forall q | q in a ensures a[q] == b[q] { assert Lookup(a, q) == Lookup(b, q); }
  }

  class Queue {
    var jobs: map<Path, Job>
    var notes: Notes
    var disk: map<Path, nat>

    function Value(): State
      reads this
    {
      State(jobs, notes, disk)
    }

    constructor (notes: Notes, disk: map<Path, nat>)
      ensures Value() == State(map[], notes, disk)
    {
      jobs, this.notes, this.disk := map[], notes, disk;
    }

    /** `distillable` is what the extension of the file says. */
    method Enqueue(u: User, p: Path, distillable: bool, mtime: nat, manual: bool, now: int) returns (accepted: bool)
      modifies this`jobs
      ensures accepted == distillable
      ensures jobs == if distillable then EnqueueRow(old(jobs), u, p, mtime, manual, now) else old(jobs)
      ensures accepted ==> p in jobs && jobs - {p} == old(jobs) - {p}
      ensures accepted && jobs[p].status != Running ==>
                var j := jobs[p];
                && j.user == u && j.mtime == mtime && j.status == Pending && j.attempts == 0 && !j.cancelled
                && j.manual == (manual || (p in old(jobs) && old(jobs)[p].manual))
    {
      if !distillable { return false; }
      if p !in jobs {
        jobs := jobs[p := Job(u, mtime, Pending, 0, manual, now, false, false)];
      } else if jobs[p].status != Running {
        jobs := jobs[p := Job(u, mtime, Pending, 0, manual || jobs[p].manual, now, false, false)];
      }
      return true;
    }

    /** One pass over the given paths; the known times are read once, before the first enqueue. */
    method ScanRoot(u: User, paths: set<Path>, now: int) returns (enqueued: nat)
      modifies this`jobs
      ensures Value() == Scan(old(Value()), u, paths, now)
    {
      ghost var s := Value();
      var known := KnownMtimes(u);
      var todo := paths;
      enqueued := 0;
      while todo != {}
        invariant todo <= paths && notes == s.notes && disk == s.disk
        invariant ScannedUpTo(s, jobs, u, paths - todo, now)
        decreases todo
      {
        var p :| p in todo;
        ScanOne(s, jobs, u, paths - todo, p, now);
        assert paths - todo + {p} == paths - (todo - {p});
        todo := todo - {p};
        if p in disk && disk[p] > (if p in known then known[p] else -1) {
          var accepted := Enqueue(u, p, true, disk[p], false, now);
          if accepted { enqueued := enqueued + 1; }
        }
      }
      assert paths - todo == paths;
      ScanDone(s, jobs, u, paths, now);
    }

    /** path -> last distilled time, from the user's notes and from the user's queued jobs. */
    method KnownMtimes(u: User) returns (known: map<Path, int>)
      ensures forall p :: (if p in known then known[p] else -1) == Known(Value(), u, p)
    {
      known := map k | k in notes && k.0 == u :: k.1 := notes[k].mtime as int;
      forall p ensures (if p in known then known[p] else -1) == NoteTime(notes, u, p) {
        assert p in known <==> (u, p) in notes;
      }
      var todo := set p | p in jobs && jobs[p].user == u;
      while todo != {}
        invariant forall p :: p in todo ==> Owns(jobs, u, p)
        invariant forall p :: (if p in known then known[p] else -1) ==
                              if p in todo then NoteTime(notes, u, p) else Known(Value(), u, p)
        decreases todo
      {
        var p :| p in todo;
        todo := todo - {p};
        known := known[p := Max(if p in known then known[p] else 0, jobs[p].mtime)];
      }
    }

    method SweepDeadTombstones(u: User) returns (deleted: nat)
      modifies this`jobs
      ensures Value() == Sweep(old(Value()), u)
    {
      ghost var s := Value();
      var rows := set p | p in jobs && Sweepable(jobs[p], u);
      var todo := rows;
      deleted := 0;
      while todo != {}
        invariant todo <= rows && notes == old(notes) && disk == old(disk)
        invariant forall p :: p in jobs <==> p in s.jobs && !(p in rows - todo && p !in disk)
        invariant forall p :: p in jobs ==> jobs[p] == s.jobs[p]
        decreases todo
      {
        var p :| p in todo;
        todo := todo - {p};
        if p !in disk {
          jobs := jobs - {p};
          deleted := deleted + 1;
        }
      }
      assert jobs == Sweep(s, u).jobs;
    }

    /** The job that is claimed: manual ones first, then the oldest; without quota only manual ones. */
    method ClaimJob(quotaOk: bool) returns (r: Option<Path>)
      modifies this`jobs
      ensures r.Some? ==> Eligible(old(jobs), r.value, quotaOk) && Value() == Claim(old(Value()), r.value)
      ensures r.Some? ==> forall p :: p in old(jobs) && Eligible(old(jobs), p, quotaOk) ==>
          Before(old(jobs), r.value, p)
      ensures r.None? ==> jobs == old(jobs) && forall p :: p in jobs ==> !Eligible(jobs, p, quotaOk)
    {
      r := None;
      var todo := jobs.Keys;
      while todo != {}
        invariant todo <= jobs.Keys && jobs == old(jobs)
        invariant r.None? ==> forall p :: p in jobs && p !in todo ==> !Eligible(jobs, p, quotaOk)
        invariant r.Some? ==> Eligible(jobs, r.value, quotaOk)
        invariant r.Some? ==> forall p :: p in jobs && p !in todo && Eligible(jobs, p, quotaOk) ==>
            Before(jobs, r.value, p)
        decreases todo
      {
        var p :| p in todo;
        todo := todo - {p};
        if Eligible(jobs, p, quotaOk) && (r.None? || !Before(jobs, r.value, p)) { r := Some(p); }
      }
      if r.Some? {
        var j := jobs[r.value];
        jobs := jobs[r.value := j.(status := Running, attempts := j.attempts + 1, noted := false)];
      }
    }

    /** One pass of the worker: `quotaOk` is the probe before the claim, `quotaLeft` the recheck for the claimed user.
        The end state is the run of its steps; what the tables hold afterwards follows from what happened to the
        job: without quota an automatic one is as it was, otherwise its fate decides. */
    method ProcessPendingOnce(quotaOk: bool, quotaLeft: bool, fate: Fate)
        returns (r: Option<Path>, ghost steps: seq<Step>)
      modifies this`jobs, this`notes
      ensures Value() == Run(old(Value()), steps)
      ensures r.None? ==> steps == []
      ensures r.Some? ==> steps != [] && steps[0] == ClaimStep(r.value) && r.value in old(jobs)
      ensures r.None? ==> jobs == old(jobs) && notes == old(notes)
      ensures r.None? ==> forall p :: p in jobs ==> !Eligible(jobs, p, quotaOk)
      ensures r.Some? ==> Eligible(old(jobs), r.value, quotaOk) && jobs - {r.value} == old(jobs) - {r.value}
      ensures r.Some? ==> forall p :: p in old(jobs) && Eligible(old(jobs), p, quotaOk) ==>
          Before(old(jobs), r.value, p)
      ensures r.Some? ==>
                var j := old(jobs)[r.value];
                if !j.manual && !quotaLeft
                then Lookup(jobs, r.value) == Some(j.(noted := false)) && notes == old(notes)
                else Ended(j, Lookup(jobs, r.value), fate)
                     && if Writes(fate) then NoteSaved(old(notes), notes, j, r.value) else notes == old(notes)
    {
      steps := [];
      r := ClaimJob(quotaOk);
      if r.None? { return; }
      var p := r.value;
      steps := [ClaimStep(p)];
      Snoc(old(Value()), [], ClaimStep(p), 0, p, 0);
      assert [] + [ClaimStep(p)] == [ClaimStep(p)];
      var j := jobs[p];
      BounceUndoesClaim(old(Value()), p);
      if !j.manual && !quotaLeft {
        Snoc(old(Value()), steps, BounceStep(p), 0, p, 0);
        steps := steps + [BounceStep(p)];
        EndRow(p, BounceStep(p));
        return;
      }
      steps := Conclude(p, fate, old(Value()), steps);
    }

    /** The end of a claimed job: the note, if it was written, and what becomes of the row. */
    method Conclude(p: Path, fate: Fate, ghost s0: State, ghost before: seq<Step>) returns (ghost steps: seq<Step>)
      requires IsRunning(Value(), p) && jobs[p].attempts > 0 && Value() == Run(s0, before)
      modifies this`jobs, this`notes
      ensures Value() == Run(s0, steps) && before <= steps
      ensures jobs - {p} == old(jobs) - {p}
      ensures Ended(old(jobs)[p].(attempts := old(jobs)[p].attempts - 1), Lookup(jobs, p), fate)
      ensures if Writes(fate) then NoteSaved(old(notes), notes, old(jobs)[p], p) else notes == old(notes)
    {
      EndsByFate(Value(), p, fate);
      steps := before;
      if Writes(fate) {
        Snoc(s0, steps, NoteStep(p), 0, p, 0);
        steps := steps + [NoteStep(p)];
        SaveNote(p);
      }
      var next := EndStep(p, fate);
      Snoc(s0, steps, next, 0, p, 0);
      steps := steps + [next];
      EndRow(p, next);
    }

    /** The summary note; a curated one is left as it is. */
    method SaveNote(p: Path)
      requires IsRunning(Value(), p)
      modifies this`jobs, this`notes
      ensures Value() == WriteNote(old(Value()), p)
    {
      var j := jobs[p];
      jobs := jobs[p := j.(noted := true)];
      var k := (j.user, p);
      if k !in notes || !notes[k].curated { notes := notes[k := Note(j.mtime, false)]; }
    }

    method EndRow(p: Path, next: Step)
      requires IsRunning(Value(), p) && jobs[p].attempts > 0
      requires next == BounceStep(p) || next == SkipStep(p) || (next.FailStep? && next.p == p)
               || (next == FinishStep(p) && jobs[p].noted)
      modifies this`jobs
      ensures Value() == Next(old(Value()), next)
    {
      var j := jobs[p];
      if next.BounceStep? {
        jobs := jobs[p := j.(status := Pending, attempts := j.attempts - 1)];
      } else if next.SkipStep? {
        jobs := jobs[p := j.(status := Skipped, cancelled := false)];
      } else if next.FailStep? {
        var attempts := if next.retryable then j.attempts else MAX_ATTEMPTS;
        jobs := jobs[p := j.(status := if attempts >= MAX_ATTEMPTS then Failed else Pending, cancelled := false)];
      } else {
        jobs := jobs - {p};
      }
    }
  }

  /** The rows of a scan of s that has reached the paths in `done`. */
  ghost predicate ScannedUpTo(s: State, jobs: map<Path, Job>, u: User, done: set<Path>, now: int) {
    forall p :: Lookup(jobs, p) == if p in done then ScannedRow(s, u, p, now) else Lookup(s.jobs, p)
  }

  lemma ScanOne(s: State, jobs: map<Path, Job>, u: User, done: set<Path>, p: Path, now: int)
    requires ScannedUpTo(s, jobs, u, done, now) && p !in done
    ensures ScannedUpTo(s, if Due(s, u, p) then EnqueueRow(jobs, u, p, s.disk[p], false, now) else jobs, u,
                        done + {p}, now)
  {
    assert Lookup(jobs, p) == Lookup(s.jobs, p);
    var jobs' := if Due(s, u, p) then EnqueueRow(jobs, u, p, s.disk[p], false, now) else jobs;
    forall q ensures Lookup(jobs', q) == if q in done + {p} then ScannedRow(s, u, q, now) else Lookup(s.jobs, q) {
      assert Lookup(jobs, q) == if q in done then ScannedRow(s, u, q, now) else Lookup(s.jobs, q);
    }
  }

  lemma ScanDone(s: State, jobs: map<Path, Job>, u: User, paths: set<Path>, now: int)
    requires ScannedUpTo(s, jobs, u, paths, now)
    ensures jobs == Scan(s, u, paths, now).jobs
  {
    var jobs' := Scan(s, u, paths, now).jobs;
    forall p ensures Lookup(jobs, p) == Lookup(jobs', p) {}
    forall p ensures p in jobs <==> p in jobs' { assert Lookup(jobs, p) == Lookup(jobs', p); }
    forall p | p in jobs ensures jobs[p] == jobs'[p] { assert Lookup(jobs, p) == Lookup(jobs', p); }
  }

  predicate Eligible(jobs: map<Path, Job>, p: Path, quotaOk: bool) {
    p in jobs && jobs[p].status == Pending && (quotaOk || jobs[p].manual)
  }

  predicate Before(jobs: map<Path, Job>, p: Path, q: Path)
    requires p in jobs && q in jobs
  {
    if jobs[p].manual != jobs[q].manual then jobs[p].manual else jobs[p].enqueuedAt <= jobs[q].enqueuedAt
  }
}
