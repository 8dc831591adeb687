/**
  The per-user skill view (service/skills_runtime.go): a rebuild writes a new
  version directory, swaps the `<uid>` link to it with one rename, and sweeps
  what is left over.  Readers look at the link at any moment, and the process
  may die after any file-system step.
 */
module SkillView {
  import opened Common
  import opened SkillNames

  type Skill = nat
  type Target = nat
  type View = map<Skill, Target>

  datatype Node = Dir(entries: View) | Link(target: Name) | File
  type Tree = map<Name, Node>

  /** What a reader of the link finds. */
  datatype Seen = Absent | Shows(view: View) | Broken

  function Visible(t: Tree, uid: string): Seen {
    if Live(uid) !in t then Absent
    else
      match t[Live(uid)]
      case Link(target) => if target in t && t[target].Dir? then Shows(t[target].entries) else Broken
      case _ => Broken
  }

  /** The directory the link points at. */
  predicate IsLiveTarget(t: Tree, uid: string, n: Name) {
    Live(uid) in t && t[Live(uid)].Link? && t[Live(uid)].target == n
  }

  /** A step that leaves the link and the directory it points at alone is invisible. */
  predicate Untouched(t: Tree, t': Tree, uid: string) {
    && (Live(uid) in t <==> Live(uid) in t')
    && (Live(uid) in t ==> t'[Live(uid)] == t[Live(uid)])
    && (Live(uid) in t && t[Live(uid)].Link? ==>
          var n := t[Live(uid)].target; (n in t <==> n in t') && (n in t ==> t'[n] == t[n]))
  }

  predicate SameNode(t: Tree, t': Tree, n: Name) { (n in t <==> n in t') && (n in t ==> t'[n] == t[n]) }

  lemma UntouchedIsInvisible(t: Tree, t': Tree, uid: string)
    requires Untouched(t, t', uid)
    ensures Visible(t', uid) == Visible(t, uid)
  {
  }

  // ---------- The protocol, with crashes ----------

  /** Where a rebuild stands: nothing in progress, filling a fresh directory, ready to swap, undoing what it made
      because something failed before the swap, or sweeping after it. */
  datatype Phase =
    | Idle
    | Building(stamp: nat, todo: seq<(Skill, Target)>)
    | Linked(stamp: nat, tmp: nat)
    | Undoing(stamp: nat, linked: Option<nat>)
    | Sweeping(stamp: nat)

  datatype State = State(tree: Tree, phase: Phase)

  datatype Step =
    | Begin(stamp: nat, wanted: seq<(Skill, Target)>)
    | AddEntry
    | LinkTmp(tmp: nat)
    | Swap
    | Fail
    | RemoveEntry(name: Name, skill: Skill)
    | RemoveDir(name: Name)
    | RemoveTmp(name: Name)
    | Done
    | Crash

  /** What a rebuild may take apart: its own half-built directory when it gives up, and after the swap whatever has
      the prefix of the user's version directories, except the new one and the one the link points at. */
  predicate Removable(s: State, uid: string, n: Name) {
    n in s.tree &&
    match s.phase
    case Undoing(stamp, _) => n == Ver(uid, stamp)
    case Sweeping(stamp) => VerPrefixed(uid, n) && n != Ver(uid, stamp) && !IsLiveTarget(s.tree, uid, n)
    case _ => false
  }

  /** What it may remove as a temporary link: its own, or after the swap whatever has the prefix; a directory only when
      it is empty. */
  predicate RemovableTmp(s: State, uid: string, n: Name) {
    n in s.tree && (s.tree[n].Dir? ==> s.tree[n].entries == map[]) &&
    match s.phase
    case Undoing(_, linked) => linked.Some? && n == Tmp(uid, linked.value)
    case Sweeping(_) => TmpPrefixed(uid, n)
    case _ => false
  }

  function ListView(pairs: seq<(Skill, Target)>): View {
    if pairs == [] then map[]
    else ListView(pairs[..|pairs| - 1])[pairs[|pairs| - 1].0 := pairs[|pairs| - 1].1]
  }

  /** One file-system step; a step that is not enabled does nothing.  A step that fails is a step not taken. */
  function Next(s: State, uid: string, step: Step): State {
    match step
    case Begin(stamp, wanted) =>
      if s.phase.Idle? && Ver(uid, stamp) !in s.tree
      then State(s.tree[Ver(uid, stamp) := Dir(map[])], Building(stamp, wanted)) else s
    case AddEntry =>
      if s.phase.Building? && s.phase.todo != [] && Ver(uid, s.phase.stamp) in s.tree
          && s.tree[Ver(uid, s.phase.stamp)].Dir?
      then
        var v, e := Ver(uid, s.phase.stamp), s.phase.todo[0];
        State(s.tree[v := Dir(s.tree[v].entries[e.0 := e.1])], Building(s.phase.stamp, s.phase.todo[1..]))
      else s
    case LinkTmp(tmp) =>
      if s.phase.Building? && s.phase.todo == [] && Tmp(uid, tmp) !in s.tree
      then State(s.tree[Tmp(uid, tmp) := Link(Ver(uid, s.phase.stamp))], Linked(s.phase.stamp, tmp)) else s
    case Swap =>
      if s.phase.Linked? && Tmp(uid, s.phase.tmp) in s.tree
      then State((s.tree - {Tmp(uid, s.phase.tmp)})[Live(uid) := s.tree[Tmp(uid, s.phase.tmp)]],
          Sweeping(s.phase.stamp)) else s
    case Fail =>
      if s.phase.Building? then s.(phase := Undoing(s.phase.stamp, None))
      else if s.phase.Linked? then s.(phase := Undoing(s.phase.stamp, Some(s.phase.tmp)))
      else s
    case RemoveEntry(n, skill) =>
      if Removable(s, uid, n) && s.tree[n].Dir? then s.(tree := s.tree[n := Dir(s.tree[n].entries - {skill})]) else s
    case RemoveDir(n) =>
      if Removable(s, uid, n) then s.(tree := s.tree - {n}) else s
    case RemoveTmp(n) =>
      if RemovableTmp(s, uid, n) then s.(tree := s.tree - {n}) else s
    case Done => if s.phase.Sweeping? || s.phase.Undoing? then s.(phase := Idle) else s
    case Crash => s.(phase := Idle)
  }

  /** Along a run: the views that were completely built and swapped in, the latest last. */
  datatype Run = Run(s: State, wanted: seq<(Skill, Target)>, published: seq<View>)

  function NextRun(r: Run, uid: string, step: Step): Run {
    var s' := Next(r.s, uid, step);
    Run(s',
        if step.Begin? && s'.phase.Building? && r.s.phase.Idle? then step.wanted else r.wanted,
        if r.s.phase.Linked? && s'.phase.Sweeping? then r.published + [ListView(r.wanted)] else r.published)
  }

  function Execute(r: Run, uid: string, steps: seq<Step>): Run {
    if steps == [] then r else NextRun(Execute(r, uid, steps[..|steps| - 1]), uid, steps[|steps| - 1])
  }

  /** What readers must see: the last published view, or nothing before the first. */
  function Expected(r: Run): Seen {
    if r.published == [] then Absent else Shows(r.published[|r.published| - 1])
  }

  predicate FreshDir(t: Tree, uid: string, stamp: nat, entries: View) {
    var v := Ver(uid, stamp);
    v in t && t[v] == Dir(entries) && !IsLiveTarget(t, uid, v)
  }

  /** The link, when there is one, points at a version directory of its user. */
  predicate LinkShape(t: Tree, uid: string) {
    Live(uid) in t ==> t[Live(uid)].Link? && t[Live(uid)].target.Ver? && t[Live(uid)].target.uid == uid
  }

  predicate VersionsAreDirs(t: Tree, uid: string) {
    forall n :: n in t && n.Ver? && n.uid == uid ==> t[n].Dir?
  }

  predicate RunOk(r: Run, uid: string) {
    && LinkShape(r.s.tree, uid) && VersionsAreDirs(r.s.tree, uid)
    && Visible(r.s.tree, uid) == Expected(r)
    && (r.s.phase.Building? ==>
          && |r.s.phase.todo| <= |r.wanted| && r.s.phase.todo == r.wanted[|r.wanted| - |r.s.phase.todo|..]
          && FreshDir(r.s.tree, uid, r.s.phase.stamp, ListView(r.wanted[..|r.wanted| - |r.s.phase.todo|])))
    && (r.s.phase.Linked? ==>
          && FreshDir(r.s.tree, uid, r.s.phase.stamp, ListView(r.wanted))
          && Tmp(uid, r.s.phase.tmp) in r.s.tree
              && r.s.tree[Tmp(uid, r.s.phase.tmp)] == Link(Ver(uid, r.s.phase.stamp)))
    && (r.s.phase.Undoing? ==> !IsLiveTarget(r.s.tree, uid, Ver(uid, r.s.phase.stamp)))
  }

  lemma AddEntryOk(r: Run, uid: string)
    requires RunOk(r, uid) && r.s.phase.Building? && r.s.phase.todo != []
    ensures RunOk(NextRun(r, uid, AddEntry), uid)
  {
    var done := |r.wanted| - |r.s.phase.todo|;
    assert r.wanted[done..][1..] == r.wanted[done + 1..];
    assert r.wanted[..done + 1][..done] == r.wanted[..done];
    UntouchedIsInvisible(r.s.tree, Next(r.s, uid, AddEntry).tree, uid);
  }

  lemma BeginOk(r: Run, uid: string, stamp: nat, wanted: seq<(Skill, Target)>)
    requires RunOk(r, uid) && r.s.phase.Idle? && Ver(uid, stamp) !in r.s.tree
    ensures RunOk(NextRun(r, uid, Begin(stamp, wanted)), uid)
  {
    assert Visible(r.s.tree, uid) != Broken;
    UntouchedIsInvisible(r.s.tree, Next(r.s, uid, Begin(stamp, wanted)).tree, uid);
    assert wanted[0..] == wanted && wanted[..0] == [];
  }

  lemma LinkTmpOk(r: Run, uid: string, tmp: nat)
    requires RunOk(r, uid) && r.s.phase.Building? && r.s.phase.todo == [] && Tmp(uid, tmp) !in r.s.tree
    ensures RunOk(NextRun(r, uid, LinkTmp(tmp)), uid)
  {
    assert r.wanted[..|r.wanted|] == r.wanted;
    UntouchedIsInvisible(r.s.tree, Next(r.s, uid, LinkTmp(tmp)).tree, uid);
  }

  lemma SwapOk(r: Run, uid: string)
    requires RunOk(r, uid) && r.s.phase.Linked?
    ensures RunOk(NextRun(r, uid, Swap), uid)
    ensures Visible(NextRun(r, uid, Swap).s.tree, uid) == Shows(ListView(r.wanted))
  {
  }

  /** No clean-up reaches the link itself, the temporary link of a swap in progress or the live directory. */
  lemma SafeNames(uid: string, n: Name)
    ensures VerPrefixed(uid, n) ==> n != Live(uid) && !(n.Tmp? && n.uid == uid)
    ensures TmpPrefixed(uid, n) ==> n != Live(uid) && !(n.Ver? && n.uid == uid)
  {
    if n.uid == uid { OwnNames(n); }
  }

  /** A name that a removal step takes is neither the link nor what it points at. */
  lemma RemovedIsNotLive(r: Run, uid: string, n: Name)
    requires RunOk(r, uid) && (Removable(r.s, uid, n) || RemovableTmp(r.s, uid, n))
    ensures n != Live(uid) && !IsLiveTarget(r.s.tree, uid, n)
  {
    SafeNames(uid, n);
  }

  /** Changing or removing such a name, a version directory into a directory only, is invisible. */
  lemma ChangeOk(r: Run, uid: string, n: Name, t: Tree)
    requires RunOk(r, uid) && (r.s.phase.Undoing? || r.s.phase.Sweeping?)
    requires n != Live(uid) && !IsLiveTarget(r.s.tree, uid, n)
    requires (forall m :: m != n ==> SameNode(r.s.tree, t, m)) && (n in t ==> t[n].Dir?)
    ensures RunOk(r.(s := r.s.(tree := t)), uid)
  {
    assert SameNode(r.s.tree, t, Live(uid));
    if Live(uid) in t { assert SameNode(r.s.tree, t, t[Live(uid)].target); }
    UntouchedIsInvisible(r.s.tree, t, uid);
    assert VersionsAreDirs(t, uid) by {
      forall m | m in t && m.Ver? && m.uid == uid ensures t[m].Dir? { assert m != n ==> SameNode(r.s.tree, t, m); }
    }
  }

  predicate IsRemoval(step: Step) { step.RemoveEntry? || step.RemoveDir? || step.RemoveTmp? }

  /** A removal step does nothing, or takes one name that the phase allows. */
  lemma RemovalEffect(s: State, uid: string, step: Step)
    requires IsRemoval(step)
    ensures var s', n := Next(s, uid, step), step.name;
            || s' == s
            || (&& s' == s.(tree := s'.tree) && (Removable(s, uid, n) || RemovableTmp(s, uid, n))
                && (forall m :: m != n ==> SameNode(s.tree, s'.tree, m)) && (n in s'.tree ==> s'.tree[n].Dir?))
  {
  }

  lemma RemovalOk(r: Run, uid: string, step: Step)
    requires RunOk(r, uid) && IsRemoval(step)
    ensures RunOk(NextRun(r, uid, step), uid)
  {
    RemovalEffect(r.s, uid, step);
    var s' := Next(r.s, uid, step);
    if s' != r.s {
      RemovedIsNotLive(r, uid, step.name);
      ChangeOk(r, uid, step.name, s'.tree);
    }
  }

  lemma StepOk(r: Run, uid: string, step: Step)
    requires RunOk(r, uid)
    ensures RunOk(NextRun(r, uid, step), uid)
  {
    match step
    case Begin(stamp, wanted) => if r.s.phase.Idle? && Ver(uid, stamp) !in r.s.tree { BeginOk(r, uid, stamp, wanted); }
    case AddEntry => if r.s.phase.Building? && r.s.phase.todo != [] { AddEntryOk(r, uid); }
    case LinkTmp(tmp) => if r.s.phase.Building? && r.s.phase.todo == [] && Tmp(uid, tmp) !in r.s.tree {
        LinkTmpOk(r, uid, tmp); }
    case Swap => if r.s.phase.Linked? { SwapOk(r, uid); }
    case RemoveEntry(_, _) => RemovalOk(r, uid, step);
    case RemoveDir(_) => RemovalOk(r, uid, step);
    case RemoveTmp(_) => RemovalOk(r, uid, step);
    case Fail =>
    case Done =>
    case Crash =>
  }

  /** Crash-safe swap: after every step of every run, crashes anywhere included, the link is absent or shows
      exactly the last completely built view that was swapped in. */
  lemma {:induction false} CrashSafeSwap(r: Run, uid: string, steps: seq<Step>)
    requires RunOk(r, uid)
    ensures RunOk(Execute(r, uid, steps), uid)
    ensures var r' := Execute(r, uid, steps); Visible(r'.s.tree, uid) == Expected(r') && r.published <= r'.published
  {
    if steps != [] {
      CrashSafeSwap(r, uid, steps[..|steps| - 1]);
      StepOk(Execute(r, uid, steps[..|steps| - 1]), uid, steps[|steps| - 1]);
    }
  }

  /** A name of another user that the sweep does not take for its own survives every step. */
  lemma NextKeepsOthers(s: State, uid: string, step: Step, n: Name)
    requires n.uid != uid && !VerPrefixed(uid, n) && !TmpPrefixed(uid, n)
    ensures SameNode(s.tree, Next(s, uid, step).tree, n)
  {
  }

  /** Ids that this user's sweep takes for its own. */
  predicate Clashes(uid: string, other: string) { uid + VER <= other || uid + TMP <= other }

  lemma {:induction false} OthersAreUntouched(r: Run, uid: string, steps: seq<Step>, n: Name)
    requires n.uid != uid && !Clashes(uid, n.uid)
    ensures SameNode(r.s.tree, Execute(r, uid, steps).s.tree, n)
  {
    if steps != [] {
      var front, last := steps[..|steps| - 1], steps[|steps| - 1];
      OthersAreUntouched(r, uid, front, n);
      OtherNames(uid, n);
      NextKeepsOthers(Execute(r, uid, front).s, uid, last, n);
    }
  }

  /** Exactly when a rebuild is safe for somebody else's link: all runs of one user's rebuilds leave it alone if and
      only if the other id does not begin with one of the prefixes the sweep looks for. */
  lemma OthersAreUntouchedIff(r: Run, uid: string, other: string)
    requires other != uid && r.s.phase.Idle? && LinkShape(r.s.tree, uid)
    requires Live(other) in r.s.tree && r.s.tree[Live(other)].Link?
    ensures (forall steps :: SameNode(r.s.tree, Execute(r, uid, steps).s.tree, Live(other))) <==> !Clashes(uid, other)
  {
    var n := Live(other);
    if Clashes(uid, other) {
      var k := FreshStamp(r.s.tree.Keys, uid);
      SweepTakesTheLink(r, uid, other, k, k);
      assert !SameNode(r.s.tree, Execute(r, uid, CleanRebuild(uid, n, k, k)).s.tree, n);
    } else {
      forall steps ensures SameNode(r.s.tree, Execute(r, uid, steps).s.tree, n) {
          OthersAreUntouched(r, uid, steps, n); }
    }
  }

  /** A rebuild of a view without skills whose sweep comes to one name. */
  function CleanRebuild(uid: string, n: Name, stamp: nat, tmp: nat): seq<Step> {
    [Begin(stamp, []), LinkTmp(tmp), Swap, if VerPrefixed(uid, n) then RemoveDir(n) else RemoveTmp(n)]
  }

  /** The failing run: with a clashing id, the sweep at the end of an ordinary rebuild removes the other user's link.
      It holds for all new names, even those that are new as texts. */
  lemma SweepTakesTheLink(r: Run, uid: string, other: string, stamp: nat, tmp: nat)
    requires other != uid && Clashes(uid, other) && r.s.phase.Idle? && LinkShape(r.s.tree, uid)
    requires Live(other) in r.s.tree && r.s.tree[Live(other)].Link?
    requires NewText(r.s.tree.Keys, Ver(uid, stamp)) && NewText(r.s.tree.Keys, Tmp(uid, tmp))
    ensures Live(other) !in Execute(r, uid, CleanRebuild(uid, Live(other), stamp, tmp)).s.tree
  {
    var n := Live(other);
    var first, last := CleanRebuild(uid, n, stamp, tmp)[..3], CleanRebuild(uid, n, stamp, tmp)[3];
    SwapOnly(r, uid, n, stamp, tmp);
    SweepStep(Execute(r, uid, first).s, uid, other, stamp);
    ExecuteSnoc(r, uid, first, last);
    assert first + [last] == CleanRebuild(uid, n, stamp, tmp);
  }

  lemma SweepStep(s: State, uid: string, other: string, stamp: nat)
    requires other != uid && Clashes(uid, other) && s.phase == Sweeping(stamp)
    requires Live(uid) in s.tree && s.tree[Live(uid)] == Link(Ver(uid, stamp))
    requires Live(other) in s.tree && s.tree[Live(other)].Link?
    ensures var n := Live(other);
            n !in Next(s, uid, if VerPrefixed(uid, n) then RemoveDir(n) else RemoveTmp(n)).tree
  {
    OtherNames(uid, Live(other));
  }

  /** The state at the beginning of that sweep: the link points at the new directory, and other names are as before. */
  lemma SwapOnly(r: Run, uid: string, n: Name, stamp: nat, tmp: nat)
    requires r.s.phase.Idle? && n.uid != uid && NewText(r.s.tree.Keys, Ver(uid, stamp))
    requires NewText(r.s.tree.Keys, Tmp(uid, tmp))
    ensures var s := Execute(r, uid, CleanRebuild(uid, n, stamp, tmp)[..3]).s;
            && s.phase == Sweeping(stamp) && SameNode(r.s.tree, s.tree, n)
            && Live(uid) in s.tree && s.tree[Live(uid)] == Link(Ver(uid, stamp))
  {
    var a, b := Begin(stamp, []), LinkTmp(tmp);
    ExecuteSnoc(r, uid, [], a);
    ExecuteSnoc(r, uid, [a], b);
    ExecuteSnoc(r, uid, [a, b], Swap);
    assert [] + [a] == [a] && [a] + [b] == [a, b] && [a, b] + [Swap] == CleanRebuild(uid, n, stamp, tmp)[..3];
    SwapEffect(r.s, uid, n, stamp, tmp);
  }

  lemma SwapEffect(s: State, uid: string, n: Name, stamp: nat, tmp: nat)
    requires s.phase.Idle? && n.uid != uid && Ver(uid, stamp) !in s.tree && Tmp(uid, tmp) !in s.tree
    ensures var s' := Next(Next(Next(s, uid, Begin(stamp, [])), uid, LinkTmp(tmp)), uid, Swap);
            && s'.phase == Sweeping(stamp) && SameNode(s.tree, s'.tree, n)
            && Live(uid) in s'.tree && s'.tree[Live(uid)] == Link(Ver(uid, stamp))
  {
  }

  /** Accepted ids have no dot, so no run of one user touches anything of another. */
  lemma DotlessOthersAreUntouched(r: Run, uid: string, steps: seq<Step>, n: Name)
    requires n.uid != uid && Dotless(n.uid)
    ensures SameNode(r.s.tree, Execute(r, uid, steps).s.tree, n)
  {
    DotlessNames(uid, n);
    OtherNames(uid, n);
    OthersAreUntouched(r, uid, steps, n);
  }

  lemma ExecuteSnoc(r: Run, uid: string, steps: seq<Step>, step: Step)
    ensures Execute(r, uid, steps + [step]) == NextRun(Execute(r, uid, steps), uid, step)
  {
    assert (steps + [step])[..|steps + [step]| - 1] == steps;
  }

  // ---------- The rebuild of the source ----------

  /** The entries a rebuild links, in order: all but the skipped ones. */
  function Kept(items: seq<(Skill, Target)>, skip: set<Skill>): seq<(Skill, Target)> {
    if items == [] then [] else (if items[0].0 in skip then [] else [items[0]]) + Kept(items[1..], skip)
  }

  predicate DistinctSkills(entries: seq<(Skill, Target)>) {
    forall i, j :: 0 <= i < j < |entries| ==> entries[i].0 != entries[j].0
  }

  predicate HasSkill(entries: seq<(Skill, Target)>, k: Skill) {
    exists i :: 0 <= i < |entries| && entries[i].0 == k
  }

  /** None of the first n entries has the name of one before it. */
  predicate Fresh(entries: seq<(Skill, Target)>, n: nat)
    requires n <= |entries|
  {
    n == 0 || (Fresh(entries, n - 1) && entries[n - 1].0 !in ListView(entries[..n - 1]))
  }

  lemma {:induction false} NamesOfView(entries: seq<(Skill, Target)>, k: Skill)
    ensures k in ListView(entries) <==> HasSkill(entries, k)
  {
    if entries != [] {
      var front := entries[..|entries| - 1];
      NamesOfView(front, k);
      assert entries[|entries| - 1].0 == k ==> k in ListView(entries);
      if i :| 0 <= i < |front| && front[i].0 == k { assert entries[i].0 == k; }
    }
  }

  lemma {:induction false} FreshIsDistinct(entries: seq<(Skill, Target)>, n: nat)
    requires n <= |entries|
    ensures Fresh(entries, n) <==> DistinctSkills(entries[..n])
  {
    if n > 0 {
      var done, next, k := entries[..n - 1], entries[..n], entries[n - 1].0;
      FreshIsDistinct(entries, n - 1);
      NamesOfView(done, k);
      assert next == done + [entries[n - 1]];
      assert DistinctSkills(next) <==> DistinctSkills(done) && forall i :: 0 <= i < n - 1 ==> done[i].0 != k by {
        if i :| 0 <= i < n - 1 && done[i].0 == k { assert next[i].0 == next[n - 1].0; }
      }
    }
  }

  lemma {:induction false} FreshPrefix(entries: seq<(Skill, Target)>, n: nat, m: nat)
    requires n <= m <= |entries| && Fresh(entries, m)
    ensures Fresh(entries, n)
  {
    if n < m { FreshPrefix(entries, n, m - 1); }
  }

  lemma AllFreshIff(entries: seq<(Skill, Target)>)
    ensures Fresh(entries, |entries|) <==> DistinctSkills(entries)
  {
    FreshIsDistinct(entries, |entries|);
    assert entries[..|entries|] == entries;
  }

  lemma HasSkillConcat(a: seq<(Skill, Target)>, b: seq<(Skill, Target)>, k: Skill)
    ensures HasSkill(a + b, k) <==> HasSkill(a, k) || HasSkill(b, k)
  {
    if i :| 0 <= i < |a| && a[i].0 == k { assert (a + b)[i].0 == k; }
    if i :| 0 <= i < |b| && b[i].0 == k { assert (a + b)[|a| + i].0 == k; }
  }

  lemma {:induction false} KeptSkills(items: seq<(Skill, Target)>, skip: set<Skill>, k: Skill)
    ensures HasSkill(Kept(items, skip), k) <==> HasSkill(items, k) && k !in skip
  {
    if items != [] {
      var head, rest := items[0], items[1..];
      KeptSkills(rest, skip, k);
      assert items == [head] + rest;
      HasSkillConcat([head], rest, k);
      HasSkillConcat(if head.0 in skip then [] else [head], Kept(rest, skip), k);
      assert HasSkill([head], k) <==> head.0 == k by { assert [head][0] == head; }
    }
  }

  /** What a user sees after a rebuild: the built-in skills that are neither uninstalled nor disabled, and the user's
      own ones that are not disabled. */
  lemma WantedSkills(builtins: seq<(Skill, Target)>, users: seq<(Skill, Target)>, uninstalled: set<Skill>,
                     disabled: set<Skill>, k: Skill)
    ensures k in ListView(Kept(builtins, uninstalled + disabled) + Kept(users, disabled)) <==>
            k !in disabled && (HasSkill(users, k) || (HasSkill(builtins, k) && k !in uninstalled))
  {
    var a, b := Kept(builtins, uninstalled + disabled), Kept(users, disabled);
    NamesOfView(a + b, k);
    HasSkillConcat(a, b, k);
    KeptSkills(builtins, uninstalled + disabled, k);
    KeptSkills(users, disabled, k);
  }

  /** Each link points where its entry says. */
  lemma {:induction false} ViewTargets(entries: seq<(Skill, Target)>, i: nat)
    requires i < |entries| && DistinctSkills(entries)
    ensures entries[i].0 in ListView(entries) && ListView(entries)[entries[i].0] == entries[i].1
  {
    var n := |entries| - 1;
    if i < n {
      assert entries[i].0 != entries[n].0;
      ViewTargets(entries[..n], i);
    }
  }

  /** What a rebuild has linked so far has distinct names. */
  predicate FreshSoFar(r: Run) {
    r.s.phase.Building? && |r.s.phase.todo| <= |r.wanted| && Fresh(r.wanted, |r.wanted| - |r.s.phase.todo|)
  }

  lemma AllLinked(r: Run)
    requires FreshSoFar(r) && r.s.phase.todo == []
    ensures Fresh(r.wanted, |r.wanted|)
  {
  }

  lemma NothingBehind(entries: seq<(Skill, Target)>)
    ensures entries + [] == entries
  {
  }

  /** The next entry of a rebuild: its name is free, or the wanted names are not distinct. */
  lemma NextName(r: Run, uid: string)
    requires RunOk(r, uid) && FreshSoFar(r) && r.s.phase.todo != []
    ensures var v, n := Ver(uid, r.s.phase.stamp), |r.wanted| - |r.s.phase.todo|;
            && v in r.s.tree && r.s.tree[v].Dir?
            && if r.s.phase.todo[0].0 in r.s.tree[v].entries then !Fresh(r.wanted, |r.wanted|)
               else Fresh(r.wanted, n + 1)
  {
    var n := |r.wanted| - |r.s.phase.todo|;
    if Fresh(r.wanted, |r.wanted|) { FreshPrefix(r.wanted, n + 1, |r.wanted|); }
  }

  lemma KeptStep(items: seq<(Skill, Target)>, i: nat, skip: set<Skill>, rest: seq<(Skill, Target)>)
    requires i < |items|
    ensures var todo, todo' := Kept(items[i..], skip) + rest, Kept(items[i + 1..], skip) + rest;
            if items[i].0 in skip then todo == todo' else todo != [] && todo[0] == items[i] && todo[1..] == todo'
  {
    SliceTail(items, i);
    var k := Kept(items[i + 1..], skip);
    assert [] + k == k;
    Assoc([items[i]], k, rest);
    HeadTail(items[i], k + rest);
  }

  /** Taking one entry out of a directory that is being removed leaves it removable. */
  lemma EntryRemoved(s: State, uid: string, n: Name, k: Skill)
    requires Removable(s, uid, n) && s.tree[n].Dir?
    ensures var t := s.tree[n := Dir(s.tree[n].entries - {k})];
            && Next(s, uid, RemoveEntry(n, k)) == s.(tree := t)
            && Removable(s.(tree := t), uid, n) && t - {n} == s.tree - {n}
  {
  }

  /** Linking the next entry of a rebuild. */
  lemma EntryLinked(r: Run, uid: string, tmp: nat)
    requires RunOk(r, uid) && r.s.phase.Building? && r.s.phase.todo != []
    requires Fresh(r.wanted, |r.wanted| - |r.s.phase.todo| + 1)
    ensures var r', v, e := NextRun(r, uid, AddEntry), Ver(uid, r.s.phase.stamp), r.s.phase.todo[0];
            && v in r.s.tree && r.s.tree[v].Dir? && r'.s.tree == r.s.tree[v := Dir(r.s.tree[v].entries[e.0 := e.1])]
            && r'.s.phase == Building(r.s.phase.stamp, r.s.phase.todo[1..]) && FreshSoFar(r')
            && r'.wanted == r.wanted && r'.published == r.published
            && (Tmp(uid, tmp) in r'.s.tree <==> Tmp(uid, tmp) in r.s.tree)
  {
  }

  lemma LiveTargetIsThere(r: Run, uid: string, n: Name)
    requires RunOk(r, uid) && IsLiveTarget(r.s.tree, uid, n)
    ensures n in r.s.tree
  {
  }

  /** How many of the first n operations fail. */
  function Failures(works: nat -> bool, n: nat): nat {
    if n == 0 then 0 else Failures(works, n - 1) + if works(n - 1) then 0 else 1
  }

  /** One user's part of the runtime directory.  `run` records the protocol run of all file-system steps taken;
      every operation may fail: `works` says which do, by their position in the order they are tried. */
  class RuntimeDir {
    const uid: string
    const works: nat -> bool
    var ops: nat
    var tree: Tree
    ghost var run: Run
    ghost var start: Run
    ghost var log: seq<Step>

    ghost predicate Valid()
      reads this
    {
      run.s.tree == tree && RunOk(run, uid) && run == Execute(start, uid, log)
    }

    constructor (uid: string, works: nat -> bool, tree: Tree, ghost published: seq<View>)
      requires RunOk(Run(State(tree, Idle), [], published), uid)
      ensures Valid() && this.uid == uid && this.works == works && ops == 0 && this.tree == tree
      ensures run == Run(State(tree, Idle), [], published) && log == []
    {
      this.uid, this.works, ops := uid, works, 0;
      this.tree, run := tree, Run(State(tree, Idle), [], published);
      start, log := Run(State(tree, Idle), [], published), [];
    }

    /** How many of the operations tried so far failed. */
    ghost function Faults(): nat
      reads this
    {
      Failures(works, ops)
    }

    /** The next operation is tried. */
    method Try() returns (ok: bool)
      requires Valid()
      modifies this`ops
      ensures Valid() && Faults() == old(Faults()) + if ok then 0 else 1
    {
      ok := works(ops);
      ops := ops + 1;
    }

    /** Every file-system step is a protocol step. */
    ghost method Record(step: Step)
      requires RunOk(run, uid) && run == Execute(start, uid, log) && Next(run.s, uid, step).tree == tree
      modifies this`run, this`log
      ensures Valid() && run == NextRun(old(run), uid, step) && log == old(log) + [step]
    {
      StepOk(run, uid, step);
      ExecuteSnoc(start, uid, log, step);
      run, log := NextRun(run, uid, step), log + [step];
    }

    method MakeVersion(stamp: nat, ghost wanted: seq<(Skill, Target)>, ghost tmp: nat) returns (ok: bool)
      requires Valid() && run.s.phase.Idle? && Ver(uid, stamp) !in tree
      modifies this`tree, this`run, this`log, this`ops
      ensures Valid() && old(log) <= log && run.published == old(run.published)
      ensures ok ==> run.s.phase == Building(stamp, wanted) && run.wanted == wanted && FreshSoFar(run)
      ensures !ok ==> tree == old(tree) && run == old(run)
      ensures Faults() == old(Faults()) + if ok then 0 else 1
      ensures Tmp(uid, tmp) in tree <==> Tmp(uid, tmp) in old(tree)
    {
      ok := Try();
      if ok {
        tree := tree[Ver(uid, stamp) := Dir(map[])];
        Record(Begin(stamp, wanted));
      }
    }

    /** The next symbolic link in the directory being built; it fails when the name is taken. */
    method AddLink(stamp: nat, e: (Skill, Target), ghost tmp: nat) returns (ok: bool)
      requires Valid() && run.s.phase.Building? && run.s.phase.stamp == stamp
      requires run.s.phase.todo != [] && run.s.phase.todo[0] == e && FreshSoFar(run)
      modifies this`tree, this`run, this`log, this`ops
      ensures Valid() && old(log) <= log && run.published == old(run.published) && run.wanted == old(run.wanted)
      ensures ok ==> run.s.phase == Building(stamp, old(run.s.phase.todo)[1..]) && FreshSoFar(run)
      ensures !ok ==> tree == old(tree) && run == old(run)
      ensures Faults() >= old(Faults()) && (Tmp(uid, tmp) in tree <==> Tmp(uid, tmp) in old(tree))
      ensures if ok then Faults() == old(Faults())
              else Faults() > old(Faults()) || !Fresh(run.wanted, |run.wanted|)
    {
      var v := Ver(uid, stamp);
      ok := Try();
      NextName(run, uid);
      ok := ok && e.0 !in tree[v].entries;
      if ok {
        EntryLinked(run, uid, tmp);
        tree := tree[v := Dir(tree[v].entries[e.0 := e.1])];
        Record(AddEntry);
      }
    }

    method AddAll(stamp: nat, items: seq<(Skill, Target)>, skip: set<Skill>, ghost rest: seq<(Skill, Target)>,
                  ghost tmp: nat) returns (ok: bool)
      requires Valid() && run.s.phase == Building(stamp, Kept(items, skip) + rest) && FreshSoFar(run)
      modifies this`tree, this`run, this`log, this`ops
      ensures Valid() && old(log) <= log && run.published == old(run.published) && run.wanted == old(run.wanted)
      ensures run.s.phase.Building? && run.s.phase.stamp == stamp
      ensures ok ==> run.s.phase.todo == rest && FreshSoFar(run)
      ensures Faults() >= old(Faults()) && (Tmp(uid, tmp) in tree <==> Tmp(uid, tmp) in old(tree))
      ensures if ok then Faults() == old(Faults())
              else Faults() > old(Faults()) || !Fresh(run.wanted, |run.wanted|)
    {
      for i := 0 to |items|
        invariant Valid() && old(log) <= log && run.published == old(run.published) && run.wanted == old(run.wanted)
        invariant run.s.phase == Building(stamp, Kept(items[i..], skip) + rest) && FreshSoFar(run)
        invariant Faults() == old(Faults())
        invariant Tmp(uid, tmp) in tree <==> Tmp(uid, tmp) in old(tree)
      {
        KeptStep(items, i, skip, rest);
        if items[i].0 !in skip {
          ok := AddLink(stamp, items[i], tmp);
          if !ok { return; }
        }
      }
      assert items[|items|..] == [];
      assert [] + rest == rest;
      ok := true;
    }

    /** Takes a directory apart, entry by entry; it may stop anywhere. */
    method RemoveAll(n: Name) returns (gone: bool)
      requires Valid() && Removable(run.s, uid, n)
      modifies this`tree, this`run, this`log, this`ops
      ensures Valid() && old(log) <= log && run.published == old(run.published) && run.s.phase == old(run.s.phase)
      ensures tree - {n} == old(tree) - {n} && (gone ==> n !in tree)
      ensures Faults() >= old(Faults()) && (gone || Faults() > old(Faults()))
    {
      var todo := if tree[n].Dir? then tree[n].entries.Keys else {};
      while todo != {}
        invariant Valid() && old(log) <= log && run.published == old(run.published) && run.s.phase == old(run.s.phase)
        invariant tree - {n} == old(tree) - {n} && Removable(run.s, uid, n) && (todo != {} ==> tree[n].Dir?)
        invariant Faults() >= old(Faults())
        decreases todo
      {
        var k :| k in todo;
        todo := todo - {k};
        gone := RemoveOne(n, k);
        if !gone { return; }
      }
      gone := RemoveEmpty(n);
    }

    method RemoveOne(n: Name, k: Skill) returns (gone: bool)
      requires Valid() && Removable(run.s, uid, n) && tree[n].Dir?
      modifies this`tree, this`run, this`log, this`ops
      ensures Valid() && old(log) <= log && run.published == old(run.published) && run.s.phase == old(run.s.phase)
      ensures tree - {n} == old(tree) - {n} && Removable(run.s, uid, n) && tree[n].Dir?
      ensures Faults() == old(Faults()) + if gone then 0 else 1
    {
      gone := Try();
      EntryRemoved(run.s, uid, n, k);
      if gone {
        tree := tree[n := Dir(tree[n].entries - {k})];
        Record(RemoveEntry(n, k));
      }
    }

    method RemoveEmpty(n: Name) returns (gone: bool)
      requires Valid() && Removable(run.s, uid, n)
      modifies this`tree, this`run, this`log, this`ops
      ensures Valid() && old(log) <= log && run.published == old(run.published) && run.s.phase == old(run.s.phase)
      ensures tree == if gone then old(tree) - {n} else old(tree)
      ensures Faults() == old(Faults()) + if gone then 0 else 1
    {
      gone := Try();
      if gone {
        tree := tree - {n};
        Record(RemoveDir(n));
      }
    }

    /** Gives up before the swap: the half-built directory is removed, the link was never touched. */
    method Abort(stamp: nat)
      requires Valid() && (run.s.phase.Building? || run.s.phase.Undoing?) && run.s.phase.stamp == stamp
      requires run.s.phase.Undoing? ==> Ver(uid, stamp) in tree
      modifies this`tree, this`run, this`log, this`ops
      ensures Valid() && old(log) <= log && run.published == old(run.published) && run.s.phase.Idle?
      ensures Faults() >= old(Faults())
    {
      if run.s.phase.Building? { Record(Fail); }
      var _ := RemoveAll(Ver(uid, stamp));
      Record(Done);
    }

    method MakeTmpLink(stamp: nat, tmp: nat) returns (ok: bool)
      requires Valid() && run.s.phase == Building(stamp, [])
      modifies this`tree, this`run, this`log, this`ops
      ensures Valid() && old(log) <= log && run.wanted == old(run.wanted) && run.published == old(run.published)
      ensures run.s.phase == if ok then Linked(stamp, tmp) else old(run.s.phase)
      ensures Faults() >= old(Faults())
      ensures if ok then Tmp(uid, tmp) !in old(tree) && Faults() == old(Faults())
              else Tmp(uid, tmp) in old(tree) || Faults() > old(Faults())
    {
      ok := Try();
      ok := ok && Tmp(uid, tmp) !in tree;
      if ok {
        tree := tree[Tmp(uid, tmp) := Link(Ver(uid, stamp))];
        Record(LinkTmp(tmp));
      }
    }

    /** The rename, or the removal of the temporary link when it fails. */
    method Rename(stamp: nat, tmp: nat) returns (ok: bool)
      requires Valid() && run.s.phase == Linked(stamp, tmp)
      modifies this`tree, this`run, this`log, this`ops
      ensures Valid() && old(log) <= log
      ensures ok ==> run.s.phase == Sweeping(stamp) && IsLiveTarget(tree, uid, Ver(uid, stamp))
                     && run.published == old(run.published) + [ListView(old(run.wanted))]
      ensures !ok ==> run.s.phase.Undoing? && run.s.phase.stamp == stamp && Ver(uid, stamp) in tree
                      && run.published == old(run.published)
      ensures Faults() >= old(Faults()) && (if ok then Faults() == old(Faults()) else Faults() > old(Faults()))
    {
      ok := Try();
      if ok {
        tree := (tree - {Tmp(uid, tmp)})[Live(uid) := tree[Tmp(uid, tmp)]];
        Record(Swap);
      } else {
        DropTmpLink(stamp, tmp);
      }
    }

    /** Gives the swap up; removing the temporary link may fail. */
    method DropTmpLink(stamp: nat, tmp: nat)
      requires Valid() && run.s.phase == Linked(stamp, tmp)
      modifies this`tree, this`run, this`log, this`ops
      ensures Valid() && old(log) <= log
      ensures run.s.phase == Undoing(stamp, Some(tmp)) && run.published == old(run.published) && Ver(uid, stamp) in tree
      ensures Faults() >= old(Faults())
    {
      Record(Fail);
      var _ := RemoveLink(Tmp(uid, tmp));
    }

    /** Everything up to the swap, undone as far as possible when something fails. */
    method BuildAndSwap(stamp: nat, tmp: nat, builtins: seq<(Skill, Target)>, users: seq<(Skill, Target)>,
                        uninstalled: set<Skill>, disabled: set<Skill>, ghost wanted: seq<(Skill, Target)>)
      returns (ok: bool)
      requires Valid() && run.s.phase.Idle? && Ver(uid, stamp) !in tree
      requires wanted == Kept(builtins, uninstalled + disabled) + Kept(users, disabled)
      modifies this`tree, this`run, this`log, this`ops
      ensures Valid() && old(log) <= log
      ensures !ok ==> run.s.phase.Idle? && run.published == old(run.published)
      ensures ok ==> run.s.phase == Sweeping(stamp) && IsLiveTarget(tree, uid, Ver(uid, stamp))
      ensures ok ==> run.published == old(run.published) + [ListView(wanted)]
      ensures Faults() >= old(Faults())
      ensures if ok then Tmp(uid, tmp) !in old(tree) && Fresh(wanted, |wanted|) && Faults() == old(Faults())
              else Tmp(uid, tmp) in old(tree) || !Fresh(wanted, |wanted|) || Faults() > old(Faults())
    {
      ok := MakeVersion(stamp, wanted, tmp);
      if ok { ok := FillAndSwap(stamp, tmp, builtins, users, uninstalled, disabled); }
    }

    method FillAndSwap(stamp: nat, tmp: nat, builtins: seq<(Skill, Target)>, users: seq<(Skill, Target)>,
                       uninstalled: set<Skill>, disabled: set<Skill>) returns (ok: bool)
      requires Valid() && run.s.phase == Building(stamp, Kept(builtins, uninstalled + disabled) + Kept(users, disabled))
      requires FreshSoFar(run)
      modifies this`tree, this`run, this`log, this`ops
      ensures Valid() && old(log) <= log
      ensures !ok ==> run.s.phase.Idle? && run.published == old(run.published)
      ensures ok ==> run.s.phase == Sweeping(stamp) && IsLiveTarget(tree, uid, Ver(uid, stamp))
                     && run.published == old(run.published) + [ListView(old(run.wanted))]
      ensures Faults() >= old(Faults())
      ensures if ok then Tmp(uid, tmp) !in old(tree) && Fresh(old(run.wanted), |old(run.wanted)|)
                         && Faults() == old(Faults())
              else Tmp(uid, tmp) in old(tree) || !Fresh(old(run.wanted), |old(run.wanted)|)
                   || Faults() > old(Faults())
    {
      ok := FillAndLink(stamp, tmp, builtins, users, uninstalled, disabled);
      if ok { ok := RenameOrAbort(stamp, tmp); } else { Abort(stamp); }
    }

    method FillAndLink(stamp: nat, tmp: nat, builtins: seq<(Skill, Target)>, users: seq<(Skill, Target)>,
                       uninstalled: set<Skill>, disabled: set<Skill>) returns (ok: bool)
      requires Valid() && run.s.phase == Building(stamp, Kept(builtins, uninstalled + disabled) + Kept(users, disabled))
      requires FreshSoFar(run)
      modifies this`tree, this`run, this`log, this`ops
      ensures Valid() && old(log) <= log && run.published == old(run.published) && run.wanted == old(run.wanted)
      ensures if ok then run.s.phase == Linked(stamp, tmp) else run.s.phase.Building? && run.s.phase.stamp == stamp
      ensures Faults() >= old(Faults())
      ensures if ok then Tmp(uid, tmp) !in old(tree) && Fresh(run.wanted, |run.wanted|) && Faults() == old(Faults())
              else Tmp(uid, tmp) in old(tree) || !Fresh(run.wanted, |run.wanted|) || Faults() > old(Faults())
    {
      ok := Fill(stamp, builtins, users, uninstalled, disabled, tmp);
      if ok { ok := MakeTmpLink(stamp, tmp); }
    }

    method RenameOrAbort(stamp: nat, tmp: nat) returns (ok: bool)
      requires Valid() && run.s.phase == Linked(stamp, tmp)
      modifies this`tree, this`run, this`log, this`ops
      ensures Valid() && old(log) <= log
      ensures ok ==> run.s.phase == Sweeping(stamp) && IsLiveTarget(tree, uid, Ver(uid, stamp))
                     && run.published == old(run.published) + [ListView(old(run.wanted))]
      ensures !ok ==> run.s.phase.Idle? && run.published == old(run.published)
      ensures Faults() >= old(Faults()) && (ok <==> Faults() == old(Faults()))
    {
      ok := Rename(stamp, tmp);
      if !ok { Abort(stamp); }
    }

    /** The whole rebuild.  Whatever fails and wherever it stops, all its file-system steps are protocol steps, so
        every intermediate state is covered by CrashSafeSwap; success publishes exactly the wanted view, failure
        publishes nothing, and a clean success leaves one version directory and no temporary link. */
    method Rebuild(stamp: nat, tmp: nat, builtins: seq<(Skill, Target)>, users: seq<(Skill, Target)>,
                   uninstalled: set<Skill>, disabled: set<Skill>) returns (swapped: bool, clean: bool)
      requires Valid() && run.s.phase.Idle? && Ver(uid, stamp) !in tree
      modifies this`tree, this`run, this`log, this`ops
      ensures Valid() && old(log) <= log && run.s.phase.Idle?
      ensures var wanted := Kept(builtins, uninstalled + disabled) + Kept(users, disabled);
              run.published == old(run.published) + if swapped then [ListView(wanted)] else []
      ensures swapped ==> IsLiveTarget(tree, uid, Ver(uid, stamp)) && Ver(uid, stamp) in tree
      ensures swapped && clean ==> OneVersion(tree, uid, stamp)
      ensures Faults() >= old(Faults())
      ensures var wanted := Kept(builtins, uninstalled + disabled) + Kept(users, disabled);
              if swapped then Tmp(uid, tmp) !in old(tree) && DistinctSkills(wanted)
              else Tmp(uid, tmp) in old(tree) || !DistinctSkills(wanted) || Faults() > old(Faults())
      ensures swapped && !clean ==> Faults() > old(Faults()) || Obstructed(tree, uid)
    {
      clean := false;
      ghost var wanted := Kept(builtins, uninstalled + disabled) + Kept(users, disabled);
      AllFreshIff(wanted);
      swapped := BuildAndSwap(stamp, tmp, builtins, users, uninstalled, disabled, wanted);
      if swapped { clean := StampAndSweep(stamp); }
    }

    /** Lists the skills, which may fail, and links them. */
    method Fill(stamp: nat, builtins: seq<(Skill, Target)>, users: seq<(Skill, Target)>,
                uninstalled: set<Skill>, disabled: set<Skill>, ghost tmp: nat) returns (ok: bool)
      requires Valid() && run.s.phase == Building(stamp, Kept(builtins, uninstalled + disabled) + Kept(users, disabled))
      requires FreshSoFar(run)
      modifies this`tree, this`run, this`log, this`ops
      ensures Valid() && old(log) <= log && run.published == old(run.published) && run.wanted == old(run.wanted)
      ensures run.s.phase.Building? && run.s.phase.stamp == stamp && (ok ==> run.s.phase.todo == [])
      ensures Faults() >= old(Faults()) && (Tmp(uid, tmp) in tree <==> Tmp(uid, tmp) in old(tree))
      ensures if ok then Faults() == old(Faults()) && Fresh(run.wanted, |run.wanted|)
              else Faults() > old(Faults()) || !Fresh(run.wanted, |run.wanted|)
    {
      ok := AddListed(stamp, builtins, uninstalled + disabled, Kept(users, disabled), tmp);
      if !ok { return; }
      NothingBehind(Kept(users, disabled));
      ok := AddListed(stamp, users, disabled, [], tmp);
      if ok { AllLinked(run); }
    }

    /** Lists one kind of skills, and links them. */
    method AddListed(stamp: nat, items: seq<(Skill, Target)>, skip: set<Skill>, ghost rest: seq<(Skill, Target)>,
                     ghost tmp: nat) returns (ok: bool)
      requires Valid() && run.s.phase == Building(stamp, Kept(items, skip) + rest) && FreshSoFar(run)
      modifies this`tree, this`run, this`log, this`ops
      ensures Valid() && old(log) <= log && run.published == old(run.published) && run.wanted == old(run.wanted)
      ensures run.s.phase.Building? && run.s.phase.stamp == stamp
      ensures ok ==> run.s.phase.todo == rest && FreshSoFar(run)
      ensures Faults() >= old(Faults()) && (Tmp(uid, tmp) in tree <==> Tmp(uid, tmp) in old(tree))
      ensures if ok then Faults() == old(Faults())
              else Faults() > old(Faults()) || !Fresh(run.wanted, |run.wanted|)
    {
      ok := Try();
      if ok { ok := AddAll(stamp, items, skip, rest, tmp); }
    }

    /** One name of the directory: `gone` when nothing of it is left that has to go.  No other name is touched. */
    method SweepOne(stamp: nat, live: Name, n: Name) returns (gone: bool)
      requires Valid() && run.s.phase == Sweeping(stamp) && IsLiveTarget(tree, uid, live) && live == Ver(uid, stamp)
      requires n in tree
      modifies this`tree, this`run, this`log, this`ops
      ensures Valid() && old(log) <= log && run.s.phase == old(run.s.phase) && run.published == old(run.published)
      ensures IsLiveTarget(tree, uid, live) && tree - {n} == old(tree) - {n}
      ensures gone && n in tree ==> Swept(uid, stamp, n)
      ensures Faults() >= old(Faults()) && (gone || Faults() > old(Faults()) || Obstructs(tree, uid, n))
    {
      gone := true;
      SafeNames(uid, n);
      PrefixesDiffer(uid, n);
      if VerPrefixed(uid, n) {
        if n != Ver(uid, stamp) && n != live {
          ghost var t := tree;
          gone := RemoveAll(n);
          OnlyOneChanged(t, tree, n);
        }
      } else if TmpPrefixed(uid, n) {
        gone := RemoveLink(n);
      }
    }

    /** Removes the stale versions and temporary links, told by their prefix; `clean` when every removal worked.  It is
        not only when an operation failed, or a directory that is not empty stands where a link should be. */
    method Sweep(stamp: nat) returns (clean: bool)
      requires Valid() && run.s.phase == Sweeping(stamp) && IsLiveTarget(tree, uid, Ver(uid, stamp))
      modifies this`tree, this`run, this`log, this`ops
      ensures Valid() && old(log) <= log && run.s.phase == old(run.s.phase) && run.published == old(run.published)
      ensures IsLiveTarget(tree, uid, Ver(uid, stamp))
      ensures clean ==> forall n :: n in tree ==> Swept(uid, stamp, n)
      ensures Faults() >= old(Faults()) && (clean || Faults() > old(Faults()) || Obstructed(tree, uid))
    {
      clean := Try();
      if !clean { return; }
      var live, todo := tree[Live(uid)].target, tree.Keys;
      ghost var left := live;
      while todo != {}
        invariant Valid() && old(log) <= log && run.s.phase == old(run.s.phase) && run.published == old(run.published)
        invariant Faults() >= old(Faults())
        invariant clean || Faults() > old(Faults()) || (left !in todo && Obstructs(tree, uid, left))
        invariant IsLiveTarget(tree, uid, live)
        invariant clean ==> forall n :: n in tree && n !in todo ==> Swept(uid, stamp, n)
        decreases todo
      {
        var n :| n in todo;
        if n in tree {
          ghost var t := tree;
          var gone := SweepOne(stamp, live, n);
          OnlyOneChanged(t, tree, n);
          if !gone && clean { left := n; }
          clean := clean && gone;
        }
        todo := todo - {n};
      }
    }

    /** The end of a rebuild after the swap: the seed stamp, and only when it could be written the sweep. */
    method StampAndSweep(stamp: nat) returns (clean: bool)
      requires Valid() && run.s.phase == Sweeping(stamp) && IsLiveTarget(tree, uid, Ver(uid, stamp))
      modifies this`tree, this`run, this`log, this`ops
      ensures Valid() && old(log) <= log && run.s.phase.Idle? && run.published == old(run.published)
      ensures IsLiveTarget(tree, uid, Ver(uid, stamp)) && Ver(uid, stamp) in tree
      ensures clean ==> OneVersion(tree, uid, stamp)
      ensures Faults() >= old(Faults()) && (clean || Faults() > old(Faults()) || Obstructed(tree, uid))
    {
      clean := Try();
      if clean {
        clean := Sweep(stamp);
        if clean { OwnNamesSwept(tree, uid, stamp); }
      }
      LiveTargetIsThere(run, uid, Ver(uid, stamp));
      EndSweep();
    }

    /** The rebuild is over. */
    ghost method EndSweep()
      requires Valid() && run.s.phase.Sweeping?
      modifies this`run, this`log
      ensures Valid() && old(log) <= log && run.s.phase.Idle? && run.published == old(run.published)
    {
      Record(Done);
    }

    /** Removes a temporary link; a directory that is not empty stays. */
    method RemoveLink(n: Name) returns (gone: bool)
      requires Valid() && n in tree && (run.s.phase.Sweeping? || run.s.phase.Undoing?)
      requires run.s.phase.Sweeping? ==> TmpPrefixed(uid, n)
      requires run.s.phase.Undoing? ==> run.s.phase.linked.Some? && n == Tmp(uid, run.s.phase.linked.value)
      modifies this`tree, this`run, this`log, this`ops
      ensures Valid() && old(log) <= log && run.s.phase == old(run.s.phase) && run.published == old(run.published)
      ensures tree == if gone then old(tree) - {n} else old(tree)
      ensures Faults() >= old(Faults())
      ensures gone || Faults() > old(Faults()) || (tree[n].Dir? && tree[n].entries != map[])
    {
      gone := Try();
      gone := gone && (tree[n].Dir? ==> tree[n].entries == map[]);
      if gone {
        tree := tree - {n};
        Record(RemoveTmp(n));
      }
    }
  }

  /** The user has one version directory, the one in use, and no temporary link. */
  ghost predicate OneVersion(t: Tree, uid: string, stamp: nat) {
    forall n :: n in t && n.uid == uid ==> (n.Ver? ==> n == Ver(uid, stamp)) && !n.Tmp?
  }

  lemma OwnNamesSwept(t: Tree, uid: string, stamp: nat)
    requires forall n :: n in t ==> Swept(uid, stamp, n)
    ensures OneVersion(t, uid, stamp)
  {
    forall n | n in t && n.uid == uid ensures (n.Ver? ==> n == Ver(uid, stamp)) && !n.Tmp? { OwnNames(n); }
  }

  /** A directory that is not empty has the prefix of the user's temporary links; the sweep cannot remove it. */
  predicate Obstructs(t: Tree, uid: string, n: Name) {
    n in t && TmpPrefixed(uid, n) && t[n].Dir? && t[n].entries != map[]
  }

  predicate Obstructed(t: Tree, uid: string) { exists n :: n in t && Obstructs(t, uid, n) }

  lemma PrefixesDiffer(uid: string, n: Name)
    ensures !(VerPrefixed(uid, n) && TmpPrefixed(uid, n))
  {
    assert (uid + VER)[|uid| + 1] == 'v' && (uid + TMP)[|uid| + 1] == 't';
  }

  /** Nothing with a prefix of this user but the version in use. */
  predicate Swept(uid: string, stamp: nat, n: Name) {
    (VerPrefixed(uid, n) ==> n == Ver(uid, stamp)) && !TmpPrefixed(uid, n)
  }

  lemma OnlyOneChanged(t: Tree, t': Tree, n: Name)
    requires t' - {n} == t - {n}
    ensures forall m :: m != n ==> (m in t' <==> m in t) && (m in t ==> t'[m] == t[m])
  {
    forall m | m != n ensures (m in t' <==> m in t) && (m in t ==> t'[m] == t[m]) {
      assert m in t' <==> m in t' - {n};
      assert m in t <==> m in t - {n};
    }
  }
}
