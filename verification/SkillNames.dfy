/**
  The names in the runtime directory (service/skills_runtime.go): whose a name
  is, is decided by its prefix alone, both when a view is built and when the
  left-overs of a user are swept.
 */
module SkillNames {
  import opened Common

  /** The link of a user, its version directories, temporary links and seed stamp. */
  datatype Name = Live(uid: string) | Ver(uid: string, stamp: nat) | Tmp(uid: string, stamp: nat) | Seed(uid: string)

  const VER := ".v"
  const TMP := ".tmp-"
  const SEED := ".seed"

  function Suffix(n: Name): string {
    match n
    case Live(_) => ""
    case Ver(_, stamp) => VER + Decimal(stamp)
    case Tmp(_, stamp) => TMP + Decimal(stamp)
    case Seed(_) => SEED
  }

  /** The name as the file system has it. */
  function Text(n: Name): string { n.uid + Suffix(n) }

  /** The two tests of the sweep of user `uid`. */
  predicate VerPrefixed(uid: string, n: Name) { uid + VER <= Text(n) }
  predicate TmpPrefixed(uid: string, n: Name) { uid + TMP <= Text(n) }

  predicate Dotless(t: string) { '.' !in t }

  /** A dot at the beginning and nowhere else, or nothing at all. */
  predicate OneDot(t: string) { t == "" || (t[0] == '.' && forall i :: 0 < i < |t| ==> t[i] != '.') }

  lemma {:induction false} DecimalIsDotless(n: nat)
    ensures forall i :: 0 <= i < |Decimal(n)| ==> Decimal(n)[i] != '.'
    ensures |Decimal(n)| > 0
  {
    if n >= 10 { DecimalIsDotless(n / 10); }
  }

  lemma SuffixHasOneDot(n: Name)
    ensures OneDot(Suffix(n))
  {
    if n.Ver? || n.Tmp? { DecimalIsDotless(n.stamp); }
  }

  /** If u with a tag behind it begins v with a suffix behind it, it begins v itself. */
  lemma PrefixSplit(u: string, tag: string, v: string, suffix: string)
    requires u != v && OneDot(tag) && tag != "" && OneDot(suffix)
    ensures u + tag <= v + suffix <==> u + tag <= v
  {
    var a, b := u + tag, v + suffix;
    assert a[|u|] == '.' && (suffix != "" ==> b[|v|] == '.');
    assert forall i :: |u| < i < |a| ==> a[i] == tag[i - |u|];
    assert forall i :: |v| < i < |b| ==> b[i] == suffix[i - |v|];
    assert u == a[..|u|] && v == b[..|v|];
    if a <= b { assert a == b[..|a|]; }
  }

  lemma CancelPrefix(u: string, x: string, y: string)
    ensures u + x <= u + y <==> x <= y
  {
    if u + x <= u + y { assert x == (u + x)[|u|..] && y == (u + y)[|u|..]; }
    if x <= y { assert y == x + y[|x|..]; Assoc(u, x, y[|x|..]); }
  }

  /** Of its own names the sweep picks the version directories and the temporary links. */
  lemma OwnNames(n: Name)
    ensures VerPrefixed(n.uid, n) <==> n.Ver?
    ensures TmpPrefixed(n.uid, n) <==> n.Tmp?
  {
    CancelPrefix(n.uid, VER, Suffix(n));
    CancelPrefix(n.uid, TMP, Suffix(n));
    assert VER[1] == 'v' && TMP[1] == 't' && SEED[1] == 's';
    match n
    case Live(_) =>
    case Ver(_, stamp) => assert (VER + Decimal(stamp))[1] == 'v';
    case Tmp(_, stamp) => assert (TMP + Decimal(stamp))[1] == 't';
    case Seed(_) =>
  }

  /** Of another user's names the sweep picks one if and only if that user's id itself begins with the prefix. */
  lemma OtherNames(uid: string, n: Name)
    requires n.uid != uid
    ensures VerPrefixed(uid, n) <==> uid + VER <= n.uid
    ensures TmpPrefixed(uid, n) <==> uid + TMP <= n.uid
  {
    SuffixHasOneDot(n);
    PrefixSplit(uid, VER, n.uid, Suffix(n));
    PrefixSplit(uid, TMP, n.uid, Suffix(n));
  }

  /** Ids without a dot, as all accepted ones are, never collide: the sweep picks exactly the user's own version
      directories and temporary links. */
  lemma DotlessNames(uid: string, n: Name)
    requires Dotless(n.uid)
    ensures VerPrefixed(uid, n) <==> n.uid == uid && n.Ver?
    ensures TmpPrefixed(uid, n) <==> n.uid == uid && n.Tmp?
  {
    if n.uid == uid {
      OwnNames(n);
    } else {
      OtherNames(uid, n);
      assert (uid + VER)[|uid|] == '.' && (uid + TMP)[|uid|] == '.';
    }
  }

  /** Ids with a dot can: user 7 sweeps the link of user 7.vip. */
  lemma CollidingIds()
    ensures VerPrefixed("7", Live("7.vip")) && Live("7.vip").uid != "7"
  {
    assert "7" + VER == "7.v" && Text(Live("7.vip")) == "7.vip";
  }

  lemma {:induction false} DecimalIsInjective(a: nat, b: nat)
    requires Decimal(a) == Decimal(b)
    ensures a == b
  {
    var da, db := Decimal(a), Decimal(b);
    assert da[|da| - 1] == db[|db| - 1];
    DecimalIsDotless(a / 10);
    DecimalIsDotless(b / 10);
    if a >= 10 && b >= 10 {
      assert da[..|da| - 1] == Decimal(a / 10) && db[..|db| - 1] == Decimal(b / 10);
      DecimalIsInjective(a / 10, b / 10);
    }
  }

  /** For ids without a dot the text of a name determines it, so names stand for files. */
  lemma TextIsInjective(a: Name, b: Name)
    requires Dotless(a.uid) && Dotless(b.uid) && Text(a) == Text(b)
    ensures a == b
  {
    SameOwner(a, b);
    assert Suffix(a) == Text(a)[|a.uid|..] == Text(b)[|b.uid|..] == Suffix(b);
    OwnNames(a);
    OwnNames(b);
    if a.Ver? {
      assert Suffix(a)[2..] == Decimal(a.stamp) && Suffix(b)[2..] == Decimal(b.stamp);
      DecimalIsInjective(a.stamp, b.stamp);
    } else if a.Tmp? {
      assert Suffix(a)[5..] == Decimal(a.stamp) && Suffix(b)[5..] == Decimal(b.stamp);
      DecimalIsInjective(a.stamp, b.stamp);
    }
  }

  lemma SameOwner(a: Name, b: Name)
    requires Dotless(a.uid) && Dotless(b.uid) && Text(a) == Text(b)
    ensures a.uid == b.uid
  {
    SuffixHasOneDot(a);
    SuffixHasOneDot(b);
    assert Suffix(a) != "" ==> Text(a)[|a.uid|] == '.';
    assert Suffix(b) != "" ==> Text(b)[|b.uid|] == '.';
    assert a.uid == Text(a)[..|a.uid|] && b.uid == Text(b)[..|b.uid|];
  }

  /** No file has the text of this name. */
  predicate NewText(names: set<Name>, n: Name) { forall m :: m in names ==> Text(m) != Text(n) }

  predicate Shorter(names: set<Name>, k: nat) { forall m :: m in names ==> |Text(m)| < k }

  lemma {:induction false} LongestText(names: set<Name>) returns (k: nat)
    ensures Shorter(names, k)
    decreases names
  {
    k := 0;
    if names != {} {
      var m :| m in names;
      k := LongestText(names - {m});
      if k <= |Text(m)| { k := |Text(m)| + 1; }
    }
  }

  lemma {:induction false} LongNumber(k: nat) returns (n: nat)
    ensures n > 0 && |Decimal(n)| >= k
  {
    if k == 0 {
      n := 1;
    } else {
      var m := LongNumber(k - 1);
      n := 10 * m;
      assert n / 10 == m;
    }
  }

  /** There is always a stamp whose version directory and temporary link would be new. */
  lemma FreshStamp(names: set<Name>, uid: string) returns (n: nat)
    ensures NewText(names, Ver(uid, n)) && NewText(names, Tmp(uid, n))
  {
    var k := LongestText(names);
    n := LongNumber(k);
  }
}
