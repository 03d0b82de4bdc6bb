/** The execution order of external decisions, and the initial merge of two
    trees executed in that order. */
module Order {
  import opened Paths
  import opened Domain
  import opened Planner
  import opened RootPlan
  import opened PlanLaws

  /** 0: directory creates, 1: file creates, 2: file deletes, 3: directory deletes. */
  function Group(d: Decision): nat {
    if !IsDelete(d.kind) && d.entryKind == KindDir then 0
    else if !IsDelete(d.kind) then 1
    else if d.entryKind == KindFile then 2
    else 3
  }

  /** The comparator: group, then depth (deepest first among deletes), then path. */
  predicate Before(a: Decision, b: Decision) {
    if Group(a) != Group(b) then Group(a) < Group(b)
    else if Depth(a.relPath) != Depth(b.relPath) then
      if Group(a) >= 2 then Depth(a.relPath) > Depth(b.relPath) else Depth(a.relPath) < Depth(b.relPath)
    else Less(a.relPath, b.relPath)
  }

  lemma BeforeIsStrictTotalOrder(a: Decision, b: Decision, c: Decision)
    ensures !Before(a, a)
    ensures Before(a, b) && Before(b, c) ==> Before(a, c)
    ensures a.relPath != b.relPath ==> (Before(a, b) <==> !Before(b, a))
  {
    hide Less, Depth, Group;
    LessIrreflexive(a.relPath);
    if Before(a, b) && Before(b, c) && Less(a.relPath, b.relPath) && Less(b.relPath, c.relPath) {
      LessTransitive(a.relPath, b.relPath, c.relPath);
    }
    if a.relPath != b.relPath {
      LessTotal(a.relPath, b.relPath);
      if Less(a.relPath, b.relPath) && Less(b.relPath, a.relPath) {
        LessTransitive(a.relPath, b.relPath, a.relPath);
      }
    }
  }

  predicate DistinctPaths(ds: seq<Decision>) {
    forall i, j | 0 <= i < j < |ds| :: ds[i].relPath != ds[j].relPath
  }

  predicate InOrder(ds: seq<Decision>) {
    forall i, j | 0 <= i < j < |ds| :: Before(ds[i], ds[j])
  }

  /** Inserts one decision into an ordered list. */
  method InsertDecision(d: Decision, sorted: seq<Decision>) returns (r: seq<Decision>)
    requires InOrder(sorted) && forall e | e in sorted :: e.relPath != d.relPath
    ensures InOrder(r) && multiset(r) == multiset(sorted) + multiset{d}
  {
    hide Before;
    var i := 0;
    while i < |sorted| && Before(sorted[i], d)
      invariant 0 <= i <= |sorted|
      invariant forall j | 0 <= j < i :: Before(sorted[j], d)
    {
      i := i + 1;
    }
    forall j | i <= j < |sorted| ensures Before(d, sorted[j]) {
      BeforeIsStrictTotalOrder(d, sorted[i], sorted[j]);
    }
    r := sorted[..i] + [d] + sorted[i..];
    assert sorted == sorted[..i] + sorted[i..];
  }

  method SortExternalDecisions(ds: seq<Decision>) returns (r: seq<Decision>)
    requires DistinctPaths(ds)
    ensures InOrder(r) && multiset(r) == multiset(ds)
  {
    hide Before;
    r := [];
    for i := 0 to |ds|
      invariant InOrder(r) && multiset(r) == multiset(ds[..i])
    {
      forall e | e in r ensures e.relPath != ds[i].relPath {
        assert e in multiset(ds[..i]);
        var j :| 0 <= j < i && ds[j] == e;
      }
      r := InsertDecision(ds[i], r);
      assert ds[..i + 1] == ds[..i] + [ds[i]];
    }
    assert ds[..|ds|] == ds;
  }

  method ExternalDecisions(ds: seq<Decision>) returns (r: seq<Decision>)
    requires DistinctPaths(ds)
    ensures DistinctPaths(r)
    ensures forall d :: d in r <==> d in ds && IsExternal(d.kind)
  {
    r := [];
    for i := 0 to |ds|
      invariant DistinctPaths(r)
      invariant forall d :: d in r <==> d in ds[..i] && IsExternal(d.kind)
    {
      assert ds[..i + 1] == ds[..i] + [ds[i]];
      if IsExternal(ds[i].kind) {
        forall e | e in r ensures e.relPath != ds[i].relPath {
          var j :| 0 <= j < i && ds[j] == e;
        }
        r := r + [ds[i]];
      }
    }
    assert ds[..|ds|] == ds;
  }

  /** The order is forced: two ordered lists of the same decisions are equal. */
  lemma {:induction false} OrderUnique(a: seq<Decision>, b: seq<Decision>)
    requires InOrder(a) && InOrder(b) && forall d :: d in a <==> d in b
    ensures a == b
  {
    hide Before;
    assert a != [] ==> a[0] in a;
    assert b != [] ==> b[0] in b;
    if a != [] && b != [] {
      if a[0] != b[0] {
        var i :| 0 <= i < |b| && b[i] == a[0];
        var j :| 0 <= j < |a| && a[j] == b[0];
        BeforeIsStrictTotalOrder(b[0], a[0], b[0]);
      }
      forall d ensures d in a[1..] <==> d in b[1..] {
        OrderedTail(a, d);
        OrderedTail(b, d);
      }
      OrderUnique(a[1..], b[1..]);
      assert a == [a[0]] + a[1..] && b == [b[0]] + b[1..];
    }
  }

  lemma OrderedTail(a: seq<Decision>, d: Decision)
    requires InOrder(a) && a != []
    ensures d in a[1..] <==> d in a && d != a[0]
  {
    hide Before;
    BeforeIsStrictTotalOrder(a[0], a[0], a[0]);
    if d in a && d != a[0] {
      var i :| 0 <= i < |a| && a[i] == d;
      assert a[1..][i - 1] == d;
    }
  }

  /** A directory create precedes everything created below it, a directory
      delete follows every delete below it, and creates precede deletes. */
  lemma TreeOrder(d: Decision, e: Decision)
    requires AtOrBelow(d.relPath, e.relPath) && d.relPath != e.relPath
    requires d.entryKind == KindDir
    ensures !IsDelete(d.kind) && !IsDelete(e.kind) ==> Before(d, e)
    ensures IsDelete(d.kind) && IsDelete(e.kind) ==> Before(e, d)
    ensures !IsDelete(d.kind) && IsDelete(e.kind) ==> Before(d, e)
  {
    BelowIsDeeper(d.relPath, e.relPath);
  }

  // ----- Initial merge -----

  type Tree = map<string, EntryKind>

  /** Every entry sits at the top level or below a directory of the tree. */
  ghost predicate HasParent(t: Tree, p: string) {
    '/' in p ==> exists q :: IsParent(q, p) && q in t && t[q] == KindDir
  }

  /** q + "/" + one component is p. */
  predicate IsParent(q: string, p: string) {
    q + "/" <= p && '/' !in p[|q| + 1..]
  }

  ghost predicate PrefixClosed(t: Tree) {
    forall p | p in t :: HasParent(t, p)
  }

  datatype Pair = Pair(local: Tree, remote: Tree)

  /** Executing one create: the target must be absent and its parent there. */
  ghost predicate CanCreate(w: Pair, d: Decision) {
    match d.kind
    case EnsureRemote => d.relPath !in w.remote && HasParent(w.remote, d.relPath)
    case EnsureLocal => d.relPath !in w.local && HasParent(w.local, d.relPath)
    case _ => false
  }

  function Create(w: Pair, d: Decision): Pair {
    if d.kind == EnsureRemote then w.(remote := w.remote[d.relPath := d.entryKind])
    else w.(local := w.local[d.relPath := d.entryKind])
  }

  function CreateAll(w: Pair, ds: seq<Decision>): Pair {
    if ds == [] then w
    else Create(CreateAll(w, ds[..|ds| - 1]), ds[|ds| - 1])
  }

  /** ds are the creates that an initial pairing of the two trees needs. */
  ghost predicate MergeDecisions(w: Pair, ds: seq<Decision>) {
    && DistinctPaths(ds)
    && (forall d | d in ds ::
          if d.kind == EnsureRemote then
              d.relPath in w.local && d.relPath !in w.remote && d.entryKind == w.local[d.relPath]
          else
            && d.kind == EnsureLocal && d.relPath in w.remote && d.relPath !in w.local
            && d.entryKind == w.remote[d.relPath])
    && (forall p | p in w.local && p !in w.remote :: exists d :: d in ds && d.relPath == p)
    && (forall p | p in w.remote && p !in w.local :: exists d :: d in ds && d.relPath == p)
  }

  ghost predicate KindsAgree(w: Pair) {
    forall p | p in w.local && p in w.remote :: w.local[p] == w.remote[p]
  }

  /** What a list of creates adds to one side. */
  function Made(ds: seq<Decision>, kind: DecisionKind): Tree {
    if ds == [] then map[]
    else
      var n := |ds| - 1;
      if ds[n].kind == kind then Made(ds[..n], kind)[ds[n].relPath := ds[n].entryKind] else Made(ds[..n], kind)
  }

  predicate OnlyCreates(ds: seq<Decision>) {
    forall d | d in ds :: d.kind == EnsureRemote || d.kind == EnsureLocal
  }

  lemma {:induction false} CreatedSoFar(w: Pair, ds: seq<Decision>)
    requires OnlyCreates(ds)
    ensures CreateAll(w, ds) == Pair(w.local + Made(ds, EnsureLocal), w.remote + Made(ds, EnsureRemote))
  {
    if ds == [] {
    } else {
      var n := |ds| - 1;
      assert ds[n] in ds && forall d | d in ds[..n] :: d in ds;
      CreatedSoFar(w, ds[..n]);
      AddAfterUnion(w.local, Made(ds[..n], EnsureLocal), ds[n].relPath, ds[n].entryKind);
      AddAfterUnion(w.remote, Made(ds[..n], EnsureRemote), ds[n].relPath, ds[n].entryKind);
    }
  }

  lemma AddAfterUnion(t: Tree, m: Tree, p: string, kind: EntryKind)
    ensures (t + m)[p := kind] == t + m[p := kind]
  {
  }

  lemma {:induction false} NotMade(ds: seq<Decision>, kind: DecisionKind, p: string)
    requires forall d | d in ds :: d.relPath != p
    ensures p !in Made(ds, kind)
  {
    if ds == [] {
    } else {
      var n := |ds| - 1;
      assert ds[n] in ds && forall d | d in ds[..n] :: d in ds;
      NotMade(ds[..n], kind, p);
    }
  }

  lemma {:induction false} MadeMember(ds: seq<Decision>, kind: DecisionKind, i: nat)
    requires DistinctPaths(ds) && i < |ds| && ds[i].kind == kind
    ensures ds[i].relPath in Made(ds, kind) && Made(ds, kind)[ds[i].relPath] == ds[i].entryKind
  {
    var n := |ds| - 1;
    if i < n { MadeMember(ds[..n], kind, i); }
  }

  lemma {:induction false} MadeSource(ds: seq<Decision>, kind: DecisionKind, p: string) returns (d: Decision)
    requires p in Made(ds, kind)
    ensures d in ds && d.kind == kind && d.relPath == p && Made(ds, kind)[p] == d.entryKind
  {
    var n := |ds| - 1;
    if ds[n].kind == kind && ds[n].relPath == p {
      d := ds[n];
    } else {
      d := MadeSource(ds[..n], kind, p);
    }
  }

  /** Executed in the sorted order, every create of the merge finds its target
      absent and its parent in place. */
  lemma MergeStepFindsParent(w: Pair, ds: seq<Decision>, i: nat)
    requires PrefixClosed(w.local) && PrefixClosed(w.remote) && KindsAgree(w)
    requires MergeDecisions(w, ds) && InOrder(ds) && i < |ds|
    ensures CanCreate(CreateAll(w, ds[..i]), ds[i])
  {
    hide Before, AtOrBelow, CreateAll, InOrder, KindsAgree, MergeDecisions;
    var d := ds[i];
    MergeMember(w, ds, i);
    CreatedSoFar(w, ds[..i]);
    NotMade(ds[..i], d.kind, d.relPath);
    if '/' in d.relPath {
      var mine := if d.kind == EnsureRemote then w.local else w.remote;
      assert HasParent(mine, d.relPath);
      var q :| IsParent(q, d.relPath) && q in mine && mine[q] == KindDir;
      ParentInTime(w, ds, i, q);
    }
  }

  lemma MergeMember(w: Pair, ds: seq<Decision>, i: nat)
    requires MergeDecisions(w, ds) && i < |ds|
    ensures DistinctPaths(ds) && OnlyCreates(ds) && OnlyCreates(ds[..i])
    ensures var d := ds[i];
            if d.kind == EnsureRemote then d.relPath in w.local && d.relPath !in w.remote
            else d.kind == EnsureLocal && d.relPath in w.remote && d.relPath !in w.local
  {
    assert ds[i] in ds && forall d | d in ds[..i] :: d in ds;
  }

  /** A parent directory on the source side is on the target side in time. */
  lemma ParentInTime(w: Pair, ds: seq<Decision>, i: nat, q: string)
    requires KindsAgree(w) && MergeDecisions(w, ds) && InOrder(ds) && i < |ds|
    requires IsParent(q, ds[i].relPath)
    requires var mine := if ds[i].kind == EnsureRemote then w.local else w.remote; q in mine && mine[q] == KindDir
    ensures var w' := CreateAll(w, ds[..i]);
            var now := if ds[i].kind == EnsureRemote then w'.remote else w'.local;
            q in now && now[q] == KindDir
  {
    hide CreateAll, InOrder, MergeDecisions, IsParent, Made;
    MergeMember(w, ds, i);
    CreatedSoFar(w, ds[..i]);
    var own := if ds[i].kind == EnsureRemote then w.remote else w.local;
    if q in own {
      NotPlanned(w, ds, i, q);
      NotMade(ds[..i], ds[i].kind, q);
    } else {
      var j := ParentPlanned(w, ds, i, q);
      MadeMember(ds[..i], ds[i].kind, j);
    }
  }

  lemma NotPlanned(w: Pair, ds: seq<Decision>, i: nat, q: string)
    requires i < |ds|
    requires MergeDecisions(w, ds) && q in w.local && q in w.remote
    ensures forall d | d in ds[..i] :: d.relPath != q
  {
  }

  /** The create of a missing parent directory is planned, and earlier. */
  lemma ParentPlanned(w: Pair, ds: seq<Decision>, i: nat, q: string) returns (j: nat)
    requires MergeDecisions(w, ds) && InOrder(ds) && i < |ds|
    requires IsParent(q, ds[i].relPath)
    requires if ds[i].kind == EnsureRemote then q in w.local && w.local[q] == KindDir && q !in w.remote
             else q in w.remote && w.remote[q] == KindDir && q !in w.local
    ensures j < i && ds[j].relPath == q && ds[j].kind == ds[i].kind && ds[j].entryKind == KindDir
  {
    var e := PlannedFor(w, ds, q);
    j :| 0 <= j < |ds| && ds[j] == e;
    MergeMember(w, ds, i);
    hide MergeDecisions, Before;
    assert AtOrBelow(e.relPath, ds[i].relPath);
    TreeOrder(e, ds[i]);
    BeforeIsStrictTotalOrder(e, ds[i], e);
  }

  lemma PlannedFor(w: Pair, ds: seq<Decision>, q: string) returns (e: Decision)
    requires MergeDecisions(w, ds)
    requires (q in w.local && q !in w.remote) || (q in w.remote && q !in w.local)
    ensures e in ds && e.relPath == q
    ensures if q in w.local then e.kind == EnsureRemote && e.entryKind == w.local[q]
            else e.kind == EnsureLocal && e.entryKind == w.remote[q]
  {
    e :| e in ds && e.relPath == q;
  }

  /** The merge deletes nothing, finds every parent in place, and leaves both
      sides with the union of the two trees. */
  lemma InitialMergeIsUnion(w: Pair, ds: seq<Decision>)
    requires PrefixClosed(w.local) && PrefixClosed(w.remote) && KindsAgree(w)
    requires MergeDecisions(w, ds) && InOrder(ds)
    ensures forall i | 0 <= i < |ds| :: CanCreate(CreateAll(w, ds[..i]), ds[i])
    ensures CreateAll(w, ds).local == w.local + w.remote
    ensures CreateAll(w, ds).remote == w.local + w.remote
  {
    hide MergeDecisions, KindsAgree, InOrder, CanCreate, PrefixClosed, CreateAll;
    forall i | 0 <= i < |ds| ensures CanCreate(CreateAll(w, ds[..i]), ds[i]) {
      MergeStepFindsParent(w, ds, i);
    }
    MergeOnlyCreates(w, ds);
    CreatedSoFar(w, ds);
    MadeIsMissing(w, ds, EnsureLocal, w.remote, w.local);
    MadeIsMissing(w, ds, EnsureRemote, w.local, w.remote);
    UnionEitherWay(w);
    assert w.local + Made(ds, EnsureLocal) == w.local + w.remote;
    assert w.remote + Made(ds, EnsureRemote) == w.remote + w.local;
  }

  lemma MergeOnlyCreates(w: Pair, ds: seq<Decision>)
    requires MergeDecisions(w, ds)
    ensures OnlyCreates(ds)
  {
  }

  lemma UnionEitherWay(w: Pair)
    requires KindsAgree(w)
    ensures w.local + w.remote == w.remote + w.local
  {
  }

  /** The creates of one kind add exactly what that side was missing. */
  lemma MadeIsMissing(w: Pair, ds: seq<Decision>, kind: DecisionKind, source: Tree, target: Tree)
    requires KindsAgree(w) && MergeDecisions(w, ds)
    requires (kind == EnsureLocal && source == w.remote && target == w.local) ||
               (kind == EnsureRemote && source == w.local && target == w.remote)
    ensures target + Made(ds, kind) == target + source
  {
    var made := Made(ds, kind);
    forall p | p in made ensures p in source && p !in target && made[p] == source[p] {
      var d := MadeSource(ds, kind, p);
    }
    forall p | p in source && p !in target ensures p in made {
      var d :| d in ds && d.relPath == p;
      var i :| 0 <= i < |ds| && ds[i] == d;
      MadeMember(ds, kind, i);
    }
    forall p | p in target && p in source ensures target[p] == source[p] {}
  }

  // ----- The initial plan is a merge -----

  function Included(t: Tree, prefixes: seq<string>): Tree {
    map p | p in t && !Excluded(prefixes, p) :: t[p]
  }

  /** The two trees as they were scanned. */
  function ScannedTrees(snap: Snapshot): Pair {
    Pair(map p | p in snap.local :: snap.local[p].kind, map p | p in snap.remote :: snap.remote[p].kind)
  }

  /** The two trees without what is excluded. */
  function TreesOf(snap: Snapshot): Pair {
    Pair(Included(ScannedTrees(snap).local, snap.excluded), Included(ScannedTrees(snap).remote, snap.excluded))
  }

  /** What is left of a tree without some of its subtrees is a tree. */
  lemma IncludedIsPrefixClosed(t: Tree, prefixes: seq<string>)
    requires PrefixClosed(t)
    ensures PrefixClosed(Included(t, prefixes))
  {
    hide AtOrBelow;
    forall p | p in Included(t, prefixes) && '/' in p
      ensures HasParent(Included(t, prefixes), p)
    {
      var q :| IsParent(q, p) && q in t && t[q] == KindDir;
      if i :| 0 <= i < |prefixes| && AtOrBelow(prefixes[i], q) {
        AtOrBelowTransitive(prefixes[i], q, p);
      }
      assert q in Included(t, prefixes);
    }
  }

  /** In initial pairing a create is planned exactly for a path on one side. */
  lemma InitialDecision(rootID: int, table: map<string, Baseline>, snap: Snapshot, p: string)
    requires p in table ==> table[p].local.present && table[p].remote.present
    requires DecisionAt(rootID, true, table, snap, p).Ok?
    requires p in snap.local ==> snap.local[p].present
    requires p in snap.remote ==> snap.remote[p].present
    ensures var d := DecisionAt(rootID, true, table, snap, p).value;
            && (d.kind == EnsureRemote <==> p in snap.local && p !in snap.remote)
            && (d.kind == EnsureLocal <==> p !in snap.local && p in snap.remote)
            && (d.kind == EnsureRemote ==> d.entryKind == snap.local[p].kind)
            && (d.kind == EnsureLocal ==> d.entryKind == snap.remote[p].kind)
            && !IsDelete(d.kind)
  {
    hide ValidRelPath, Blank;
  }

  /** A complete initial snapshot: two prefix-closed trees, without a kind
      mismatch outside what is excluded, and only two-sided partial baselines. */
  ghost predicate InitialPairing(baselines: seq<Baseline>, snap: Snapshot) {
    && PrefixClosed(ScannedTrees(snap).local) && PrefixClosed(ScannedTrees(snap).remote)
    && KindsAgree(TreesOf(snap))
    && (forall p | p in Table(baselines) :: Table(baselines)[p].local.present && Table(baselines)[p].remote.present)
  }

  lemma InitialMember(rootID: int, baselines: seq<Baseline>, snap: Snapshot, policy: DeletePolicy, d: Decision)
    requires PlanOf(rootID, true, baselines, snap, policy).Ok? && InitialPairing(baselines, snap)
    requires d in PlanOf(rootID, true, baselines, snap, policy).value.decisions && IsExternal(d.kind)
    ensures DecisionAt(rootID, true, Table(baselines), snap, d.relPath) == Ok(d)
    ensures var w := TreesOf(snap);
            if d.kind == EnsureRemote then
                d.relPath in w.local && d.relPath !in w.remote && d.entryKind == w.local[d.relPath]
            else
              && d.kind == EnsureLocal && d.relPath in w.remote && d.relPath !in w.local
              && d.entryKind == w.remote[d.relPath]
  {
    hide PlanOf, Excluded, DecisionAt, ValidBaselines, Table, PrefixClosed;
    PlanMembers(rootID, true, baselines, snap, policy, d);
    hide ValidRelPath, Blank;
    InitialDecision(rootID, Table(baselines), snap, d.relPath);
  }

  lemma InitialPlansPath(rootID: int, baselines: seq<Baseline>, snap: Snapshot, policy: DeletePolicy, p: string)
    returns (d: Decision)
    requires PlanOf(rootID, true, baselines, snap, policy).Ok? && InitialPairing(baselines, snap)
    requires rootID > 0 && snap.localComplete && snap.remoteComplete && snap.rootHealthy
    requires ((p in snap.local && p !in snap.remote) || (p in snap.remote && p !in snap.local)) &&
               !Excluded(snap.excluded, p)
    ensures d in PlanOf(rootID, true, baselines, snap, policy).value.decisions && IsExternal(d.kind) && d.relPath == p
  {
    hide Excluded, DecisionAt, ValidBaselines, Table, PrefixClosed, ValidRelPath, Blank, Sorted;
    hide Count, Decisions, KindsAgree, EvaluateDeleteGate;
    var table := Table(baselines);
    ValidInputsDecide(rootID, true, baselines, snap, p);
    d := DecisionAt(rootID, true, table, snap, p).value;
    InitialDecision(rootID, table, snap, p);
    if p in table { TableEntry(rootID, baselines, p); }
    DecisionPath(rootID, true, table, snap, p);
    DecisionsMembers(rootID, true, table, snap, Sorted(AllPaths(table, snap)), d);
  }

  /** ds are the external decisions of the initial plan, in execution order. */
  ghost predicate InitialWork(
    rootID: int, baselines: seq<Baseline>, snap: Snapshot, policy: DeletePolicy, ds: seq<Decision>)
  {
    && PlanOf(rootID, true, baselines, snap, policy).Ok?
    && rootID > 0 && snap.localComplete && snap.remoteComplete && snap.rootHealthy
    && InOrder(ds)
    && forall d :: d in ds <==> d in PlanOf(rootID, true, baselines, snap, policy).value.decisions && IsExternal(d.kind)
  }

  lemma InitialWorkDistinct(
    rootID: int, baselines: seq<Baseline>, snap: Snapshot, policy: DeletePolicy, ds: seq<Decision>)
    requires InitialWork(rootID, baselines, snap, policy, ds) && InitialPairing(baselines, snap)
    ensures DistinctPaths(ds)
  {
    hide InitialPairing, Before, DecisionAt, PlanOf;
    forall i, j | 0 <= i < j < |ds| ensures ds[i].relPath != ds[j].relPath {
      InitialMember(rootID, baselines, snap, policy, ds[i]);
      InitialMember(rootID, baselines, snap, policy, ds[j]);
      BeforeIsStrictTotalOrder(ds[i], ds[i], ds[i]);
    }
  }

  lemma InitialWorkIsMerge(
    rootID: int, baselines: seq<Baseline>, snap: Snapshot, policy: DeletePolicy, ds: seq<Decision>)
    requires InitialWork(rootID, baselines, snap, policy, ds) && InitialPairing(baselines, snap)
    ensures MergeDecisions(TreesOf(snap), ds)
  {
    hide InitialPairing, Before, DecisionAt, PlanOf;
    var w := TreesOf(snap);
    InitialWorkDistinct(rootID, baselines, snap, policy, ds);
    forall d | d in ds
      ensures if d.kind == EnsureRemote then
                d.relPath in w.local && d.relPath !in w.remote && d.entryKind == w.local[d.relPath]
              else
                && d.kind == EnsureLocal && d.relPath in w.remote && d.relPath !in w.local
                && d.entryKind == w.remote[d.relPath]
    {
      InitialMember(rootID, baselines, snap, policy, d);
    }
    forall p | (p in w.local && p !in w.remote) || (p in w.remote && p !in w.local)
      ensures exists d :: d in ds && d.relPath == p
    {
      var d := InitialPlansPath(rootID, baselines, snap, policy, p);
    }
  }

  /** An initial plan, executed in the sorted order, deletes nothing, finds
      every parent in place and leaves both sides with the union of the trees. */
  lemma InitialPlanMergesTrees(
    rootID: int, baselines: seq<Baseline>, snap: Snapshot, policy: DeletePolicy, ds: seq<Decision>)
    requires InitialWork(rootID, baselines, snap, policy, ds) && InitialPairing(baselines, snap)
    ensures var w := TreesOf(snap);
            && (forall i | 0 <= i < |ds| :: CanCreate(CreateAll(w, ds[..i]), ds[i]))
            && CreateAll(w, ds).local == w.local + w.remote
            && CreateAll(w, ds).remote == w.local + w.remote
  {
    hide InitialPairing, CreateAll, CanCreate, Before, PlanOf, MergeDecisions, PrefixClosed, KindsAgree;
    InitialTreesFit(baselines, snap);
    InitialWorkIsMerge(rootID, baselines, snap, policy, ds);
    InitialMergeIsUnion(TreesOf(snap), ds);
  }

  lemma InitialTreesFit(baselines: seq<Baseline>, snap: Snapshot)
    requires InitialPairing(baselines, snap)
    ensures PrefixClosed(TreesOf(snap).local) && PrefixClosed(TreesOf(snap).remote) && KindsAgree(TreesOf(snap))
  {
    hide PrefixClosed;
    IncludedIsPrefixClosed(ScannedTrees(snap).local, snap.excluded);
    IncludedIsPrefixClosed(ScannedTrees(snap).remote, snap.excluded);
  }
}
