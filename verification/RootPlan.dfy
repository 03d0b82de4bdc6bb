/** Full-snapshot reconciliation: the plan for a whole root, the mass-delete
    gate and the exclusion rule. */
module RootPlan {
  import opened Paths
  import opened Domain
  import opened Planner

  datatype DeletePolicy = DeletePolicy(maxCount: int, maxFraction: real, massDeleteApproved: bool) {
    predicate Valid() {
      maxCount >= 0 && 0.0 <= maxFraction <= 1.0
    }
  }

  datatype BlockReason =
    | BlockNone | BlockIncompleteLocal | BlockIncompleteRemote | BlockRootUnhealthy
    | BlockDeletePolicyUnset | BlockMassDeleteCount | BlockMassDeleteFraction

  function EvaluateDeleteGate(policy: DeletePolicy, baselineCount: int, proposedDeletes: int): Outcome<BlockReason> {
    if !policy.Valid() then Err
    else if proposedDeletes == 0 || policy.massDeleteApproved then Ok(BlockNone)
    else if policy.maxCount == 0 && policy.maxFraction == 0.0 then Ok(BlockDeletePolicyUnset)
    else if policy.maxCount > 0 && proposedDeletes > policy.maxCount then Ok(BlockMassDeleteCount)
    else if policy.maxFraction > 0.0 && baselineCount <= 0 then Ok(BlockMassDeleteFraction)
    else if policy.maxFraction > 0.0 && proposedDeletes as real / baselineCount as real > policy.maxFraction then
      Ok(BlockMassDeleteFraction)
    else Ok(BlockNone)
  }

  function GateVerdictOf(policy: DeletePolicy, baselineCount: int, proposedDeletes: int): BlockReason
    requires policy.Valid()
  {
    EvaluateDeleteGate(policy, baselineCount, proposedDeletes).value
  }

  /** The limits a plan that is let through respects, without division. */
  predicate WithinLimits(policy: DeletePolicy, baselineCount: int, deletes: int) {
    || deletes == 0
    || policy.massDeleteApproved
    || ((policy.maxCount > 0 || policy.maxFraction > 0.0)
        && (policy.maxCount > 0 ==> deletes <= policy.maxCount)
        && (policy.maxFraction > 0.0 ==> deletes as real <= policy.maxFraction * baselineCount as real))
  }

  lemma GateVerdict(policy: DeletePolicy, baselineCount: nat, deletes: nat)
    requires policy.Valid()
    ensures EvaluateDeleteGate(policy, baselineCount, deletes).Ok?
    ensures (EvaluateDeleteGate(policy, baselineCount, deletes).value == BlockNone) <==>
            WithinLimits(policy, baselineCount, deletes)
  {
    var n, d, f := deletes as real, baselineCount as real, policy.maxFraction;
    if baselineCount > 0 {
      QuotientBound(n, d, f);
    }
  }

  lemma QuotientBound(n: real, d: real, f: real)
    requires d > 0.0
    ensures n / d > f <==> n > f * d
  {
    var q := n / d;
    assert n == q * d;
    if q > f { assert (q - f) * d > 0.0; } else { assert (f - q) * d >= 0.0; }
  }

  datatype Snapshot = Snapshot(
    local: map<string, LocalFingerprint>, remote: map<string, RemoteFingerprint>,
    content: map<string, ContentEvidence>, excluded: seq<string>,
    localComplete: bool, remoteComplete: bool, rootHealthy: bool)
  {
    function LocalAt(p: string): LocalFingerprint { if p in local then local[p] else LOCAL_ABSENT }
    function RemoteAt(p: string): RemoteFingerprint { if p in remote then remote[p] else REMOTE_ABSENT }
    function ContentAt(p: string): ContentEvidence { if p in content then content[p] else ContentUnknown }

    ghost predicate Valid() {
      && (forall i | 0 <= i < |excluded| :: ValidRelPath(excluded[i]))
      && (forall i, j | 0 <= i < j < |excluded| :: excluded[i] != excluded[j])
      && (forall p | p in local :: ValidRelPath(p) && local[p].present && local[p].Valid())
      && (forall p | p in remote :: ValidRelPath(p) && remote[p].present && remote[p].Valid())
      && (forall p | p in content :: ValidRelPath(p) && !content[p].ContentInvalid? && p in local && p in remote)
    }
  }

  datatype Plan = Plan(
    initial: bool, decisions: seq<Decision>, proposedDeletes: nat, conflicts: nat,
    contentChecks: nat, blocked: bool, blockReason: BlockReason)

  function BlockedPlan(initial: bool, reason: BlockReason): Plan {
    Plan(initial, [], 0, 0, 0, true, reason)
  }

  // ----- Specification -----

  ghost predicate ValidBaselines(rootID: int, baselines: seq<Baseline>) {
    && (forall i | 0 <= i < |baselines| :: baselines[i].Valid() && baselines[i].rootID == rootID)
    && (forall i, j | 0 <= i < j < |baselines| :: baselines[i].relPath != baselines[j].relPath)
  }

  ghost function Table(baselines: seq<Baseline>): (t: map<string, Baseline>)
    ensures forall p | p in t :: t[p].relPath == p && t[p] in baselines
    ensures forall i | 0 <= i < |baselines| :: baselines[i].relPath in t
  {
    if baselines == [] then map[]
    else
      var b := baselines[|baselines| - 1];
      var rest := baselines[..|baselines| - 1];
      assert baselines == rest + [b];
      Table(rest)[b.relPath := b]
  }

  function DecisionAt(
    rootID: int, initial: bool, table: map<string, Baseline>, snap: Snapshot, p: string): Outcome<Decision>
  {
    var local, remote, content := snap.LocalAt(p), snap.RemoteAt(p), snap.ContentAt(p);
    if initial then
      if p in table && LocalEquivalent(table[p].local, local) && RemoteEquivalent(table[p].remote, remote) then
        Ok(Decision(p, Noop, PresentKind(local, remote), NoConflict, local, ExpectationOf(remote)))
      else
        var d :- PlanInitial(p, local, remote, content);
        Ok(if !local.present && !remote.present && p in table then d.(kind := DropBaseline) else d)
    else
      var baseline := if p in table then table[p] else Baseline(rootID, p, LOCAL_ABSENT, REMOTE_ABSENT);
      PlanThreeWay(baseline, local, remote, content)
  }

  /** The decisions for a list of paths, excluded ones skipped. */
  ghost function Decisions(
    rootID: int, initial: bool, table: map<string, Baseline>, snap: Snapshot, paths: seq<string>): seq<Decision>
  {
    if paths == [] then []
    else
      var p := paths[|paths| - 1];
      var before := Decisions(rootID, initial, table, snap, paths[..|paths| - 1]);
      var d := DecisionAt(rootID, initial, table, snap, p);
      if Excluded(snap.excluded, p) || d.Err? then before else before + [d.value]
  }

  ghost function Count(ds: seq<Decision>, kinds: set<DecisionKind>): nat {
    if ds == [] then 0
    else Count(ds[..|ds| - 1], kinds) + (if ds[|ds| - 1].kind in kinds then 1 else 0)
  }

  ghost function Active(table: map<string, Baseline>, excluded: seq<string>): set<string> {
    set p | p in table && !Excluded(excluded, p)
  }

  ghost function AllPaths(table: map<string, Baseline>, snap: Snapshot): set<string> {
    table.Keys + snap.local.Keys + snap.remote.Keys
  }

  const DELETES := {DeleteLocal, DeleteRemote}

  /** The plan as one function of its inputs. */
  ghost function PlanOf(
    rootID: int, initial: bool, baselines: seq<Baseline>, snap: Snapshot, policy: DeletePolicy): Outcome<Plan>
  {
    if rootID <= 0 then Err
    else if !snap.localComplete then Ok(BlockedPlan(initial, BlockIncompleteLocal))
    else if !snap.remoteComplete then Ok(BlockedPlan(initial, BlockIncompleteRemote))
    else if !snap.rootHealthy then Ok(BlockedPlan(initial, BlockRootUnhealthy))
    else if !snap.Valid() || !ValidBaselines(rootID, baselines) || (!initial && !policy.Valid()) then Err
    else
      var table := Table(baselines);
      var ds := Decisions(rootID, initial, table, snap, Sorted(AllPaths(table, snap)));
      var deletes := Count(ds, DELETES);
      var gate := if initial then BlockNone else GateVerdictOf(policy, |Active(table, snap.excluded)|, deletes);
      Ok(Plan(initial, ds, deletes, Count(ds, {ConflictFound}), Count(ds, {CompareContent}), gate != BlockNone, gate))
  }

  // ----- The planner's loops -----

  method ValidateSnapshot(snap: Snapshot) returns (ok: bool)
    ensures ok <==> snap.Valid()
  {
    var seen: set<string> := {};
    for i := 0 to |snap.excluded|
      invariant forall p :: p in seen <==> p in snap.excluded[..i]
      invariant forall j | 0 <= j < i :: ValidRelPath(snap.excluded[j])
      invariant forall j, k | 0 <= j < k < i :: snap.excluded[j] != snap.excluded[k]
    {
      var p := snap.excluded[i];
      if !ValidRelPath(p) { return false; }
      if p in seen {
        var j :| 0 <= j < i && snap.excluded[..i][j] == p;
        assert snap.excluded[j] == snap.excluded[i];
        return false;
      }
      seen := seen + {p};
      assert snap.excluded[..i + 1] == snap.excluded[..i] + [p];
    }
    ok := (forall p | p in snap.local :: ValidRelPath(p) && snap.local[p].present && snap.local[p].Valid())
          && (forall p | p in snap.remote :: ValidRelPath(p) && snap.remote[p].present && snap.remote[p].Valid())
          && (forall p | p in snap.content ::
               ValidRelPath(p) && !snap.content[p].ContentInvalid? && p in snap.local && p in snap.remote);
  }

  method BaselineTable(rootID: int, baselines: seq<Baseline>) returns (r: Outcome<map<string, Baseline>>)
    ensures r.Ok? <==> ValidBaselines(rootID, baselines)
    ensures r.Ok? ==> r.value == Table(baselines)
  {
    hide ValidBaselines, Table, ValidRelPath;
    var table: map<string, Baseline> := map[];
    NoBaselines(rootID);
    assert baselines[..0] == [];
    for i := 0 to |baselines|
      invariant table == Table(baselines[..i])
      invariant ValidBaselines(rootID, baselines[..i])
    {
      var b := baselines[i];
      assert baselines[..i + 1] == baselines[..i] + [b];
      if !b.Valid() || b.rootID != rootID || b.relPath in table {
        RejectedBaseline(rootID, baselines, i);
        return Err;
      }
      TableAppend(rootID, baselines[..i], b);
      table := table[b.relPath := b];
    }
    assert baselines[..|baselines|] == baselines;
    return Ok(table);
  }

  lemma NoBaselines(rootID: int)
    ensures ValidBaselines(rootID, []) && Table([]) == map[]
  {
  }

  lemma RejectedBaseline(rootID: int, baselines: seq<Baseline>, i: nat)
    requires i < |baselines|
    requires !baselines[i].Valid() || baselines[i].rootID != rootID || baselines[i].relPath in Table(baselines[..i])
    ensures !ValidBaselines(rootID, baselines)
  {
    if baselines[i].relPath in Table(baselines[..i]) {
      var j :| 0 <= j < i && baselines[..i][j] == Table(baselines[..i])[baselines[i].relPath];
      assert baselines[j].relPath == baselines[i].relPath;
    }
  }

  method UnionPaths(table: map<string, Baseline>, snap: Snapshot) returns (paths: seq<string>)
    ensures paths == Sorted(AllPaths(table, snap))
  {
    var rest := table.Keys + snap.local.Keys + snap.remote.Keys;
    paths := [];
    while rest != {}
      invariant StrictlySorted(paths)
      invariant forall p :: p in AllPaths(table, snap) <==> p in rest || p in paths
      invariant forall p | p in paths :: p !in rest
    {
      var p :| p in rest;
      paths := Insert(p, paths);
      rest := rest - {p};
    }
    SortedUnique(paths, Sorted(AllPaths(table, snap)));
  }

  method CountActive(table: map<string, Baseline>, excluded: seq<string>) returns (n: nat)
    ensures n == |Active(table, excluded)|
  {
    n := 0;
    var rest := table.Keys;
    ghost var done: set<string> := {};
    while rest != {}
      invariant rest <= table.Keys && done == set p | p in table.Keys - rest && !Excluded(excluded, p)
      invariant n == |done|
    {
      var p :| p in rest;
      rest := rest - {p};
      if !Excluded(excluded, p) {
        done := done + {p};
        n := n + 1;
      }
    }
    assert done == Active(table, excluded);
  }

  lemma DecisionsNext(
    rootID: int, initial: bool, table: map<string, Baseline>, snap: Snapshot, paths: seq<string>, i: nat)
    requires i < |paths|
    ensures var before := Decisions(rootID, initial, table, snap, paths[..i]);
            var d := DecisionAt(rootID, initial, table, snap, paths[i]);
            Decisions(rootID, initial, table, snap, paths[..i + 1]) ==
            (if Excluded(snap.excluded, paths[i]) || d.Err? then before else before + [d.value])
  {
    assert paths[..i + 1][..i] == paths[..i];
  }

  lemma CountNext(ds: seq<Decision>, d: Decision, kinds: set<DecisionKind>)
    ensures Count(ds + [d], kinds) == Count(ds, kinds) + (if d.kind in kinds then 1 else 0)
  {
    assert (ds + [d])[..|ds|] == ds;
  }

  /** The main loop: a decision for every path that is not excluded. */
  method DecideAll(
    rootID: int, initial: bool, ghost baselines: seq<Baseline>, table: map<string, Baseline>, snap: Snapshot,
    paths: seq<string>)
    returns (plan: Plan)
    requires rootID > 0 && snap.Valid() && ValidBaselines(rootID, baselines)
    requires table == Table(baselines) && forall p | p in paths :: p in AllPaths(table, snap)
    ensures var ds := Decisions(rootID, initial, table, snap, paths);
            plan == Plan(initial, ds, Count(ds, DELETES), Count(ds, {ConflictFound}), Count(ds, {CompareContent}),
                false, BlockNone)
  {
    hide Excluded, DecisionAt, Table, ValidBaselines, Snapshot.Valid, Decisions, Count, AllPaths;
    var ds, deletes, conflicts, checks := [], 0, 0, 0;
    assert paths[..0] == [];
    NothingDecided(rootID, initial, table, snap);
    for i := 0 to |paths|
      invariant ds == Decisions(rootID, initial, table, snap, paths[..i])
      invariant deletes == Count(ds, DELETES)
      invariant conflicts == Count(ds, {ConflictFound})
      invariant checks == Count(ds, {CompareContent})
    {
      var p := paths[i];
      DecisionsNext(rootID, initial, table, snap, paths, i);
      if !Excluded(snap.excluded, p) {
        var decision := DecisionAt(rootID, initial, table, snap, p);
        ValidInputsDecide(rootID, initial, baselines, snap, p);
        CountNext(ds, decision.value, DELETES);
        CountNext(ds, decision.value, {ConflictFound});
        CountNext(ds, decision.value, {CompareContent});
        ds := ds + [decision.value];
        match decision.value.kind {
          case DeleteLocal | DeleteRemote => deletes := deletes + 1;
          case ConflictFound => conflicts := conflicts + 1;
          case CompareContent => checks := checks + 1;
          case _ =>
        }
      }
    }
    assert paths[..|paths|] == paths;
    plan := Plan(initial, ds, deletes, conflicts, checks, false, BlockNone);
  }

  lemma NothingDecided(rootID: int, initial: bool, table: map<string, Baseline>, snap: Snapshot)
    ensures Decisions(rootID, initial, table, snap, []) == []
    ensures Count([], DELETES) == Count([], {ConflictFound}) == Count([], {CompareContent}) == 0
  {
  }

  method PlanFullSnapshot(rootID: int, initial: bool, baselines: seq<Baseline>, snap: Snapshot, policy: DeletePolicy)
    returns (r: Outcome<Plan>)
    ensures r == PlanOf(rootID, initial, baselines, snap, policy)
  {
    hide Excluded, DecisionAt, Table, ValidBaselines, Snapshot.Valid, Decisions, Count, Sorted, Active;
    if rootID <= 0 { return Err; }
    if !snap.localComplete { return Ok(BlockedPlan(initial, BlockIncompleteLocal)); }
    if !snap.remoteComplete { return Ok(BlockedPlan(initial, BlockIncompleteRemote)); }
    if !snap.rootHealthy { return Ok(BlockedPlan(initial, BlockRootUnhealthy)); }
    var valid := ValidateSnapshot(snap);
    if !valid { return Err; }
    var table :- BaselineTable(rootID, baselines);
    var paths := UnionPaths(table, snap);
    var active := CountActive(table, snap.excluded);
    var plan := DecideAll(rootID, initial, baselines, table, snap, paths);
    if initial {
      InitialNeverDeletes(rootID, table, snap, paths);
      if plan.proposedDeletes != 0 { return Err; }
    } else {
      var gate :- EvaluateDeleteGate(policy, active, plan.proposedDeletes);
      if gate != BlockNone {
        plan := plan.(blocked := true, blockReason := gate);
      }
    }
    return Ok(plan);
  }

  lemma TableEntry(rootID: int, baselines: seq<Baseline>, p: string)
    requires ValidBaselines(rootID, baselines) && p in Table(baselines)
    ensures Table(baselines)[p].Valid() && Table(baselines)[p].relPath == p
  {
    var i :| 0 <= i < |baselines| && baselines[i] == Table(baselines)[p];
  }

  lemma TableAppend(rootID: int, before: seq<Baseline>, b: Baseline)
    requires ValidBaselines(rootID, before) && b.Valid() && b.rootID == rootID
    requires b.relPath !in Table(before)
    ensures ValidBaselines(rootID, before + [b])
    ensures Table(before + [b]) == Table(before)[b.relPath := b]
  {
    hide ValidBaselines;
    assert (before + [b])[..|before|] == before;
    ValidAppend(rootID, before, b);
  }

  lemma ValidAppend(rootID: int, before: seq<Baseline>, b: Baseline)
    requires ValidBaselines(rootID, before) && b.Valid() && b.rootID == rootID
    requires b.relPath !in Table(before)
    ensures ValidBaselines(rootID, before + [b])
  {
    hide ValidRelPath, Baseline.Valid, Table;
    var all := before + [b];
    forall i, j | 0 <= i < j < |all| ensures all[i].relPath != all[j].relPath {
      assert all[i] == before[i] && before[i].relPath in Table(before);
    }
  }

  /** Validated inputs leave no path without a decision. */
  lemma ValidInputsDecide(rootID: int, initial: bool, baselines: seq<Baseline>, snap: Snapshot, p: string)
    requires rootID > 0 && snap.Valid() && ValidBaselines(rootID, baselines)
    requires p in AllPaths(Table(baselines), snap)
    ensures DecisionAt(rootID, initial, Table(baselines), snap, p).Ok?
  {
    hide Table, ValidBaselines, ValidRelPath, Blank, LocalEquivalent, RemoteEquivalent;
    var table := Table(baselines);
    if p in table {
      TableEntry(rootID, baselines, p);
    }
    assert ValidRelPath(p);
  }

  lemma {:induction false} InitialNeverDeletes(
    rootID: int, table: map<string, Baseline>, snap: Snapshot, paths: seq<string>)
    ensures Count(Decisions(rootID, true, table, snap, paths), DELETES) == 0
  {
    hide Excluded, DecisionAt;
    if paths == [] {
    } else {
      var n := |paths| - 1;
      InitialNeverDeletes(rootID, table, snap, paths[..n]);
      InitialDecisionKeeps(rootID, table, snap, paths[n]);
      var d := DecisionAt(rootID, true, table, snap, paths[n]);
      if d.Ok? {
        CountNext(Decisions(rootID, true, table, snap, paths[..n]), d.value, DELETES);
      }
    }
  }

  /** Initial pairing deletes nothing and replaces nothing: a side is written
      only when it is absent. */
  lemma InitialDecisionKeeps(rootID: int, table: map<string, Baseline>, snap: Snapshot, p: string)
    ensures var r := DecisionAt(rootID, true, table, snap, p);
            r.Ok? ==>
              && r.value.kind !in DELETES
              && (r.value.kind == EnsureLocal ==> !snap.LocalAt(p).present)
              && (r.value.kind == EnsureRemote ==> !snap.RemoteAt(p).present)
  {
    hide ValidRelPath;
  }
}
