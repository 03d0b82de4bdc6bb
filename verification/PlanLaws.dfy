/** What a full-snapshot plan guarantees: delete safety, no overwritten
    version without a record, exclusion as non-interference, a content-check
    loop that runs once, and a fixpoint after a successful pass. */
module PlanLaws {
  import opened Paths
  import opened Domain
  import opened Planner
  import opened RootPlan

  // ----- Reading a plan back -----

  /** The decisions are exactly those of the listed paths that are not excluded. */
  lemma {:induction false} DecisionsMembers(
    rootID: int, initial: bool, table: map<string, Baseline>, snap: Snapshot, paths: seq<string>, d: Decision)
    ensures d in Decisions(rootID, initial, table, snap, paths) <==>
            exists p :: p in paths && !Excluded(snap.excluded, p) &&
                DecisionAt(rootID, initial, table, snap, p) == Ok(d)
  {
    hide Excluded, DecisionAt;
    if paths == [] {
    } else {
      var n := |paths| - 1;
      assert paths == paths[..n] + [paths[n]];
      DecisionsMembers(rootID, initial, table, snap, paths[..n], d);
    }
  }

  lemma DecisionPath(rootID: int, initial: bool, table: map<string, Baseline>, snap: Snapshot, p: string)
    requires p in table ==> table[p].relPath == p
    ensures var r := DecisionAt(rootID, initial, table, snap, p);
            r.Ok? ==>
              && r.value.relPath == p
              && r.value.expectedLocal == snap.LocalAt(p)
              && r.value.expectedRemote == ExpectationOf(snap.RemoteAt(p))
  {
    hide ValidRelPath;
  }

  lemma PlanMembers(
    rootID: int, initial: bool, baselines: seq<Baseline>, snap: Snapshot, policy: DeletePolicy, d: Decision)
    requires PlanOf(rootID, initial, baselines, snap, policy).Ok?
    requires d in PlanOf(rootID, initial, baselines, snap, policy).value.decisions
    ensures rootID > 0 && snap.Valid() && ValidBaselines(rootID, baselines) && (initial || policy.Valid())
    ensures var table := Table(baselines);
            && d.relPath in AllPaths(table, snap)
            && !Excluded(snap.excluded, d.relPath)
            && DecisionAt(rootID, initial, table, snap, d.relPath) == Ok(d)
  {
    hide Excluded, DecisionAt, Snapshot.Valid, ValidBaselines, Table, Decisions, Count, Active;
    var table := Table(baselines);
    var paths := Sorted(AllPaths(table, snap));
    DecisionsMembers(rootID, initial, table, snap, paths, d);
    var p :| p in paths && !Excluded(snap.excluded, p) && DecisionAt(rootID, initial, table, snap, p) == Ok(d);
    if p in table { TableEntry(rootID, baselines, p); }
    DecisionPath(rootID, initial, table, snap, p);
  }

  // ----- The plan against the decision table -----

  /** A path without a record is treated as recorded absent. */
  function RecordAt(rootID: int, table: map<string, Baseline>, p: string): Baseline {
    if p in table then table[p] else Baseline(rootID, p, LOCAL_ABSENT, REMOTE_ABSENT)
  }

  /** The path's row is the pair that is observed. */
  predicate IsRecordedPair(table: map<string, Baseline>, snap: Snapshot, p: string) {
    && p in table
    && LocalEquivalent(table[p].local, snap.LocalAt(p)) && RemoteEquivalent(table[p].remote, snap.RemoteAt(p))
  }

  /** What a plan must say about one path: after initialization the three-way
      table; before it, nothing for what is recorded already, the dropping of a
      record whose path is gone, and otherwise the table of initial pairing. */
  predicate DecidesByTable(rootID: int, initial: bool, table: map<string, Baseline>, snap: Snapshot, d: Decision) {
    var p := d.relPath;
    var local, remote, content := snap.LocalAt(p), snap.RemoteAt(p), snap.ContentAt(p);
    if !initial then FollowsTable(d, RecordAt(rootID, table, p), local, remote, content)
    else if IsRecordedPair(table, snap, p) then
      d == Decision(p, Noop, PresentKind(local, remote), NoConflict, local, ExpectationOf(remote))
    else if p in table && !local.present && !remote.present then
      Expects(d, p, local, remote) && d.kind == DropBaseline && d.conflict == NoConflict
    else FollowsPairing(d, p, local, remote, content)
  }

  lemma DecisionFollowsTable(rootID: int, initial: bool, table: map<string, Baseline>, snap: Snapshot, p: string)
    requires DecisionAt(rootID, initial, table, snap, p).Ok? && (p in table ==> table[p].relPath == p)
    ensures DecidesByTable(rootID, initial, table, snap, DecisionAt(rootID, initial, table, snap, p).value)
  {
    hide FollowsTable, FollowsPairing, PlanThreeWay, PlanInitial, ValidRelPath;
    DecisionPath(rootID, initial, table, snap, p);
    var local, remote, content := snap.LocalAt(p), snap.RemoteAt(p), snap.ContentAt(p);
    if !initial {
      ThreeWayIsValid(RecordAt(rootID, table, p), local, remote, content);
      ThreeWayTable(RecordAt(rootID, table, p), local, remote, content);
    } else if !IsRecordedPair(table, snap, p) {
      PairingIsValid(p, local, remote, content);
      PairingTable(p, local, remote, content);
      PairingExpects(p, local, remote, content);
    }
  }

  lemma ThreeWayIsValid(b: Baseline, local: LocalFingerprint, remote: RemoteFingerprint, content: ContentEvidence)
    requires PlanThreeWay(b, local, remote, content).Ok?
    ensures b.Valid() && local.Valid() && remote.Valid() && content != ContentInvalid
  {
  }

  lemma PairingIsValid(p: string, local: LocalFingerprint, remote: RemoteFingerprint, content: ContentEvidence)
    requires PlanInitial(p, local, remote, content).Ok?
    ensures ValidRelPath(p) && local.Valid() && remote.Valid() && content != ContentInvalid
  {
    hide ValidRelPath;
  }

  lemma PairingExpects(p: string, local: LocalFingerprint, remote: RemoteFingerprint, content: ContentEvidence)
    requires PlanInitial(p, local, remote, content).Ok?
    ensures var d := PlanInitial(p, local, remote, content).value;
            Expects(d, p, local, remote) && (!local.present && !remote.present ==> d.conflict == NoConflict)
  {
    hide ValidRelPath;
  }

  /** A plan over a complete snapshot has exactly one decision for every path that
      is not excluded, the one that the table asks for, and none for any other. */
  lemma PlanFollowsTable(
    rootID: int, initial: bool, baselines: seq<Baseline>, snap: Snapshot, policy: DeletePolicy, p: string)
    requires PlanOf(rootID, initial, baselines, snap, policy).Ok?
    requires snap.localComplete && snap.remoteComplete && snap.rootHealthy
    ensures var ds := PlanOf(rootID, initial, baselines, snap, policy).value.decisions;
            && (p in AllPaths(Table(baselines), snap) && !Excluded(snap.excluded, p) <==>
                 exists d :: d in ds && d.relPath == p)
            && (forall d, e | d in ds && e in ds && d.relPath == p && e.relPath == p :: d == e)
            && (forall d | d in ds && d.relPath == p :: DecidesByTable(rootID, initial, Table(baselines), snap, d))
  {
    hide Excluded, DecisionAt, Table, ValidBaselines, Snapshot.Valid, AllPaths, PlanOf, DecidesByTable;
    var table := Table(baselines);
    var ds := PlanOf(rootID, initial, baselines, snap, policy).value.decisions;
    forall d | d in ds && d.relPath == p
      ensures p in AllPaths(table, snap) && !Excluded(snap.excluded, p) &&
                DecisionAt(rootID, initial, table, snap, p) == Ok(d)
      ensures DecidesByTable(rootID, initial, table, snap, d)
    {
      PlanMembers(rootID, initial, baselines, snap, policy, d);
      if p in table { TableEntry(rootID, baselines, p); }
      DecisionFollowsTable(rootID, initial, table, snap, p);
    }
    if p in AllPaths(table, snap) && !Excluded(snap.excluded, p) {
      var d := PlanDecides(rootID, initial, baselines, snap, policy, p);
    }
  }

  lemma PlanDecides(
    rootID: int, initial: bool, baselines: seq<Baseline>, snap: Snapshot, policy: DeletePolicy, p: string)
    returns (d: Decision)
    requires PlanOf(rootID, initial, baselines, snap, policy).Ok?
    requires snap.localComplete && snap.remoteComplete && snap.rootHealthy
    requires p in AllPaths(Table(baselines), snap) && !Excluded(snap.excluded, p)
    ensures d in PlanOf(rootID, initial, baselines, snap, policy).value.decisions && d.relPath == p
  {
    hide Excluded, DecisionAt, Table, ValidBaselines, Snapshot.Valid, Sorted, Count, Decisions, Active;
    hide EvaluateDeleteGate, AllPaths;
    var table := Table(baselines);
    ValidInputsDecide(rootID, initial, baselines, snap, p);
    d := DecisionAt(rootID, initial, table, snap, p).value;
    DecisionsMembers(rootID, initial, table, snap, Sorted(AllPaths(table, snap)), d);
    if p in table { TableEntry(rootID, baselines, p); }
    DecisionPath(rootID, initial, table, snap, p);
  }

  /** A plan is blocked exactly when the snapshot is incomplete, the root is
      unhealthy, or its deletes exceed the limits after initialization; a plan
      that is blocked before it is made decides nothing. */
  lemma BlockedExactlyWhen(
    rootID: int, initial: bool, baselines: seq<Baseline>, snap: Snapshot, policy: DeletePolicy)
    requires PlanOf(rootID, initial, baselines, snap, policy).Ok?
    ensures var plan := PlanOf(rootID, initial, baselines, snap, policy).value;
            var complete := snap.localComplete && snap.remoteComplete && snap.rootHealthy;
            && (plan.blocked <==>
                  || !complete
                  || (!initial &&
                       !WithinLimits(policy, |Active(Table(baselines), snap.excluded)|, plan.proposedDeletes)))
            && (!complete ==> plan.decisions == [])
            && plan.initial == initial
            && plan.proposedDeletes == HowMany(plan.decisions, DELETES)
            && plan.conflicts == HowMany(plan.decisions, {ConflictFound})
            && plan.contentChecks == HowMany(plan.decisions, {CompareContent})
  {
    hide Excluded, DecisionAt, Snapshot.Valid, ValidBaselines, Table, Active, WithinLimits, Sorted, Count, Decisions;
    var plan := PlanOf(rootID, initial, baselines, snap, policy).value;
    CountIsHowMany(plan.decisions, DELETES);
    CountIsHowMany(plan.decisions, {ConflictFound});
    CountIsHowMany(plan.decisions, {CompareContent});
    if snap.localComplete && snap.remoteComplete && snap.rootHealthy && !initial {
      GateVerdict(policy, |Active(Table(baselines), snap.excluded)|, plan.proposedDeletes);
    } else if !(snap.localComplete && snap.remoteComplete && snap.rootHealthy) {
      CountNothing();
    }
  }

  ghost function HowMany(ds: seq<Decision>, kinds: set<DecisionKind>): nat {
    |set i | 0 <= i < |ds| && ds[i].kind in kinds|
  }

  lemma CountNothing()
    ensures forall kinds :: Count([], kinds) == 0
  {
  }

  lemma {:induction false} CountIsHowMany(ds: seq<Decision>, kinds: set<DecisionKind>)
    ensures Count(ds, kinds) == HowMany(ds, kinds)
  {
    if ds != [] {
      var n := |ds| - 1;
      CountIsHowMany(ds[..n], kinds);
      var before, after := set i | 0 <= i < n && ds[..n][i].kind in kinds, set i | 0 <= i < |ds| && ds[i].kind in kinds;
      assert after == before + (if ds[n].kind in kinds then {n} else {});
    }
  }

  // ----- Delete safety -----

  /** The table's record shows path p present on both sides, the side that is
      about to be deleted still at that record, and the other side gone. */
  predicate DeleteEvidence(table: map<string, Baseline>, snap: Snapshot, p: string, kind: DecisionKind) {
    && p in table
    && table[p].local.present && table[p].remote.present
    && (kind == DeleteLocal ==>
          LocalEquivalent(table[p].local, snap.LocalAt(p)) && snap.LocalAt(p).present && !snap.RemoteAt(p).present)
    && (kind == DeleteRemote ==>
          RemoteEquivalent(table[p].remote, snap.RemoteAt(p)) && snap.RemoteAt(p).present && !snap.LocalAt(p).present)
  }

  lemma DeleteDecided(rootID: int, initial: bool, table: map<string, Baseline>, snap: Snapshot, p: string)
    requires DecisionAt(rootID, initial, table, snap, p).Ok?
    ensures IsDelete(DecisionAt(rootID, initial, table, snap, p).value.kind) ==>
              !initial && DeleteEvidence(table, snap, p, DecisionAt(rootID, initial, table, snap, p).value.kind)
  {
    hide ValidRelPath;
  }

  /** A plan that is not blocked deletes a path only after initialization, on
      full evidence, outside every exclusion, and within the delete limits. */
  lemma UnblockedDeleteIsSafe(
    rootID: int, initial: bool, baselines: seq<Baseline>, snap: Snapshot, policy: DeletePolicy, d: Decision)
    requires PlanOf(rootID, initial, baselines, snap, policy).Ok?
    requires var plan := PlanOf(rootID, initial, baselines, snap, policy).value;
             !plan.blocked && d in plan.decisions && IsDelete(d.kind)
    ensures var table := Table(baselines);
            var plan := PlanOf(rootID, initial, baselines, snap, policy).value;
            && !initial
            && !Excluded(snap.excluded, d.relPath)
            && DeleteEvidence(table, snap, d.relPath, d.kind)
            && plan.proposedDeletes > 0
            && WithinLimits(policy, |Active(table, snap.excluded)|, plan.proposedDeletes)
  {
    hide Excluded, DecisionAt, Snapshot.Valid, ValidBaselines, Table, DeleteEvidence, Active;
    hide WithinLimits, Sorted, Count, Decisions;
    var table := Table(baselines);
    PlanMembers(rootID, initial, baselines, snap, policy, d);
    DeleteDecided(rootID, initial, table, snap, d.relPath);
    var plan := PlanOf(rootID, initial, baselines, snap, policy).value;
    CountMember(plan.decisions, d, DELETES);
    GateVerdict(policy, |Active(table, snap.excluded)|, plan.proposedDeletes);
  }

  lemma {:induction false} CountMember(ds: seq<Decision>, d: Decision, kinds: set<DecisionKind>)
    requires d in ds && d.kind in kinds
    ensures Count(ds, kinds) > 0
  {
    var n := |ds| - 1;
    assert ds == ds[..n] + [ds[n]];
    if ds[n] != d { CountMember(ds[..n], d, kinds); }
  }

  // ----- No lost update in the plan -----

  /** The side a decision writes is absent, or still at the recorded baseline. */
  predicate WritesOnlyRecorded(table: map<string, Baseline>, snap: Snapshot, p: string, kind: DecisionKind) {
    && (kind == EnsureLocal || kind == DeleteLocal ==>
          || !snap.LocalAt(p).present
          || (p in table && LocalEquivalent(table[p].local, snap.LocalAt(p))))
    && (kind == EnsureRemote || kind == DeleteRemote ==>
          || !snap.RemoteAt(p).present
          || (p in table && RemoteEquivalent(table[p].remote, snap.RemoteAt(p))))
  }

  lemma WriteDecided(rootID: int, initial: bool, table: map<string, Baseline>, snap: Snapshot, p: string)
    requires DecisionAt(rootID, initial, table, snap, p).Ok?
    ensures WritesOnlyRecorded(table, snap, p, DecisionAt(rootID, initial, table, snap, p).value.kind)
  {
    hide ValidRelPath;
  }

  /** Every external decision expects, on the side it writes, either absence
      or the version recorded in the path's baseline. */
  lemma PlanWritesOnlyRecordedVersions(
    rootID: int, initial: bool, baselines: seq<Baseline>, snap: Snapshot, policy: DeletePolicy, d: Decision)
    requires PlanOf(rootID, initial, baselines, snap, policy).Ok?
    requires d in PlanOf(rootID, initial, baselines, snap, policy).value.decisions
    ensures d.expectedLocal == snap.LocalAt(d.relPath)
    ensures d.expectedRemote == ExpectationOf(snap.RemoteAt(d.relPath))
    ensures WritesOnlyRecorded(Table(baselines), snap, d.relPath, d.kind)
  {
    hide Excluded, DecisionAt, Snapshot.Valid, ValidBaselines, Table, WritesOnlyRecorded, PlanOf;
    var table := Table(baselines);
    PlanMembers(rootID, initial, baselines, snap, policy, d);
    if d.relPath in table { TableEntry(rootID, baselines, d.relPath); }
    DecisionPath(rootID, initial, table, snap, d.relPath);
    WriteDecided(rootID, initial, table, snap, d.relPath);
  }

  // ----- Exclusion is non-interference -----

  ghost function EraseBaselines(baselines: seq<Baseline>, excluded: seq<string>): seq<Baseline> {
    if baselines == [] then []
    else
      var n := |baselines| - 1;
      var before := EraseBaselines(baselines[..n], excluded);
      if Excluded(excluded, baselines[n].relPath) then before else before + [baselines[n]]
  }

  ghost function EraseMap<T>(m: map<string, T>, excluded: seq<string>): map<string, T> {
    map p | p in m && !Excluded(excluded, p) :: m[p]
  }

  /** The snapshot with nothing recorded at or below an excluded path. */
  ghost function EraseSnapshot(snap: Snapshot): Snapshot {
    snap.(local := EraseMap(snap.local, snap.excluded),
          remote := EraseMap(snap.remote, snap.excluded),
          content := EraseMap(snap.content, snap.excluded))
  }

  lemma {:induction false} TableErased(baselines: seq<Baseline>, excluded: seq<string>)
    ensures Table(EraseBaselines(baselines, excluded)) == EraseMap(Table(baselines), excluded)
  {
    hide Excluded, EraseMap, Table;
    if baselines == [] {
      EraseNothing(excluded);
    } else {
      var n := |baselines| - 1;
      TableErased(baselines[..n], excluded);
      TableErasedStep(baselines[..n], baselines[n], excluded);
      assert baselines == baselines[..n] + [baselines[n]];
    }
  }

  lemma EraseNothing(excluded: seq<string>)
    ensures Table([]) == map[] && EraseMap(Table([]), excluded) == map[] && EraseBaselines([], excluded) == []
  {
  }

  lemma TableErasedStep(before: seq<Baseline>, b: Baseline, excluded: seq<string>)
    requires Table(EraseBaselines(before, excluded)) == EraseMap(Table(before), excluded)
    ensures Table(EraseBaselines(before + [b], excluded)) == EraseMap(Table(before + [b]), excluded)
  {
    hide Excluded, EraseMap, Table;
    assert (before + [b])[..|before|] == before;
    EraseUpdate(Table(before), b.relPath, b, excluded);
    TableSnoc(EraseBaselines(before, excluded), b);
    TableSnoc(before, b);
  }

  lemma TableSnoc(before: seq<Baseline>, b: Baseline)
    ensures Table(before + [b]) == Table(before)[b.relPath := b]
  {
    assert (before + [b])[..|before|] == before;
  }

  lemma EraseUpdate<T>(m: map<string, T>, k: string, v: T, excluded: seq<string>)
    ensures EraseMap(m[k := v], excluded) ==
            if Excluded(excluded, k) then EraseMap(m, excluded) else EraseMap(m, excluded)[k := v]
  {
    hide Excluded;
  }

  lemma {:induction false} ErasedBaselinesValid(rootID: int, baselines: seq<Baseline>, excluded: seq<string>)
    requires ValidBaselines(rootID, baselines)
    ensures ValidBaselines(rootID, EraseBaselines(baselines, excluded))
  {
    hide Excluded, ValidBaselines, Table;
    if baselines == [] {
    } else {
      var n := |baselines| - 1;
      var before, b := baselines[..n], baselines[n];
      assert baselines == before + [b];
      ValidPrefix(rootID, before, b);
      ErasedBaselinesValid(rootID, before, excluded);
      TableErased(before, excluded);
      if !Excluded(excluded, b.relPath) {
        ValidAppend(rootID, EraseBaselines(before, excluded), b);
      }
    }
  }

  lemma ValidPrefix(rootID: int, before: seq<Baseline>, b: Baseline)
    requires ValidBaselines(rootID, before + [b])
    ensures ValidBaselines(rootID, before)
    ensures b.Valid() && b.rootID == rootID
    ensures b.relPath !in Table(before)
  {
    hide Baseline.Valid;
    var all := before + [b];
    assert all[|before|] == b;
    forall i | 0 <= i < |before| ensures before[i].Valid() && before[i].rootID == rootID &&
        before[i].relPath != b.relPath {
      assert all[i] == before[i];
    }
    forall i, j | 0 <= i < j < |before| ensures before[i].relPath != before[j].relPath {
      assert all[i] == before[i] && all[j] == before[j];
    }
  }

  lemma ErasedSnapshotValid(snap: Snapshot)
    requires snap.Valid()
    ensures EraseSnapshot(snap).Valid()
  {
    hide Excluded, ValidRelPath, Blank;
  }

  function KeepIncluded(paths: seq<string>, excluded: seq<string>): seq<string> {
    if paths == [] then []
    else
      var n := |paths| - 1;
      KeepIncluded(paths[..n], excluded) + (if Excluded(excluded, paths[n]) then [] else [paths[n]])
  }

  lemma {:induction false} KeepIncludedSorted(paths: seq<string>, excluded: seq<string>)
    requires StrictlySorted(paths)
    ensures StrictlySorted(KeepIncluded(paths, excluded))
    ensures forall p :: p in KeepIncluded(paths, excluded) <==> p in paths && !Excluded(excluded, p)
  {
    hide Excluded, Less;
    if paths == [] {
    } else {
      var n := |paths| - 1;
      KeepIncludedSorted(paths[..n], excluded);
      assert paths == paths[..n] + [paths[n]];
      var before := KeepIncluded(paths[..n], excluded);
      forall i | 0 <= i < |before| ensures Less(before[i], paths[n]) {
        assert before[i] in paths[..n];
      }
    }
  }

  lemma DecisionAtErased(rootID: int, initial: bool, table: map<string, Baseline>, snap: Snapshot, p: string)
    requires !Excluded(snap.excluded, p)
    ensures DecisionAt(rootID, initial, EraseMap(table, snap.excluded), EraseSnapshot(snap), p) ==
            DecisionAt(rootID, initial, table, snap, p)
  {
    hide Excluded, PlanInitial, PlanThreeWay, LocalEquivalent, RemoteEquivalent;
  }

  lemma {:induction false} DecisionsErased(
    rootID: int, initial: bool, table: map<string, Baseline>, snap: Snapshot, paths: seq<string>)
    ensures Decisions(rootID, initial, table, snap, paths) ==
            Decisions(rootID, initial, EraseMap(table, snap.excluded), EraseSnapshot(snap),
                KeepIncluded(paths, snap.excluded))
  {
    hide Excluded, DecisionAt, EraseMap;
    if paths == [] {
    } else {
      var n := |paths| - 1;
      DecisionsErased(rootID, initial, table, snap, paths[..n]);
      var kept := KeepIncluded(paths[..n], snap.excluded);
      if Excluded(snap.excluded, paths[n]) {
        assert kept + [] == kept;
      } else {
        assert (kept + [paths[n]])[..|kept|] == kept;
        DecisionAtErased(rootID, initial, table, snap, paths[n]);
      }
    }
  }

  lemma ErasedPaths(table: map<string, Baseline>, snap: Snapshot)
    ensures Sorted(AllPaths(EraseMap(table, snap.excluded), EraseSnapshot(snap))) ==
            KeepIncluded(Sorted(AllPaths(table, snap)), snap.excluded)
    ensures Active(EraseMap(table, snap.excluded), snap.excluded) == Active(table, snap.excluded)
  {
    hide Excluded, StrictlySorted, KeepIncluded;
    var paths := Sorted(AllPaths(table, snap));
    KeepIncludedSorted(paths, snap.excluded);
    SortedUnique(KeepIncluded(paths, snap.excluded),
        Sorted(AllPaths(EraseMap(table, snap.excluded), EraseSnapshot(snap))));
  }

  /** Erasing every excluded baseline and entry changes neither the decisions,
      nor the counters, nor the gate's verdict. */
  lemma ExclusionNonInterference(
    rootID: int, initial: bool, baselines: seq<Baseline>, snap: Snapshot, policy: DeletePolicy)
    requires PlanOf(rootID, initial, baselines, snap, policy).Ok?
    ensures PlanOf(rootID, initial, EraseBaselines(baselines, snap.excluded), EraseSnapshot(snap), policy) ==
            PlanOf(rootID, initial, baselines, snap, policy)
  {
    hide Excluded, Snapshot.Valid, ValidBaselines, Decisions, Count, Table, EvaluateDeleteGate;
    hide EraseBaselines, KeepIncluded, EraseMap, Sorted, Active, AllPaths;
    if rootID > 0 && snap.localComplete && snap.remoteComplete && snap.rootHealthy {
      var table := Table(baselines);
      ErasedSnapshotValid(snap);
      ErasedBaselinesValid(rootID, baselines, snap.excluded);
      TableErased(baselines, snap.excluded);
      ErasedPaths(table, snap);
      DecisionsErased(rootID, initial, table, snap, Sorted(AllPaths(table, snap)));
    }
  }
}
