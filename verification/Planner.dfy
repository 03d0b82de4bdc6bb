/** The per-path planner: one decision from the committed baseline and the
    current observations of both sides. */
module Planner {
  import opened Paths
  import opened Domain

  function Conflicting(base: Decision, conflict: ConflictKind, entryKind: EntryKind): Decision {
    base.(kind := ConflictFound, entryKind := entryKind, conflict := conflict)
  }

  function PlanContentConvergence(
    base: Decision, conflict: ConflictKind, evidence: ContentEvidence): Outcome<Decision>
  {
    match evidence
    case ContentUnknown => Ok(base.(kind := CompareContent))
    case ContentEqual => Ok(base.(kind := CommitBaseline))
    case ContentDifferent => Ok(Conflicting(base, conflict, KindFile))
    case ContentInvalid => Err
  }

  function PlanInitial(
    relPath: string, local: LocalFingerprint, remote: RemoteFingerprint, content: ContentEvidence): Outcome<Decision>
  {
    if !ValidRelPath(relPath) || !local.Valid() || !remote.Valid() || content.ContentInvalid? then Err
    else
      var base := Decision(relPath, Noop, NoKind, NoConflict, local, ExpectationOf(remote));
      if !local.present && !remote.present then Ok(base)
      else if local.present && !remote.present then Ok(base.(kind := EnsureRemote, entryKind := local.kind))
      else if !local.present && remote.present then Ok(base.(kind := EnsureLocal, entryKind := remote.kind))
      else if local.kind != remote.kind then Ok(Conflicting(base, KindMismatch, local.kind))
      else
        var base := base.(entryKind := local.kind);
        if local.kind == KindDir then Ok(base.(kind := CommitBaseline))
        else if local.size != remote.size then Ok(Conflicting(base, SimultaneousCreate, KindFile))
        else PlanContentConvergence(base, SimultaneousCreate, content)
  }

  function PlanLocalOnlyChange(base: Decision, local: LocalFingerprint, remote: RemoteFingerprint): Decision {
    if !local.present then
      if !remote.present then base.(kind := DropBaseline)
      else base.(kind := DeleteRemote, entryKind := remote.kind)
    else base.(kind := EnsureRemote, entryKind := local.kind)
  }

  function PlanRemoteOnlyChange(base: Decision, local: LocalFingerprint, remote: RemoteFingerprint): Decision {
    if !remote.present then
      if !local.present then base.(kind := DropBaseline)
      else base.(kind := DeleteLocal, entryKind := local.kind)
    else base.(kind := EnsureLocal, entryKind := remote.kind)
  }

  function PlanThreeWay(
    baseline: Baseline, local: LocalFingerprint, remote: RemoteFingerprint,
    content: ContentEvidence): Outcome<Decision>
  {
    if !baseline.Valid() || !local.Valid() || !remote.Valid() || content.ContentInvalid? then Err
    else
      var base := Decision(baseline.relPath, Noop, NoKind, NoConflict, local, ExpectationOf(remote));
      var localChanged := !LocalEquivalent(baseline.local, local);
      var remoteChanged := !RemoteEquivalent(baseline.remote, remote);
      if local.present && remote.present && local.kind != remote.kind then
        Ok(Conflicting(base, KindMismatch, local.kind))
      else if local.present && remote.present &&
              ((baseline.local.present && baseline.local.kind != local.kind) ||
               (baseline.remote.present && baseline.remote.kind != remote.kind)) then
        Ok(Conflicting(base, KindMismatch, local.kind))
      else if !localChanged && !remoteChanged then
        Ok(base.(entryKind := PresentKind(local, remote)))
      else if local.present && remote.present && local.kind == KindDir then
        Ok(base.(kind := CommitBaseline, entryKind := KindDir))
      else if localChanged && !remoteChanged then
        Ok(PlanLocalOnlyChange(base, local, remote))
      else if !localChanged && remoteChanged then
        Ok(PlanRemoteOnlyChange(base, local, remote))
      else if !local.present && !remote.present then
        Ok(base.(kind := DropBaseline))
      else if !local.present then
        Ok(Conflicting(base, LocalDeleteRemoteEdit, remote.kind))
      else if !remote.present then
        Ok(Conflicting(base, RemoteDeleteLocalEdit, local.kind))
      else
        var base := base.(entryKind := local.kind);
        var conflict := if !baseline.local.present && !baseline.remote.present then SimultaneousCreate
            else BothModified;
        if local.size != remote.size then Ok(Conflicting(base, conflict, KindFile))
        else PlanContentConvergence(base, conflict, content)
  }

  /** A delete is planned only on full evidence: the baseline shows both sides
      present, the surviving side is unchanged and the other side is gone. */
  lemma ThreeWayDeleteEvidence(
    b: Baseline, local: LocalFingerprint, remote: RemoteFingerprint, content: ContentEvidence)
    requires PlanThreeWay(b, local, remote, content).Ok?
    ensures var d := PlanThreeWay(b, local, remote, content).value;
            (d.kind == DeleteRemote <==>
               b.local.present && b.remote.present && !local.present && remote.present &&
                   RemoteEquivalent(b.remote, remote)) &&
            (d.kind == DeleteLocal <==>
               b.local.present && b.remote.present && local.present && !remote.present &&
                   LocalEquivalent(b.local, local))
  {
  }

  // ----- The decision table -----

  /** Both sides are present, and their kinds differ, or one of them has another
      kind than its baseline. */
  predicate KindsMismatch(b: Baseline, local: LocalFingerprint, remote: RemoteFingerprint) {
    && local.present && remote.present
    && (|| local.kind != remote.kind
        || (b.local.present && b.local.kind != local.kind)
        || (b.remote.present && b.remote.kind != remote.kind))
  }

  predicate BothDirs(local: LocalFingerprint, remote: RemoteFingerprint) {
    local.present && remote.present && local.kind == KindDir && remote.kind == KindDir
  }

  predicate LocalChanged(b: Baseline, local: LocalFingerprint) { !LocalEquivalent(b.local, local) }
  predicate RemoteChanged(b: Baseline, remote: RemoteFingerprint) { !RemoteEquivalent(b.remote, remote) }

  /** Two files that both changed and that may still be equal. */
  predicate BothEdited(b: Baseline, local: LocalFingerprint, remote: RemoteFingerprint) {
    && LocalChanged(b, local) && RemoteChanged(b, remote) && local.present && remote.present
    && !KindsMismatch(b, local, remote) && !BothDirs(local, remote)
  }

  /** Every decision carries the path and both observations as preconditions. */
  predicate Expects(d: Decision, relPath: string, local: LocalFingerprint, remote: RemoteFingerprint) {
    d.relPath == relPath && d.expectedLocal == local && d.expectedRemote == ExpectationOf(remote)
  }

  /** The conflict between two files of the same path. */
  function FileConflict(b: Baseline): ConflictKind {
    if !b.local.present && !b.remote.present then SimultaneousCreate else BothModified
  }

  /** Which change calls for which operation: a side that changed alone is copied
      to the other one if it is still there, and deleted there if it is not. */
  predicate FollowsOperations(d: Decision, b: Baseline, local: LocalFingerprint, remote: RemoteFingerprint) {
    var plain := !KindsMismatch(b, local, remote) && !BothDirs(local, remote);
    var onlyLocal := plain && LocalChanged(b, local) && !RemoteChanged(b, remote);
    var onlyRemote := plain && !LocalChanged(b, local) && RemoteChanged(b, remote);
    && (d.kind == EnsureRemote <==> onlyLocal && local.present)
    && (d.kind == EnsureRemote ==> d.entryKind == local.kind)
    && (d.kind == EnsureLocal <==> onlyRemote && remote.present)
    && (d.kind == EnsureLocal ==> d.entryKind == remote.kind)
    && (d.kind == DeleteRemote <==> onlyLocal && !local.present && remote.present)
    && (d.kind == DeleteRemote ==> d.entryKind == remote.kind)
    && (d.kind == DeleteLocal <==> onlyRemote && !remote.present && local.present)
    && (d.kind == DeleteLocal ==> d.entryKind == local.kind)
  }

  /** When the record is kept, renewed or dropped, and when contents are compared. */
  predicate FollowsRecords(
    d: Decision, b: Baseline, local: LocalFingerprint, remote: RemoteFingerprint, content: ContentEvidence)
  {
    var mismatch := KindsMismatch(b, local, remote);
    var changed := LocalChanged(b, local) || RemoteChanged(b, remote);
    var comparable := BothEdited(b, local, remote) && local.size == remote.size;
    && (d.kind == Noop <==> !mismatch && !changed)
    && (d.kind == Noop ==> d.entryKind == PresentKind(local, remote))
    && (d.kind == CommitBaseline <==>
          (!mismatch && changed && BothDirs(local, remote)) || (comparable && content == ContentEqual))
    && (d.kind == DropBaseline <==> changed && !local.present && !remote.present)
    && (d.kind == CompareContent <==> comparable && content == ContentUnknown)
    && (d.kind == CommitBaseline || d.kind == CompareContent ==> d.entryKind == local.kind)
  }

  /** A conflict is a mismatch of kinds, or both sides changed and differ; each
      kind of conflict has its own condition. */
  predicate FollowsConflicts(
    d: Decision, b: Baseline, local: LocalFingerprint, remote: RemoteFingerprint, content: ContentEvidence)
  {
    var mismatch := KindsMismatch(b, local, remote);
    var both := LocalChanged(b, local) && RemoteChanged(b, remote);
    var differ := BothEdited(b, local, remote) && (local.size != remote.size || content == ContentDifferent);
    && (d.kind == ConflictFound <==> mismatch || (both && local.present != remote.present) || differ)
    && (d.conflict != NoConflict <==> d.kind == ConflictFound)
    && (d.conflict == KindMismatch <==> mismatch)
    && (d.conflict == LocalDeleteRemoteEdit <==> both && !local.present && remote.present)
    && (d.conflict == RemoteDeleteLocalEdit <==> both && local.present && !remote.present)
    && (d.conflict == FileConflict(b) <==> differ)
    && (d.kind == ConflictFound ==>
          d.entryKind == if mismatch || local.present != remote.present then PresentKind(local, remote) else KindFile)
  }

  /** The three-way table, on the baseline and the two observations alone. */
  predicate FollowsTable(
    d: Decision, b: Baseline, local: LocalFingerprint, remote: RemoteFingerprint, content: ContentEvidence)
  {
    && Expects(d, b.relPath, local, remote)
    && FollowsOperations(d, b, local, remote)
    && FollowsRecords(d, b, local, remote, content)
    && FollowsConflicts(d, b, local, remote, content)
  }

  lemma ThreeWayTable(b: Baseline, local: LocalFingerprint, remote: RemoteFingerprint, content: ContentEvidence)
    requires b.Valid() && local.Valid() && remote.Valid() && content != ContentInvalid
    ensures PlanThreeWay(b, local, remote, content).Ok?
    ensures FollowsTable(PlanThreeWay(b, local, remote, content).value, b, local, remote, content)
  {
    hide FollowsOperations, FollowsRecords, FollowsConflicts, ValidRelPath, Blank;
    ThreeWayOperations(b, local, remote, content);
    ThreeWayRecords(b, local, remote, content);
    ThreeWayConflicts(b, local, remote, content);
  }

  lemma ThreeWayOperations(b: Baseline, local: LocalFingerprint, remote: RemoteFingerprint, content: ContentEvidence)
    requires PlanThreeWay(b, local, remote, content).Ok?
    ensures FollowsOperations(PlanThreeWay(b, local, remote, content).value, b, local, remote)
  {
    hide ValidRelPath, Blank;
  }

  lemma ThreeWayRecords(b: Baseline, local: LocalFingerprint, remote: RemoteFingerprint, content: ContentEvidence)
    requires PlanThreeWay(b, local, remote, content).Ok?
    ensures FollowsRecords(PlanThreeWay(b, local, remote, content).value, b, local, remote, content)
  {
    hide ValidRelPath, Blank;
  }

  lemma ThreeWayConflicts(b: Baseline, local: LocalFingerprint, remote: RemoteFingerprint, content: ContentEvidence)
    requires PlanThreeWay(b, local, remote, content).Ok?
    ensures FollowsConflicts(PlanThreeWay(b, local, remote, content).value, b, local, remote, content)
  {
    hide ValidRelPath, Blank;
  }

  /** The table of initial pairing: what is on one side only is copied, equal
      pairs are recorded, and everything else is a conflict. */
  predicate FollowsPairing(
    d: Decision, relPath: string, local: LocalFingerprint, remote: RemoteFingerprint, content: ContentEvidence)
  {
    var pair := local.present && remote.present;
    var files := pair && local.kind == remote.kind && local.kind != KindDir;
    && Expects(d, relPath, local, remote)
    && (d.kind == Noop <==> !local.present && !remote.present)
    && (d.kind == EnsureRemote <==> local.present && !remote.present)
    && (d.kind == EnsureRemote ==> d.entryKind == local.kind)
    && (d.kind == EnsureLocal <==> remote.present && !local.present)
    && (d.kind == EnsureLocal ==> d.entryKind == remote.kind)
    && (d.kind == CommitBaseline <==>
          BothDirs(local, remote) || (files && local.size == remote.size && content == ContentEqual))
    && (d.kind == CompareContent <==> files && local.size == remote.size && content == ContentUnknown)
    && (d.conflict == KindMismatch <==> pair && local.kind != remote.kind)
    && (d.conflict == SimultaneousCreate <==> files && (local.size != remote.size || content == ContentDifferent))
    && (d.kind == ConflictFound <==> d.conflict == KindMismatch || d.conflict == SimultaneousCreate)
    && (d.kind == ConflictFound <==> d.conflict != NoConflict)
    && (pair ==> d.entryKind == local.kind)
  }

  lemma PairingTable(relPath: string, local: LocalFingerprint, remote: RemoteFingerprint, content: ContentEvidence)
    requires ValidRelPath(relPath) && local.Valid() && remote.Valid() && content != ContentInvalid
    ensures PlanInitial(relPath, local, remote, content).Ok?
    ensures FollowsPairing(PlanInitial(relPath, local, remote, content).value, relPath, local, remote, content)
  {
  }
}
