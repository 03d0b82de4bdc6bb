/** From plan to effect and from effect to the next plan: what a planned
    operation overwrites or deletes is the version recorded in the path's
    baseline, whatever others do meanwhile; and a pass whose operations ran
    undisturbed leaves the next plan without work. */
module EndToEnd {
  import opened Paths
  import opened Domain
  import opened RootPlan
  import opened PlanLaws
  import opened Convergence
  import opened OperationLaws
  import opened Cycle
  import Conflicts
  import W = OperationWorld
  import H = OperationHost
  import R = OperationRuns
  import S = OperationSyncer

  /** The remote object is the recorded version: the same object and, for a
      file, the same revision. */
  predicate IsRecordedRemote(table: map<string, Baseline>, p: string, was: W.RemoteObj) {
    && p in table && table[p].remote.present
    && was.id == table[p].remote.id
    && (was.RemoteFile? && table[p].remote.kind == KindFile ==> was.rev == table[p].remote.rev)
  }

  /** In every reachable state of an operation that a plan called for, every
      remote change replaced nothing or exactly the recorded version. */
  lemma RemoteChangesHitRecordedVersions(
    rootID: int, initial: bool, baselines: seq<Baseline>, snap: Snapshot, policy: DeletePolicy, d: Decision, w: W.World,
    k: nat)
    requires PlanOf(rootID, initial, baselines, snap, policy).Ok?
    requires d in PlanOf(rootID, initial, baselines, snap, policy).value.decisions && IsExternal(d.kind)
    requires W.Inv(w) && w.job == JobOf(d, w.job.mode) && k < |w.log| && w.log[k].RemoteChanged?
    ensures w.log[k].was.None? || IsRecordedRemote(Table(baselines), d.relPath, w.log[k].was.value)
  {
    hide PlanOf, Table, W.Ledger, W.Holder, W.LastPark, W.Tallies, W.JournalInv, W.SlotInv;
    hide W.VersionInv, W.BaselineInv, W.QuietInv;
    PlanWritesOnlyRecordedVersions(rootID, initial, baselines, snap, policy, d);
    assert W.Lawful(w.job, w.authority, w.log[k]);
    ChangedIsRecorded(Table(baselines), snap, d, w.job, w.log[k].was);
  }

  lemma ChangedIsRecorded(
    table: map<string, Baseline>, snap: Snapshot, d: Decision, job: W.Job, was: Option<W.RemoteObj>)
    requires IsExternal(d.kind) && job == JobOf(d, job.mode) && !job.IsLocal()
    requires d.expectedRemote == ExpectationOf(snap.RemoteAt(d.relPath)) &&
               WritesOnlyRecorded(table, snap, d.relPath, d.kind)
    requires RemoteMatches(W.RemoteOf(was), job.expectedRemote, job.entryKind)
    ensures was.None? || IsRecordedRemote(table, d.relPath, was.value)
  {
  }

  /** Before every unlink the object was looked at in its slot, after the last
      move into it. An uninterrupted attempt saw the recorded local version;
      recovery saw the pinned identity or link text; and with no other writer the
      unlinked object itself is at the recorded version in either case. */
  lemma UnlinksHitRecordedVersions(
    rootID: int, initial: bool, baselines: seq<Baseline>, snap: Snapshot, policy: DeletePolicy, d: Decision, w: W.World,
    k: nat) returns (i: nat)
    requires PlanOf(rootID, initial, baselines, snap, policy).Ok?
    requires d in PlanOf(rootID, initial, baselines, snap, policy).value.decisions && IsExternal(d.kind)
    requires W.Inv(w) && w.job == JobOf(d, w.job.mode) && w.job.IsLocal()
    requires k < |w.log| && w.log[k].Unlinked?
    ensures w.authority.Some? && i < k
    ensures w.log[k].at.phase == W.Running ==>
              LookedAt(w.log, i, k, W.ContentChecked, w.log[k].o, w.log[k].at.dir) &&
              IsRecordedLocal(Table(baselines), d, w.log[i].o, w.authority.value)
    ensures w.log[k].at.phase != W.Running ==>
              LookedAt(w.log, i, k, W.IdentityChecked, w.log[k].o, w.log[k].at.dir) &&
              W.PassesIdentityCheck(w.log[i].o, w.authority.value)
    ensures w.edits == 0 ==> IsRecordedLocal(Table(baselines), d, w.log[k].o, w.authority.value)
  {
    hide PlanOf, Table, W.Inv, W.ExactlyAuthorized, W.PassesIdentityCheck, W.IsExpected;
    hide IsRecordedLocal, WritesOnlyRecorded;
    PlanWritesOnlyRecordedVersions(rootID, initial, baselines, snap, policy, d);
    i := UnlinkIsJustified(w, k);
    if w.log[k].at.phase == W.Running {
      CheckedIsRecorded(Table(baselines), snap, d, w.job, w.log[i].o, w.authority.value);
    }
    if w.edits == 0 {
      QuietRunsAreAtomic(w);
      assert w.log[k] in w.log;
      CheckedIsRecorded(Table(baselines), snap, d, w.job, w.log[k].o, w.authority.value);
    }
  }

  /** The object, or what a copied symlink projects, is at the recorded local
      version; a link whose referent is gone stands for absence. */
  predicate IsRecordedLocal(table: map<string, Baseline>, d: Decision, o: W.Obj, pin: W.Pin) {
    var fp := if pin.linkText.Some? then W.StatFp(Some(o)) else Ok(W.FpOf(Some(o)));
    && fp.Ok?
    && (fp.value.present ==> d.relPath in table && LocalEquivalent(fp.value, table[d.relPath].local))
  }

  lemma CheckedIsRecorded(table: map<string, Baseline>, snap: Snapshot, d: Decision, job: W.Job, o: W.Obj, pin: W.Pin)
    requires IsExternal(d.kind) && job == JobOf(d, job.mode) && job.IsLocal() && W.IsExpected(o, pin, job)
    requires d.expectedLocal == snap.LocalAt(d.relPath) && WritesOnlyRecorded(table, snap, d.relPath, d.kind)
    ensures IsRecordedLocal(table, d, o, pin)
  {
  }

  // ----- From the effects of a pass to the next plan -----

  /** An operation of decision d ended with nobody else writing: its remote side
      began as the plan saw it, the next scan sees the state that it left, and
      the path's row is the one that it wrote. */
  ghost predicate RanUndisturbed(rootID: int, d: Decision, w: W.World, before: PathState, after: PathState)
    requires IsExternal(d.kind)
  {
    && W.Inv(w) && w.job == JobOf(d, w.job.mode) && w.begun && w.row == None && w.edits == 0
    && RemoteEquivalent(W.RemoteOf(w.remote0), before.remote)
    && LocalEquivalent(after.local, W.FpOf(w.target)) && RemoteEquivalent(after.remote, W.RemoteOf(w.remote))
    && after.baseline == if w.baseline.None? then None
         else Some(Baseline(rootID, d.relPath, w.baseline.value.0, w.baseline.value.1))
  }

  /** An undisturbed operation does what its decision asks for. */
  lemma UndisturbedOperationSucceeds(rootID: int, d: Decision, w: W.World, before: PathState, after: PathState)
    requires IsExternal(d.kind) && RanUndisturbed(rootID, d, w, before, after)
    requires d.expectedLocal == before.local && d.expectedRemote == ExpectationOf(before.remote)
    ensures Succeeded(d, before, after)
  {
    hide W.JournalInv, W.SlotInv, W.VersionInv, W.BaselineInv, W.LogInv, W.Proven, RecordsPair;
    hide LocalFingerprint.Valid, RemoteFingerprint.Valid;
    S.BegunAndGone(w);
    assert W.QuietInv(w);
    assert w.baseline == W.PairOf(w.target, w.remote);
    if d.kind == EnsureLocal { assert w.remote == w.remote0; }
    if w.baseline.Some? {
      PairIsRecorded(rootID, d, w, after);
    }
  }

  /** What the next scan and the store show of the path afterwards. */
  predicate Shows(rootID: int, path: string, w: W.World, after: PathState) {
    && LocalEquivalent(after.local, W.FpOf(w.target)) && RemoteEquivalent(after.remote, W.RemoteOf(w.remote))
    && after.baseline == if w.baseline.None? then None
         else Some(Baseline(rootID, path, w.baseline.value.0, w.baseline.value.1))
  }

  /** From a planned decision to its outcome on the machine: if nobody else writes,
      every call goes through and the world allows it, the first attempt succeeds;
      and what the next scan then shows is what the decision asks for. */
  method CarryOutUndisturbed(rootID: int, d: Decision, ghost before: PathState, h: H.Host) returns (r: H.Reply<()>)
    requires IsExternal(d.kind) && R.Fresh(h.w) && h.w.job == JobOf(d, h.w.job.mode)
    requires RemoteEquivalent(W.RemoteOf(h.w.remote), before.remote)
    requires d.expectedLocal == before.local && d.expectedRemote == ExpectationOf(before.remote)
    modifies h
    ensures W.Inv(h.w)
    ensures !h.balked && h.w.edits == 0 && S.Feasible(old(h.w), None) ==> r.Done?
    ensures r.Done? && h.w.edits == 0 ==>
              forall after | Shows(rootID, d.relPath, h.w, after) :: Succeeded(d, before, after)
  {
    hide W.Inv, H.Later, Succeeded, RanUndisturbed, S.Feasible;
    ghost var w := h.w;
    R.FreshHolds(w);
    FreshIsPlanned(w);
    r := R.Attempt(h);
    if r.Done? && h.w.edits == 0 {
      forall after | Shows(rootID, d.relPath, h.w, after)
        ensures Succeeded(d, before, after)
      {
        DoneRanUndisturbed(rootID, d, w, h.w, before, after);
        UndisturbedOperationSucceeds(rootID, d, h.w, before, after);
      }
    }
  }

  lemma DoneRanUndisturbed(rootID: int, d: Decision, w: W.World, w': W.World, before: PathState, after: PathState)
    requires IsExternal(d.kind) && R.Fresh(w) && w.job == JobOf(d, w.job.mode)
    requires RemoteEquivalent(W.RemoteOf(w.remote), before.remote) && Shows(rootID, d.relPath, w', after)
    requires W.Inv(w') && H.Later(w, w') && S.Completed(w') && w'.edits == 0
    ensures RanUndisturbed(rootID, d, w', before, after)
  {
    hide W.Inv;
  }

  lemma PairIsRecorded(rootID: int, d: Decision, w: W.World, after: PathState)
    requires w.baseline == Some((W.FpOf(w.target), W.RemoteOf(w.remote)))
    requires LocalEquivalent(after.local, W.FpOf(w.target)) && RemoteEquivalent(after.remote, W.RemoteOf(w.remote))
    requires after.baseline == Some(Baseline(rootID, d.relPath, w.baseline.value.0, w.baseline.value.1))
    ensures RecordsPair(after)
  {
  }

  /** What an undisturbed pass does at path p: its operation, or its commit or
      drop, or nothing; and nobody else changes anything that is compared. */
  ghost predicate CarriedOut(
    rootID: int, initial: bool, table: map<string, Baseline>, snap: Snapshot,
    table': map<string, Baseline>, snap': Snapshot, ops: map<string, W.World>, p: string)
  {
    var r := DecisionAt(rootID, initial, table, snap, p);
    var before, after := StateAt(table, snap, p), StateAt(table', snap', p);
    if p !in AllPaths(table, snap) then p !in AllPaths(table', snap')
    else
      && r.Ok?
      && if IsExternal(r.value.kind) then p in ops && RanUndisturbed(rootID, r.value, ops[p], before, after)
         else
           && StaysPut(before, after)
           && (if r.value.kind == CommitBaseline then
                after.baseline == Some(Baseline(rootID, p, before.local, before.remote))
               else if r.value.kind == DropBaseline then after.baseline == None
               else after.baseline == before.baseline)
  }

  lemma CarriedOutIsApplied(
    rootID: int, initial: bool, baselines: seq<Baseline>, snap: Snapshot,
    table': map<string, Baseline>, snap': Snapshot, ops: map<string, W.World>, p: string)
    requires ValidBaselines(rootID, baselines)
    requires CarriedOut(rootID, initial, Table(baselines), snap, table', snap', ops, p)
    ensures PassApplied(rootID, initial, Table(baselines), snap, table', snap', p)
  {
    hide DecisionAt, Table, AllPaths, RanUndisturbed, ValidBaselines, W.Inv;
    var table := Table(baselines);
    if p in AllPaths(table, snap) {
      var d := DecisionAt(rootID, initial, table, snap, p).value;
      if p in table { TableEntry(rootID, baselines, p); }
      DecisionPath(rootID, initial, table, snap, p);
      var before, after := StateAt(table, snap, p), StateAt(table', snap', p);
      if IsExternal(d.kind) { UndisturbedOperationSucceeds(rootID, d, ops[p], before, after); }
    }
  }

  /** If a pass carries out its decisions and nobody else writes, the next plan
      contains no external decision. */
  lemma UndisturbedPassLeavesNoWork(
    rootID: int, initial: bool, policy: DeletePolicy,
    baselines: seq<Baseline>, snap: Snapshot, baselines': seq<Baseline>, snap': Snapshot, ops: map<string, W.World>,
    d': Decision)
    requires ValidBaselines(rootID, baselines)
    requires snap'.excluded == snap.excluded
    requires forall p | !Excluded(snap.excluded, p) ::
               CarriedOut(rootID, initial, Table(baselines), snap, Table(baselines'), snap', ops, p)
    requires PlanOf(rootID, initial, baselines', snap', policy).Ok?
    requires d' in PlanOf(rootID, initial, baselines', snap', policy).value.decisions
    ensures !IsExternal(d'.kind)
  {
    hide Excluded, Table, ValidBaselines, PlanOf, CarriedOut, PassApplied;
    forall p | !Excluded(snap.excluded, p)
      ensures PassApplied(rootID, initial, Table(baselines), snap, Table(baselines'), snap', p)
    {
      CarriedOutIsApplied(rootID, initial, baselines, snap, Table(baselines'), snap', ops, p);
    }
    NextPlanHasNoWork(rootID, initial, policy, baselines, snap, baselines', snap', d');
  }

  // ----- Resolutions of conflicts -----

  /** A resolution's remote change replaced exactly the remote version that the
      conflict's record names, or nothing if it names none. */
  predicate ReplacesTheRecord(c: Conflicts.Conflict, was: Option<W.RemoteObj>) {
    if c.remote.present then
      was.Some? && was.value.RemoteFile? && was.value.id == c.remote.id && was.value.rev == c.remote.rev
    else was.None?
  }

  lemma ResolutionHitsTheRecordedConflict(c: Conflicts.Conflict, choice: Conflicts.Choice, w: W.World, k: nat)
    requires W.Inv(w) && Resolves(w.job, c, choice) && k < |w.log| && w.log[k].RemoteChanged?
    ensures ReplacesTheRecord(c, w.log[k].was)
  {
    hide W.Ledger, W.Holder, W.LastPark, W.Tallies, W.JournalInv, W.SlotInv, W.VersionInv, W.BaselineInv, W.QuietInv;
    hide Conflicts.Conflict.Valid;
    assert W.Lawful(w.job, w.authority, w.log[k]);
  }

  /** Before every unlink of a resolution the object was looked at in its slot,
      after the last move into it. An uninterrupted attempt saw the local version
      that the conflict's record names; recovery saw the pinned identity or link
      text; and with no other writer the unlinked object itself is the recorded
      version in either case. */
  lemma ResolutionUnlinksTheRecordedVersion(c: Conflicts.Conflict, choice: Conflicts.Choice, w: W.World, k: nat)
    returns (i: nat)
    requires W.Inv(w) && Resolves(w.job, c, choice) && k < |w.log| && w.log[k].Unlinked?
    ensures w.job.expectedLocal == c.local && w.authority.Some? && i < k
    ensures w.log[k].at.phase == W.Running ==>
              && LookedAt(w.log, i, k, W.ContentChecked, w.log[k].o, w.log[k].at.dir)
              && W.IsExpected(w.log[i].o, w.authority.value, w.job)
    ensures w.log[k].at.phase != W.Running ==>
              && LookedAt(w.log, i, k, W.IdentityChecked, w.log[k].o, w.log[k].at.dir)
              && W.PassesIdentityCheck(w.log[i].o, w.authority.value)
    ensures w.edits == 0 ==> W.IsExpected(w.log[k].o, w.authority.value, w.job)
  {
    hide W.Inv, W.IsExpected, W.PassesIdentityCheck, W.ExactlyAuthorized, Conflicts.Conflict.Valid;
    i := UnlinkIsJustified(w, k);
    if w.edits == 0 {
      QuietRunsAreAtomic(w);
      assert w.log[k] in w.log;
    }
  }

  // ----- Over whole runs -----

  /** The object is at the local version that the operation's origin names: the
      recorded one of the plan's baseline, or that of the conflict's record. */
  ghost predicate IsAgreedLocal(e: Operation, o: W.Obj, pin: W.Pin) {
    match e.origin
    case FromPlan(_, baselines, _, _, d) => IsRecordedLocal(Table(baselines), d, o, pin)
    case FromConflict(c, _) => e.w.job.expectedLocal == c.local && W.IsExpected(o, pin, e.w.job)
  }

  ghost predicate IsAgreedRemote(e: Operation, was: Option<W.RemoteObj>) {
    match e.origin
    case FromPlan(_, baselines, _, _, d) => was.None? || IsRecordedRemote(Table(baselines), d.relPath, was.value)
    case FromConflict(c, _) => ReplacesTheRecord(c, was)
  }

  /** Event k took nothing away that the operation's origin does not name: a
      remote change replaced that version or nothing; an unlinked object was
      looked at in its slot after the last move into it, by a running attempt as
      that version, by recovery as the pinned object; and with no other writer it
      is that version. */
  ghost predicate TakesOnlyTheAgreed(e: Operation, k: nat)
    requires k < |e.w.log|
  {
    var w, event := e.w, e.w.log[k];
    && (event.RemoteChanged? ==> IsAgreedRemote(e, event.was))
    && (event.Unlinked? ==>
          && w.authority.Some?
          && (w.edits == 0 ==> IsAgreedLocal(e, event.o, w.authority.value))
          && exists i: nat ::
               && i < k
               && (event.at.phase == W.Running ==>
                     && LookedAt(w.log, i, k, W.ContentChecked, event.o, event.at.dir)
                     && IsAgreedLocal(e, w.log[i].o, w.authority.value))
               && (event.at.phase != W.Running ==>
                     && LookedAt(w.log, i, k, W.IdentityChecked, event.o, event.at.dir)
                     && W.PassesIdentityCheck(w.log[i].o, w.authority.value)))
  }

  lemma UnlinksAreLocal(w: W.World, k: nat)
    requires W.Inv(w) && k < |w.log| && w.log[k].Unlinked?
    ensures w.job.IsLocal()
  {
    hide W.Ledger, W.Holder, W.LastPark, W.Tallies, W.JournalInv, W.SlotInv, W.VersionInv, W.BaselineInv, W.QuietInv;
    assert W.Lawful(w.job, w.authority, w.log[k]);
  }

  lemma OperationTakesOnlyTheAgreed(truths: Truths, rootID: int, mode: W.SymlinkMode, e: Operation, k: nat)
    requires OperationInv(truths, rootID, mode, e) && k < |e.w.log|
    ensures TakesOnlyTheAgreed(e, k)
  {
    hide W.Inv, PlanOf, Table, LookedAt, IsRecordedLocal, IsRecordedRemote, ReplacesTheRecord, Resolves;
    hide W.IsExpected, W.PassesIdentityCheck;
    var w := e.w;
    match e.origin
    case FromPlan(initial, baselines, snap, policy, d) =>
      if w.log[k].RemoteChanged? {
        RemoteChangesHitRecordedVersions(rootID, initial, baselines, snap, policy, d, w, k);
      } else if w.log[k].Unlinked? {
        UnlinksAreLocal(w, k);
        var i := UnlinksHitRecordedVersions(rootID, initial, baselines, snap, policy, d, w, k);
      }
    case FromConflict(c, choice) =>
      if w.log[k].RemoteChanged? {
        ResolutionHitsTheRecordedConflict(c, choice, w, k);
      } else if w.log[k].Unlinked? {
        var i := ResolutionUnlinksTheRecordedVersion(c, choice, w, k);
      }
  }

  /** Over any run of cycles and commands, with any behaviour of everybody else,
      no operation, whether it is still journaled or has ended, took away a
      version that its plan's baseline or its conflict's record does not name. */
  method RunsLoseNoUpdate(rootID: int, truths: Truths, mode: W.SymlinkMode, sessions: seq<Session>) returns (root: Root)
    requires rootID > 0
    ensures root.Valid()
    ensures forall e, k | e in root.journal + root.past && 0 <= k < |e.w.log| :: TakesOnlyTheAgreed(e, k)
  {
    hide OperationInv, TakesOnlyTheAgreed, Root.Valid, SoundTable;
    root := RunCycles(rootID, truths, mode, sessions);
    forall e, k | e in root.journal + root.past && 0 <= k < |e.w.log|
      ensures TakesOnlyTheAgreed(e, k)
    {
      OperationTakesOnlyTheAgreed(truths, rootID, mode, e, k);
    }
  }
}
