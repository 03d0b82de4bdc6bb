/** One synchronization cycle of a root: recovery of the journal, then up to
    eight passes of scan, plan, content checks, records and execution, over any
    behaviour of the data plane and the store. Every journaled operation, and
    every comparison of contents, runs on the machine of OperationHost. */
module Cycle {
  import opened Paths
  import opened Domain
  import opened Planner
  import opened RootPlan
  import opened PlanLaws
  import opened Convergence
  import opened Order
  import Conflicts
  import W = OperationWorld
  import A = OperationActions
  import H = OperationHost
  import S = OperationSyncer
  import R = OperationRuns
  import Recovery = OperationRecovery
  import Remote = OperationRemote

  const MAX_PASSES := 8

  type LocalKey = (int, int)
  type RemoteKey = (string, string)

  /** Whether a local version of a path and a remote version have equal bytes:
      versions are immutable, so this does not change. */
  type SameBytes = (string, LocalKey, RemoteKey) -> bool

  /** The bytes that version tokens name, for every path. */
  type Truths = string -> W.Truth

  function SameUnder(truths: Truths): SameBytes {
    (p: string, l: LocalKey, r: RemoteKey) => truths(p).local(l) == truths(p).remote(r)
  }

  predicate EqualBytes(same: SameBytes, p: string, local: LocalFingerprint, remote: RemoteFingerprint) {
    same(p, (local.size, local.mtimeNS), (remote.id, remote.rev))
  }

  /** A baseline row the syncer may write: both sides present, of one kind, and
      files of equal bytes. */
  predicate Sound(same: SameBytes, b: Baseline) {
    TwoSided(b) && (b.local.kind == KindFile ==> EqualBytes(same, b.relPath, b.local, b.remote))
  }

  ghost predicate SoundTable(same: SameBytes, rootID: int, t: map<string, Baseline>) {
    forall p | p in t :: t[p].relPath == p && t[p].rootID == rootID && t[p].Valid() && Sound(same, t[p])
  }

  // ----- The commits of a pass -----

  function CommitOne(rootID: int, t: map<string, Baseline>, d: Decision, snap: Snapshot): map<string, Baseline> {
    if d.kind == CommitBaseline then
        t[d.relPath := Baseline(rootID, d.relPath, snap.LocalAt(d.relPath), snap.RemoteAt(d.relPath))]
    else if d.kind == DropBaseline then t - {d.relPath}
    else t
  }

  function CommitAll(rootID: int, t: map<string, Baseline>, ds: seq<Decision>, snap: Snapshot): map<string, Baseline> {
    if ds == [] then t
    else CommitOne(rootID, CommitAll(rootID, t, ds[..|ds| - 1], snap), ds[|ds| - 1], snap)
  }

  /** The row of a path after the commits follows from its one decision. */
  lemma {:induction false} CommitAllAt(
    rootID: int, t: map<string, Baseline>, ds: seq<Decision>, snap: Snapshot, p: string, d: Decision)
    requires forall e | e in ds && e.relPath == p :: e == d
    ensures var t' := CommitAll(rootID, t, ds, snap);
            if d in ds && d.relPath == p then
              (p in t' <==> p in CommitOne(rootID, t, d, snap)) &&
                  (p in t' ==> t'[p] == CommitOne(rootID, t, d, snap)[p])
            else (p in t' <==> p in t) && (p in t' ==> t'[p] == t[p])
  {
    if ds != [] {
      var n := |ds| - 1;
      assert ds == ds[..n] + [ds[n]];
      CommitAllAt(rootID, t, ds[..n], snap, p, d);
    }
  }

  /** A commit decision names a pair that is a sound baseline: for files it needs
      the evidence that their bytes are equal. */
  lemma CommitDecided(rootID: int, initial: bool, table: map<string, Baseline>, snap: Snapshot, p: string)
    requires AsksFor(DecisionAt(rootID, initial, table, snap, p), CommitBaseline)
    ensures var local, remote := snap.LocalAt(p), snap.RemoteAt(p);
            && local.present && remote.present && local.kind == remote.kind
            && (local.kind == KindFile ==> snap.ContentAt(p) == ContentEqual)
  {
    hide ValidRelPath, Blank;
  }

  /** The evidence in a snapshot tells the truth. */
  ghost predicate Truthful(same: SameBytes, snap: Snapshot) {
    forall p | p in snap.content ::
      && (snap.content[p] == ContentEqual ==> EqualBytes(same, p, snap.LocalAt(p), snap.RemoteAt(p)))
      && (snap.content[p] == ContentDifferent ==> !EqualBytes(same, p, snap.LocalAt(p), snap.RemoteAt(p)))
  }

  lemma {:induction false} CommitsAreSound(
    same: SameBytes, rootID: int, initial: bool, baselines: seq<Baseline>, snap: Snapshot, policy: DeletePolicy,
    ds: seq<Decision>)
    requires PlanOf(rootID, initial, baselines, snap, policy).Ok? && Truthful(same, snap)
    requires forall d | d in ds :: d in PlanOf(rootID, initial, baselines, snap, policy).value.decisions
    requires SoundTable(same, rootID, Table(baselines))
    ensures SoundTable(same, rootID, CommitAll(rootID, Table(baselines), ds, snap))
  {
    hide Excluded, DecisionAt, Table, ValidBaselines, Snapshot.Valid, PlanOf, Truthful;
    if ds != [] {
      var n := |ds| - 1;
      assert ds == ds[..n] + [ds[n]];
      CommitsAreSound(same, rootID, initial, baselines, snap, policy, ds[..n]);
      assert ds[n] in ds;
      CommitIsSound(same, rootID, initial, baselines, snap, policy, ds[n]);
    }
  }

  lemma CommitIsSound(
    same: SameBytes, rootID: int, initial: bool, baselines: seq<Baseline>, snap: Snapshot, policy: DeletePolicy,
    d: Decision)
    requires PlanOf(rootID, initial, baselines, snap, policy).Ok? && Truthful(same, snap)
    requires d in PlanOf(rootID, initial, baselines, snap, policy).value.decisions
    ensures d.kind == CommitBaseline ==>
              var b := Baseline(rootID, d.relPath, snap.LocalAt(d.relPath), snap.RemoteAt(d.relPath));
              b.Valid() && Sound(same, b)
  {
    hide Excluded, DecisionAt, Table, ValidBaselines, PlanOf, ValidRelPath, Blank;
    PlanMembers(rootID, initial, baselines, snap, policy, d);
    if d.kind == CommitBaseline {
      CommitDecided(rootID, initial, Table(baselines), snap, d.relPath);
      assert d.relPath in snap.local && d.relPath in snap.remote;
    }
  }

  // ----- A pass without work left -----

  /** What a clean pass proves about one path: baseline, local and remote all
      present, of one kind, at the recorded versions and of equal bytes, or all
      absent. */
  ghost predicate FullyConverged(same: SameBytes, t: map<string, Baseline>, snap: Snapshot, p: string) {
    && ConvergedAt(t, snap, p)
    && (p in t && snap.LocalAt(p).kind == KindFile ==> EqualBytes(same, p, snap.LocalAt(p), snap.RemoteAt(p)))
  }

  lemma RowsFollowDecisions(
    rootID: int, initial: bool, baselines: seq<Baseline>, snap: Snapshot, policy: DeletePolicy, p: string)
    requires PlanOf(rootID, initial, baselines, snap, policy).Ok? &&
               !PlanOf(rootID, initial, baselines, snap, policy).value.blocked
    requires snap.localComplete && snap.remoteComplete && snap.rootHealthy && !Excluded(snap.excluded, p)
    ensures var table := Table(baselines);
            var t' := CommitAll(rootID, table, PlanOf(rootID, initial, baselines, snap, policy).value.decisions, snap);
            if p in AllPaths(table, snap) then
                RowAfterCommits(rootID, DecisionAt(rootID, initial, table, snap, p), snap, table, t', p)
            else p !in t'
  {
    hide Excluded, DecisionAt, Table, ValidBaselines, Snapshot.Valid, Decisions, Count, Sorted;
    hide Active, EvaluateDeleteGate, AllPaths;
    var table := Table(baselines);
    var ds := PlanOf(rootID, initial, baselines, snap, policy).value.decisions;
    forall e | e in ds && e.relPath == p
      ensures p in AllPaths(table, snap) && DecisionAt(rootID, initial, table, snap, p) == Ok(e)
    {
      PlanMembers(rootID, initial, baselines, snap, policy, e);
    }
    if p in AllPaths(table, snap) {
      var paths := Sorted(AllPaths(table, snap));
      ValidInputsDecide(rootID, initial, baselines, snap, p);
      var d := DecisionAt(rootID, initial, table, snap, p).value;
      DecisionsMembers(rootID, initial, table, snap, paths, d);
      assert d in ds;
      if p in table { TableEntry(rootID, baselines, p); }
      DecisionPath(rootID, initial, table, snap, p);
      CommitAllAt(rootID, table, ds, snap, p, d);
      RowOfDecision(rootID, initial, table, snap, CommitAll(rootID, table, ds, snap), p, d);
    } else {
      CommitAllAt(rootID, table, ds, snap, p,
          Decision("", Noop, NoKind, NoConflict, LOCAL_ABSENT, RemoteExpectation(true, "", "")));
      NotInTable(table, snap, p);
    }
  }

  lemma NotInTable(table: map<string, Baseline>, snap: Snapshot, p: string)
    requires p !in AllPaths(table, snap)
    ensures p !in table
  {
  }

  lemma RowOfDecision(
    rootID: int, initial: bool, table: map<string, Baseline>, snap: Snapshot, t': map<string, Baseline>, p: string,
    d: Decision)
    requires DecisionAt(rootID, initial, table, snap, p) == Ok(d) && d.relPath == p
    requires (p in t' <==> p in CommitOne(rootID, table, d, snap)) &&
               (p in t' ==> t'[p] == CommitOne(rootID, table, d, snap)[p])
    ensures RowAfterCommits(rootID, DecisionAt(rootID, initial, table, snap, p), snap, table, t', p)
  {
    hide DecisionAt;
  }

  lemma CleanPassConverges(
    same: SameBytes, rootID: int, initial: bool, baselines: seq<Baseline>, snap: Snapshot, policy: DeletePolicy,
    p: string)
    requires PlanOf(rootID, initial, baselines, snap, policy).Ok? && Truthful(same, snap)
    requires snap.localComplete && snap.remoteComplete && snap.rootHealthy && !Excluded(snap.excluded, p)
    requires var plan := PlanOf(rootID, initial, baselines, snap, policy).value;
             && !plan.blocked && plan.conflicts == 0 && plan.contentChecks == 0
             && forall d | d in plan.decisions :: !IsExternal(d.kind)
    requires SoundTable(same, rootID, Table(baselines))
    ensures FullyConverged(same,
              CommitAll(rootID, Table(baselines), PlanOf(rootID, initial, baselines, snap, policy).value.decisions,
              snap), snap, p)
  {
    hide Excluded, DecisionAt, Table, ValidBaselines, Snapshot.Valid, PlanOf, AllPaths, RowAfterCommits, Truthful;
    var ds := PlanOf(rootID, initial, baselines, snap, policy).value.decisions;
    var t' := CommitAll(rootID, Table(baselines), ds, snap);
    RowsFollowDecisions(rootID, initial, baselines, snap, policy, p);
    QuietPlanConverges(rootID, initial, baselines, snap, policy, t', p);
    CommitsAreSound(same, rootID, initial, baselines, snap, policy, ds);
  }

  // ----- The operations of the journal -----

  /** operationFromDecision. */
  function JobOf(d: Decision, mode: W.SymlinkMode): W.Job
    requires IsExternal(d.kind)
  {
    var kind := match d.kind
                case EnsureRemote => W.OpEnsureRemote
                case EnsureLocal => W.OpEnsureLocal
                case DeleteRemote => W.OpDeleteRemote
                case _ => W.OpDeleteLocal;
    W.Job(kind, d.entryKind, d.expectedLocal, d.expectedRemote, mode)
  }

  /** The operation that carries out a user's resolution of a conflict. */
  predicate Resolves(job: W.Job, c: Conflicts.Conflict, choice: Conflicts.Choice) {
    && Conflicts.ResolutionOf(c, choice).Ok?
    && var r := Conflicts.ResolutionOf(c, choice).value;
    && IsExternal(r.kind)
    && job == JobOf(Decision(c.relPath, r.kind, r.entryKind, NoConflict, r.expectedLocal, r.expectedRemote), job.mode)
  }

  /** Where an operation comes from: a decision of a plan, with what the plan was
      made of, or the operator's choice about a conflict. */
  datatype Origin =
    | FromPlan(initial: bool, baselines: seq<Baseline>, snap: Snapshot, policy: DeletePolicy, d: Decision)
    | FromConflict(c: Conflicts.Conflict, choice: Conflicts.Choice)

  ghost predicate Originates(rootID: int, mode: W.SymlinkMode, path: string, origin: Origin, job: W.Job) {
    match origin
    case FromPlan(initial, baselines, snap, policy, d) =>
      && PlanOf(rootID, initial, baselines, snap, policy).Ok?
      && !PlanOf(rootID, initial, baselines, snap, policy).value.blocked
      && d in PlanOf(rootID, initial, baselines, snap, policy).value.decisions
      && IsExternal(d.kind) && d.relPath == path && job == JobOf(d, mode)
    case FromConflict(c, choice) =>
      c.rootID == rootID && c.relPath == path && job.mode == mode && Resolves(job, c, choice)
  }

  /** A journaled operation: its path, its origin and its world. */
  datatype Operation = Operation(path: string, origin: Origin, w: W.World)

  ghost predicate OperationInv(truths: Truths, rootID: int, mode: W.SymlinkMode, e: Operation) {
    && W.Inv(e.w) && e.w.truth == truths(e.path) && ValidRelPath(e.path)
    && Originates(rootID, mode, e.path, e.origin, e.w.job)
  }

  /** The baseline rows after an operation ran: its completion wrote the pair it
      committed, or removed the row; otherwise they are as before. */
  function TableAfter(rootID: int, t: map<string, Baseline>, p: string, w: W.World): map<string, Baseline> {
    if w.row.Some? || !w.begun then t
    else if w.baseline.Some? then t[p := Baseline(rootID, p, w.baseline.value.0, w.baseline.value.1)]
    else t - {p}
  }

  /** The pair that an operation commits is a row that the cycle may rely on. */
  lemma OperationRowIsSound(truths: Truths, rootID: int, p: string, w: W.World)
    requires W.Inv(w) && w.begun && w.row == None && w.baseline.Some? && w.truth == truths(p)
    requires rootID > 0 && ValidRelPath(p)
    ensures var b := Baseline(rootID, p, w.baseline.value.0, w.baseline.value.1);
            b.Valid() && Sound(SameUnder(truths), b)
  {
    hide W.JournalInv, W.SlotInv, W.LogInv, W.QuietInv, ValidRelPath;
    S.BegunAndGone(w);
    SoundPairIsSound(truths, rootID, p, w, w.baseline.value.0, w.baseline.value.1);
  }

  lemma SoundPairIsSound(
    truths: Truths, rootID: int, p: string, w: W.World, local: LocalFingerprint, remote: RemoteFingerprint)
    requires W.VersionInv(w) && W.Sound(w, local, remote) && w.truth == truths(p)
    ensures Sound(SameUnder(truths), Baseline(rootID, p, local, remote))
  {
  }

  lemma TableAfterIsSound(truths: Truths, rootID: int, t: map<string, Baseline>, p: string, w: W.World)
    requires W.Inv(w) && w.truth == truths(p) && rootID > 0 && ValidRelPath(p)
    requires SoundTable(SameUnder(truths), rootID, t)
    ensures SoundTable(SameUnder(truths), rootID, TableAfter(rootID, t, p, w))
  {
    hide W.Inv, ValidRelPath, Sound;
    if w.row == None && w.begun && w.baseline.Some? { OperationRowIsSound(truths, rootID, p, w); }
  }

  lemma TableAfterSays(rootID: int, t: map<string, Baseline>, path: string, w: W.World)
    ensures var t' := TableAfter(rootID, t, path, w);
            && t'.Keys - {path} == t.Keys - {path}
            && (forall p | p in t' && p != path :: t'[p] == t[p])
            && (if w.row.Some? || !w.begun then t' == t
                else if w.baseline.None? then path !in t'
                else path in t' && t'[path].local == w.baseline.value.0 && t'[path].remote == w.baseline.value.1)
  {
  }

  /** What is journaled has its row, and what is past has not. */
  ghost predicate AllHold(
    truths: Truths, rootID: int, mode: W.SymlinkMode, journal: seq<Operation>, past: seq<Operation>)
  {
    && (forall i :: 0 <= i < |journal| ==> OperationInv(truths, rootID, mode, journal[i]) && journal[i].w.row.Some?)
    && (forall i :: 0 <= i < |past| ==> OperationInv(truths, rootID, mode, past[i]) && past[i].w.row.None?)
  }

  function JournalAfter(journal: seq<Operation>, i: nat, w: W.World): seq<Operation>
    requires i < |journal|
  {
    journal[..i] + (if w.row.Some? then [journal[i].(w := w)] else []) + journal[i + 1..]
  }

  function PastAfter(past: seq<Operation>, journal: seq<Operation>, i: nat, w: W.World): seq<Operation>
    requires i < |journal|
  {
    if w.row.Some? then past else past + [journal[i].(w := w)]
  }

  lemma SettledHolds(
    truths: Truths, rootID: int, mode: W.SymlinkMode, journal: seq<Operation>, past: seq<Operation>, i: nat, w: W.World)
    requires AllHold(truths, rootID, mode, journal, past) && i < |journal|
    requires OperationInv(truths, rootID, mode, journal[i].(w := w))
    ensures AllHold(truths, rootID, mode, JournalAfter(journal, i, w), PastAfter(past, journal, i, w))
  {
    hide OperationInv;
  }

  /** The same operation, later. */
  ghost predicate SameOperation(e: Operation, e': Operation) {
    e'.path == e.path && e'.origin == e.origin && H.Later(e.w, e'.w)
  }

  /** No operation is lost: what was journaled is still there, or has ended and is
      among the past ones, which only grow. */
  ghost predicate Accounts(
    journal: seq<Operation>, past: seq<Operation>, journal': seq<Operation>, past': seq<Operation>)
  {
    && past <= past'
    && forall e | e in journal ::
         (exists e' :: e' in journal' && SameOperation(e, e')) || (exists e' :: e' in past' && SameOperation(e, e'))
  }

  lemma AccountsRefl(journal: seq<Operation>, past: seq<Operation>)
    ensures Accounts(journal, past, journal, past)
  {
    forall e | e in journal
      ensures SameOperation(e, e)
    {
      H.LaterRefl(e.w);
    }
  }

  lemma AccountsTrans(
    j0: seq<Operation>, p0: seq<Operation>, j1: seq<Operation>, p1: seq<Operation>, j2: seq<Operation>,
    p2: seq<Operation>)
    requires Accounts(j0, p0, j1, p1) && Accounts(j1, p1, j2, p2)
    ensures Accounts(j0, p0, j2, p2)
  {
    hide H.Later;
    forall e | e in j0
      ensures (exists e' :: e' in j2 && SameOperation(e, e')) || (exists e' :: e' in p2 && SameOperation(e, e'))
    {
      if m :| m in p1 && SameOperation(e, m) {
        assert m in p2;
      } else {
        var m :| m in j1 && SameOperation(e, m);
        if n :| n in j2 && SameOperation(m, n) {
          H.LaterTrans(e.w, m.w, n.w);
          assert SameOperation(e, n);
        } else {
          var n :| n in p2 && SameOperation(m, n);
          H.LaterTrans(e.w, m.w, n.w);
          assert SameOperation(e, n);
        }
      }
    }
  }

  lemma MoreIsAccounted(j0: seq<Operation>, p0: seq<Operation>, extra: seq<Operation>)
    ensures Accounts(j0, p0, j0 + extra, p0)
  {
    AccountsRefl(j0, p0);
  }

  // ----- What the cycle may do when -----

  /** The observations and the external work of a cycle, in order. */
  datatype Step =
    | RootRead(ok: bool, enabled: bool, healthy: bool)
    | Preflight(ok: bool, fits: bool)
    | Recovered(path: string)
    | Scanned(ok: bool, snap: Snapshot)
    | Authority(ok: bool, fits: bool)
    | Planned(blocked: bool)
    | Executed(path: string)

  datatype Stage = Closed | Open | Recovering | Seen | Fitting | Allowed

  /** Each stage follows from the one before and a positive observation; anything
      else closes the way. */
  function StageAfter(stage: Stage, step: Step): Stage {
    match step
    case RootRead(ok, enabled, healthy) => if ok && enabled && healthy then Open else Closed
    case Preflight(ok, fits) => if stage == Open && ok && fits then Recovering else Closed
    case Recovered(_) => stage
    case Scanned(ok, _) => if stage == Open && ok then Seen else Closed
    case Authority(ok, fits) => if stage == Seen && ok && fits then Fitting else Closed
    case Planned(blocked) => if stage == Fitting && !blocked then Allowed else Closed
    case Executed(_) => stage
  }

  function StageOf(steps: seq<Step>): Stage {
    if steps == [] then Closed else StageAfter(StageOf(steps[..|steps| - 1]), steps[|steps| - 1])
  }

  /** Operations are recovered only after a preflight, and executed only after a
      plan that was let through. */
  predicate Guarded(steps: seq<Step>) {
    steps == [] ||
    var init, last := steps[..|steps| - 1], steps[|steps| - 1];
    && Guarded(init)
    && (last.Recovered? ==> StageOf(init) == Recovering)
    && (last.Executed? ==> StageOf(init) == Allowed)
  }

  lemma OneMoreStep(steps: seq<Step>, step: Step)
    requires Guarded(steps)
    requires step.Recovered? ==> StageOf(steps) == Recovering
    requires step.Executed? ==> StageOf(steps) == Allowed
    ensures Guarded(steps + [step]) && StageOf(steps + [step]) == StageAfter(StageOf(steps), step)
  {
    assert (steps + [step])[..|steps|] == steps;
  }

  /** Steps a to k - 1 are recoveries and executions. */
  predicate OnlyWork(steps: seq<Step>, a: nat, k: nat) {
    a <= k <= |steps| && forall j :: a <= j < k ==> steps[j].Recovered? || steps[j].Executed?
  }

  predicate WasScanned(step: Step) { step.Scanned? && step.ok }

  /** How a stage was reached, told by the steps before position k: a positive
      observation after the other, and then nothing but work. */
  predicate CameFrom(steps: seq<Step>, k: nat, a: nat, stage: Stage) {
    && OnlyWork(steps, a, k)
    && match stage
       case Closed => true
       case Open => a == k && a >= 1 && steps[a - 1] == RootRead(true, true, true)
       case Recovering => a >= 2 && steps[a - 2] == RootRead(true, true, true) && steps[a - 1] == Preflight(true, true)
       case Seen => a == k && a >= 2 && steps[a - 2] == RootRead(true, true, true) && WasScanned(steps[a - 1])
       case Fitting =>
         && a == k && a >= 3 && steps[a - 3] == RootRead(true, true, true) && WasScanned(steps[a - 2])
         && steps[a - 1] == Authority(true, true)
       case Allowed =>
         && a >= 4 && steps[a - 4] == RootRead(true, true, true) && WasScanned(steps[a - 3])
         && steps[a - 2] == Authority(true, true) && steps[a - 1] == Planned(false)
  }

  lemma {:induction false} StageCameFrom(steps: seq<Step>) returns (a: nat)
    requires Guarded(steps)
    ensures CameFrom(steps, |steps|, a, StageOf(steps))
  {
    a := |steps|;
    if steps != [] {
      var init, last := steps[..|steps| - 1], steps[|steps| - 1];
      var b := StageCameFrom(init);
      if last.Recovered? || last.Executed? { a := b; }
      CameOneMore(init, last, b, StageOf(init));
      assert steps == init + [last];
    }
  }

  lemma CameOneMore(init: seq<Step>, last: Step, b: nat, stage: Stage)
    requires CameFrom(init, |init|, b, stage)
    requires (last.Recovered? ==> stage == Recovering) && (last.Executed? ==> stage == Allowed)
    ensures var work := last.Recovered? || last.Executed?;
            CameFrom(init + [last], |init| + 1, if work then b else |init| + 1, StageAfter(stage, last))
  {
    var steps := init + [last];
    assert forall j | 0 <= j < |init| :: steps[j] == init[j];
    assert steps[|init|] == last;
  }

  /** What every execution and every recovery is preceded by: the root read as
      enabled with its marker in place; for an execution then a complete scan
      whose authority holds and a plan that was let through, for a recovery a
      preflight; and nothing else but such work in between. */
  lemma WorkIsGuarded(steps: seq<Step>, k: nat) returns (a: nat)
    requires Guarded(steps) && k < |steps|
    ensures steps[k].Executed? ==> CameFrom(steps, k, a, Allowed)
    ensures steps[k].Recovered? ==> CameFrom(steps, k, a, Recovering)
  {
    GuardedPrefix(steps, k);
    a := StageCameFrom(steps[..k]);
    CameInPrefix(steps, k, a, StageOf(steps[..k]));
  }

  lemma CameInPrefix(steps: seq<Step>, k: nat, a: nat, stage: Stage)
    requires k < |steps| && CameFrom(steps[..k], k, a, stage)
    ensures CameFrom(steps, k, a, stage)
  {
    assert forall j | 0 <= j < k :: steps[..k][j] == steps[j];
  }

  lemma {:induction false} GuardedPrefix(steps: seq<Step>, k: nat)
    requires Guarded(steps) && k < |steps|
    ensures Guarded(steps[..k])
    ensures steps[k].Executed? ==> StageOf(steps[..k]) == Allowed
    ensures steps[k].Recovered? ==> StageOf(steps[..k]) == Recovering
  {
    var n := |steps| - 1;
    if k < n {
      GuardedPrefix(steps[..n], k);
      assert steps[..n][..k] == steps[..k];
    }
  }

  /** The steps after which a cycle fails although every call went well: the
      remote root is missing, or the scan or the policy is malformed. */
  predicate FailsAlone(last: Step) {
    (last.Scanned? && !last.ok) || last == Authority(true, true)
  }

  /** Which end of a cycle fits the last thing it saw or did. */
  predicate Fits(last: Step, r: End) {
    match last
    case RootRead(ok, enabled, healthy) =>
      (if !ok then r.Failed? else if !enabled then r.Skipped? else if !healthy then r.Blocked? else false)
    case Preflight(ok, fits) => (if !ok then r.Failed? else if !fits then r.Blocked? else false)
    case Recovered(_) => r.Failed? || r.Blocked?
    case Scanned(ok, _) => !ok && r.Failed?
    case Authority(ok, fits) => (if !ok then r.Failed? else if !fits then r.Blocked? else r.Skipped? || r.Failed?)
    case Planned(blocked) => (if blocked then r.Blocked? else r.Clean? || r.Failed?)
    case Executed(_) => r.Failed?
  }

  // ----- The data plane and the store, as the cycle meets them -----

  /** One call of the cycle: whether it succeeds, and what it observes; for an
      operation or a comparison, what stands at the path when it begins, and
      what happens to it call by call. */
  datatype Turn = Turn(
    ok: bool, enabled: bool, healthy: bool, fits: bool, snap: Snapshot, remoteRoot: bool, budget: nat,
    target: Option<W.Obj>, parent: nat, remote: Option<W.RemoteObj>, script: seq<H.Turn>)

  const EMPTY := Snapshot(map[], map[], map[], [], true, true, true)
  function Head(script: seq<Turn>): Turn { if script == [] then LAST else script[0] }
  function Tail(script: seq<Turn>): seq<Turn> { if script == [] then [] else script[1..] }

  /** The snapshot has what the two scans found, without the remote entries at
      excluded paths. */
  predicate ShowsScan(t: Turn, snap: Snapshot) {
    && snap.local == t.snap.local && snap.excluded == t.snap.excluded && snap.remote.Keys <= t.snap.remote.Keys
    && (forall p | p in t.snap.remote && !Excluded(t.snap.excluded, p) ::
          p in snap.remote && snap.remote[p] == t.snap.remote[p])
    && (forall p | p in snap.remote :: !Excluded(snap.excluded, p))
    && snap.content == map[] && snap.localComplete && snap.remoteComplete && snap.rootHealthy
  }

  const LAST := Turn(false, false, false, false, EMPTY, false, 0, None, 0, None, [])

  datatype End = Clean(snap: Snapshot, plan: Plan) | Skipped | Blocked | Failed

  /** What stands at the path, in terms that a job and the truth allow. */
  function Start(job: W.Job, truth: W.Truth, t: Turn): W.World {
    if R.Honest(job, truth, t.target, t.remote) then R.NewIntent(job, truth, t.target, t.parent, t.remote)
    else R.NewIntent(job, truth, None, t.parent, None)
  }

  lemma StartIsFresh(job: W.Job, truth: W.Truth, t: Turn)
    requires job.entryKind != NoKind
    ensures var w := Start(job, truth, t);
            W.Inv(w) && R.Fresh(w) && w.row == Some(W.Row(None, W.Planned, 0)) && w.truth == truth && w.job == job
  {
    hide W.Inv, R.Fresh;
    if R.Honest(job, truth, t.target, t.remote) {
      R.NewIsFresh(job, truth, t.target, t.parent, t.remote);
    } else {
      R.NewIsFresh(job, truth, None, t.parent, None);
    }
    R.FreshHolds(Start(job, truth, t));
  }

  class Root {
    const rootID: int
    const truths: Truths
    const mode: W.SymlinkMode
    const same: SameBytes := SameUnder(truths)
    var table: map<string, Baseline>
    var conflicts: Conflicts.ConflictStore
    var journal: seq<Operation>
    /** The operations whose rows are gone, as they ended. */
    var past: seq<Operation>
    var initialized: bool
    var script: seq<Turn>
    var steps: seq<Step>
    /** Some call failed, or an operation or a comparison was disturbed, or could
        not be carried out in the world that it met. */
    var balked: bool

    ghost predicate Journaled()
      reads this`journal, this`past
    {
      AllHold(truths, rootID, mode, journal, past)
    }

    ghost predicate Valid()
      reads this, conflicts
    {
      && rootID > 0 && SoundTable(same, rootID, table) && Journaled() && Guarded(steps)
      && conflicts.Valid() && Conflicts.OnePerPath(conflicts.rows)
    }

    ghost predicate SameState(t: map<string, Baseline>, j: seq<Operation>, p: seq<Operation>, paired: bool)
      reads this
    {
      table == t && journal == j && past == p && initialized == paired
    }

    /** The conflict records mirror the final plan. */
    ghost predicate RecordsMirror(e: End)
      requires e.Clean?
      reads this, conflicts
    {
      Conflicts.Mirrors(conflicts.rows, rootID, Conflicts.Current(e.plan.decisions), e.snap)
    }

    constructor (rootID: int, truths: Truths, mode: W.SymlinkMode)
      requires rootID > 0
      ensures Valid() && table == map[] && journal == past == [] && steps == [] && fresh(conflicts)
      ensures !initialized && !balked
      ensures this.rootID == rootID && this.truths == truths && this.mode == mode
    {
      this.rootID, this.truths, this.mode := rootID, truths, mode;
      table, journal, past, script, steps, initialized, balked := map[], [], [], [], [], false, false;
      conflicts := new Conflicts.ConflictStore(0);
    }

    method Next() returns (t: Turn)
      modifies this`script, this`balked
      ensures script == Tail(old(script))
      ensures t == Head(old(script)) && (balked <==> old(balked) || !t.ok)
    {
      if script == [] { balked := true; return LAST; }
      t := script[0];
      script := script[1..];
      balked := balked || !t.ok;
    }

    method Note(step: Step)
      requires Guarded(steps)
      requires step.Recovered? ==> StageOf(steps) == Recovering
      requires step.Executed? ==> StageOf(steps) == Allowed
      modifies this`steps
      ensures Guarded(steps) && steps == old(steps) + [step] && StageOf(steps) == StageAfter(old(StageOf(steps)), step)
    {
      OneMoreStep(steps, step);
      steps := steps + [step];
    }

    /** GetSyncRoot and the marker check. */
    method ReadRoot() returns (t: Turn)
      requires Guarded(steps)
      modifies this`script, this`steps, this`balked
      ensures script == Tail(old(script))
      ensures balked <==> old(balked) || !t.ok
      ensures t == Head(old(script)) && Guarded(steps) && steps == old(steps) + [RootRead(t.ok, t.enabled, t.healthy)]
      ensures t.ok && t.enabled && t.healthy ==> StageOf(steps) == Open
    {
      hide Guarded, StageOf;
      t := Next();
      Note(RootRead(t.ok, t.enabled, t.healthy));
    }

    /** ListBaselines. */
    method ListBaselines() returns (rows: seq<Baseline>)
      requires rootID > 0 && SoundTable(same, rootID, table)
      ensures ValidBaselines(rootID, rows) && Table(rows) == table
    {
      hide ValidBaselines, Table, Sound;
      rows := [];
      NoBaselines(rootID);
      var rest := table.Keys;
      while rest != {}
        invariant rest <= table.Keys && ValidBaselines(rootID, rows)
        invariant Table(rows).Keys == table.Keys - rest
        invariant forall p | p in Table(rows) :: Table(rows)[p] == table[p]
        decreases |rest|
      {
        var p :| p in rest;
        TableAppend(rootID, rows, table[p]);
        rows := rows + [table[p]];
        rest := rest - {p};
      }
    }

    /** scanCompleteSnapshot: remote entries under an excluded local path are left
        out of the snapshot. */
    method Scan() returns (r: Outcome<(Snapshot, bool)>)
      modifies this`script, this`balked
      ensures balked <==> old(balked) || !Head(old(script)).ok
      ensures r.Ok? <==> Head(old(script)).ok && (initialized ==> Head(old(script)).remoteRoot)
      ensures r.Ok? ==> ShowsScan(Head(old(script)), r.value.0) && r.value.1 == Head(old(script)).remoteRoot
    {
      var t := Next();
      if !t.ok || (initialized && !t.remoteRoot) { return Err; }
      var remote := map p | p in t.snap.remote && !Excluded(t.snap.excluded, p) :: t.snap.remote[p];
      r := Ok((Snapshot(t.snap.local, remote, map[], t.snap.excluded, true, true, true), t.remoteRoot));
    }

    /** CompareFileContent on the path as it stands now; nothing is journaled. An
        answer is the truth about the two versions that the plan named. */
    method Compare(d: Decision) returns (r: Outcome<bool>)
      modifies this`script, this`balked
      ensures old(balked) ==> balked
      ensures r.Err? ==> balked
      ensures r.Ok? && !d.expectedRemote.absent ==>
                (r.value <==> same(d.relPath, (d.expectedLocal.size, d.expectedLocal.mtimeNS),
                                   (d.expectedRemote.id, d.expectedRemote.rev)))
    {
      hide W.Inv, R.Fresh, A.Rely;
      var t := Next();
      var job := W.Job(W.OpEnsureRemote, KindFile, d.expectedLocal, d.expectedRemote, mode);
      StartIsFresh(job, truths(d.relPath), t);
      var h := new H.Host(Start(job, truths(d.relPath), t), t.script);
      var w := h.w;
      var equal := Remote.CompareFileContent(h, d.expectedLocal, d.expectedRemote);
      balked := balked || h.balked || h.w.edits > 0 || !Remote.Comparable(w, d.expectedLocal, d.expectedRemote);
      if !equal.Done? { return Err; }
      H.RelyIsLater(w, h.w);
      ComparedIsTrue(truths, d.relPath, h.w, d.expectedLocal, d.expectedRemote, equal.value);
      r := Ok(equal.value);
    }

    /** The comparisons a plan asks for. */
    method CompareAll(
      initial: bool, ghost baselines: seq<Baseline>, ghost policy: DeletePolicy, snap: Snapshot, ds: seq<Decision>)
      returns (r: Outcome<Snapshot>)
      requires PlanOf(rootID, initial, baselines, snap, policy).Ok? &&
                 !PlanOf(rootID, initial, baselines, snap, policy).value.blocked
      requires snap.localComplete && snap.remoteComplete && snap.rootHealthy
      requires ds == PlanOf(rootID, initial, baselines, snap, policy).value.decisions && Truthful(same, snap)
      modifies this`script, this`balked
      ensures old(balked) ==> balked
      ensures r.Err? ==> balked
      ensures r.Ok? ==> Answered(rootID, initial, Table(baselines), snap, r.value) && Truthful(same, r.value)
    {
      hide PlanOf, Excluded, DecisionAt, Table, Truthful, AllPaths, Answered;
      var next := snap;
      ghost var asked: set<string> := {};
      for i := 0 to |ds|
        invariant old(balked) ==> balked
        invariant next == snap.(content := next.content) && Truthful(same, next)
        invariant AnsweredFor(snap, next, ds[..i])
      {
        var d := ds[i];
        assert ds[..i + 1] == ds[..i] + [d];
        if d.kind == CompareContent {
          var equal :- Compare(d);
          AskedIsPresent(rootID, initial, baselines, snap, policy, d);
          var answer := if equal then ContentEqual else ContentDifferent;
          OneMoreAnswer(same, snap, next, ds[..i], d, answer);
          next := next.(content := next.content[d.relPath := answer]);
        } else {
          OneMoreOther(snap, next, ds[..i], d);
        }
      }
      assert ds[..|ds|] == ds;
      AllAnswered(rootID, initial, baselines, snap, policy, next);
      r := Ok(next);
    }

    /** The content-check loop: it ends because a fully answered plan asks for
        nothing more. */
    method PlanWithContent(initial: bool, baselines: seq<Baseline>, snap0: Snapshot, policy: DeletePolicy)
      returns (r: Outcome<(Plan, Snapshot)>)
      requires snap0.content == map[] && snap0.localComplete && snap0.remoteComplete && snap0.rootHealthy
      modifies this`script, this`balked
      ensures old(balked) ==> balked
      ensures r.Err? ==> balked || PlanOf(rootID, initial, baselines, snap0, policy).Err?
      ensures r.Ok? ==>
                && var (plan, snap) := r.value;
                && PlanOf(rootID, initial, baselines, snap, policy) == Ok(plan)
                && snap == snap0.(content := snap.content) && Truthful(same, snap)
                && (!plan.blocked ==> plan.contentChecks == 0)
    {
      hide PlanOf, Excluded, DecisionAt, Table, AllPaths, Answered, Truthful;
      var snap := snap0;
      NoEvidence(same, snap);
      var plan :- PlanFullSnapshot(rootID, initial, baselines, snap, policy);
      while !plan.blocked && plan.contentChecks > 0
        invariant old(balked) ==> balked
        invariant PlanOf(rootID, initial, baselines, snap, policy) == Ok(plan)
        invariant snap == snap0.(content := snap.content) && Truthful(same, snap)
        decreases if plan.blocked then 0 else plan.contentChecks
      {
        var next :- CompareAll(initial, baselines, policy, snap, plan.decisions);
        ContentLoopRunsOnce(rootID, initial, baselines, snap, next, policy);
        AnsweredIsContent(rootID, initial, Table(baselines), snap, next);
        var replanned := PlanFullSnapshot(rootID, initial, baselines, next, policy);
        plan := replanned.value;
        snap := next;
      }
      r := Ok((plan, snap));
    }

    /** PutBaseline and DeleteBaseline for the plan's commits and drops. */
    method StoreCommits(snap: Snapshot, ds: seq<Decision>) returns (ok: bool)
      requires SoundTable(same, rootID, table)
      requires forall n | 0 <= n <= |ds| :: SoundTable(same, rootID, CommitAll(rootID, table, ds[..n], snap))
      modifies this`table, this`script, this`balked
      ensures old(balked) ==> balked
      ensures !ok ==> balked
      ensures SoundTable(same, rootID, table)
      ensures ok ==> table == CommitAll(rootID, old(table), ds, snap)
    {
      hide SoundTable;
      var t0 := table;
      for i := 0 to |ds|
        invariant old(balked) ==> balked
        invariant table == CommitAll(rootID, t0, ds[..i], snap)
        invariant SoundTable(same, rootID, table)
      {
        assert ds[..i + 1][..i] == ds[..i];
        if ds[i].kind == CommitBaseline || ds[i].kind == DropBaseline {
          var t := Next();
          if !t.ok { return false; }
        }
        assert SoundTable(same, rootID, CommitAll(rootID, t0, ds[..i + 1], snap));
        table := CommitOne(rootID, table, ds[i], snap);
      }
      assert ds[..|ds|] == ds;
      ok := true;
    }

    /** What a run of the i-th operation left: its row stays in the journal unless
        it is gone; a completion has written the pair that it committed into the
        path's baseline row, or removed the row; a discard has not touched it. */
    method Settle(i: nat, w: W.World)
      requires SoundTable(same, rootID, table) && rootID > 0 && Journaled()
      requires i < |journal| && W.Inv(w) && H.Later(journal[i].w, w)
      modifies this`table, this`journal, this`past
      ensures SoundTable(same, rootID, table) && Journaled()
      ensures table == TableAfter(rootID, old(table), old(journal)[i].path, w)
      ensures journal == JournalAfter(old(journal), i, w)
      ensures past == PastAfter(old(past), old(journal), i, w)
      ensures Accounts(old(journal), old(past), journal, past)
    {
      hide SoundTable, W.Inv, ValidRelPath, H.Later, Accounts, TableAfter, OperationInv, AllHold;
      hide JournalAfter, PastAfter;
      var op := journal[i];
      JournaledHolds(truths, rootID, mode, journal, past, i);
      OperationLater(truths, rootID, mode, op, w);
      SettledHolds(truths, rootID, mode, journal, past, i, w);
      TableAfterIsSound(truths, rootID, table, op.path, w);
      SettledIsAccounted(journal, past, i, w);
      table, journal, past :=
          TableAfter(rootID, table, op.path, w), JournalAfter(journal, i, w), PastAfter(past, journal, i, w);
    }

    /** CreateOperation, which refuses a malformed intent. */
    method CreateOperation(path: string, origin: Origin, job: W.Job) returns (ok: bool)
      requires Journaled() && Originates(rootID, mode, path, origin, job)
      modifies this`journal, this`script, this`balked
      ensures old(balked) ==> balked
      ensures Journaled()
      ensures !Head(old(script)).ok ==> balked
      ensures ok <==> Head(old(script)).ok && job.entryKind != NoKind && ValidRelPath(path)
      ensures if ok then
                && |journal| == |old(journal)| + 1 && journal[..|old(journal)|] == old(journal)
                && var e := journal[|old(journal)|];
                && e.path == path && e.origin == origin && e.w.job == job && R.Fresh(e.w)
              else journal == old(journal)
    {
      hide W.Inv, R.Fresh, ValidRelPath, Originates;
      var t := Next();
      if !t.ok || job.entryKind == NoKind || !ValidRelPath(path) { return false; }
      StartIsFresh(job, truths(path), t);
      journal := journal + [Operation(path, origin, Start(job, truths(path), t))];
      ok := true;
    }

    /** The first attempt at the operation that was journaled last. */
    method AttemptLast() returns (ok: bool)
      requires SoundTable(same, rootID, table) && rootID > 0 && Journaled()
      requires journal != [] && R.Fresh(journal[|journal| - 1].w)
      modifies this`table, this`journal, this`past, this`script, this`balked
      ensures SoundTable(same, rootID, table) && Journaled() && Accounts(old(journal), old(past), journal, past)
      ensures old(balked) || !ok ==> balked
      ensures var n, op := |old(journal)| - 1, old(journal)[|old(journal)| - 1];
              if ok || |journal| == n then
                && journal == old(journal)[..n] && |past| == |old(past)| + 1 && past[..|old(past)|] == old(past)
                && past[|old(past)|].origin == op.origin && (ok ==> S.Completed(past[|old(past)|].w))
              else
                && |journal| == n + 1 && journal[..n] == old(journal)[..n] && past == old(past)
                && journal[n].path == op.path && journal[n].origin == op.origin
    {
      hide SoundTable, W.Inv, ValidRelPath, H.Later, S.Completed, Originates, Accounts, S.Feasible;
      var t := Next();
      var last := |journal| - 1;
      var op := journal[last];
      assert OperationInv(truths, rootID, mode, op);
      FreshIsPlanned(op.w);
      var h := new H.Host(op.w, t.script);
      var r := R.Attempt(h);
      balked := balked || h.balked || h.w.edits > 0 || !S.Feasible(op.w, None);
      Settle(last, h.w);
      if r.Done? { CompletedIsGone(h.w); }
      ok := r.Done?;
    }

    /** A decision is journaled, pinned and executed. Success completes it; after
        a failure its row may stay in the journal, and nothing else does. */
    method RunOperation(origin: Origin) returns (ok: bool)
      requires SoundTable(same, rootID, table) && rootID > 0 && Journaled() && Guarded(steps) &&
                 StageOf(steps) == Allowed
      requires origin.FromPlan? && IsExternal(origin.d.kind)
      requires Originates(rootID, mode, origin.d.relPath, origin, JobOf(origin.d, mode))
      modifies this`table, this`journal, this`past, this`script, this`steps, this`balked
      ensures old(balked) || !ok ==> balked
      ensures SoundTable(same, rootID, table) && Journaled() && Guarded(steps) && StageOf(steps) == Allowed
      ensures steps == old(steps) + [Executed(origin.d.relPath)]
      ensures ok ==> journal == old(journal) && |past| == |old(past)| + 1 && past[..|old(past)|] == old(past)
      ensures ok ==> past[|old(past)|].origin == origin && S.Completed(past[|old(past)|].w)
      ensures !ok && journal != old(journal) ==>
                && |journal| == |old(journal)| + 1 && journal[..|old(journal)|] == old(journal) && past == old(past)
                && journal[|old(journal)|].path == origin.d.relPath && journal[|old(journal)|].origin == origin
      ensures Accounts(old(journal), old(past), journal, past)
    {
      hide SoundTable, AllHold, ValidRelPath, S.Completed, R.Fresh, Originates, Accounts, Guarded, StageOf;
      Note(Executed(origin.d.relPath));
      ghost var j0, p0 := journal, past;
      AccountsRefl(j0, p0);
      OriginIsWellFormed(rootID, mode, origin);
      var created := CreateOperation(origin.d.relPath, origin, JobOf(origin.d, mode));
      if !created { return false; }
      ghost var j1 := journal;
      MoreIsAccounted(j0, p0, [j1[|j0|]]);
      assert j1 == j0 + [j1[|j0|]];
      ok := AttemptLast();
      AccountsTrans(j0, p0, j1, p0, journal, past);
      assert j1[..|j0|] == j0;
    }

    /** The decisions are executed one after the other, each once and in this
        order, until one does not succeed. */
    method ExecuteAll(initial: bool, baselines: seq<Baseline>, snap: Snapshot, policy: DeletePolicy, ds: seq<Decision>)
      returns (ok: bool)
      requires SoundTable(same, rootID, table) && rootID > 0 && Journaled() && Guarded(steps) &&
                 StageOf(steps) == Allowed
      requires PlanOf(rootID, initial, baselines, snap, policy).Ok?
      requires !PlanOf(rootID, initial, baselines, snap, policy).value.blocked
      requires forall d | d in ds ::
                 IsExternal(d.kind) && d in PlanOf(rootID, initial, baselines, snap, policy).value.decisions
      modifies this`table, this`journal, this`past, this`script, this`steps, this`balked
      ensures old(balked) ==> balked
      ensures !ok ==> balked
      ensures SoundTable(same, rootID, table) && Journaled() && Guarded(steps) && StageOf(steps) == Allowed
      ensures |old(steps)| <= |steps| <= |old(steps)| + |ds| && (ds != [] ==> |steps| > |old(steps)|)
      ensures steps == old(steps) + WorkOn(ds[..|steps| - |old(steps)|])
      ensures ok ==> journal == old(journal) && RanInOrder(initial, baselines, snap, policy, ds, old(past), past)
      ensures Accounts(old(journal), old(past), journal, past)
    {
      hide SoundTable, OperationInv, PlanOf, S.Completed, Accounts, Guarded, StageOf, WorkOn, RanInOrder;
      ghost var j0, p0 := journal, past;
      AccountsRefl(j0, p0);
      WorkOnNothing();
      NoneRan(initial, baselines, snap, policy, p0);
      for i := 0 to |ds|
        invariant old(balked) ==> balked
        invariant SoundTable(same, rootID, table) && Journaled() && journal == j0
        invariant Guarded(steps) && StageOf(steps) == Allowed
        invariant steps == old(steps) + WorkOn(ds[..i]) && |steps| == |old(steps)| + i
        invariant RanInOrder(initial, baselines, snap, policy, ds[..i], p0, past)
        invariant Accounts(j0, p0, journal, past)
      {
        assert ds[i] in ds;
        assert ds[..i + 1] == ds[..i] + [ds[i]];
        ghost var before := past;
        WorkOnOneMore(ds[..i], ds[i]);
        ok := RunOperation(FromPlan(initial, baselines, snap, policy, ds[i]));
        AccountsTrans(j0, p0, j0, before, journal, past);
        assert steps == old(steps) + WorkOn(ds[..i + 1]);
        assert |steps| - |old(steps)| == i + 1;
        if !ok { return; }
        OneMoreRan(initial, baselines, snap, policy, ds[..i], ds[i], p0, before, past);
      }
      assert ds[..|ds|] == ds;
      ok := true;
    }

    /** The first row of the journal: it ends, or it blocks, or a call fails. */
    method RecoverFirst() returns (r: Outcome<bool>)
      requires SoundTable(same, rootID, table) && rootID > 0 && Journaled() && Guarded(steps)
      requires journal != [] && StageOf(steps) == Recovering
      modifies this`table, this`journal, this`past, this`script, this`steps, this`balked
      ensures SoundTable(same, rootID, table) && Journaled() && Guarded(steps) && StageOf(steps) == Recovering
      ensures old(balked) || r.Err? ==> balked
      ensures Accounts(old(journal), old(past), journal, past) && |journal| + |past| == |old(journal)| + |old(past)|
      ensures r == Ok(false) ==> journal == old(journal)[1..]
      ensures r == Ok(true) ==> journal != [] && journal[0].w.row.Some? && journal[0].w.row.value.phase == W.Blocked
      ensures steps == old(steps) + [Recovered(old(journal)[0].path)]
    {
      hide SoundTable, W.Inv, ValidRelPath, H.Later, S.Completed, Originates, Accounts, Guarded, StageOf, S.Settleable;
      var t := Next();
      var op := journal[0];
      assert OperationInv(truths, rootID, mode, op);
      Note(Recovered(op.path));
      var h := new H.Host(op.w, t.script);
      var recovered := S.RecoverOne(h);
      balked := balked || h.balked || h.w.edits > 0 || !S.Settleable(op.w);
      Settle(0, h.w);
      r := if recovered.Done? then Ok(recovered.value) else Err;
    }

    /** recoverExistingOperations: one row after the other, until one blocks or a
        call fails. Ok(false) means that every row has ended. */
    method RecoverJournal() returns (r: Outcome<bool>)
      requires SoundTable(same, rootID, table) && rootID > 0 && Journaled() && Guarded(steps)
      requires journal == [] || StageOf(steps) == Recovering
      modifies this`table, this`journal, this`past, this`script, this`steps, this`balked
      ensures old(balked) || r.Err? ==> balked
      ensures SoundTable(same, rootID, table) && Journaled() && Guarded(steps)
      ensures Accounts(old(journal), old(past), journal, past)
      ensures r == Ok(false) ==> journal == [] && |past| == |old(past)| + |old(journal)|
      ensures r == Ok(true) ==> journal != [] && journal[0].w.row.Some? && journal[0].w.row.value.phase == W.Blocked
      ensures old(steps) <= steps
      ensures r != Ok(false) ==> |steps| > |old(steps)| && steps[|steps| - 1].Recovered?
    {
      hide SoundTable, AllHold, Accounts, Guarded, StageOf;
      ghost var j0, p0 := journal, past;
      AccountsRefl(j0, p0);
      while journal != []
        invariant old(balked) ==> balked
        invariant SoundTable(same, rootID, table) && Journaled() && Guarded(steps) && old(steps) <= steps
        invariant journal == [] || StageOf(steps) == Recovering
        invariant Accounts(j0, p0, journal, past) && |journal| + |past| == |j0| + |p0|
        decreases |journal|
      {
        ghost var j1, p1 := journal, past;
        r := RecoverFirst();
        AccountsTrans(j0, p0, j1, p1, journal, past);
        if r.Err? || r.value { return; }
      }
      r := Ok(false);
    }

    /** May the operator queue this resolution? */
    predicate MayQueue(id: int, choice: Conflicts.Choice)
      reads this`journal, this`conflicts, conflicts
    {
      && id in conflicts.rows && conflicts.rows[id].rootID == rootID
      && Conflicts.ResolutionOf(conflicts.rows[id], choice).Ok?
      && forall i | 0 <= i < |journal| :: journal[i].path != conflicts.rows[id].relPath
    }

    /** conflict resolve: an open record becomes a journaled operation of the
        operator's choice, unless its path already has one. */
    method QueueResolution(id: int, choice: Conflicts.Choice) returns (queued: bool)
      requires Valid()
      modifies this`journal, this`script, this`balked
      ensures old(balked) ==> balked
      ensures Valid() && Accounts(old(journal), old(past), journal, past)
      ensures queued <==> old(MayQueue(id, choice)) && Head(old(script)).ok
      ensures if queued then
                && |journal| == |old(journal)| + 1 && journal[..|old(journal)|] == old(journal)
                && journal[|old(journal)|].origin == FromConflict(conflicts.rows[id], choice)
                && R.Fresh(journal[|old(journal)|].w)
              else journal == old(journal)
    {
      hide SoundTable, OperationInv, Conflicts.OnePerPath, Conflicts.ConflictStore.Valid, Conflicts.Conflict.Valid;
      hide Accounts, R.Fresh, ValidRelPath;
      AccountsRefl(journal, past);
      if !MayQueue(id, choice) { return false; }
      var c := conflicts.rows[id];
      var r := Conflicts.ResolutionOf(c, choice).value;
      Conflicts.ResolutionIsExternal(c, choice);
      Conflicts.ResolvedIsValid(c, choice);
      ghost var j0 := journal;
      queued := CreateOperation(c.relPath, FromConflict(c, choice),
          JobOf(Decision(c.relPath, r.kind, r.entryKind, NoConflict, r.expectedLocal, r.expectedRemote), mode));
      if queued {
        MoreIsAccounted(j0, past, [journal[|j0|]]);
        assert journal == j0 + [journal[|j0|]];
      }
    }

    /** operation resolve: the operator's command on a blocked row. The row goes
        back to recovery or stays as it is; a restore, unless somebody writes
        meanwhile, moves it there only when the parked object is the pinned one in
        its expected state and its path is free. */
    method Resolve(index: nat, command: R.Command)
      requires Valid()
      modifies this`journal, this`past, this`table, this`script, this`balked
      ensures old(balked) ==> balked
      ensures Valid() && Accounts(old(journal), old(past), journal, past) && table == old(table) && past == old(past)
      ensures |journal| == |old(journal)| && forall i | 0 <= i < |journal| && i != index ::
                journal[i] == old(journal)[i]
      ensures index < |journal| && journal[index].w.row != old(journal)[index].w.row ==>
                && old(journal)[index].w.row.value.phase == W.Blocked &&
                     (command.RestoreCommand? || command.RetryCommand?)
                && journal[index].w.row == Some(old(journal)[index].w.row.value.(phase := W.Recovering))
                && (command.RestoreCommand? && journal[index].w.edits == old(journal)[index].w.edits ==>
                      Recovery.IsBlocked(old(journal)[index].w) && Recovery.Restorable(old(journal)[index].w))
      ensures !(command.RestoreCommand? || command.RetryCommand?) ==> journal == old(journal)
    {
      hide SoundTable, W.Inv, ValidRelPath, H.Later, Originates, Conflicts.OnePerPath, Conflicts.ConflictStore.Valid;
      hide Accounts, Recovery.Restorable;
      AccountsRefl(journal, past);
      if index >= |journal| || journal[index].w.row.value.phase != W.Blocked ||
          !(command.RestoreCommand? || command.RetryCommand?) { return; }
      var t := Next();
      var op := journal[index];
      assert OperationInv(truths, rootID, mode, op);
      var h := new H.Host(op.w, t.script);
      R.RunSession(h, command);
      Settle(index, h.w);
    }

    /** One pass over a scanned snapshot: plan with content checks, reconcile the
        conflict records, store commits and drops, and execute what is left. None
        means that there was work, so another pass follows; then exactly the plan's
        external decisions were executed, in their order. A blocked plan changes
        nothing. made is what the last plan was made of. */
    method RunPass(policy: DeletePolicy, snap0: Snapshot) returns (r: Option<End>, ghost made: Inputs)
      requires Valid() && snap0.content == map[] && snap0.localComplete && snap0.remoteComplete && snap0.rootHealthy
      requires StageOf(steps) == Fitting && steps != []
      modifies this, conflicts
      ensures r.None? ==> |past| > |old(past)|
      ensures old(balked) ==> balked
      ensures r == Some(Failed) ==> balked || (steps == old(steps) && !Plannable(!old(initialized), snap0, policy))
      ensures Valid() && conflicts == old(conflicts)
      ensures r.Some? && r.value.Clean? ==> CleanEnd(same, table, r.value) && RecordsMirror(r.value)
      ensures r.None? || r.value.Clean? ==> journal == old(journal)
      ensures r.Some? ==> !r.value.Skipped?
      ensures r == Some(Blocked) ==> journal == old(journal) && past == old(past) && table == old(table)
      ensures r == Some(Blocked) ==> conflicts.rows == old(conflicts.rows) && steps == old(steps) + [Planned(true)]
      ensures r.None? ==> RanAll(made, old(past), past)
      ensures old(steps) <= steps && (r.Some? && |steps| > |old(steps)| ==> Fits(steps[|steps| - 1], r.value))
      ensures |steps| == |old(steps)| ==> r == Some(Failed)
      ensures r.None? ==> |steps| > |old(steps)| && steps[|steps| - 1].Executed?
      ensures MadeOf(made, !old(initialized), old(table), snap0, policy)
      ensures r.Some? && r.value.Clean? ==>
                PlannedFrom(made, r.value) && steps == old(steps) + [Planned(false)]
      ensures Accounts(old(journal), old(past), journal, past)
      ensures initialized ==> old(initialized) || (r.Some? && r.value.Clean? && r.value.plan.conflicts == 0)
      ensures r.Some? && r.value.Clean? && r.value.plan.conflicts == 0 ==>
                initialized || exists i :: Conflicts.Open(conflicts.rows, rootID, i)
    {
      hide PlanOf, Excluded, DecisionAt, Table, AllPaths, Truthful, SoundTable, OperationInv;
      hide Accounts, Guarded, StageOf;
      hide Conflicts.OnePerPath, Conflicts.Respects, Conflicts.Mirrors, CleanEnd, RanAll, ValidBaselines;
      AccountsRefl(journal, past);
      var initial := !initialized;
      var baselines := ListBaselines();
      made := Inputs(initial, baselines, snap0, policy);
      NoEvidence(same, snap0);
      var planned := PlanWithContent(initial, baselines, snap0, policy);
      PlannedWhenPlannable(rootID, initial, baselines, snap0, policy);
      if planned.Err? { return Some(Failed), made; }
      var plan, snap := planned.value.0, planned.value.1;
      made := Inputs(initial, baselines, snap, policy);
      Note(Planned(plan.blocked));
      if plan.blocked { return Some(Blocked), made; }
      r := RecordAndCarryOut(initial, baselines, snap, policy, plan);
    }

    /** reconcileConflictRecords, over the calls that the store lets succeed. */
    method Record(snap: Snapshot, ds: seq<Decision>) returns (ok: bool)
      requires conflicts.Valid() && Conflicts.OnePerPath(conflicts.rows)
      requires forall d | d in ds :: !Excluded(snap.excluded, d.relPath)
      requires forall d | d in ds && d.kind == ConflictFound :: Conflicts.NewRecord(rootID, d.relPath, d, snap).Valid()
      modifies this`script, this`balked, conflicts
      ensures conflicts.Valid() && Conflicts.OnePerPath(conflicts.rows)
      ensures ok ==> Conflicts.Mirrors(conflicts.rows, rootID, Conflicts.Current(ds), snap)
      ensures old(balked) || !ok ==> balked
    {
      hide Excluded, Conflicts.OnePerPath, Conflicts.Respects, Conflicts.Mirrors, Conflicts.Conflict.Valid;
      hide Conflicts.Records, Conflicts.UniqueIn;
      var t := Next();
      conflicts.budget := t.budget;
      ok := conflicts.Reconcile(rootID, snap, ds);
      balked := balked || conflicts.budget == 0;
    }

    /** The part of a pass that follows a plan that was let through. */
    method RecordAndCarryOut(initial: bool, baselines: seq<Baseline>, snap: Snapshot, policy: DeletePolicy, plan: Plan)
      returns (r: Option<End>)
      requires Valid() && initial == !initialized && StageOf(steps) == Allowed
      requires steps != [] && steps[|steps| - 1] == Planned(false)
      requires PlanOf(rootID, initial, baselines, snap, policy) == Ok(plan) && !plan.blocked && plan.contentChecks == 0
      requires Truthful(same, snap) && snap.localComplete && snap.remoteComplete && snap.rootHealthy
      requires Table(baselines) == table
      modifies this, conflicts
      ensures r.None? ==> |past| > |old(past)|
      ensures old(balked) ==> balked
      ensures r == Some(Failed) ==> balked
      ensures Valid() && conflicts == old(conflicts)
      ensures r.Some? && r.value.Clean? ==> CleanEnd(same, table, r.value) && RecordsMirror(r.value)
      ensures r.None? || r.value.Clean? ==> journal == old(journal)
      ensures r.Some? ==> !r.value.Skipped? && !r.value.Blocked?
      ensures r.None? ==> RanAll(Inputs(initial, baselines, snap, policy), old(past), past)
      ensures old(steps) <= steps && (r.Some? ==> Fits(steps[|steps| - 1], r.value))
      ensures r.None? ==> steps[|steps| - 1].Executed?
      ensures r.Some? && r.value.Clean? ==> r.value == Clean(snap, plan) && steps == old(steps)
      ensures Accounts(old(journal), old(past), journal, past)
      ensures initialized ==> old(initialized) || (r.Some? && r.value.Clean? && r.value.plan.conflicts == 0)
      ensures r.Some? && r.value.Clean? && r.value.plan.conflicts == 0 ==>
                initialized || exists i :: Conflicts.Open(conflicts.rows, rootID, i)
    {
      hide PlanOf, Excluded, DecisionAt, Table, AllPaths, Truthful, SoundTable, AllHold, Accounts, Guarded, StageOf;
      hide Conflicts.OnePerPath, Conflicts.Respects, Conflicts.Mirrors, CleanEnd, RanAll;
      AccountsRefl(journal, past);
      PlanIsIncluded(rootID, initial, baselines, snap, policy);
      RecordsAreValid(rootID, initial, baselines, snap, policy);
      var recorded := Record(snap, plan.decisions);
      if !recorded { return Some(Failed); }
      PrefixesAreSound(same, rootID, initial, baselines, snap, policy);
      var stored := StoreCommits(snap, plan.decisions);
      if !stored { return Some(Failed); }
      r := CarryOut(initial, baselines, snap, policy, plan);
    }

    /** InitializeSyncRoot after a clean pass, unless a conflict is open. */
    method ClosePairing(found: nat) returns (ok: bool)
      requires conflicts.Valid()
      modifies this`initialized, this`script, this`balked
      ensures old(balked) || !ok ==> balked
      ensures initialized ==> old(initialized) || (ok && found == 0)
      ensures !ok ==> initialized == old(initialized)
      ensures ok && found == 0 ==> initialized || exists i :: Conflicts.Open(conflicts.rows, rootID, i)
      ensures old(initialized) ==> initialized && ok
    {
      var unresolved := conflicts.ListOpen(rootID);
      if !initialized && unresolved == [] && found == 0 {
        var closing := Next();
        if !closing.ok { return false; }
        initialized := true;
      } else if unresolved != [] {
        assert unresolved[0] in unresolved;
      }
      ok := true;
    }

    /** The end of a pass, with its records and commits stored: the external
        decisions are executed, or there are none and the pass is clean. */
    method CarryOut(initial: bool, baselines: seq<Baseline>, snap: Snapshot, policy: DeletePolicy, plan: Plan)
      returns (r: Option<End>)
      requires Valid() && initial == !initialized && StageOf(steps) == Allowed
      requires steps != [] && steps[|steps| - 1] == Planned(false)
      requires PlanOf(rootID, initial, baselines, snap, policy) == Ok(plan) && !plan.blocked && plan.contentChecks == 0
      requires Truthful(same, snap) && snap.localComplete && snap.remoteComplete && snap.rootHealthy
      requires SoundTable(same, rootID, Table(baselines))
      requires table == CommitAll(rootID, Table(baselines), plan.decisions, snap)
      requires Conflicts.Mirrors(conflicts.rows, rootID, Conflicts.Current(plan.decisions), snap)
      modifies this
      ensures r.None? ==> |past| > |old(past)|
      ensures old(balked) ==> balked
      ensures r == Some(Failed) ==> balked
      ensures Valid() && conflicts == old(conflicts)
      ensures r.Some? && r.value.Clean? ==> CleanEnd(same, table, r.value) && RecordsMirror(r.value)
      ensures r.None? || r.value.Clean? ==> journal == old(journal)
      ensures r.Some? ==> !r.value.Skipped? && !r.value.Blocked?
      ensures r.None? ==> RanAll(Inputs(initial, baselines, snap, policy), old(past), past)
      ensures old(steps) <= steps && (r.Some? ==> Fits(steps[|steps| - 1], r.value))
      ensures r.None? ==> steps[|steps| - 1].Executed?
      ensures r.Some? && r.value.Clean? ==> r.value == Clean(snap, plan) && steps == old(steps)
      ensures Accounts(old(journal), old(past), journal, past)
      ensures initialized ==> old(initialized) || (r.Some? && r.value.Clean? && r.value.plan.conflicts == 0)
      ensures r.Some? && r.value.Clean? && r.value.plan.conflicts == 0 ==>
                initialized || exists i :: Conflicts.Open(conflicts.rows, rootID, i)
    {
      hide PlanOf, Excluded, DecisionAt, Table, AllPaths, Truthful, SoundTable, OperationInv;
      hide Accounts, Guarded, StageOf;
      hide Conflicts.OnePerPath, Conflicts.Mirrors, CleanEnd, CommitAll, RanInOrder, RanAll, WorkOn;
      AccountsRefl(journal, past);
      PlanIsDistinct(rootID, initial, baselines, snap, policy);
      var external := ExternalDecisions(plan.decisions);
      if external == [] {
        NoExternal(plan.decisions, external);
        CleanPass(same, rootID, initial, baselines, snap, policy);
        var closed := ClosePairing(plan.conflicts);
        return if closed then Some(Clean(snap, plan)) else Some(Failed);
      }
      var sorted := SortExternalDecisions(external);
      SortedIsExternal(plan.decisions, external, sorted);
      SameLength(external, sorted);
      OrderedIsDistinct(external, sorted);
      ghost var p0, s0 := past, steps;
      var executed := ExecuteAll(initial, baselines, snap, policy, sorted);
      LastIsWork(s0, steps, sorted);
      if executed {
        RanSomething(initial, baselines, snap, policy, sorted, p0, past);
        RanAllSorted(Inputs(initial, baselines, snap, policy), sorted, p0, past);
      }
      r := if executed then None else Some(Failed);
    }

    /** The plan was made of this root's own state, this scan and this policy, and
        of content evidence that is true. */
    ghost predicate MadeOf(
      made: Inputs, initial: bool, t: map<string, Baseline>, snap0: Snapshot, policy: DeletePolicy)
    {
      && made.initial == initial && made.policy == policy
      && ValidBaselines(rootID, made.baselines) && Table(made.baselines) == t
      && made.snap == snap0.(content := made.snap.content) && Truthful(same, made.snap)
    }

    ghost predicate MadeFrom(made: Inputs, snap0: Snapshot, policy: DeletePolicy) {
      MadeOf(made, made.initial, Table(made.baselines), snap0, policy)
    }

    lemma OfIsFrom(made: Inputs, initial: bool, t: map<string, Baseline>, snap0: Snapshot, policy: DeletePolicy)
      requires MadeOf(made, initial, t, snap0, policy)
      ensures MadeFrom(made, snap0, policy)
    {
      hide Table, Truthful, ValidBaselines;
    }

    ghost predicate PlannedFrom(made: Inputs, e: End)
      requires e.Clean?
    {
      e.snap == made.snap && PlanOf(rootID, made.initial, made.baselines, made.snap, made.policy) == Ok(e.plan)
    }

    /** Exactly these decisions were executed between two states of the past, each
        once and in this order, and completed. */
    ghost predicate RanInOrder(
      initial: bool, baselines: seq<Baseline>, snap: Snapshot, policy: DeletePolicy, ds: seq<Decision>,
      before: seq<Operation>, after: seq<Operation>)
    {
      && |after| == |before| + |ds| && after[..|before|] == before
      && forall i | 0 <= i < |ds| ::
           RanAt(initial, baselines, snap, policy, ds[i], after[|before| + i])
    }

    /** The operation carried out this decision of this plan. */
    ghost predicate RanAt(
      initial: bool, baselines: seq<Baseline>, snap: Snapshot, policy: DeletePolicy, d: Decision, e: Operation)
    {
      e.origin == FromPlan(initial, baselines, snap, policy, d) && S.Completed(e.w)
    }

    lemma RanSomething(
      initial: bool, baselines: seq<Baseline>, snap: Snapshot, policy: DeletePolicy, ds: seq<Decision>,
      before: seq<Operation>, after: seq<Operation>)
      requires RanInOrder(initial, baselines, snap, policy, ds, before, after) && |ds| > 0
      ensures |after| > |before|
    {
    }

    lemma NoneRan(initial: bool, baselines: seq<Baseline>, snap: Snapshot, policy: DeletePolicy, before: seq<Operation>)
      ensures RanInOrder(initial, baselines, snap, policy, [], before, before)
    {
    }

    lemma OneMoreRan(
      initial: bool, baselines: seq<Baseline>, snap: Snapshot, policy: DeletePolicy, ds: seq<Decision>, d: Decision,
      before: seq<Operation>, middle: seq<Operation>, after: seq<Operation>)
      requires RanInOrder(initial, baselines, snap, policy, ds, before, middle)
      requires |after| == |middle| + 1 && after[..|middle|] == middle
      requires after[|middle|].origin == FromPlan(initial, baselines, snap, policy, d) && S.Completed(after[|middle|].w)
      ensures RanInOrder(initial, baselines, snap, policy, ds + [d], before, after)
    {
      hide S.Completed;
      assert after[..|before|] == after[..|middle|][..|before|];
      forall i | 0 <= i < |ds + [d]|
        ensures RanAt(initial, baselines, snap, policy, (ds + [d])[i], after[|before| + i])
      {
        if i < |ds| {
          assert RanAt(initial, baselines, snap, policy, ds[i], middle[|before| + i]);
          assert after[..|middle|][|before| + i] == after[|before| + i];
        }
      }
    }

    /** Exactly the external decisions of the plan were executed and completed, each
        once; a directory was created before everything below it, and deleted after
        everything below it. */
    ghost predicate RanAll(made: Inputs, before: seq<Operation>, after: seq<Operation>) {
      exists ds :: IsWorkOf(made, ds) &&
          RanInOrder(made.initial, made.baselines, made.snap, made.policy, ds, before, after)
    }

    ghost predicate IsWorkOf(made: Inputs, ds: seq<Decision>) {
      && PlanOf(rootID, made.initial, made.baselines, made.snap, made.policy).Ok?
      && (forall d :: d in ds <==>
            d in PlanOf(rootID, made.initial, made.baselines, made.snap, made.policy).value.decisions &&
                IsExternal(d.kind))
      && DistinctPaths(ds) && InTreeOrder(ds)
    }

    lemma RanAllSorted(made: Inputs, ds: seq<Decision>, before: seq<Operation>, after: seq<Operation>)
      requires RanInOrder(made.initial, made.baselines, made.snap, made.policy, ds, before, after)
      requires PlanOf(rootID, made.initial, made.baselines, made.snap, made.policy).Ok?
      requires forall d :: d in ds <==>
                 d in PlanOf(rootID, made.initial, made.baselines, made.snap, made.policy).value.decisions &&
                     IsExternal(d.kind)
      requires DistinctPaths(ds) && InOrder(ds)
      ensures RanAll(made, before, after)
    {
      hide RanInOrder, PlanOf, InOrder;
      OrderedIsTreeOrder(ds);
      assert IsWorkOf(made, ds);
    }

    /** runRootCycle. A clean end leaves no row in the journal and, without
        conflicts, proves convergence at every path of the last snapshot that is
        not excluded; the end fits the last observation; no operation is lost; and
        in every end every baseline row is sound. */
    method RunCycle(policy: DeletePolicy) returns (r: End)
      requires Valid()
      modifies this, conflicts
      ensures old(balked) ==> balked
      ensures |steps| == |old(steps)| + 1 ==> SameState(old(table), old(journal), old(past), old(initialized))
      ensures Valid() && conflicts == old(conflicts)
      ensures r.Clean? ==> CleanEnd(same, table, r) && RecordsMirror(r) && journal == []
      ensures initialized ==> old(initialized) || (r.Clean? && r.plan.conflicts == 0)
      ensures old(steps) < steps && Fits(steps[|steps| - 1], r)
      ensures r.Clean? ==>
                && |steps| >= 4 && steps[|steps| - 1] == Planned(false) && WasScanned(steps[|steps| - 3])
                && exists made :: MadeFrom(made, steps[|steps| - 3].snap, policy) && PlannedFrom(made, r)
      ensures r.Failed? ==> balked || FailsAlone(steps[|steps| - 1]) || |past| >= |old(past)| + MAX_PASSES
      ensures Accounts(old(journal), old(past), journal, past)
    {
      hide MadeOf, MadeFrom, PlannedFrom, ShowsScan, SoundTable, Conflicts.OnePerPath, CleanEnd;
      hide RecordsMirror, OperationInv, Accounts, Guarded, StageOf, RanAll;
      ghost var j0, p0 := journal, past;
      var end := Begin();
      if end.Some? { return end.value; }
      r := RunPasses(policy, j0, p0);
    }

    /** What a cycle does first: the root is read, and the journal recovered. */
    method Begin() returns (end: Option<End>)
      requires Valid()
      modifies this`table, this`journal, this`past, this`script, this`steps, this`balked
      ensures Valid() && old(steps) < steps && (old(balked) ==> balked)
      ensures end.None? ==> journal == [] && |past| >= |old(past)|
      ensures end.Some? ==> !end.value.Clean? && Fits(steps[|steps| - 1], end.value)
      ensures end == Some(Failed) ==> balked
      ensures end.Some? && |steps| == |old(steps)| + 1 ==>
                SameState(old(table), old(journal), old(past), old(initialized))
      ensures Accounts(old(journal), old(past), journal, past)
    {
      hide SoundTable, Conflicts.OnePerPath, Conflicts.ConflictStore.Valid, AllHold, Accounts, Guarded, StageOf;
      AccountsRefl(journal, past);
      var first := ReadRoot();
      if !first.ok { return Some(Failed); }
      if !first.enabled { return Some(Skipped); }
      if !first.healthy { return Some(Blocked); }
      if journal != [] {
        var preflight := Next();
        Note(Preflight(preflight.ok, preflight.fits));
        if !preflight.ok { return Some(Failed); }
        if !preflight.fits { return Some(Blocked); }
      }
      var recovered := RecoverJournal();
      end := if recovered.Err? then Some(Failed) else if recovered.value then Some(Blocked) else None;
    }

    /** The passes, up to eight. */
    method RunPasses(policy: DeletePolicy, ghost j0: seq<Operation>, ghost p0: seq<Operation>) returns (r: End)
      requires Valid() && journal == [] && Accounts(j0, p0, journal, past)
      modifies this, conflicts
      ensures old(balked) ==> balked
      ensures Valid() && conflicts == old(conflicts)
      ensures r.Clean? ==> CleanEnd(same, table, r) && RecordsMirror(r) && journal == []
      ensures initialized ==> old(initialized) || (r.Clean? && r.plan.conflicts == 0)
      ensures old(steps) < steps && Fits(steps[|steps| - 1], r)
      ensures r.Clean? ==>
                && |steps| >= 4 && steps[|steps| - 1] == Planned(false) && WasScanned(steps[|steps| - 3])
                && exists made :: MadeFrom(made, steps[|steps| - 3].snap, policy) && PlannedFrom(made, r)
      ensures r.Failed? ==> balked || FailsAlone(steps[|steps| - 1]) || |past| >= |old(past)| + MAX_PASSES
      ensures Accounts(j0, p0, journal, past)
    {
      hide MadeOf, MadeFrom, PlannedFrom, ShowsScan, SoundTable, Conflicts.OnePerPath, CleanEnd;
      hide RecordsMirror, OperationInv, Accounts, Guarded, StageOf, RanAll;
      for pass := 0 to MAX_PASSES
        invariant Valid() && conflicts == old(conflicts) && (initialized ==> old(initialized)) && journal == []
        invariant Accounts(j0, p0, journal, past) && old(steps) <= steps
        invariant (old(balked) ==> balked) && |past| >= |old(past)| + pass
        invariant pass > 0 ==> |steps| > |old(steps)| && steps[|steps| - 1].Executed?
      {
        ghost var p1 := past;
        ghost var made;
        var end;
        ghost var t0, i0, s0 := table, initialized, steps;
        end, made := OnePass(policy);
        AccountsTrans(j0, p0, [], p1, journal, past);
        if end.Some? {
          if end.value.Clean? { OfIsFrom(made, !i0, t0, steps[|s0| + 1].snap, policy); }
          return end.value;
        }
      }
      r := Failed;
    }

    /** What is observed before a plan: the root, both sides, and that the symlink
        authority of the scan still holds. Nothing else happens. */
    method Observe() returns (end: Option<End>, snap: Snapshot, remoteRoot: bool)
      requires Guarded(steps)
      modifies this`script, this`steps, this`balked
      ensures Guarded(steps) && old(steps) < steps && (old(balked) ==> balked)
      ensures end.None? ==>
                && |steps| == |old(steps)| + 3 && StageOf(steps) == Fitting
                && steps[|steps| - 2] == Scanned(true, snap) && steps[|steps| - 1] == Authority(true, true)
                && snap.content == map[] && snap.localComplete && snap.remoteComplete && snap.rootHealthy
                && snap.local == Head(Tail(old(script))).snap.local
                && ShowsScan(Head(Tail(old(script))), snap) && remoteRoot == Head(Tail(old(script))).remoteRoot
      ensures end.Some? ==> |steps| <= |old(steps)| + 3 && steps[|steps| - 1] != Authority(true, true)
      ensures end.Some? ==> !end.value.Clean? && Fits(steps[|steps| - 1], end.value)
      ensures end == Some(Failed) ==> balked || FailsAlone(steps[|steps| - 1])
    {
      hide Guarded, StageOf, ShowsScan;
      snap, remoteRoot := EMPTY, false;
      var root := ReadRoot();
      if !root.ok { return Some(Failed), snap, false; }
      if !root.enabled { return Some(Skipped), snap, false; }
      if !root.healthy { return Some(Blocked), snap, false; }
      var scanned := Scan();
      Note(Scanned(scanned.Ok?, if scanned.Ok? then scanned.value.0 else EMPTY));
      if scanned.Err? { return Some(Failed), snap, false; }
      var authority := Next();
      Note(Authority(authority.ok, authority.fits));
      if !authority.ok { return Some(Failed), snap, false; }
      if !authority.fits { return Some(Blocked), snap, false; }
      end, snap, remoteRoot := None, scanned.value.0, scanned.value.1;
      ShownIsComplete(snap);
    }

    /** One pass with its observations before it. */
    method OnePass(policy: DeletePolicy) returns (r: Option<End>, ghost made: Inputs)
      requires Valid() && journal == []
      modifies this, conflicts
      ensures old(balked) ==> balked
      ensures r.None? ==> |past| > |old(past)|
      ensures r == Some(Skipped) ==> SameState(old(table), old(journal), old(past), old(initialized))
      ensures Valid() && conflicts == old(conflicts)
      ensures r.Some? && r.value.Clean? ==> CleanEnd(same, table, r.value) && RecordsMirror(r.value)
      ensures r.None? || r.value.Clean? ==> journal == []
      ensures initialized ==> old(initialized) || (r.Some? && r.value.Clean? && r.value.plan.conflicts == 0)
      ensures old(steps) < steps && (r.Some? ==> Fits(steps[|steps| - 1], r.value))
      ensures r == Some(Failed) ==> balked || FailsAlone(steps[|steps| - 1])
      ensures r.None? ==> steps[|steps| - 1].Executed?
      ensures |steps| >= |old(steps)| + 3 && steps[|old(steps)| + 2] == Authority(true, true) ==>
                (r == Some(Skipped) <==>
                  && !old(initialized) && !Head(Tail(old(script))).remoteRoot
                  && Head(Tail(old(script))).snap.local == map[] && old(table) == map[])
      ensures r.None? ==> RanAll(made, old(past), past)
      ensures r.None? || r.value.Clean? ==>
                && |steps| >= |old(steps)| + 4 && WasScanned(steps[|old(steps)| + 1])
                && ShowsScan(Head(Tail(old(script))), steps[|old(steps)| + 1].snap)
                && MadeOf(made, !old(initialized), old(table), steps[|old(steps)| + 1].snap, policy)
      ensures r.Some? && r.value.Clean? ==> PlannedFrom(made, r.value) && |steps| == |old(steps)| + 4
      ensures Accounts([], old(past), journal, past)
    {
      hide SoundTable, Conflicts.OnePerPath, CleanEnd, RecordsMirror, OperationInv, Accounts, Guarded, StageOf, RanAll;
      hide MadeOf, PlannedFrom, ShowsScan, Snapshot.Valid, Conflicts.ConflictStore.Valid, AllHold;
      AccountsRefl(journal, past);
      var snap, remoteRoot;
      r, snap, remoteRoot := Observe();
      made := Inputs(!initialized, [], snap, policy);
      if r.Some? { return; }
      if !initialized && !remoteRoot && snap.local == map[] && table == map[] { return Some(Skipped), made; }
      r, made := RunPass(policy, snap);
    }
  }

  lemma ShownIsComplete(snap: Snapshot)
    ensures forall t | ShowsScan(t, snap) ::
              snap.content == map[] && snap.localComplete && snap.remoteComplete && snap.rootHealthy
  {
  }

  /** What a plan is made of, with the root's own ID. */
  datatype Inputs = Inputs(initial: bool, baselines: seq<Baseline>, snap: Snapshot, policy: DeletePolicy)

  function WorkOn(ds: seq<Decision>): seq<Step> {
    seq(|ds|, i requires 0 <= i < |ds| => Executed(ds[i].relPath))
  }

  lemma WorkOnNothing()
    ensures WorkOn([]) == []
  {
  }

  lemma WorkOnOneMore(ds: seq<Decision>, d: Decision)
    ensures WorkOn(ds + [d]) == WorkOn(ds) + [Executed(d.relPath)]
    ensures |WorkOn(ds)| == |ds|
  {
  }

  lemma LastIsWork(before: seq<Step>, after: seq<Step>, ds: seq<Decision>)
    requires |after| > |before| && |after| - |before| <= |ds|
    requires after == before + WorkOn(ds[..|after| - |before|])
    ensures before <= after && after[|after| - 1].Executed?
  {
  }

  /** A directory is created before, and deleted after, everything below it. */
  predicate InTreeOrder(ds: seq<Decision>) {
    forall i, j | 0 <= i < j < |ds| && ds[i].relPath != ds[j].relPath ::
      && (ds[j].entryKind == KindDir && !IsDelete(ds[j].kind) && !IsDelete(ds[i].kind) ==>
            !AtOrBelow(ds[j].relPath, ds[i].relPath))
      && (ds[i].entryKind == KindDir && IsDelete(ds[i].kind) && IsDelete(ds[j].kind) ==>
            !AtOrBelow(ds[i].relPath, ds[j].relPath))
  }

  lemma OrderedIsTreeOrder(ds: seq<Decision>)
    requires InOrder(ds)
    ensures InTreeOrder(ds)
  {
    hide Before, AtOrBelow;
    forall i, j | 0 <= i < j < |ds| && ds[i].relPath != ds[j].relPath
      ensures ds[j].entryKind == KindDir && !IsDelete(ds[j].kind) && !IsDelete(ds[i].kind) ==>
                !AtOrBelow(ds[j].relPath, ds[i].relPath)
      ensures ds[i].entryKind == KindDir && IsDelete(ds[i].kind) && IsDelete(ds[j].kind) ==>
                !AtOrBelow(ds[i].relPath, ds[j].relPath)
    {
      BeforeIsStrictTotalOrder(ds[i], ds[j], ds[i]);
      if ds[j].entryKind == KindDir && AtOrBelow(ds[j].relPath, ds[i].relPath) { TreeOrder(ds[j], ds[i]); }
      if ds[i].entryKind == KindDir && AtOrBelow(ds[i].relPath, ds[j].relPath) { TreeOrder(ds[i], ds[j]); }
    }
  }

  lemma SameLength(a: seq<Decision>, b: seq<Decision>)
    requires multiset(a) == multiset(b)
    ensures |a| == |b| && forall d :: d in a <==> d in b
  {
    assert |multiset(a)| == |a| && |multiset(b)| == |b|;
    assert forall d :: d in a <==> d in multiset(a);
    assert forall d :: d in b <==> d in multiset(b);
  }

  /** An ordered list repeats no decision, and so no path of a plan. */
  lemma OrderedIsDistinct(a: seq<Decision>, b: seq<Decision>)
    requires DistinctPaths(a) && InOrder(b) && forall d | d in b :: d in a
    ensures DistinctPaths(b)
  {
    hide Before;
    forall i, j | 0 <= i < j < |b|
      ensures b[i].relPath != b[j].relPath
    {
      assert b[i] in a && b[j] in a;
      BeforeIsStrictTotalOrder(b[i], b[j], b[i]);
    }
  }

  // ----- Facts for the methods -----

  lemma SameJobAndTruth(w: W.World, w': W.World)
    requires H.Later(w, w')
    ensures w'.truth == w.truth && w'.job == w.job
  {
  }

  lemma SettledIsAccounted(journal: seq<Operation>, past: seq<Operation>, i: nat, w: W.World)
    requires i < |journal| && H.Later(journal[i].w, w)
    ensures Accounts(journal, past, JournalAfter(journal, i, w), PastAfter(past, journal, i, w))
  {
    hide H.Later;
    var ended := journal[i].(w := w);
    assert SameOperation(journal[i], ended);
    var after, past' := JournalAfter(journal, i, w), PastAfter(past, journal, i, w);
    assert if w.row.Some? then ended in after else ended in past';
    forall e | e in journal
      ensures e == journal[i] || (e in after && SameOperation(e, e))
    {
      H.LaterRefl(e.w);
      var k :| 0 <= k < |journal| && journal[k] == e;
      if k != i {
        assert e in journal[..i] || e in journal[i + 1..];
      }
    }
  }

  lemma JournaledHolds(
    truths: Truths, rootID: int, mode: W.SymlinkMode, journal: seq<Operation>, past: seq<Operation>, i: nat)
    requires AllHold(truths, rootID, mode, journal, past) && i < |journal|
    ensures OperationInv(truths, rootID, mode, journal[i])
  {
  }

  lemma OperationLater(truths: Truths, rootID: int, mode: W.SymlinkMode, op: Operation, w: W.World)
    requires OperationInv(truths, rootID, mode, op) && W.Inv(w) && H.Later(op.w, w)
    ensures OperationInv(truths, rootID, mode, op.(w := w)) && w.truth == truths(op.path) && ValidRelPath(op.path)
  {
    hide W.Inv, Originates, ValidRelPath, H.Later;
    SameJobAndTruth(op.w, w);
  }

  lemma CompletedIsGone(w: W.World)
    requires S.Completed(w)
    ensures w.row == None
  {
  }

  lemma FreshIsPlanned(w: W.World)
    requires R.Fresh(w)
    ensures w.row == Some(W.Row(None, W.Planned, 0))
  {
  }

  lemma ComparedIsTrue(
    truths: Truths, p: string, w: W.World, local: LocalFingerprint, remote: RemoteExpectation, equal: bool)
    requires W.Inv(w) && w.truth == truths(p) && Remote.Compared(w, local, remote.id, remote.rev, equal)
    ensures equal <==> SameUnder(truths)(p, (local.size, local.mtimeNS), (remote.id, remote.rev))
  {
    hide W.JournalInv, W.SlotInv, W.BaselineInv, W.LogInv, W.QuietInv;
  }

  lemma AskedIsPresent(
    rootID: int, initial: bool, baselines: seq<Baseline>, snap: Snapshot, policy: DeletePolicy, d: Decision)
    requires PlanOf(rootID, initial, baselines, snap, policy).Ok?
    requires d in PlanOf(rootID, initial, baselines, snap, policy).value.decisions && d.kind == CompareContent
    ensures d.expectedLocal == snap.LocalAt(d.relPath) && d.expectedRemote == ExpectationOf(snap.RemoteAt(d.relPath))
    ensures !d.expectedRemote.absent
  {
    hide PlanOf, Excluded, Table, AllPaths, DecisionAt, ValidBaselines;
    PlanMembers(rootID, initial, baselines, snap, policy, d);
    if d.relPath in Table(baselines) { TableEntry(rootID, baselines, d.relPath); }
    DecisionPath(rootID, initial, Table(baselines), snap, d.relPath);
    ComparedSidesArePresent(rootID, initial, Table(baselines), snap, d.relPath);
  }

  lemma ComparedSidesArePresent(rootID: int, initial: bool, table: map<string, Baseline>, snap: Snapshot, p: string)
    requires AsksFor(DecisionAt(rootID, initial, table, snap, p), CompareContent)
    ensures snap.LocalAt(p).present && snap.RemoteAt(p).present
  {
    hide ValidRelPath, LocalEquivalent, RemoteEquivalent;
  }

  lemma SortedIsExternal(ds: seq<Decision>, external: seq<Decision>, sorted: seq<Decision>)
    requires forall d :: d in external <==> d in ds && IsExternal(d.kind)
    requires multiset(sorted) == multiset(external)
    ensures forall d | d in sorted :: IsExternal(d.kind) && d in ds
  {
    forall d | d in sorted
      ensures IsExternal(d.kind) && d in ds
    {
      assert d in multiset(sorted);
      assert d in external;
    }
  }

  /** The promise of a clean cycle. */
  ghost predicate CleanEnd(same: SameBytes, t: map<string, Baseline>, e: End)
    requires e.Clean?
  {
    e.plan.conflicts == 0 ==> forall p | !Excluded(e.snap.excluded, p) :: FullyConverged(same, t, e.snap, p)
  }

  lemma CleanPass(
    same: SameBytes, rootID: int, initial: bool, baselines: seq<Baseline>, snap: Snapshot, policy: DeletePolicy)
    requires PlanOf(rootID, initial, baselines, snap, policy).Ok? && Truthful(same, snap)
    requires snap.localComplete && snap.remoteComplete && snap.rootHealthy
    requires var plan := PlanOf(rootID, initial, baselines, snap, policy).value;
             !plan.blocked && plan.contentChecks == 0 && forall d | d in plan.decisions :: !IsExternal(d.kind)
    requires SoundTable(same, rootID, Table(baselines))
    ensures var plan := PlanOf(rootID, initial, baselines, snap, policy).value;
            CleanEnd(same, CommitAll(rootID, Table(baselines), plan.decisions, snap), Clean(snap, plan))
  {
    hide PlanOf, Excluded, Table, Truthful, SoundTable, FullyConverged, CommitAll;
    var plan := PlanOf(rootID, initial, baselines, snap, policy).value;
    if plan.conflicts == 0 {
      forall p | !Excluded(snap.excluded, p)
        ensures FullyConverged(same, CommitAll(rootID, Table(baselines), plan.decisions, snap), snap, p)
      {
        CleanPassConverges(same, rootID, initial, baselines, snap, policy, p);
      }
    }
  }

  lemma NoExternal(ds: seq<Decision>, external: seq<Decision>)
    requires external == [] && forall d :: d in external <==> d in ds && IsExternal(d.kind)
    ensures forall d | d in ds :: !IsExternal(d.kind)
  {
    forall d | d in ds
      ensures !IsExternal(d.kind)
    {
      assert d !in external;
    }
  }

  /** What a plan needs of a complete scan and of the policy. */
  ghost predicate Plannable(initial: bool, snap: Snapshot, policy: DeletePolicy) {
    snap.Valid() && (initial || policy.Valid())
  }

  lemma PlannedWhenPlannable(
    rootID: int, initial: bool, baselines: seq<Baseline>, snap: Snapshot, policy: DeletePolicy)
    requires rootID > 0 && ValidBaselines(rootID, baselines)
    requires snap.localComplete && snap.remoteComplete && snap.rootHealthy
    ensures PlanOf(rootID, initial, baselines, snap, policy).Ok? <==> Plannable(initial, snap, policy)
  {
    hide Snapshot.Valid, ValidBaselines, Table, Decisions, Count, Active, Sorted, AllPaths;
  }

  /** An external decision of a plan is a well-formed intent. */
  lemma PlannedIsWellFormed(
    rootID: int, initial: bool, baselines: seq<Baseline>, snap: Snapshot, policy: DeletePolicy, d: Decision)
    requires PlanOf(rootID, initial, baselines, snap, policy).Ok?
    requires d in PlanOf(rootID, initial, baselines, snap, policy).value.decisions && IsExternal(d.kind)
    ensures ValidRelPath(d.relPath) && d.entryKind != NoKind
  {
    hide PlanOf, Excluded, Table, ValidBaselines, ValidRelPath, Blank;
    PlanMembers(rootID, initial, baselines, snap, policy, d);
    PathIsValid(rootID, baselines, snap, d.relPath);
    if d.relPath in Table(baselines) { TableEntry(rootID, baselines, d.relPath); }
  }

  lemma OriginIsWellFormed(rootID: int, mode: W.SymlinkMode, origin: Origin)
    requires origin.FromPlan? && IsExternal(origin.d.kind)
    requires Originates(rootID, mode, origin.d.relPath, origin, JobOf(origin.d, mode))
    ensures ValidRelPath(origin.d.relPath) && JobOf(origin.d, mode).entryKind != NoKind
  {
    hide PlanOf, ValidRelPath;
    PlannedIsWellFormed(rootID, origin.initial, origin.baselines, origin.snap, origin.policy, origin.d);
  }

  lemma PathIsValid(rootID: int, baselines: seq<Baseline>, snap: Snapshot, p: string)
    requires snap.Valid() && ValidBaselines(rootID, baselines) && p in AllPaths(Table(baselines), snap)
    ensures ValidRelPath(p) && snap.LocalAt(p).Valid() && snap.RemoteAt(p).Valid()
  {
    hide Table, ValidBaselines, ValidRelPath, Blank;
    if p in Table(baselines) { TableEntry(rootID, baselines, p); }
  }

  /** What is recorded of a plan's conflict is well-formed. */
  lemma RecordsAreValid(rootID: int, initial: bool, baselines: seq<Baseline>, snap: Snapshot, policy: DeletePolicy)
    requires PlanOf(rootID, initial, baselines, snap, policy).Ok?
    ensures forall d | d in PlanOf(rootID, initial, baselines, snap, policy).value.decisions &&
              d.kind == ConflictFound ::
              Conflicts.NewRecord(rootID, d.relPath, d, snap).Valid()
  {
    hide PlanOf, Excluded, Table, ValidBaselines, ValidRelPath, Blank, Snapshot.Valid, LocalFingerprint.Valid;
    hide RemoteFingerprint.Valid, AllPaths;
    forall d | d in PlanOf(rootID, initial, baselines, snap, policy).value.decisions && d.kind == ConflictFound
      ensures Conflicts.NewRecord(rootID, d.relPath, d, snap).Valid()
    {
      PlanMembers(rootID, initial, baselines, snap, policy, d);
      PathIsValid(rootID, baselines, snap, d.relPath);
    }
  }

  lemma PlanIsIncluded(rootID: int, initial: bool, baselines: seq<Baseline>, snap: Snapshot, policy: DeletePolicy)
    requires PlanOf(rootID, initial, baselines, snap, policy).Ok?
    ensures forall d | d in PlanOf(rootID, initial, baselines, snap, policy).value.decisions ::
              !Excluded(snap.excluded, d.relPath)
  {
    hide PlanOf, Excluded;
    forall d | d in PlanOf(rootID, initial, baselines, snap, policy).value.decisions
      ensures !Excluded(snap.excluded, d.relPath)
    {
      PlanMembers(rootID, initial, baselines, snap, policy, d);
    }
  }

  lemma PrefixesAreSound(
    same: SameBytes, rootID: int, initial: bool, baselines: seq<Baseline>, snap: Snapshot, policy: DeletePolicy)
    requires PlanOf(rootID, initial, baselines, snap, policy).Ok? && Truthful(same, snap)
    requires SoundTable(same, rootID, Table(baselines))
    ensures var ds := PlanOf(rootID, initial, baselines, snap, policy).value.decisions;
            forall n | 0 <= n <= |ds| :: SoundTable(same, rootID, CommitAll(rootID, Table(baselines), ds[..n], snap))
  {
    hide PlanOf, Excluded, Table, Truthful, SoundTable, CommitAll;
    var ds := PlanOf(rootID, initial, baselines, snap, policy).value.decisions;
    forall n | 0 <= n <= |ds|
      ensures SoundTable(same, rootID, CommitAll(rootID, Table(baselines), ds[..n], snap))
    {
      CommitsAreSound(same, rootID, initial, baselines, snap, policy, ds[..n]);
    }
  }

  lemma {:induction false} DecisionsDistinct(
    rootID: int, initial: bool, table: map<string, Baseline>, snap: Snapshot, paths: seq<string>)
    requires StrictlySorted(paths) && forall p | p in table :: table[p].relPath == p
    ensures DistinctPaths(Decisions(rootID, initial, table, snap, paths))
    ensures forall d | d in Decisions(rootID, initial, table, snap, paths) :: d.relPath in paths
  {
    hide Excluded, DecisionAt;
    if paths != [] {
      var n := |paths| - 1;
      assert paths == paths[..n] + [paths[n]];
      DecisionsDistinct(rootID, initial, table, snap, paths[..n]);
      DecisionPath(rootID, initial, table, snap, paths[n]);
      LastIsNew(paths, n);
    }
  }

  lemma LastIsNew(paths: seq<string>, n: nat)
    requires StrictlySorted(paths) && n == |paths| - 1
    ensures paths[n] !in paths[..n]
  {
    if paths[n] in paths[..n] {
      var i :| 0 <= i < n && paths[..n][i] == paths[n];
      LessIrreflexive(paths[n]);
    }
  }

  lemma PlanIsDistinct(rootID: int, initial: bool, baselines: seq<Baseline>, snap: Snapshot, policy: DeletePolicy)
    requires PlanOf(rootID, initial, baselines, snap, policy).Ok?
    ensures DistinctPaths(PlanOf(rootID, initial, baselines, snap, policy).value.decisions)
  {
    hide Excluded, DecisionAt, Table, ValidBaselines, Snapshot.Valid, Decisions, Count, Active;
    hide EvaluateDeleteGate, AllPaths;
    var table := Table(baselines);
    DecisionsDistinct(rootID, initial, table, snap, Sorted(AllPaths(table, snap)));
  }

  lemma NoEvidence(same: SameBytes, snap: Snapshot)
    requires snap.content == map[]
    ensures Truthful(same, snap)
  {
  }

  lemma AnsweredIsContent(rootID: int, initial: bool, table: map<string, Baseline>, snap: Snapshot, next: Snapshot)
    requires Answered(rootID, initial, table, snap, next)
    ensures next == snap.(content := next.content)
  {
  }

  ghost predicate AsksIn(ds: seq<Decision>, p: string) {
    exists d :: d in ds && d.kind == CompareContent && d.relPath == p
  }

  /** Exactly the comparisons among ds have been answered. */
  ghost predicate AnsweredFor(snap: Snapshot, next: Snapshot, ds: seq<Decision>) {
    forall p ::
      if AsksIn(ds, p)
      then p in next.content && next.content[p] in {ContentEqual, ContentDifferent}
      else (p in next.content <==> p in snap.content) && next.ContentAt(p) == snap.ContentAt(p)
  }

  lemma OneMoreAnswer(
    same: SameBytes, snap: Snapshot, next: Snapshot, ds: seq<Decision>, d: Decision, answer: ContentEvidence)
    requires AnsweredFor(snap, next, ds) && d.kind == CompareContent && answer in {ContentEqual, ContentDifferent}
    requires next == snap.(content := next.content) && Truthful(same, next)
    requires answer == ContentEqual <==> EqualBytes(same, d.relPath, snap.LocalAt(d.relPath), snap.RemoteAt(d.relPath))
    ensures AnsweredFor(snap, next.(content := next.content[d.relPath := answer]), ds + [d])
    ensures Truthful(same, next.(content := next.content[d.relPath := answer]))
  {
    hide EqualBytes;
    var next' := next.(content := next.content[d.relPath := answer]);
    forall p
      ensures AsksIn(ds + [d], p) <==> p == d.relPath || AsksIn(ds, p)
    {
      assert d in ds + [d];
    }
  }

  lemma OneMoreOther(snap: Snapshot, next: Snapshot, ds: seq<Decision>, d: Decision)
    requires AnsweredFor(snap, next, ds) && d.kind != CompareContent
    ensures AnsweredFor(snap, next, ds + [d])
  {
    forall p
      ensures AsksIn(ds + [d], p) <==> AsksIn(ds, p)
    {
    }
  }

  lemma AllAnswered(
    rootID: int, initial: bool, baselines: seq<Baseline>, snap: Snapshot, policy: DeletePolicy, next: Snapshot)
    requires PlanOf(rootID, initial, baselines, snap, policy).Ok? &&
               !PlanOf(rootID, initial, baselines, snap, policy).value.blocked
    requires snap.localComplete && snap.remoteComplete && snap.rootHealthy
    requires AnsweredFor(snap, next, PlanOf(rootID, initial, baselines, snap, policy).value.decisions)
    requires next == snap.(content := next.content)
    ensures Answered(rootID, initial, Table(baselines), snap, next)
  {
    hide PlanOf, Excluded, DecisionAt, Table, AllPaths;
    var ds := PlanOf(rootID, initial, baselines, snap, policy).value.decisions;
    forall p
      ensures AsksIn(ds, p) <==>
              p in AllPaths(Table(baselines), snap) && !Excluded(snap.excluded, p) &&
              AsksFor(DecisionAt(rootID, initial, Table(baselines), snap, p), CompareContent)
    {
      PlanAsks(rootID, initial, baselines, snap, policy, p);
    }
  }

  lemma PlanAsks(rootID: int, initial: bool, baselines: seq<Baseline>, snap: Snapshot, policy: DeletePolicy, p: string)
    requires PlanOf(rootID, initial, baselines, snap, policy).Ok?
    requires snap.localComplete && snap.remoteComplete && snap.rootHealthy
    ensures AsksIn(PlanOf(rootID, initial, baselines, snap, policy).value.decisions, p) <==>
            p in AllPaths(Table(baselines), snap) && !Excluded(snap.excluded, p) &&
            AsksFor(DecisionAt(rootID, initial, Table(baselines), snap, p), CompareContent)
  {
    hide Excluded, DecisionAt, Table, ValidBaselines, Snapshot.Valid, Decisions, Count, Sorted;
    hide Active, EvaluateDeleteGate, AllPaths;
    var table := Table(baselines);
    var ds := PlanOf(rootID, initial, baselines, snap, policy).value.decisions;
    if d :| d in ds && d.kind == CompareContent && d.relPath == p {
      PlanMembers(rootID, initial, baselines, snap, policy, d);
    }
    if p in AllPaths(table, snap) && !Excluded(snap.excluded, p) &&
        AsksFor(DecisionAt(rootID, initial, table, snap, p), CompareContent) {
      var d := DecisionAt(rootID, initial, table, snap, p).value;
      DecisionsMembers(rootID, initial, table, snap, Sorted(AllPaths(table, snap)), d);
      if p in table { TableEntry(rootID, baselines, p); }
      DecisionPath(rootID, initial, table, snap, p);
      assert d in ds && d.kind == CompareContent && d.relPath == p;
    }
  }

  // ----- Runs -----

  /** What the operator asks for between two cycles. */
  datatype Command = KeepSide(conflict: int, choice: Conflicts.Choice) | Unblock(index: nat, command: R.Command)

  datatype Session = Session(commands: seq<Command>, policy: DeletePolicy, script: seq<Turn>)

  /** Over any run from an empty store, with the operator's commands between the
      cycles, every baseline row is two-sided, of one kind and, for files, of
      equal bytes; conflict records are one per path; and every journaled
      operation satisfies its invariant. */
  method RunCycles(rootID: int, truths: Truths, mode: W.SymlinkMode, sessions: seq<Session>) returns (root: Root)
    requires rootID > 0
    ensures root.Valid() && SoundTable(SameUnder(truths), rootID, root.table)
    ensures forall e | e in root.journal + root.past :: OperationInv(truths, rootID, mode, e)
  {
    hide SoundTable, OperationInv, Conflicts.OnePerPath, CleanEnd;
    root := new Root(rootID, truths, mode);
    for i := 0 to |sessions|
      invariant fresh(root) && fresh(root.conflicts) && root.Valid() && root.rootID == rootID &&
                  root.truths == truths && root.mode == mode
    {
      root.script := sessions[i].script;
      for j := 0 to |sessions[i].commands|
        invariant fresh(root) && fresh(root.conflicts) && root.Valid() && root.rootID == rootID &&
                    root.truths == truths && root.mode == mode
      {
        match sessions[i].commands[j]
        case KeepSide(id, choice) => var _ := root.QueueResolution(id, choice);
        case Unblock(index, command) => root.Resolve(index, command);
      }
      var _ := root.RunCycle(sessions[i].policy);
    }
  }

  /** validatePersistedBaseline: what the store itself asks of a row. */
  predicate StoreAccepts(b: Baseline) {
    b.Valid() && (b.local.present || b.remote.present)
  }

  /** Soundness is the syncer's doing: the store accepts exactly the valid rows
      that are two-sided or one-sided. */
  lemma StoreAloneIsWeaker(b: Baseline)
    requires StoreAccepts(b)
    ensures TwoSided(b) <==> b.local.present && b.remote.present
    ensures exists c :: StoreAccepts(c) && !TwoSided(c)
  {
    var c := Baseline(1, "a", LOCAL_DIR, REMOTE_ABSENT);
    assert "a"[1..] == "";
    assert Split("") == [""];
    assert Split("a") == [['a'] + ""] + [""][1..];
    assert ValidRelPath("a");
    assert StoreAccepts(c) && !TwoSided(c);
  }
}
