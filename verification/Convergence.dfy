/** Composition of plans over time: the content-check loop, the plan after a
    successful pass, and what a plan without work left proves. */
module Convergence {
  import opened Paths
  import opened Domain
  import opened Planner
  import opened RootPlan
  import opened PlanLaws

  // ----- The content-check loop -----

  predicate AsksFor(r: Outcome<Decision>, kind: DecisionKind) {
    r.Ok? && r.value.kind == kind
  }

  /** next is snap with a definite answer for every path whose content was to
      be compared, and no other change. */
  ghost predicate Answered(rootID: int, initial: bool, table: map<string, Baseline>, snap: Snapshot, next: Snapshot) {
    && next == snap.(content := next.content)
    && forall p ::
         if p in AllPaths(table, snap) && !Excluded(snap.excluded, p) &&
            AsksFor(DecisionAt(rootID, initial, table, snap, p), CompareContent)
         then p in next.content && next.content[p] in {ContentEqual, ContentDifferent}
         else (p in next.content <==> p in snap.content) && next.ContentAt(p) == snap.ContentAt(p)
  }

  lemma AnsweredDecision(
    rootID: int, initial: bool, table: map<string, Baseline>, snap: Snapshot, next: Snapshot, p: string)
    requires next == snap.(content := next.content)
    requires DecisionAt(rootID, initial, table, snap, p).Ok?
    requires if DecisionAt(rootID, initial, table, snap, p).value.kind == CompareContent
             then next.ContentAt(p) in {ContentEqual, ContentDifferent}
             else next.ContentAt(p) == snap.ContentAt(p)
    ensures var d, d' := DecisionAt(rootID, initial, table, snap, p), DecisionAt(rootID, initial, table, next, p);
            && d'.Ok?
            && d'.value.kind != CompareContent
            && (d.value.kind != CompareContent ==> d' == d)
            && (d.value.kind == CompareContent ==> d'.value.kind == CommitBaseline || d'.value.kind == ConflictFound)
  {
    hide ValidRelPath, LocalEquivalent, RemoteEquivalent;
  }

  lemma ComparedPathsArePresent(rootID: int, initial: bool, table: map<string, Baseline>, snap: Snapshot, p: string)
    requires AsksFor(DecisionAt(rootID, initial, table, snap, p), CompareContent)
    ensures p in snap.local && p in snap.remote
  {
    hide ValidRelPath, LocalEquivalent, RemoteEquivalent;
  }

  lemma AnsweredSnapshotValid(rootID: int, initial: bool, table: map<string, Baseline>, snap: Snapshot, next: Snapshot)
    requires snap.Valid() && Answered(rootID, initial, table, snap, next)
    ensures next.Valid()
  {
    hide Excluded, ValidRelPath, DecisionAt, Blank;
    forall p | p in next.content
      ensures ValidRelPath(p) && !next.content[p].ContentInvalid? && p in next.local && p in next.remote
    {
      if AsksFor(DecisionAt(rootID, initial, table, snap, p), CompareContent) {
        ComparedPathsArePresent(rootID, initial, table, snap, p);
      }
    }
  }

  lemma {:induction false} AnsweredCounts(
    rootID: int, initial: bool, baselines: seq<Baseline>, snap: Snapshot, next: Snapshot, paths: seq<string>)
    requires rootID > 0 && snap.Valid() && ValidBaselines(rootID, baselines)
    requires forall p | p in paths :: p in AllPaths(Table(baselines), snap)
    requires Answered(rootID, initial, Table(baselines), snap, next)
    ensures var table := Table(baselines);
            var ds, ds' :=
                Decisions(rootID, initial, table, snap, paths), Decisions(rootID, initial, table, next, paths);
            Count(ds', DELETES) == Count(ds, DELETES) && Count(ds', {CompareContent}) == 0
  {
    hide Excluded, DecisionAt, Table, ValidBaselines, Snapshot.Valid, AllPaths;
    var table := Table(baselines);
    if paths == [] {
    } else {
      var n := |paths| - 1;
      assert paths == paths[..n] + [paths[n]];
      AnsweredCounts(rootID, initial, baselines, snap, next, paths[..n]);
      if !Excluded(snap.excluded, paths[n]) {
        ValidInputsDecide(rootID, initial, baselines, snap, paths[n]);
        AnsweredDecision(rootID, initial, table, snap, next, paths[n]);
        var d, d' := DecisionAt(rootID, initial, table, snap, paths[n]).value,
            DecisionAt(rootID, initial, table, next, paths[n]).value;
        hide Decisions, Count;
        AnsweredCountStep(Decisions(rootID, initial, table, snap, paths[..n]), d,
            Decisions(rootID, initial, table, next, paths[..n]), d');
        DecisionsNext(rootID, initial, table, snap, paths, n);
        DecisionsNext(rootID, initial, table, next, paths, n);
        assert paths[..n + 1] == paths;
      }
    }
  }

  lemma AnsweredCountStep(ds: seq<Decision>, d: Decision, ds': seq<Decision>, d': Decision)
    requires d'.kind != CompareContent && (d.kind in DELETES <==> d'.kind in DELETES)
    requires Count(ds', DELETES) == Count(ds, DELETES) && Count(ds', {CompareContent}) == 0
    ensures Count(ds' + [d'], DELETES) == Count(ds + [d], DELETES) && Count(ds' + [d'], {CompareContent}) == 0
  {
    CountNext(ds, d, DELETES);
    CountNext(ds', d', DELETES);
    CountNext(ds', d', {CompareContent});
  }

  /** With every comparison answered, the re-plan asks for none, so the loop
      runs at most once; deletes and the gate's verdict do not move. */
  lemma ContentLoopRunsOnce(
    rootID: int, initial: bool, baselines: seq<Baseline>, snap: Snapshot, next: Snapshot, policy: DeletePolicy)
    requires PlanOf(rootID, initial, baselines, snap, policy).Ok?
    requires !PlanOf(rootID, initial, baselines, snap, policy).value.blocked
    requires Answered(rootID, initial, Table(baselines), snap, next)
    ensures PlanOf(rootID, initial, baselines, next, policy).Ok?
    ensures var plan, plan' :=
              PlanOf(rootID, initial, baselines, snap, policy).value,
              PlanOf(rootID, initial, baselines, next, policy).value;
            && plan'.contentChecks == 0
            && plan'.proposedDeletes == plan.proposedDeletes
            && !plan'.blocked
            && (forall d: Decision | IsDelete(d.kind) :: d in plan'.decisions <==> d in plan.decisions)
  {
    hide Excluded, DecisionAt, Table, ValidBaselines, Snapshot.Valid, Sorted, Count, Decisions;
    hide Active, EvaluateDeleteGate;
    var table := Table(baselines);
    var paths := Sorted(AllPaths(table, snap));
    AnsweredSnapshotValid(rootID, initial, table, snap, next);
    AnsweredCounts(rootID, initial, baselines, snap, next, paths);
    assert AllPaths(table, next) == AllPaths(table, snap);
    forall d: Decision | IsDelete(d.kind)
      ensures d in Decisions(rootID, initial, table, next, paths) <==>
                d in Decisions(rootID, initial, table, snap, paths)
    {
      AnsweredDeletes(rootID, initial, baselines, snap, next, paths, d);
    }
  }

  lemma AnsweredDeletes(
    rootID: int, initial: bool, baselines: seq<Baseline>, snap: Snapshot, next: Snapshot, paths: seq<string>,
    d: Decision)
    requires rootID > 0 && snap.Valid() && ValidBaselines(rootID, baselines)
    requires forall p | p in paths :: p in AllPaths(Table(baselines), snap)
    requires Answered(rootID, initial, Table(baselines), snap, next) && IsDelete(d.kind)
    ensures var table := Table(baselines);
            d in Decisions(rootID, initial, table, next, paths) <==> d in Decisions(rootID, initial, table, snap, paths)
  {
    hide Excluded, DecisionAt, Table, ValidBaselines, Snapshot.Valid, Decisions, AllPaths;
    var table := Table(baselines);
    DecisionsMembers(rootID, initial, table, snap, paths, d);
    DecisionsMembers(rootID, initial, table, next, paths, d);
    forall p | p in paths && !Excluded(snap.excluded, p)
      ensures DecisionAt(rootID, initial, table, next, p) == Ok(d) <==>
                DecisionAt(rootID, initial, table, snap, p) == Ok(d)
    {
      ValidInputsDecide(rootID, initial, baselines, snap, p);
      AnsweredDecision(rootID, initial, table, snap, next, p);
    }
  }

  // ----- The plan after a successful pass -----

  /** What one path looks like to the planner. */
  datatype PathState = PathState(local: LocalFingerprint, remote: RemoteFingerprint, baseline: Option<Baseline>)

  ghost function StateAt(table: map<string, Baseline>, snap: Snapshot, p: string): PathState {
    PathState(snap.LocalAt(p), snap.RemoteAt(p), if p in table then Some(table[p]) else None)
  }

  /** Nothing that the planner looks at changed: a file's modification time and
      revision are versions, a directory's modification time is not. */
  predicate StaysPut(before: PathState, after: PathState) {
    LocalEquivalent(after.local, before.local) && RemoteEquivalent(after.remote, before.remote)
  }

  /** The path's row is the pair that is observed. */
  predicate RecordsPair(after: PathState) {
    && after.baseline.Some?
    && LocalEquivalent(after.baseline.value.local, after.local) &&
         RemoteEquivalent(after.baseline.value.remote, after.remote)
  }

  /** The effect of a decision that succeeded, with nobody else writing: an
      ensure makes the other side a copy and records the pair, a delete leaves
      neither side nor record. */
  predicate Succeeded(d: Decision, before: PathState, after: PathState) {
    match d.kind
    case EnsureRemote =>
      && LocalEquivalent(after.local, before.local)
      && after.remote.present && after.remote.kind == before.local.kind
      && RecordsPair(after)
    case EnsureLocal =>
      && RemoteEquivalent(after.remote, before.remote)
      && after.local.present && after.local.kind == before.remote.kind
      && RecordsPair(after)
    case DeleteRemote => !after.local.present && !after.remote.present && after.baseline == None
    case DeleteLocal => !after.local.present && !after.remote.present && after.baseline == None
    case CommitBaseline => StaysPut(before, after) && RecordsPair(after)
    case DropBaseline => StaysPut(before, after) && after.baseline == None
    case Noop => StaysPut(before, after) && after.baseline == before.baseline
    case CompareContent => StaysPut(before, after) && after.baseline == before.baseline
    case ConflictFound => StaysPut(before, after) && after.baseline == before.baseline
  }

  lemma RecordedNeedsNoWork(rootID: int, initial: bool, table: map<string, Baseline>, snap: Snapshot, p: string)
    requires RecordsPair(StateAt(table, snap, p)) && DecisionAt(rootID, initial, table, snap, p).Ok?
    ensures !IsExternal(DecisionAt(rootID, initial, table, snap, p).value.kind)
  {
    hide ValidRelPath, Blank;
  }

  lemma AbsentNeedsNoWork(rootID: int, initial: bool, table: map<string, Baseline>, snap: Snapshot, p: string)
    requires !snap.LocalAt(p).present && !snap.RemoteAt(p).present && DecisionAt(rootID, initial, table, snap, p).Ok?
    ensures !IsExternal(DecisionAt(rootID, initial, table, snap, p).value.kind)
  {
    hide ValidRelPath, Blank;
  }

  /** A path that stays put and keeps its row is decided alike, except for what
      depends on comparisons. */
  lemma UnchangedNeedsNoWork(
    rootID: int, initial: bool, table: map<string, Baseline>, snap: Snapshot, table': map<string, Baseline>,
    snap': Snapshot, p: string)
    requires DecisionAt(rootID, initial, table, snap, p).Ok? && DecisionAt(rootID, initial, table', snap', p).Ok?
    requires StaysPut(StateAt(table, snap, p), StateAt(table', snap', p)) &&
               StateAt(table', snap', p).baseline == StateAt(table, snap, p).baseline
    requires !IsExternal(DecisionAt(rootID, initial, table, snap, p).value.kind)
    ensures !IsExternal(DecisionAt(rootID, initial, table', snap', p).value.kind)
  {
    hide ValidRelPath, Blank, LocalFingerprint.Valid, RemoteFingerprint.Valid, Baseline.Valid;
    hide PlanThreeWay, PlanInitial;
    SameEvidence(table, snap, table', snap', p);
    var settled := p in table && LocalEquivalent(table[p].local, snap.LocalAt(p)) &&
        RemoteEquivalent(table[p].remote, snap.RemoteAt(p));
    if initial && !settled {
      UnchangedInitial(p, snap.LocalAt(p), snap.RemoteAt(p), snap.ContentAt(p), snap'.LocalAt(p), snap'.RemoteAt(p),
          snap'.ContentAt(p));
    } else if !initial {
      var b := if p in table then table[p] else Baseline(rootID, p, LOCAL_ABSENT, REMOTE_ABSENT);
      UnchangedThreeWay(b, snap.LocalAt(p), snap.RemoteAt(p), snap.ContentAt(p), snap'.LocalAt(p), snap'.RemoteAt(p),
          snap'.ContentAt(p));
    }
  }

  /** A row is as far from the new observations as from the old ones. */
  lemma SameEvidence(
    table: map<string, Baseline>, snap: Snapshot, table': map<string, Baseline>, snap': Snapshot, p: string)
    requires StaysPut(StateAt(table, snap, p), StateAt(table', snap', p)) &&
               StateAt(table', snap', p).baseline == StateAt(table, snap, p).baseline
    ensures p in table <==> p in table'
    ensures p in table ==>
              && table'[p] == table[p]
              && (LocalEquivalent(table[p].local, snap'.LocalAt(p)) <==>
                   LocalEquivalent(table[p].local, snap.LocalAt(p)))
              && (RemoteEquivalent(table[p].remote, snap'.RemoteAt(p)) <==>
                   RemoteEquivalent(table[p].remote, snap.RemoteAt(p)))
  {
  }

  lemma UnchangedInitial(
    p: string, local: LocalFingerprint, remote: RemoteFingerprint, content: ContentEvidence,
    local': LocalFingerprint, remote': RemoteFingerprint, content': ContentEvidence)
    requires LocalEquivalent(local', local) && RemoteEquivalent(remote', remote)
    requires PlanInitial(p, local, remote, content).Ok? && PlanInitial(p, local', remote', content').Ok?
    ensures IsExternal(PlanInitial(p, local', remote', content').value.kind) <==>
              IsExternal(PlanInitial(p, local, remote, content).value.kind)
  {
    hide ValidRelPath, LocalFingerprint.Valid, RemoteFingerprint.Valid;
  }

  lemma UnchangedThreeWay(
    b: Baseline, local: LocalFingerprint, remote: RemoteFingerprint, content: ContentEvidence,
    local': LocalFingerprint, remote': RemoteFingerprint, content': ContentEvidence)
    requires LocalEquivalent(local', local) && RemoteEquivalent(remote', remote)
    requires PlanThreeWay(b, local, remote, content).Ok? && PlanThreeWay(b, local', remote', content').Ok?
    ensures IsExternal(PlanThreeWay(b, local', remote', content').value.kind) <==>
              IsExternal(PlanThreeWay(b, local, remote, content).value.kind)
  {
    hide Baseline.Valid, LocalFingerprint.Valid, RemoteFingerprint.Valid;
  }

  /** A dropped row: both sides are absent. */
  lemma DroppedIsAbsent(rootID: int, initial: bool, table: map<string, Baseline>, snap: Snapshot, p: string)
    requires AsksFor(DecisionAt(rootID, initial, table, snap, p), DropBaseline)
    ensures !snap.LocalAt(p).present && !snap.RemoteAt(p).present
  {
    hide ValidRelPath, Blank;
  }

  lemma SettledDecision(
    rootID: int, initial: bool, table: map<string, Baseline>, snap: Snapshot, table': map<string, Baseline>,
    snap': Snapshot, p: string)
    requires DecisionAt(rootID, initial, table, snap, p).Ok?
    requires Succeeded(DecisionAt(rootID, initial, table, snap, p).value, StateAt(table, snap, p),
               StateAt(table', snap', p))
    requires DecisionAt(rootID, initial, table', snap', p).Ok?
    ensures !IsExternal(DecisionAt(rootID, initial, table', snap', p).value.kind)
  {
    hide DecisionAt, RecordsPair;
    match DecisionAt(rootID, initial, table, snap, p).value.kind
    case EnsureRemote => RecordedNeedsNoWork(rootID, initial, table', snap', p);
    case EnsureLocal => RecordedNeedsNoWork(rootID, initial, table', snap', p);
    case CommitBaseline => RecordedNeedsNoWork(rootID, initial, table', snap', p);
    case DeleteRemote => AbsentNeedsNoWork(rootID, initial, table', snap', p);
    case DeleteLocal => AbsentNeedsNoWork(rootID, initial, table', snap', p);
    case DropBaseline =>
      DroppedIsAbsent(rootID, initial, table, snap, p);
      AbsentNeedsNoWork(rootID, initial, table', snap', p);
    case _ => UnchangedNeedsNoWork(rootID, initial, table, snap, table', snap', p);
  }

  /** Path p went through a pass: its decision, if it had one, succeeded, and
      nobody else wrote. */
  ghost predicate PassApplied(
    rootID: int, initial: bool, table: map<string, Baseline>, snap: Snapshot,
    table': map<string, Baseline>, snap': Snapshot, p: string)
  {
    var r := DecisionAt(rootID, initial, table, snap, p);
    if p in AllPaths(table, snap) then
      r.Ok? && Succeeded(r.value, StateAt(table, snap, p), StateAt(table', snap', p))
    else p !in AllPaths(table', snap')
  }

  /** If every decision of a pass succeeds and nobody else writes, the next
      plan contains no external decision. */
  lemma NextPlanHasNoWork(
    rootID: int, initial: bool, policy: DeletePolicy,
    baselines: seq<Baseline>, snap: Snapshot, baselines': seq<Baseline>, snap': Snapshot, d': Decision)
    requires snap'.excluded == snap.excluded
    requires forall p | !Excluded(snap.excluded, p) ::
               PassApplied(rootID, initial, Table(baselines), snap, Table(baselines'), snap', p)
    requires PlanOf(rootID, initial, baselines', snap', policy).Ok?
    requires d' in PlanOf(rootID, initial, baselines', snap', policy).value.decisions
    ensures !IsExternal(d'.kind)
  {
    hide Excluded, DecisionAt, Table, ValidBaselines, Snapshot.Valid, Succeeded, PlanOf, AllPaths, StateAt;
    var table, table' := Table(baselines), Table(baselines');
    PlanMembers(rootID, initial, baselines', snap', policy, d');
    var p := d'.relPath;
    assert PassApplied(rootID, initial, table, snap, table', snap', p);
    SettledDecision(rootID, initial, table, snap, table', snap', p);
  }

  // ----- Nothing left to do -----

  /** Every committed baseline holds both sides, of one kind. */
  predicate TwoSided(b: Baseline) {
    b.local.present && b.remote.present && b.local.kind == b.remote.kind
  }

  /** Both sides and the record agree about p: all present, of one kind and at
      the recorded versions, or all absent. */
  predicate ConvergedAt(table: map<string, Baseline>, snap: Snapshot, p: string) {
    var local, remote := snap.LocalAt(p), snap.RemoteAt(p);
    if p in table then
      && local.present && remote.present && local.kind == remote.kind
      && LocalEquivalent(table[p].local, local)
      && RemoteEquivalent(table[p].remote, remote)
    else !local.present && !remote.present
  }

  /** The baseline rows after the pass has stored its commits and drops. */
  predicate RowAfterCommits(
    rootID: int, r: Outcome<Decision>, snap: Snapshot, table: map<string, Baseline>, table': map<string, Baseline>,
    p: string)
  {
    if AsksFor(r, CommitBaseline) then
      p in table' && table'[p] == Baseline(rootID, p, snap.LocalAt(p), snap.RemoteAt(p))
    else if AsksFor(r, DropBaseline) then p !in table'
    else (p in table' <==> p in table) && (p in table ==> table'[p] == table[p])
  }

  lemma QuietDecisionConverges(
    rootID: int, initial: bool, table: map<string, Baseline>, snap: Snapshot, table': map<string, Baseline>, p: string)
    requires p in table ==> TwoSided(table[p]) && table[p].Valid()
    requires p in AllPaths(table, snap)
    requires DecisionAt(rootID, initial, table, snap, p).Ok?
    requires var kind := DecisionAt(rootID, initial, table, snap, p).value.kind;
             !IsExternal(kind) && kind != ConflictFound && kind != CompareContent
    requires RowAfterCommits(rootID, DecisionAt(rootID, initial, table, snap, p), snap, table, table', p)
    ensures ConvergedAt(table', snap, p)
    ensures p in table' ==> TwoSided(table'[p])
  {
    hide ValidRelPath, Blank;
  }

  /** A plan with no conflict, no comparison and no external decision proves
      convergence at every path that is not excluded, once its commits and
      drops are stored, provided the stored baselines were two-sided. */
  lemma QuietPlanConverges(
    rootID: int, initial: bool, baselines: seq<Baseline>, snap: Snapshot, policy: DeletePolicy,
    table': map<string, Baseline>, p: string)
    requires PlanOf(rootID, initial, baselines, snap, policy).Ok?
    requires var plan := PlanOf(rootID, initial, baselines, snap, policy).value;
             && !plan.blocked && plan.conflicts == 0 && plan.contentChecks == 0
             && forall d | d in plan.decisions :: !IsExternal(d.kind)
    requires forall q | q in Table(baselines) :: TwoSided(Table(baselines)[q])
    requires !Excluded(snap.excluded, p)
    requires if p in AllPaths(Table(baselines), snap)
             then RowAfterCommits(rootID, DecisionAt(rootID, initial, Table(baselines), snap, p), snap,
                 Table(baselines), table', p)
             else p !in table'
    ensures ConvergedAt(table', snap, p)
    ensures p in table' ==> TwoSided(table'[p])
  {
    hide Excluded, DecisionAt, Table, ValidBaselines, Snapshot.Valid, Decisions, Count, Sorted;
    hide Active, EvaluateDeleteGate, TwoSided, RowAfterCommits, ConvergedAt;
    var table := Table(baselines);
    if p in AllPaths(table, snap) {
      ValidInputsDecide(rootID, initial, baselines, snap, p);
      if p in table { TableEntry(rootID, baselines, p); }
      var d := DecisionAt(rootID, initial, table, snap, p).value;
      var paths := Sorted(AllPaths(table, snap));
      var ds := Decisions(rootID, initial, table, snap, paths);
      DecisionsMembers(rootID, initial, table, snap, paths, d);
      assert d in ds;
      if d.kind == ConflictFound { CountMember(ds, d, {ConflictFound}); }
      if d.kind == CompareContent { CountMember(ds, d, {CompareContent}); }
      QuietDecisionConverges(rootID, initial, table, snap, table', p);
    } else {
      AbsentConverges(table, snap, table', p);
    }
  }

  lemma AbsentConverges(table: map<string, Baseline>, snap: Snapshot, table': map<string, Baseline>, p: string)
    requires p !in AllPaths(table, snap) && p !in table'
    ensures ConvergedAt(table', snap, p)
  {
  }
}
