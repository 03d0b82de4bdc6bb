/** The syncer's driver of one journaled operation: pinning, execution and
    recovery, and runs of them over any number of restarts. */
module OperationSyncer {
  import opened Domain
  import opened OperationWorld
  import opened OperationActions
  import opened OperationHost
  import opened OperationExecutor
  import opened OperationRemote
  import opened OperationRecovery
  import opened OperationProof

  // ----- Facts about rows -----

  lemma PlannedIsUntouched(w: World)
    requires Inv(w) && w.row.Some? && w.row.value.phase == Planned
    ensures Ready(w) && !w.begun && w.authority == w.row.value.pin
    ensures (w.row.value.pin.None? || !w.job.IsDownload()) ==> w.download == None
    ensures !w.job.IsLocal() ==> w.row.value.pin.None?
  {
    hide VersionInv, BaselineInv, LogInv;
  }

  lemma StartedIsPinned(w: World)
    requires Inv(w) && w.row.Some? && w.row.value.phase != Planned
    ensures w.begun && w.authority == w.row.value.pin
    ensures if w.job.IsLocal() then w.row.value.pin.Some? && StartChecks(w.job)
              else w.row.value.pin.None? && w.recovery == None
  {
    hide VersionInv, BaselineInv, LogInv, QuietInv;
  }

  // ----- Completion -----

  /** What a successful completion leaves: no row, and a recorded pair that is
      sound and meets the operation's postcondition, or none after a delete. */
  ghost predicate Completed(w: World) {
    && w.row == None && w.begun && w.log != [] && w.log[|w.log| - 1] == Committed(w.baseline)
    && Committable(w.job, w.baseline)
    && (w.baseline.Some? ==> Sound(w, w.baseline.value.0, w.baseline.value.1))
  }

  lemma BegunAndGone(w: World)
    requires Inv(w) && w.begun && w.row == None
    ensures Completed(w)
  {
    hide Ledger, Holder, LastPark, SlotInv, VersionInv, QuietInv, StartChecks, Sound, Committable;
    assert Lawful(w.job, w.authority, Committed(w.baseline)) by {
      hide Lawful;
      assert w.log[|w.log| - 1] in w.log;
    }
  }

  lemma GoneIsCompleted(w: World, w': World)
    requires Inv(w) && Inv(w') && Later(w, w') && w.row.Some? && w.row.value.phase != Planned && w'.row == None
    ensures Completed(w')
  {
    hide SlotInv, VersionInv, BaselineInv, LogInv, QuietInv;
    BegunAndGone(w') by { hide Inv; RowsThatBegan(w); }
  }

  /** The pair is recorded, or the row is dropped for an absent one. */
  function ResultOf(local: LocalFingerprint, remote: RemoteFingerprint): Option<(LocalFingerprint, RemoteFingerprint)> {
    if !local.present && !remote.present then None else Some((local, remote))
  }

  /** The pair is complete or absent, of one kind, and well-formed. */
  predicate Recordable(local: LocalFingerprint, remote: RemoteFingerprint) {
    && local.present == remote.present
    && (local.present ==> local.kind == remote.kind && local.Valid() && remote.Valid())
  }

  /** commitCompletedOperation; the store refuses a malformed pair. */
  method CommitCompleted(h: Host, local: LocalFingerprint, remote: RemoteFingerprint) returns (r: Reply<()>)
    requires Inv(h.w) && Consistent(h.w, local, remote) && Completable(h.w)
    requires Settled(h.w.job, local, remote) && Observed(h.w, local, remote)
    modifies h
    ensures Inv(h.w) && Later(old(h.w), h.w)
    ensures r.Done? ==> Completed(h.w) && h.w.baseline == ResultOf(local, remote)
    ensures h.w.effects == old(h.w).effects
    ensures r.Failed? ==> h.balked || !Recordable(local, remote)
    ensures old(h.balked) || r.Died? ==> h.balked
    ensures r.Failed? ==> h.balked || h.w == old(h.w)
  {
    hide Inv, Rely, Settled, Completable, Completed;
    ghost var w0, v := h.w, h.w;
    LaterRefl(w0);
    if local.present != remote.present || (local.present && local.kind != remote.kind) { return Failed; }
    if local.present && !(local.Valid() && remote.Valid()) { return Failed; }
    ResultCompletes(w0, local, remote);
    r, v := h.Complete(ResultOf(local, remote));
    CompleteEnds(w0, v, ResultOf(local, remote));
    if r.Done? { CompletableHasRow(w0); GoneIsCompleted(w0, h.w); }
  }

  lemma ResultCompletes(w: World, local: LocalFingerprint, remote: RemoteFingerprint)
    requires Consistent(w, local, remote) && Completable(w) && Settled(w.job, local, remote) &&
               Observed(w, local, remote)
    requires local.present == remote.present &&
               (local.present ==> local.kind == remote.kind && local.Valid() && remote.Valid())
    ensures CanComplete(w, ResultOf(local, remote))
  {
    hide Completable, Sound;
  }

  lemma CompletableHasRow(w: World)
    requires Completable(w)
    ensures w.row.Some? && w.row.value.phase != Planned
  {
  }

  lemma CompleteEnds(w: World, v: World, result: Option<(LocalFingerprint, RemoteFingerprint)>)
    requires CanComplete(v, result) && Rely(w, v)
    ensures Complete(v, result).row == None && Complete(v, result).baseline == result
    ensures Complete(v, result).effects == v.effects == w.effects
  {
  }

  /** After a failure the row is left for recovery, as it is still running when
      only the record of the effect was refused; or the intent was discarded before
      anything happened. */
  ghost predicate LeftForRecovery(w: World) {
    if w.row.Some? then w.row.value.phase == Recovering || (w.row.value.phase == Running && Effected(w)) else !w.begun
  }

  /** A failed or unfinished attempt: an intent known not to have started is
      discarded, anything else is left for recovery. */
  method GiveUp(h: Host, op: Row, started: bool) returns (r: Reply<()>)
    requires Inv(h.w) && h.w.row.Some?
    requires if h.w.job.IsLocal() && op.phase == Planned && !started
             then h.w.row.value.phase == Planned ==> h.w.download == None
             else h.w.row.value.phase != Planned
    requires h.w.row.value.phase != Blocked
    modifies h
    ensures Inv(h.w) && Later(old(h.w), h.w) && !r.Done?
    ensures old(h.balked) || r.Died? ==> h.balked
    ensures r.Failed? ==>
              h.balked || LeftForRecovery(h.w) ||
              (!started && op.phase == Planned && old(h.w).row.value.phase != Planned)
  {
    hide Inv;
    ghost var v;
    RowsThatBegan(h.w);
    if h.w.job.IsLocal() && op.phase == Planned && !started {
      r := h.Discard();
    } else {
      r, v := h.SetPhase(Recovering);
    }
    if r.Done? { r := Failed; }
  }

  lemma RowsThatBegan(w: World)
    requires Inv(w) && w.row.Some?
    ensures w.begun <==> w.row.value.phase != Planned
  {
    hide SlotInv, VersionInv, BaselineInv, LogInv, QuietInv;
  }

  /** postconditionAfterSuccessfulCall. */
  function PostconditionHolds(job: Job, local: LocalFingerprint, remote: RemoteFingerprint): bool {
    match job.kind
    case OpDeleteRemote => !local.present && !remote.present
    case OpDeleteLocal => !local.present && !remote.present
    case OpEnsureRemote =>
      && LocalEquivalent(local, job.expectedLocal) && local.present && remote.present
      && local.kind == job.entryKind && remote.kind == job.entryKind
      && (job.entryKind == KindFile ==>
            && local.size == remote.size
            && (job.expectedRemote.absent ||
                 (remote.id == job.expectedRemote.id && remote.rev != job.expectedRemote.rev)))
    case OpEnsureLocal =>
      && RemoteMatches(remote, job.expectedRemote, job.entryKind) && local.present && local.kind == job.entryKind
      && (job.entryKind == KindFile ==> local.size == remote.size)
  }

  // ----- Execution -----

  /** The effect of an attempt is in place; only observations follow. */
  ghost predicate Effected(w: World) {
    w.row.Some? && w.row.value.phase != Planned && w.recovery == None && w.download == None &&
        (w.edits == 0 ==> w.effects == 1)
  }

  lemma StillEffected(w: World, w': World)
    requires Effected(w) && Rely(w, w')
    ensures Effected(w') && Later(w, w')
  {
  }

  lemma EffectedCompletes(w: World)
    requires Effected(w)
    ensures Completable(w)
  {
  }

  /** What the successful call said it produced. */
  datatype Produced = NothingExact | ExactUpload(remote: RemoteFingerprint) | ExactDownload(local: LocalFingerprint)

  ghost predicate Supported(w: World, p: Produced) {
    match p
    case NothingExact => w.job.entryKind == KindDir || w.job.kind == OpDeleteLocal || w.job.kind == OpDeleteRemote
    case ExactUpload(remote) => w.job.kind == OpEnsureRemote && Uploaded(w, remote)
    case ExactDownload(local) => w.job.kind == OpEnsureLocal && NamesExpected(w, local)
  }

  predicate ExactMatches(p: Produced, local: LocalFingerprint, remote: RemoteFingerprint) {
    match p
    case NothingExact => true
    case ExactUpload(written) => RemoteEquivalent(remote, written)
    case ExactDownload(installed) => LocalEquivalent(local, installed)
  }

  /** After an upload the observed version is the uploaded one: if the expected
      version is seen again, it was there when the bytes were read. */
  lemma UploadIsSound(
    w0: World, w1: World, local: LocalFingerprint, remote: RemoteFingerprint, written: RemoteFingerprint)
    requires Uploaded(w0, written) && Inv(w0) && Rely(w0, w1)
    requires local == FpOf(w1.target) && OrdinaryOrAbsent(w1.target) && local.kind == KindFile
    requires LocalEquivalent(local, w0.job.expectedLocal) && RemoteEquivalent(remote, written)
    ensures Consistent(w1, local, remote)
  {
    hide Inv;
    PinnedIsKnown(w0);
  }

  lemma ExactIsSound(w0: World, w1: World, w2: World, p: Produced, local: LocalFingerprint, remote: RemoteFingerprint)
    requires Inv(w0) && Supported(w0, p) && Rely(w0, w1) && Rely(w1, w2)
    requires local == FpOf(w1.target) && OrdinaryOrAbsent(w1.target)
    requires ExactMatches(p, local, remote) && PostconditionHolds(w0.job, local, remote)
    ensures Consistent(w2, local, remote)
  {
    hide Inv, Rely, Uploaded, Consistent, NamesExpected;
    QuietIsStill(w0, w1);
    RelyIsLater(w0, w1);
    RelyIsLater(w1, w2);
    match p
    case NothingExact => DirIsSound(w2, local, remote, w0.job);
    case ExactUpload(written) =>
      UploadKind(w0, written);
      UploadIsSound(w0, w1, local, remote, written);
      ConsistentStays(w1, w2, local, remote);
    case ExactDownload(installed) =>
      NamesExpectedStays(w0, w1, installed);
      NamedIsSound(w1, installed, local, remote);
      ConsistentStays(w1, w2, local, remote);
  }

  lemma UploadKind(w: World, fp: RemoteFingerprint)
    requires Uploaded(w, fp)
    ensures fp.kind == KindFile && fp.present
  {
  }

  lemma DirIsSound(w: World, local: LocalFingerprint, remote: RemoteFingerprint, job: Job)
    requires job.entryKind == KindDir || job.kind == OpDeleteLocal || job.kind == OpDeleteRemote
    requires PostconditionHolds(job, local, remote)
    ensures Consistent(w, local, remote)
  {
  }

  lemma NamedIsSound(w: World, installed: LocalFingerprint, local: LocalFingerprint, remote: RemoteFingerprint)
    requires NamesExpected(w, installed) && LocalEquivalent(local, installed)
    requires w.job.kind == OpEnsureLocal && PostconditionHolds(w.job, local, remote)
    ensures Consistent(w, local, remote)
  {
  }

  lemma PostconditionSettles(job: Job, local: LocalFingerprint, remote: RemoteFingerprint)
    requires PostconditionHolds(job, local, remote)
    ensures Settled(job, local, remote)
  {
  }

  lemma StillObserved(w: World, w': World, local: LocalFingerprint, ordinary: bool, remote: RemoteFingerprint)
    requires Rely(w, w') && local == FpOf(w.target) && OrdinaryOrAbsent(w.target) && remote == RemoteOf(w'.remote)
    ensures Observed(w', local, remote)
  {
  }

  /** What is there now agrees with the call's report and is the postcondition. */
  predicate Finishes(w: World, p: Produced) {
    var (local, remote) := (FpOf(w.target), RemoteOf(w.remote));
    && OrdinaryOrAbsent(w.target) && (!w.job.IsLocal() ==> LogicalFp(w).Ok?)
    && ExactMatches(p, local, remote) && PostconditionHolds(w.job, local, remote) && Recordable(local, remote)
  }

  /** What the operation is to do can be done: both sides are as expected, nothing
      is in the way of the effect, and the result can be recorded. */
  predicate Allows(job: Job, target: Option<Obj>, remote: Option<RemoteObj>) {
    && RemoteMatches(RemoteOf(remote), job.expectedRemote, job.entryKind)
    && match job.kind
       case OpDeleteLocal => job.expectedLocal.present && remote.None? && !Crowded(target)
       case OpEnsureLocal =>
         && remote.Some? && RemoteOf(remote).Valid()
         && (if job.entryKind == KindDir then target.None? && !job.expectedLocal.present else !Crowded(target))
       case OpDeleteRemote =>
         remote.Some? && (remote.value.RemoteDir? ==> remote.value.empty) && !job.expectedLocal.present
       case OpEnsureRemote =>
         && job.expectedLocal.present && job.expectedLocal.kind == job.entryKind
         && (job.entryKind == KindDir ==> remote.None?)
  }

  /** So it is in this world, and the path can be pinned or is as it was pinned. */
  predicate Feasible(w: World, pin: Option<Pin>) {
    && Allows(w.job, w.target, w.remote) && LogicalFp(w).Ok?
    && LocalEquivalent(LogicalFp(w).value, w.job.expectedLocal)
    && (w.job.IsLocal() ==> Resolvable(w) && (pin.Some? ==> PinHolds(w, pin.value)))
  }

  lemma BegunIsFeasible(w: World)
    requires CanBegin(w)
    ensures forall pin :: Feasible(w, pin) ==> Feasible(OperationActions.Begin(w), pin)
  {
    hide Allows;
  }

  /** With nobody else writing, a remote effect brings about the postcondition. */
  lemma SentFinishes(w: World, w': World, p: Produced)
    requires Inv(w) && Inv(w') && Sending(w) && Unapplied(w) && Later(w, w') && w'.edits == 0 && w'.effects == 1
    requires Feasible(w, None) && w'.row == w.row
    requires match p
             case NothingExact => w.job.entryKind == KindDir || w.job.kind == OpDeleteRemote
             case ExactUpload(written) => written == RemoteOf(w'.remote) && WellVersioned(w.job, written)
             case ExactDownload(_) => false
    requires w.job.kind == OpEnsureRemote && w.job.entryKind == KindDir ==> !Blank(RemoteOf(w'.remote).id)
    ensures Finishes(w', p)
  {
    hide SlotInv, BaselineInv, LogInv, JournalInv, Blank;
    LogicalIsOrdinary(w, LogicalFp(w).value);
    assert QuietInv(w) && QuietInv(w');
  }

  /** And so does a local effect. */
  lemma CalledFinishes(w: World, w': World, op: Row, p: Produced)
    requires Inv(w) && Inv(w') && Ready(w) && w.job.IsLocal() && Later(w, w') && w'.edits == 0 && w'.effects == 1
    requires Feasible(w, op.pin)
    requires match p
             case NothingExact => w.job.entryKind == KindDir || w.job.kind == OpDeleteLocal
             case ExactDownload(local) => local == FpOf(w'.target)
             case ExactUpload(_) => false
    ensures Finishes(w', p)
  {
    hide SlotInv, BaselineInv, LogInv, JournalInv, Blank, PinHolds, Resolvable;
    assert QuietInv(w) && QuietInv(w');
  }

  /** The tail of executePersistedOperation: both sides are observed again, held
      against what the call reported and against the postcondition, and only
      then committed. */
  method Finish(h: Host, op: Row, p: Produced) returns (r: Reply<()>)
    requires Inv(h.w) && Effected(h.w) && Supported(h.w, p) && h.w.row.value.phase == Running
    modifies h
    ensures Inv(h.w) && Later(old(h.w), h.w)
    ensures r.Done? ==> Completed(h.w) && (h.w.edits == 0 ==> h.w.effects == 1)
    ensures r.Failed? && h.w.edits == 0 ==> h.balked || !Finishes(old(h.w), p)
    ensures old(h.balked) || r.Died? ==> h.balked
    ensures r.Failed? ==> h.balked || LeftForRecovery(h.w)
  {
    hide Inv, Rely, Supported, Consistent, Completed, Later, Observed, Settled, Completable;
    ghost var w0 := h.w;
    var post := ObservePostState(h);
    StillEffected(w0, h.w);
    QuietIsStill(w0, h.w);
    if post.Died? { return Died; }
    ghost var w1 := h.w;
    if post.Failed? || !post.value.1 { r := GiveUp(h, op, true); LaterTrans(w0, w1, h.w); LaterEdits(w1, h.w); return; }
    var local := post.value.0;
    if !w1.job.IsLocal() { LogicalIsOrdinary(w1, local); }
    var observed := ObserveRemote(h);
    StillEffected(w1, h.w);
    QuietIsStill(w1, h.w);
    ghost var w2 := h.w;
    LaterTrans(w0, w1, w2);
    if observed.Died? { return Died; }
    if observed.Failed? || !ExactMatches(p, local, observed.value) ||
        !PostconditionHolds(h.w.job, local, observed.value) {
      r := GiveUp(h, op, true);
      LaterTrans(w0, w2, h.w);
      LaterEdits(w2, h.w);
      return;
    }
    ExactIsSound(w0, w1, w2, p, local, observed.value);
    StillObserved(w1, w2, local, post.value.1, observed.value);
    PostconditionSettles(h.w.job, local, observed.value);
    EffectedCompletes(w2);
    r := CommitCompleted(h, local, observed.value);
    LaterTrans(w0, w2, h.w);
    LaterEdits(w2, h.w);
  }

  /** A remote mutation: the attempt is journaled before the call is made. */
  method ExecuteRemote(h: Host, op: Row) returns (r: Reply<()>)
    requires Inv(h.w) && Tracks(h.w, op) && Ready(h.w) && !h.w.job.IsLocal() && op.pin.None?
    modifies h
    ensures Inv(h.w) && Later(old(h.w), h.w)
    ensures r.Done? ==> Completed(h.w) && (h.w.edits == 0 ==> h.w.effects == 1)
    ensures r.Failed? && h.w.edits == 0 ==> h.balked || !Feasible(old(h.w), None)
    ensures old(h.balked) || r.Died? ==> h.balked
    ensures r.Failed? ==> h.balked || LeftForRecovery(h.w)
  {
    hide Inv, Rely, Uploaded, Completed, Later;
    ghost var w0, v := h.w, h.w;
    r, v := h.Begin();
    if !r.Done? { return; }
    BegunIsSending(w0, v, op);
    ghost var w1 := h.w;
    var p;
    r, p := CallRemote(h);
    SameJob(w1, h.w);
    ghost var w2 := h.w;
    LaterTrans(w0, w1, w2);
    LaterEdits(w1, w2);
    QuietIsStill(w0, v);
    BegunIsFeasible(v);
    if r.Died? { return; }
    if r.Failed? {
      r := GiveUp(h, op, true);
    } else {
      r := Finish(h, op, p);
    }
    LaterTrans(w0, w2, h.w);
    LaterEdits(w2, h.w);
  }

  /** The executor entry point of a remote mutation. */
  method CallRemote(h: Host) returns (r: Reply<()>, p: Produced)
    requires Inv(h.w) && Sending(h.w) && Unapplied(h.w)
    modifies h
    ensures Inv(h.w) && Later(old(h.w), h.w) && Sending(h.w)
    ensures r.Done? ==> Effected(h.w) && Supported(h.w, p)
    ensures r.Failed? && h.w.edits == 0 ==> h.balked || !Feasible(old(h.w), None)
    ensures r.Done? && h.w.edits == 0 ==> h.balked || !Feasible(old(h.w), None) || Finishes(h.w, p)
    ensures old(h.balked) || r.Died? ==> h.balked
  {
    hide Inv, Rely, Uploaded, Later;
    ghost var w0 := h.w;
    p := NothingExact;
    if h.w.job.kind == OpDeleteRemote {
      r := OperationRemote.DeleteRemote(h);
    } else if h.w.job.entryKind == KindDir {
      r := EnsureRemoteDir(h);
    } else {
      FileJob(h.w);
      var written := OperationRemote.Upload(h);
      r := if written.Done? then Done(()) else written.PropagateFailure();
      if written.Done? { p := ExactUpload(written.value); }
    }
    SameJob(w0, h.w);
    LaterEdits(w0, h.w);
    if r.Done? && h.w.edits == 0 && !h.balked && Feasible(w0, None) { SentFinishes(w0, h.w, p); }
  }

  lemma BegunIsSending(w: World, v: World, op: Row)
    requires Tracks(w, op) && Ready(w) && !w.job.IsLocal() && op.pin.None? && Rely(w, v) && Inv(v) && CanBegin(v)
    ensures Sending(Begin(v)) && Unapplied(Begin(v)) && Begin(v).job == w.job
  {
    hide LogInv, QuietInv, VersionInv, BaselineInv, Remembers;
  }

  lemma SameJob(w: World, w': World)
    requires Later(w, w')
    ensures w'.job == w.job
  {
  }

  /** The executor entry point of a local mutation. */
  method CallExecutor(h: Host, op: Row) returns (r: Reply<()>, started: bool, p: Produced)
    requires Inv(h.w) && Tracks(h.w, op) && Ready(h.w) && h.w.job.IsLocal() && op.pin.Some?
    requires op.phase == Planned ==> h.w.download == None
    modifies h
    ensures Inv(h.w) && Attempted(old(h.w), h.w, op, r.Done?, started)
    ensures r.Done? ==> Effected(h.w) && Supported(h.w, p)
    ensures !r.Died? && !started && op.phase == Planned ==> h.w.download == None
    ensures r.Failed? && h.w.edits == 0 ==> h.balked || !Feasible(old(h.w), op.pin)
    ensures r.Done? && h.w.edits == 0 ==> !Feasible(old(h.w), op.pin) || Finishes(h.w, p)
    ensures !started ==> h.balked || h.w.row == old(h.w).row
    ensures old(h.balked) || r.Died? ==> h.balked
  {
    hide Inv, Rely, NamesExpected, Ready, Unstarted;
    ghost var w0 := h.w;
    p := NothingExact;
    if h.w.job.kind == OpDeleteLocal {
      r, started := OperationExecutor.DeleteLocal(h, op);
      DownloadsOnly(h.w);
    } else if h.w.job.entryKind == KindDir {
      ghost var before;
      r, started, before := EnsureLocalDir(h, op);
      DownloadsOnly(h.w);
    } else {
      FileJob(h.w);
      var installed;
      installed, started := EnsureLocalFile(h, op);
      r := if installed.Done? then Done(()) else installed.PropagateFailure();
      if installed.Done? { p := ExactDownload(installed.value); }
    }
    AttemptedRow(w0, h.w, op, r.Done?, started);
    LaterEdits(w0, h.w);
    if r.Done? && h.w.edits == 0 && Feasible(w0, op.pin) { CalledFinishes(w0, h.w, op, p); }
  }

  lemma AttemptedRow(w: World, w': World, op: Row, done: bool, started: bool)
    requires Attempted(w, w', op, done, started) && Tracks(w, op)
    ensures Later(w, w') && w'.row.Some? && w'.row.value.phase != Blocked && (started ==> w'.row.value.phase == Running)
    ensures (done ==> started) && w'.job == w.job
    ensures op.phase != Planned ==> w'.row.value.phase != Planned
  {
  }

  /** A local mutation: the attempt is journaled by the executor at the last
      moment, when every check has passed. */
  method ExecuteLocal(h: Host, op: Row) returns (r: Reply<()>)
    requires Inv(h.w) && Tracks(h.w, op) && Ready(h.w) && h.w.job.IsLocal() && op.pin.Some?
    requires op.phase == Planned ==> h.w.download == None
    modifies h
    ensures Inv(h.w) && Later(old(h.w), h.w)
    ensures r.Done? ==> Completed(h.w) && (h.w.edits == 0 ==> h.w.effects == 1)
    ensures r.Failed? && h.w.edits == 0 ==> h.balked || !Feasible(old(h.w), op.pin)
    ensures old(h.balked) || r.Died? ==> h.balked
    ensures r.Failed? ==> h.balked || LeftForRecovery(h.w)
  {
    hide Inv, Rely, Ready, Later, Supported, Effected, Completed, Attempted, LeftForRecovery;
    ghost var w0 := h.w;
    var peers := h.Call();
    StillTracks(w0, h.w, op);
    QuietIsStill(w0, h.w);
    if peers.Died? { return Died; }
    ghost var w1 := h.w;
    if peers.Failed? {
      r := GiveUp(h, op, false);
      LaterTrans(w0, w1, h.w);
      LaterEdits(w1, h.w);
      return;
    }
    var started, p;
    r, started, p := CallExecutor(h, op);
    AttemptedRow(w1, h.w, op, r.Done?, started);
    LaterTrans(w0, w1, h.w);
    LaterEdits(w1, h.w);
    if r.Died? { return; }
    ghost var w2 := h.w;
    if r.Failed? {
      r := GiveUp(h, op, started);
    } else {
      r := Finish(h, op, p);
    }
    LaterTrans(w0, w2, h.w);
    LaterEdits(w2, h.w);
  }

  /** executePersistedOperation: success means that the row is gone and the
      recorded pair is sound and meets the postcondition. */
  method Execute(h: Host, op: Row) returns (r: Reply<()>)
    requires Inv(h.w) && Tracks(h.w, op) && Ready(h.w) && (h.w.job.IsLocal() <==> op.pin.Some?)
    requires op.phase == Planned ==> h.w.download == None
    modifies h
    ensures Inv(h.w) && Later(old(h.w), h.w)
    ensures r.Done? ==> Completed(h.w) && (h.w.edits == 0 ==> h.w.effects == 1)
    ensures r.Failed? && h.w.edits == 0 ==> h.balked || !Feasible(old(h.w), op.pin)
    ensures old(h.balked) || r.Died? ==> h.balked
    ensures r.Failed? ==> h.balked || LeftForRecovery(h.w)
  {
    if h.w.job.IsLocal() {
      r := ExecuteLocal(h, op);
    } else {
      r := ExecuteRemote(h, op);
    }
  }

  // ----- Pinning -----

  /** pinLocalMutationTarget: a local mutation gets its pin once, while it is
      planned; an intent that cannot be pinned is discarded. */
  method PinTarget(h: Host, op: Row) returns (r: Reply<Row>)
    requires Inv(h.w) && h.w.row == Some(op) && op.phase == Planned
    modifies h
    ensures Inv(h.w) && Later(old(h.w), h.w) && !h.w.begun
    ensures r.Done? ==>
              h.w.row == Some(r.value) && r.value.phase == Planned && (h.w.job.IsLocal() <==> r.value.pin.Some?)
    ensures r.Done? && old(h.w).download == None ==> h.w.download == None
    ensures h.w.edits == 0 ==> h.w.target == old(h.w).target && h.w.remote == old(h.w).remote
    ensures h.w.effects == old(h.w).effects
    ensures r.Failed? && h.w.edits == 0 ==> h.balked || !Feasible(old(h.w), op.pin)
    ensures r.Done? && h.w.edits == 0 && Feasible(old(h.w), op.pin) ==> Feasible(h.w, r.value.pin)
    ensures old(h.balked) || r.Died? ==> h.balked
    ensures r.Failed? ==> h.balked || h.w.row == None
  {
    hide Inv, Rely, Later;
    PlannedIsUntouched(h.w);
    ghost var w0 := h.w;
    LaterRefl(w0);
    if !h.w.job.IsLocal() || op.pin.Some? { return Done(op); }
    var target := Resolve(h);
    StillPlanned(w0, h.w, op);
    if target.Died? { return Died; }
    ghost var w1, v := h.w, h.w;
    if target.Failed? {
      r := DiscardStale(h, op);
      LaterTrans(w0, w1, h.w);
      return;
    }
    var granted;
    granted, v := h.Authorize(target.value);
    StillPlanned(w1, v, op);
    PinnedStaysPlanned(v, op, target.value);
    QuietIsStill(w0, w1);
    QuietIsStill(w1, v);
    PinnedIsFeasible(w1, target.value);
    ghost var w2 := h.w;
    LaterTrans(w0, w1, w2);
    if !granted.Done? { return granted.PropagateFailure(); }
    if !granted.value {
      r := DiscardStale(h, op);
      LaterTrans(w0, w2, h.w);
      return;
    }
    r := Done(op.(pin := Some(target.value)));
  }

  lemma PinnedIsFeasible(w: World, pin: Pin)
    requires CanPin(w) && Inv(w)
    ensures w.edits == 0 && PinHolds(w, pin) && Feasible(w, None) ==> Feasible(SetPin(w, pin), Some(pin))
  {
    hide Allows, JournalInv, SlotInv, VersionInv, BaselineInv, LogInv;
  }

  lemma PinnedStaysPlanned(v: World, op: Row, pin: Pin)
    requires v.row == Some(op) && CanPin(v)
    ensures SetPin(v, pin).row == Some(op.(pin := Some(pin))) && SetPin(v, pin).begun == v.begun
    ensures SetPin(v, pin).job == v.job && SetPin(v, pin).download == v.download && SetPin(v, pin).edits == v.edits
    ensures SetPin(v, pin).effects == v.effects && SetPin(v, pin).target == v.target &&
              SetPin(v, pin).remote == v.remote
  {
  }

  /** The intent is discarded, and the failure that led here is reported. */
  method DiscardStale(h: Host, op: Row) returns (r: Reply<Row>)
    requires Inv(h.w) && h.w.row == Some(op) && op.phase == Planned && h.w.download == None && !h.w.begun
    modifies h
    ensures Inv(h.w) && Later(old(h.w), h.w) && !r.Done? && !h.w.begun
    ensures old(h.w).edits <= h.w.edits && h.w.effects == old(h.w).effects
    ensures h.w.edits == 0 ==> h.w.target == old(h.w).target && h.w.remote == old(h.w).remote
    ensures old(h.balked) || r.Died? ==> h.balked
    ensures r.Failed? ==> h.balked || h.w.row == None
  {
    hide Inv, Later;
    var gone := h.Discard();
    r := if gone.Died? then Died else Failed;
  }

  lemma StillPlanned(w: World, w': World, op: Row)
    requires w.row == Some(op) && w.download == None && Rely(w, w')
    ensures w'.row == Some(op) && w'.download == None && w'.job == w.job && w'.begun == w.begun && Later(w, w')
    ensures w'.effects == w.effects && w.edits <= w'.edits
    ensures w'.edits == w.edits ==> w'.target == w.target && w'.remote == w.remote
  {
  }

  /** Both sides are as the intent expects them. */
  predicate IntentHolds(w: World) {
    && LogicalFp(w).Ok? && LocalEquivalent(LogicalFp(w).value, w.job.expectedLocal)
    && RemoteMatches(RemoteOf(w.remote), w.job.expectedRemote, w.job.entryKind)
  }

  /** operationPreconditionsHold. */
  method PreconditionsHold(h: Host) returns (r: Reply<bool>)
    requires Inv(h.w)
    modifies h
    ensures Inv(h.w) && Rely(old(h.w), h.w)
    ensures r.Done? && h.w.edits == 0 ==> (r.value <==> IntentHolds(h.w))
    ensures r.Failed? && h.w.edits == 0 ==> h.balked || LogicalFp(h.w).Err?
    ensures old(h.balked) || r.Died? ==> h.balked
  {
    hide Inv, Rely, Remembers;
    ghost var w0 := h.w;
    var local := ObserveLocal(h);
    if !local.Done? { return local.PropagateFailure(); }
    ghost var w1 := h.w;
    var remote := ObserveRemote(h);
    RelyTrans(w0, w1, h.w);
    if !remote.Done? { return remote.PropagateFailure(); }
    r := Done(LocalEquivalent(local.value, h.w.job.expectedLocal) &&
        RemoteMatches(remote.value, h.w.job.expectedRemote, h.w.job.entryKind));
  }

  // ----- Recovery -----

  /** What a retry is checked against. */
  predicate RetryHolds(w: World) {
    && RemoteMatches(RemoteOf(w.remote), w.job.expectedRemote, w.job.entryKind)
    && (if w.authority.Some? then PinHolds(w, w.authority.value)
        else LogicalFp(w).Ok? && LocalEquivalent(LogicalFp(w).value, w.job.expectedLocal))
  }

  /** recoveryRetryPreconditionsHold. */
  method RetryPreconditionsHold(h: Host, op: Row) returns (r: Reply<bool>)
    requires Inv(h.w) && (h.w.job.IsLocal() <==> op.pin.Some?) && h.w.authority == op.pin
    modifies h
    ensures Inv(h.w) && Rely(old(h.w), h.w)
    ensures r.Done? && r.value && h.w.edits == 0 ==> RetryHolds(h.w)
    ensures r.Failed? && h.w.edits == 0 ==> h.balked || (!h.w.job.IsLocal() && LogicalFp(h.w).Err?)
    ensures old(h.balked) || r.Died? ==> h.balked
    ensures r == Done(false) && h.w.edits == 0 ==> h.balked || !RetryHolds(h.w)
  {
    hide Inv, Rely, Remembers;
    ghost var w0 := h.w;
    if !h.w.job.IsLocal() {
      r := PreconditionsHold(h);
      QuietIsStill(w0, h.w);
      return;
    }
    var holds := PinnedPreconditionHolds(h, op);
    QuietIsStill(w0, h.w);
    if !holds.Done? || !holds.value { return holds; }
    ghost var w1 := h.w;
    var remote := ObserveRemote(h);
    QuietIsStill(w1, h.w);
    RelyTrans(w0, w1, h.w);
    if !remote.Done? { return remote.PropagateFailure(); }
    r := Done(RemoteMatches(remote.value, h.w.job.expectedRemote, h.w.job.entryKind));
  }

  /** With nobody else writing, an effect that happened always fails the retry
      check or passes the proof: a retry starts only from the untouched state. */
  lemma RetryIsUntouched(w: World)
    requires Inv(w) && w.edits == 0 && w.row.Some? && w.begun && w.recovery == None
    requires !Proven(w.job, w.target, w.remote) && RetryHolds(w)
    ensures w.effects == 0 && AtRest(w)
  {
    hide SlotInv, VersionInv, BaselineInv, LogInv;
    assert QuietInv(w);
  }

  /** A proven postcondition leaves either nothing to do or the slot to clean. */
  lemma ProvenIsDue(w: World)
    requires Inv(w) && w.edits == 0 && Proven(w.job, w.target, w.remote) && w.row.Some? && w.begun
    ensures w.recovery.Some? ==> if w.job.kind == OpDeleteLocal then w.effects == 0 else w.effects == 1
    ensures w.recovery == None ==> w.effects == 1 || (AtRest(w) && Proven(w.job, w.target0, w.remote0))
  {
    hide SlotInv, VersionInv, BaselineInv, LogInv;
    assert QuietInv(w);
  }

  /** The row is being recovered. */
  ghost predicate Recovers(w: World, op: Row) {
    && w.row.Some? && w.row.value.phase == Recovering && w.row.value.pin == op.pin && w.authority == op.pin && w.begun
    && (op.phase == Running || op.phase == Recovering)
    && (if w.job.IsLocal() then op.pin.Some? && StartChecks(w.job) else op.pin.None? && w.recovery == None)
  }

  lemma StillRecovers(w: World, w': World, op: Row)
    requires Recovers(w, op) && Idles(w, w')
    ensures Recovers(w', op) && Later(w, w')
  {
  }

  /** All that is missing of a delete is that the parked object is unlinked. */
  predicate EndsAParkedDelete(w: World) {
    w.job.kind == OpDeleteLocal && w.recovery.Some?
  }

  /** Nothing is left to do: the postcondition holds, and not only because the
      object to be deleted is parked. */
  predicate NeedsNoEffect(w: World) {
    Proven(w.job, w.target, w.remote) && !EndsAParkedDelete(w)
  }

  /** The satisfied branch: clean the slot, then commit. */
  method CompleteRecovered(h: Host, op: Row, v: Verdict) returns (r: Reply<()>)
    requires Inv(h.w) && Recovers(h.w, op) && v.satisfied && Judged(h.w, v)
    modifies h
    ensures Inv(h.w) && Later(old(h.w), h.w)
    ensures r.Done? ==> Completed(h.w)
    ensures r.Done? && h.w.edits == 0 ==>
              h.w.effects == old(h.w).effects + (if EndsAParkedDelete(old(h.w)) then 1 else 0)
    ensures old(h.balked) || r.Died? ==> h.balked
    ensures r.Failed? && h.w.edits == 0 ==>
              h.balked || Unremovable(old(h.w)) || !Recordable(FpOf(old(h.w).target), RemoteOf(old(h.w).remote))
  {
    hide Inv, Rely, Proven, Consistent, StartChecks, Settled, Later, Completed, Completable;
    ghost var w0, u := h.w, h.w;
    LaterRefl(w0);
    if w0.edits == 0 { ProvenIsDue(w0); }
    if h.w.job.IsLocal() {
      ghost var seen;
      r, seen := CleanupLocalRecoveryArtifact(h);
      ghost var w1 := h.w;
      if r.Died? { return; }
      if r.Failed? {
        CleanupKeepsRow(w0, w1, op);
        r, u := h.SetPhase(Recovering);
        LaterTrans(w0, w1, h.w);
        EditsGrow(w1, h.w);
        return if r.Died? then Died else Failed;
      }
      CleanedCompletes(w0, w1);
      ConsistentStays(w0, w1, v.local, v.remote);
      CleanedObserved(w0, w1, v);
    } else {
      CompletableClean(w0);
      NothingParked(w0, op);
    }
    ghost var w2 := h.w;
    EditsGrow(w0, w2);
    r := CommitCompleted(h, v.local, v.remote);
    EditsGrow(w2, h.w);
    LaterTrans(w0, w2, h.w);
  }

  lemma EditsGrow(w: World, w': World)
    requires Later(w, w')
    ensures w.edits <= w'.edits
  {
  }

  lemma NothingParked(w: World, op: Row)
    requires Recovers(w, op) && !w.job.IsLocal()
    ensures w.recovery == None
  {
  }

  lemma JudgedProven(w: World, v: Verdict)
    requires Judged(w, v) && w.edits == 0
    ensures v.satisfied <==> Proven(w.job, w.target, w.remote)
  {
  }

  lemma StillNeedsNoEffect(w: World, w': World)
    requires Idles(w, w')
    ensures w'.effects == w.effects && w.edits <= w'.edits
    ensures w'.edits == 0 ==> (NeedsNoEffect(w') <==> NeedsNoEffect(w))
  {
    hide Proven;
  }

  lemma CleanupKeepsRow(w: World, w': World, op: Row)
    requires Recovers(w, op) && w'.row == w.row
    ensures CanSetPhase(w', Recovering)
  {
  }

  lemma CleanedObserved(w: World, w': World, v: Verdict)
    requires Judged(w, v) && v.satisfied && Later(w, w')
    requires w'.edits == 0 ==> w'.target == w.target && w'.remote == w.remote
    ensures Settled(w'.job, v.local, v.remote) && Observed(w', v.local, v.remote)
  {
    hide Settled, Proven, Consistent;
  }

  lemma CompletableClean(w: World)
    requires w.row.Some? && w.row.value.phase == Recovering && w.recovery == None && w.download == None
    requires w.edits == 0 ==> w.effects == 1 || (AtRest(w) && Proven(w.job, w.target0, w.remote0))
    ensures Completable(w)
  {
  }

  /** After the cleanup nothing stands against completion: in quiet the slot is
      empty and the effect happened, or was not needed. */
  lemma CleanedCompletes(w: World, w': World)
    requires w.row.Some? && w.row.value.phase == Recovering && w.download == None && Later(w, w')
    requires w'.row == w.row && NoNewDownload(w, w')
    requires w.edits == 0 && w.recovery == None ==> w.effects == 1 || (AtRest(w) && Proven(w.job, w.target0, w.remote0))
    requires w.recovery == None ==> w'.recovery == None && w'.effects == w.effects
    requires w'.edits == 0 ==> w.recovery.Some? ==> w'.effects == 1
    requires w'.edits == 0 ==> w'.target == w.target && w'.remote == w.remote
    requires w'.recovery.Some? ==> w'.edits > 0 && JustOverlooked(w'.log, w'.parent)
    ensures Completable(w')
  {
    hide Proven;
  }

  /** A local mutation of a copying root that has no pin: the evidence that its
      plan was made on is gone. */
  predicate LostItsEvidence(w: World) {
    w.row.Some? && w.row.value.pin.None? && w.job.mode == Copy && w.job.IsLocal()
  }

  /** What becomes of a planned intent that still stands as it was written: it
      is carried out. Any other is discarded. */
  ghost predicate CarriedOutIff(w: World, w': World, holds: bool) {
    if holds then Completed(w') && w'.effects == 1 else w'.row == None && !w'.begun && w'.effects == w.effects
  }

  /** The operation can be attempted again. */
  predicate Retryable(w: World) { Feasible(w, w.authority) }

  /** A started operation can be brought to an end, completed or blocked: if the
      postcondition holds, the slot can be cleaned and the pair recorded; if not,
      and a retry is due, it can be made. */
  predicate Recoverable(w: World) {
    && !Unreadable(w)
    && (if Proven(w.job, w.target, w.remote) then
          !Unremovable(w) && Recordable(FpOf(w.target), RemoteOf(w.remote))
        else w.recovery.Some? || !RetryHolds(w) || Retryable(w))
  }

  /** The row can be dealt with: a planned operation can be carried out, a started
      one can be brought to an end. */
  predicate Settleable(w: World)
    requires w.row.Some?
  {
    match w.row.value.phase
    case Blocked => true
    case Planned => Feasible(w, w.row.value.pin)
    case _ => Recoverable(w)
  }

  /** One row of recoverExistingOperations. Done(true) reports it as blocked. */
  method RecoverOne(h: Host) returns (r: Reply<bool>)
    requires Inv(h.w) && h.w.row.Some?
    modifies h
    ensures Inv(h.w) && Later(old(h.w), h.w)
    ensures r.Done? ==>
              if r.value then h.w.row.Some? && h.w.row.value.phase == Blocked
              else h.w.row == None && (h.w.begun ==> Completed(h.w))
    ensures old(h.w).row.value.phase == Blocked ==> r == Done(true) && h.w == old(h.w)
    ensures r.Done? && old(h.w).row.value.phase == Planned ==> !r.value
    ensures r.Done? && old(h.w).row.value.phase == Planned && h.w.edits == 0 ==>
              CarriedOutIff(old(h.w), h.w, IntentHolds(old(h.w)) && !LostItsEvidence(old(h.w)))
    ensures r == Done(false) && old(h.w).row.value.phase != Planned && h.w.edits == 0 ==>
              Completed(h.w) && (h.w.effects == old(h.w).effects <==> NeedsNoEffect(old(h.w)))
    ensures r == Done(true) && !h.balked && old(h.w).row.value.phase != Blocked && h.w.edits == 0 ==>
              h.w.recovery.Some? || !RetryHolds(h.w)
    ensures r.Failed? && h.w.edits == 0 ==> h.balked || !Settleable(old(h.w))
    ensures old(h.balked) || r.Died? ==> h.balked
  {
    hide Inv, Later, IntentHolds, NeedsNoEffect, RetryHolds, CarriedOutIff;
    LaterRefl(h.w);
    match h.w.row.value.phase
    case Blocked => r := Done(true);
    case Planned => r := RecoverPlanned(h);
    case _ => r := RecoverStarted(h);
  }

  /** Nothing has started: execute the intent if it still fits, or discard it. */
  method RecoverPlanned(h: Host) returns (r: Reply<bool>)
    requires Inv(h.w) && h.w.row.Some? && h.w.row.value.phase == Planned
    modifies h
    ensures Inv(h.w) && Later(old(h.w), h.w)
    ensures r.Done? ==> !r.value && h.w.row == None && (h.w.begun ==> Completed(h.w))
    ensures r.Done? && h.w.edits == 0 ==>
              CarriedOutIff(old(h.w), h.w, IntentHolds(old(h.w)) && !LostItsEvidence(old(h.w)))
    ensures r.Failed? && h.w.edits == 0 ==> h.balked || !Feasible(old(h.w), old(h.w).row.value.pin)
    ensures old(h.balked) || r.Died? ==> h.balked
  {
    hide Inv, Rely, Idles, Ready, Completed, Later, IntentHolds;
    ghost var w0 := h.w;
    PlannedIsUntouched(w0);
    if h.w.job.mode == Copy && h.w.job.IsLocal() && h.w.row.value.pin.None? {
      var gone := h.Discard();
      return if gone.Done? then Done(false) else gone.PropagateFailure();
    }
    var op := PinTarget(h, h.w.row.value);
    if !op.Done? { return op.PropagateFailure(); }
    ghost var w1 := h.w;
    r := RecoverPinned(h, op.value);
    EditsGrow(w1, h.w);
    LaterTrans(w0, w1, h.w);
    EditsGrow(w0, w1);
    SameJob(w0, w1);
    if h.w.edits == 0 { PinningKeepsIntent(w0, w1); }
  }

  /** With nobody else writing the pinned path is the logical one. */
  lemma PinningKeepsIntent(w: World, w': World)
    requires Inv(w) && Inv(w') && w'.edits == 0 && w.edits == 0 && w'.job == w.job
    requires w'.target == w.target && w'.remote == w.remote
    ensures IntentHolds(w') <==> IntentHolds(w)
  {
    hide JournalInv, SlotInv, VersionInv, BaselineInv, LogInv;
  }

  method RecoverPinned(h: Host, op: Row) returns (r: Reply<bool>)
    requires Inv(h.w) && h.w.row == Some(op) && op.phase == Planned && (h.w.job.IsLocal() <==> op.pin.Some?)
    modifies h
    ensures Inv(h.w) && Later(old(h.w), h.w)
    ensures r.Done? ==> !r.value && h.w.row == None && (h.w.begun ==> Completed(h.w))
    ensures r.Done? && h.w.edits == 0 ==> CarriedOutIff(old(h.w), h.w, IntentHolds(old(h.w)))
    ensures r.Failed? && h.w.edits == 0 ==> h.balked || !Feasible(old(h.w), op.pin)
    ensures old(h.balked) || r.Died? ==> h.balked
  {
    hide Inv, Rely, Idles, Ready, Later, Completed, IntentHolds, Allows, PinHolds, Resolvable;
    ghost var w0 := h.w;
    LaterRefl(w0);
    PlannedIsUntouched(h.w);
    if h.w.job.IsDownload() {
      var cleaned := CleanupLocalDownloadArtifact(h);
      QuietIdles(w0, h.w);
      IdlesKeepsIntent(w0, h.w);
      IdlesKeepsFeasible(w0, h.w, op.pin);
      if !cleaned.Done? { return cleaned.PropagateFailure(); }
    }
    ghost var w1 := h.w;
    EditsGrow(w0, w1);
    var holds := PreconditionsHold(h);
    StillPlanned(w1, h.w, op);
    QuietIsStill(w1, h.w);
    LaterTrans(w0, w1, h.w);
    if !holds.Done? { return holds.PropagateFailure(); }
    ghost var w2 := h.w;
    EditsGrow(w1, w2);
    var ended;
    PlannedIsUntouched(h.w);
    if holds.value {
      ended := Execute(h, op);
    } else {
      ended := h.Discard();
    }
    EditsGrow(w2, h.w);
    LaterTrans(w0, w2, h.w);
    r := if ended.Done? then Done(false) else ended.PropagateFailure();
  }

  lemma IdlesKeepsFeasible(w: World, w': World, pin: Option<Pin>)
    requires Idles(w, w')
    ensures w'.edits == 0 ==> (Feasible(w', pin) <==> Feasible(w, pin))
  {
    hide Allows, IsExpected;
  }

  lemma IdlesKeepsRecoverable(w: World, w': World)
    requires Idles(w, w')
    ensures w'.edits == 0 ==> (Recoverable(w') <==> Recoverable(w)) && (Retryable(w') <==> Retryable(w))
  {
    hide Allows, IsExpected, Proven, Recordable, Crowded, PassesIdentityCheck;
  }

  lemma IdlesKeepsIntent(w: World, w': World)
    requires Idles(w, w')
    ensures w'.effects == w.effects && (w'.edits == 0 ==> (IntentHolds(w') <==> IntentHolds(w)))
  {
  }

  /** The outcome is unknown: prove it, block on a parked object or a failed
      retry check, or try again. */
  method RecoverStarted(h: Host) returns (r: Reply<bool>)
    requires Inv(h.w) && h.w.row.Some? && (h.w.row.value.phase == Running || h.w.row.value.phase == Recovering)
    modifies h
    ensures Inv(h.w) && Later(old(h.w), h.w)
    ensures r.Done? ==> if r.value then h.w.row.Some? && h.w.row.value.phase == Blocked else Completed(h.w)
    ensures r == Done(false) && h.w.edits == 0 ==> (h.w.effects == old(h.w).effects <==> NeedsNoEffect(old(h.w)))
    ensures r == Done(true) && !h.balked && h.w.edits == 0 ==> h.w.recovery.Some? || !RetryHolds(h.w)
    ensures r.Failed? && h.w.edits == 0 ==> h.balked || !Recoverable(old(h.w))
    ensures old(h.balked) || r.Died? ==> h.balked
  {
    hide Inv, Later, Recovers, Completed, RetryHolds, NeedsNoEffect;
    ghost var w0 := h.w;
    LaterRefl(w0);
    var op := h.w.row.value;
    StartedRecovers(w0, op);
    var noted := NoteRecovering(h, op);
    if !noted.Done? { return noted.PropagateFailure(); }
    ghost var w1 := h.w;
    r := Conclude(h, op);
    EditsGrow(w1, h.w);
    LaterTrans(w0, w1, h.w);
  }

  lemma StartedRecovers(w: World, op: Row)
    requires Inv(w) && w.row == Some(op) && (op.phase == Running || op.phase == Recovering)
    ensures op.phase == Recovering ==> Recovers(w, op)
  {
    hide Inv, StartChecks;
    StartedIsPinned(w);
  }

  /** The running phase becomes the recovering one. */
  method NoteRecovering(h: Host, op: Row) returns (r: Reply<()>)
    requires Inv(h.w) && h.w.row == Some(op) && (op.phase == Running || op.phase == Recovering)
    requires op.phase == Recovering ==> Recovers(h.w, op)
    modifies h
    ensures Inv(h.w) && Later(old(h.w), h.w)
    ensures r.Done? ==> Recovers(h.w, op) && h.w.effects == old(h.w).effects
    ensures h.w.edits == 0 ==> (NeedsNoEffect(h.w) <==> NeedsNoEffect(old(h.w)))
    ensures old(h.balked) || r.Died? ==> h.balked
    ensures r.Failed? ==> h.balked
    ensures h.w.edits == 0 ==> (Recoverable(h.w) <==> Recoverable(old(h.w)))
  {
    hide Inv, Rely, Later, StartChecks, NeedsNoEffect, Idles;
    LaterRefl(h.w);
    if op.phase == Recovering { return Done(()); }
    ghost var w0, u := h.w, h.w;
    r, u := h.SetPhase(Recovering);
    RelyKeepsRow(w0, u);
    RelyIdles(w0, u);
    StillNeedsNoEffect(w0, u);
    PhaseIsNoEffect(u, Recovering);
    if r.Done? { StartedIsPinned(h.w); }
  }

  lemma PhaseIsNoEffect(w: World, phase: Phase)
    requires CanSetPhase(w, phase)
    ensures SetPhase(w, phase).effects == w.effects && (NeedsNoEffect(SetPhase(w, phase)) <==> NeedsNoEffect(w))
  {
    hide Proven;
  }

  /** The phase is noted: prove the outcome, complete it, or retry. */
  method Conclude(h: Host, op: Row) returns (r: Reply<bool>)
    requires Inv(h.w) && Recovers(h.w, op)
    modifies h
    ensures Inv(h.w) && Later(old(h.w), h.w)
    ensures r.Done? ==> if r.value then h.w.row.Some? && h.w.row.value.phase == Blocked else Completed(h.w)
    ensures r == Done(false) && h.w.edits == 0 ==> (h.w.effects == old(h.w).effects <==> NeedsNoEffect(old(h.w)))
    ensures r == Done(true) && !h.balked && h.w.edits == 0 ==> h.w.recovery.Some? || !RetryHolds(h.w)
    ensures r.Failed? && h.w.edits == 0 ==> h.balked || !Recoverable(old(h.w))
    ensures old(h.balked) || r.Died? ==> h.balked
  {
    hide Inv, Idles, Judged, StartChecks, Later, Completed, RetryHolds, Rely, Proven;
    ghost var w0, u := h.w, h.w;
    var verdict := Prove(h);
    StillRecovers(w0, h.w, op);
    StillNeedsNoEffect(w0, h.w);
    IdlesKeepsRecoverable(w0, h.w);
    ghost var w1 := h.w;
    if verdict.Died? { return Died; }
    if verdict.Failed? {
      var noted;
      noted, u := h.SetPhase(Recovering);
      LaterTrans(w0, w1, h.w);
      EditsGrow(w1, h.w);
      return if noted.Died? then Died else Failed;
    }
    if w1.edits == 0 { JudgedProven(w1, verdict.value); }
    if verdict.value.satisfied {
      var completed := CompleteRecovered(h, op, verdict.value);
      LaterTrans(w0, w1, h.w);
      EditsGrow(w1, h.w);
      return if completed.Done? then Done(false) else completed.PropagateFailure();
    }
    r := RetryUnproven(h, op, verdict.value);
    EditsGrow(w1, h.w);
    LaterTrans(w0, w1, h.w);
  }

  method Block(h: Host) returns (r: Reply<bool>)
    requires Inv(h.w) && h.w.row.Some? && h.w.row.value.phase == Recovering
    modifies h
    ensures Inv(h.w) && Later(old(h.w), h.w)
    ensures r.Done? ==> r.value && h.w.row.Some? && h.w.row.value.phase == Blocked
    ensures r.Done? && h.w.edits == 0 ==> CanSetPhase(old(h.w), Blocked) && h.w == SetPhase(old(h.w), Blocked)
    ensures old(h.balked) || r.Died? ==> h.balked
    ensures r.Failed? ==> h.balked
  {
    var noted, u := h.SetPhase(Blocked);
    r := if noted.Done? then Done(true) else noted.PropagateFailure();
  }

  lemma BlockedStillFails(w: World)
    requires CanSetPhase(w, Blocked)
    ensures RetryHolds(SetPhase(w, Blocked)) <==> RetryHolds(w)
  {
  }

  method RetryUnproven(h: Host, op: Row, v: Verdict) returns (r: Reply<bool>)
    requires Inv(h.w) && Recovers(h.w, op) && !v.satisfied && Judged(h.w, v)
    modifies h
    ensures Inv(h.w) && Later(old(h.w), h.w)
    ensures r.Done? ==> if r.value then h.w.row.Some? && h.w.row.value.phase == Blocked else Completed(h.w)
    ensures r == Done(false) && h.w.edits == 0 ==> (h.w.effects == old(h.w).effects <==> NeedsNoEffect(old(h.w)))
    ensures r == Done(true) && !h.balked && h.w.edits == 0 ==> h.w.recovery.Some? || !RetryHolds(h.w)
    ensures r.Failed? && h.w.edits == 0 ==>
              || h.balked || Unreadable(old(h.w))
              || (old(h.w).recovery.None? && RetryHolds(old(h.w)) && !Retryable(old(h.w)))
    ensures old(h.balked) || r.Died? ==> h.balked
  {
    hide Inv, Rely, Idles, Proven, StartChecks, RetryHolds, Later, Completed;
    ghost var w0 := h.w;
    LaterRefl(w0);
    if h.w.job.IsLocal() {
      var pending := LocalRecoveryArtifact(h);
      QuietIsStill(w0, h.w);
      RelyIdles(w0, h.w);
      StillRecovers(w0, h.w, op);
      if !pending.Done? { return pending.PropagateFailure(); }
      if pending.value {
        ghost var w1 := h.w;
        r := Block(h);
        LaterTrans(w0, w1, h.w);
        return;
      }
    }
    ghost var w2 := h.w;
    EditsGrow(w0, w2);
    if w0.edits == 0 { JudgedProven(w0, v); }
    r := RetryFromEmptySlot(h, op);
    EditsGrow(w2, h.w);
    LaterTrans(w0, w2, h.w);
  }

  method RetryFromEmptySlot(h: Host, op: Row) returns (r: Reply<bool>)
    requires Inv(h.w) && Recovers(h.w, op) && h.w.recovery == None
    requires h.w.edits == 0 ==> !Proven(h.w.job, h.w.target, h.w.remote)
    modifies h
    ensures Inv(h.w) && Later(old(h.w), h.w)
    ensures r.Done? ==> if r.value then h.w.row.Some? && h.w.row.value.phase == Blocked else Completed(h.w)
    ensures r == Done(false) && h.w.edits == 0 ==> (h.w.effects == old(h.w).effects <==> NeedsNoEffect(old(h.w)))
    ensures r == Done(true) && !h.balked && h.w.edits == 0 ==> !RetryHolds(h.w)
    ensures r.Failed? && h.w.edits == 0 ==>
              || h.balked || Unreadable(old(h.w)) || (RetryHolds(old(h.w)) && !Retryable(old(h.w)))
    ensures old(h.balked) || r.Died? ==> h.balked
  {
    hide Inv, Rely, Idles, Proven, StartChecks, RetryHolds, Later, Completed;
    ghost var w0 := h.w;
    var holds := RetryPreconditionsHold(h, op);
    QuietIsStill(w0, h.w);
    QuietSame(w0, h.w);
    RelyIdles(w0, h.w);
    StillRecovers(w0, h.w, op);
    if !holds.Done? { return holds.PropagateFailure(); }
    ghost var w1 := h.w;
    if !holds.value {
      r := Block(h);
      LaterTrans(w0, w1, h.w);
      BlockedStillFails(w1);
      return;
    }
    if h.w.edits == 0 { RetryIsUntouched(h.w); }
    var executed := Execute(h, op);
    EditsGrow(w0, w1);
    EditsGrow(w1, h.w);
    LaterTrans(w0, w1, h.w);
    r := if executed.Done? then Done(false) else executed.PropagateFailure();
  }
}
