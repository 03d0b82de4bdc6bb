/** Proving, from observations alone, that an operation whose outcome is
    unknown has completed. */
module OperationProof {
  import opened Domain
  import opened OperationWorld
  import opened OperationActions
  import opened OperationHost
  import opened OperationExecutor
  import opened OperationRemote

  /** Fingerprints that would be committed are a sound baseline. */
  ghost predicate Consistent(w: World, local: LocalFingerprint, remote: RemoteFingerprint) {
    local.present && remote.present && local.kind == remote.kind ==> Sound(w, local, remote)
  }

  lemma ConsistentStays(w: World, w': World, local: LocalFingerprint, remote: RemoteFingerprint)
    requires Consistent(w, local, remote) && Later(w, w')
    ensures Consistent(w', local, remote)
  {
  }

  datatype Verdict = Verdict(satisfied: bool, local: LocalFingerprint, remote: RemoteFingerprint)

  /** As far as nobody else wrote, the fingerprints are those of the present
      state. */
  ghost predicate Observed(w: World, local: LocalFingerprint, remote: RemoteFingerprint) {
    w.edits == 0 ==> OrdinaryOrAbsent(w.target) && local == FpOf(w.target) && remote == RemoteOf(w.remote)
  }

  /** The verdict is right as far as nobody else wrote, and sound in any case. */
  ghost predicate Judged(w: World, v: Verdict) {
    && (w.edits == 0 ==> (v.satisfied <==> Proven(w.job, w.target, w.remote)))
    && (v.satisfied ==> Consistent(w, v.local, v.remote) && Settled(w.job, v.local, v.remote) && w.download == None)
    && (v.satisfied ==> Observed(w, v.local, v.remote))
  }

  lemma DownloadsOnly(w: World)
    requires Inv(w) && !w.job.IsDownload()
    ensures w.download == None
  {
    hide JournalInv, VersionInv, BaselineInv, LogInv, QuietInv;
  }

  /** The local side as recovery observes it: the pinned path of a local
      mutation, the logical path otherwise. */
  method ObservePostState(h: Host) returns (r: Reply<(LocalFingerprint, bool)>)
    requires Inv(h.w)
    modifies h
    ensures Inv(h.w) && Rely(old(h.w), h.w)
    ensures r.Done? && h.w.job.IsLocal() ==> r.value == (FpOf(h.w.target), OrdinaryOrAbsent(h.w.target))
    ensures r.Done? && !h.w.job.IsLocal() ==> LogicalFp(h.w) == Ok(r.value.0) && r.value.1
    ensures r.Failed? ==> h.balked || (!h.w.job.IsLocal() && LogicalFp(h.w).Err?)
    ensures old(h.balked) || r.Died? ==> h.balked
  {
    if h.w.job.IsLocal() {
      r := ObservePinned(h);
    } else {
      var fp :- ObserveLocal(h);
      r := Done((fp, true));
    }
  }

  /** For a remote operation the logical observation is that of an ordinary path. */
  lemma LogicalIsOrdinary(w: World, fp: LocalFingerprint)
    requires Inv(w) && !w.job.IsLocal() && LogicalFp(w) == Ok(fp)
    ensures fp == FpOf(w.target) && OrdinaryOrAbsent(w.target)
  {
    hide SlotInv, BaselineInv, LogInv, QuietInv;
  }

  /** observeStablePair: nothing changed since the comparison. */
  method ObserveStable(h: Host, local: LocalFingerprint, remote: RemoteFingerprint)
    returns (r: Reply<(LocalFingerprint, RemoteFingerprint)>, ghost seen: World)
    requires Inv(h.w)
    modifies h
    ensures Inv(h.w) && Rely(old(h.w), h.w) && Rely(old(h.w), seen) && Rely(seen, h.w)
    ensures r.Done? ==>
              && LocalEquivalent(r.value.0, local) && RemoteEquivalent(r.value.1, remote)
              && r.value.0 == FpOf(seen.target) && OrdinaryOrAbsent(seen.target) && Inv(seen)
              && r.value.1 == RemoteOf(h.w.remote)
    ensures r.Failed? && h.w.edits == 0 ==>
              || h.balked || !OrdinaryOrAbsent(h.w.target) || (!h.w.job.IsLocal() && LogicalFp(h.w).Err?)
              || !LocalEquivalent(FpOf(h.w.target), local) || !RemoteEquivalent(RemoteOf(h.w.remote), remote)
    ensures old(h.balked) || r.Died? ==> h.balked
  {
    hide Inv, Rely;
    ghost var w0 := h.w;
    RelyRefl(w0);
    var post := ObservePostState(h);
    seen := h.w;
    RelyRefl(seen);
    if !post.Done? { return post.PropagateFailure(), seen; }
    if !post.value.1 { return Failed, seen; }
    if !h.w.job.IsLocal() { LogicalIsOrdinary(h.w, post.value.0); }
    var after := ObserveRemote(h);
    RelyTrans(w0, seen, h.w);
    QuietIsStill(seen, h.w);
    if !after.Done? { return after.PropagateFailure(), seen; }
    if !LocalEquivalent(post.value.0, local) || !RemoteEquivalent(after.value, remote) { return Failed, seen; }
    r := Done((post.value.0, after.value));
  }

  // ----- Uploads -----

  /** The checks recovery makes before it compares bytes. */
  predicate UploadPlausible(job: Job, local: LocalFingerprint, remote: RemoteFingerprint) {
    && LocalEquivalent(local, job.expectedLocal) && local.present && remote.present && remote.kind == KindFile
    && local.size == remote.size
    && !(!job.expectedRemote.absent && remote.id == job.expectedRemote.id && remote.rev == job.expectedRemote.rev)
  }

  lemma UploadJudged(w: World, local: LocalFingerprint, remote: RemoteFingerprint, equal: bool)
    requires Inv(w) && w.job.kind == OpEnsureRemote && w.job.entryKind == KindFile
    requires local == FpOf(w.target) && OrdinaryOrAbsent(w.target) && remote == RemoteOf(w.remote)
    requires UploadPlausible(w.job, local, remote) && local.kind == KindFile ==>
               Compared(w, local, remote.id, remote.rev, equal)
    requires !UploadPlausible(w.job, local, remote) || local.kind != KindFile ==> !equal
    ensures equal <==> Proven(w.job, w.target, w.remote)
  {
    hide JournalInv, SlotInv, BaselineInv, LogInv, QuietInv;
    InvParts(w);
  }

  lemma CommittedIsSound(
    w1: World, w2: World, local: LocalFingerprint, remote: RemoteFingerprint, local2: LocalFingerprint,
    remote2: RemoteFingerprint)
    requires Compared(w1, local, remote.id, remote.rev, true) && Later(w1, w2)
    requires LocalEquivalent(local2, local) && local.kind == KindFile && RemoteEquivalent(remote2, remote) &&
               remote.kind == KindFile
    ensures Consistent(w2, local2, remote2)
  {
  }

  lemma PlausibleIsComparable(w: World)
    requires Inv(w) && !w.job.IsLocal()
    ensures var (local, remote) := (FpOf(w.target), RemoteOf(w.remote));
            UploadPlausible(w.job, local, remote) && LogicalFp(w).Ok? ==>
              local.kind == w.job.expectedLocal.kind && w.job.expectedLocal.present &&
              (local.kind == KindFile ==> Comparable(w, local, ExpectationOf(remote)))
  {
    hide Inv;
    if LogicalFp(w).Ok? { LogicalIsOrdinary(w, LogicalFp(w).value); }
  }

  /** The proof for an upload: the expected local version still stands, the
      remote one is new, and their bytes are equal. */
  method ProveUpload(h: Host, local: LocalFingerprint, remote: RemoteFingerprint, ghost w0: World)
    returns (r: Reply<Verdict>)
    requires Inv(h.w) && Rely(w0, h.w) && h.w.job.kind == OpEnsureRemote && h.w.job.entryKind == KindFile
    requires local == FpOf(w0.target) && OrdinaryOrAbsent(w0.target) && remote == RemoteOf(h.w.remote)
    modifies h
    ensures Inv(h.w) && Rely(old(h.w), h.w)
    ensures r.Done? ==> Judged(h.w, r.value)
    ensures r.Failed? && h.w.edits == 0 ==>
              || h.balked || LogicalFp(h.w).Err?
              || (h.w.job.expectedLocal.present && h.w.job.expectedLocal.kind != KindFile)
    ensures old(h.balked) || r.Died? ==> h.balked
  {
    hide Inv, Rely, Remembers, Compared, Proven, UploadPlausible, Consistent, Settled;
    ghost var w1 := h.w;
    RelyRefl(w1);
    QuietIsStill(w0, w1);
    if !UploadPlausible(h.w.job, local, remote) {
      DownloadsOnly(w1);
      if w1.edits == 0 { UploadJudged(w1, local, remote, false); }
      return Done(Verdict(false, local, remote));
    }
    var equal := CompareFileContent(h, local, ExpectationOf(remote));
    QuietIsStill(w1, h.w);
    PlausibleIsComparable(w1);
    if !equal.Done? { return equal.PropagateFailure(); }
    ghost var w2 := h.w;
    DownloadsOnly(w2);
    PlausibleIds(w1, local, remote);
    if w2.edits == 0 { UploadJudged(w2, local, remote, equal.value); }
    if !equal.value { return Done(Verdict(false, local, remote)); }
    var pair, seen := ObserveStable(h, local, remote);
    QuietIsStill(w2, h.w);
    RelyTrans(w1, w2, h.w);
    if !pair.Done? { return pair.PropagateFailure(); }
    RelyIsLater(w2, h.w);
    CommittedIsSound(w2, h.w, local, remote, pair.value.0, pair.value.1);
    UploadSettles(h.w.job, local, remote, pair.value.0, pair.value.1);
    QuietIsStill(seen, h.w);
    DownloadsOnly(h.w);
    r := Done(Verdict(true, pair.value.0, pair.value.1));
  }

  lemma UploadSettles(
    job: Job, local: LocalFingerprint, remote: RemoteFingerprint, local2: LocalFingerprint, remote2: RemoteFingerprint)
    requires UploadPlausible(job, local, remote) && job.kind == OpEnsureRemote
    requires LocalEquivalent(local2, local) && RemoteEquivalent(remote2, remote)
    ensures Settled(job, local2, remote2)
  {
  }

  lemma PlausibleIds(w: World, local: LocalFingerprint, remote: RemoteFingerprint)
    requires UploadPlausible(w.job, local, remote)
    ensures ExpectationOf(remote) == RemoteExpectation(false, remote.id, remote.rev) && remote.present &&
              remote.kind == KindFile
  {
  }

  // ----- Downloads -----

  predicate DownloadPlausible(job: Job, local: LocalFingerprint, ordinary: bool, remote: RemoteFingerprint) {
    && ordinary && RemoteMatches(remote, job.expectedRemote, KindFile)
    && local.present && local.kind == KindFile && local.size == remote.size
  }

  lemma DownloadJudged(w: World, same: bool)
    requires Inv(w) && w.job.IsDownload()
    requires var local, remote := FpOf(w.target), RemoteOf(w.remote);
             if DownloadPlausible(w.job, local, OrdinaryOrAbsent(w.target), remote) then
                 PinnedVerdict(w, same) && !w.job.expectedRemote.absent
             else !same
    ensures same <==> Proven(w.job, w.target, w.remote)
  {
    hide JournalInv, SlotInv, BaselineInv, LogInv, QuietInv;
    InvParts(w);
  }

  lemma QuietIdles(w: World, w': World)
    requires Idles(w, w')
    ensures w'.edits == 0 ==> w.edits == 0 && w'.target == w.target && w'.remote == w.remote
    ensures w'.job == w.job && w'.row == w.row && Later(w, w')
  {
  }

  lemma VerdictMoves(seen: World, w: World, same: bool)
    requires PinnedVerdict(seen, same) && Idles(seen, w) && w.target == seen.target
    ensures PinnedVerdict(w, same)
  {
  }

  /** The version compared is the one seen before and after. */
  lemma DownloadIsSound(
    w0: World, seen: World, w1: World, w2: World, local2: LocalFingerprint, remote2: RemoteFingerprint)
    requires Inv(w0) && w0.target.Some? && w0.target.value.FileObj?
    requires Idles(w0, seen) && Idles(seen, w1) && PinnedVerdict(seen, true)
    requires OrdinaryOrAbsent(w1.target) && LocalEquivalent(local2, FpOf(w0.target)) && local2 == FpOf(w1.target)
    requires RemoteMatches(remote2, w0.job.expectedRemote, KindFile) && !w0.job.expectedRemote.absent
    requires Idles(w1, w2)
    ensures Consistent(w2, local2, remote2)
  {
    hide Inv, Remembers, Compared;
    PinnedIsKnown(w0);
    NeverReturns(w0, seen, w1);
    QuietIdles(w0, seen);
    ComparedIsSound(seen, w1, w2, local2, remote2);
  }

  lemma ComparedIsSound(seen: World, w1: World, w2: World, local2: LocalFingerprint, remote2: RemoteFingerprint)
    requires seen.target.Some? && seen.target.value.FileObj? && PinnedVerdict(seen, true)
    requires Idles(seen, w1) && Idles(w1, w2) && local2 == FpOf(seen.target)
    requires RemoteMatches(remote2, seen.job.expectedRemote, KindFile) && !seen.job.expectedRemote.absent
    ensures Consistent(w2, local2, remote2)
  {
    QuietIdles(seen, w1);
    QuietIdles(w1, w2);
    LaterTrans(seen, w1, w2);
  }

  /** The proof for a download: the pinned file has the bytes of the expected
      revision, which is still the remote one. */
  method ProveDownload(h: Host, local: LocalFingerprint, ordinary: bool, remote: RemoteFingerprint, ghost w0: World)
    returns (r: Reply<Verdict>)
    requires Inv(h.w) && Inv(w0) && Rely(w0, h.w) && h.w.job.IsDownload()
    requires h.w.row.Some? && DownloadSlot in OwnedSlots(h.w.job, h.w.row.value)
    requires local == FpOf(w0.target) && ordinary == OrdinaryOrAbsent(w0.target) && remote == RemoteOf(h.w.remote)
    modifies h
    ensures Inv(h.w) && Idles(old(h.w), h.w)
    ensures r.Done? ==> Judged(h.w, r.value)
    ensures r.Failed? && h.w.edits == 0 ==> h.balked || h.w.job.expectedRemote.absent
    ensures old(h.balked) || r.Died? ==> h.balked
  {
    hide Inv, Rely, Idles, PinnedVerdict, Proven, DownloadPlausible, Consistent, Settled;
    ghost var w1 := h.w;
    IdlesRefl(w1);
    RelyIdles(w0, w1);
    QuietIdles(w0, w1);
    if !DownloadPlausible(h.w.job, local, ordinary, remote) {
      if w1.edits == 0 { DownloadJudged(w1, false); }
      return Done(Verdict(false, local, remote));
    }
    PlausibleDownload(h.w.job, local, ordinary, remote);
    if h.w.job.expectedRemote.absent { return Failed; }
    var equal, seen := ComparePinnedFileContent(h);
    if !equal.Done? { return equal.PropagateFailure(); }
    ghost var w2 := h.w;
    QuietIdles(w1, w2);
    QuietIdles(seen, w2);
    QuietIdles(w1, seen);
    if w2.edits == 0 {
      VerdictMoves(seen, w2, equal.value);
      DownloadJudged(w2, equal.value);
    }
    if !equal.value { return Done(Verdict(false, local, remote)); }
    var pair, after := ObserveStable(h, local, remote);
    RelyIdles(w2, h.w);
    IdlesTrans(w1, w2, h.w);
    if !pair.Done? { return pair.PropagateFailure(); }
    IdlesTrans(w0, w1, seen);
    RelyIdles(w2, after);
    IdlesTrans(seen, w2, after);
    RelyIdles(after, h.w);
    StillPlausible(h.w.job, remote, pair.value.1);
    DownloadSettles(h.w.job, local, ordinary, remote, pair.value.0, pair.value.1);
    QuietIdles(after, h.w);
    DownloadIsSound(w0, seen, after, h.w, pair.value.0, pair.value.1);
    QuietIdles(w2, h.w);
    DownloadStays(w2, h.w);
    r := Done(Verdict(true, pair.value.0, pair.value.1));
  }

  lemma PlausibleDownload(job: Job, local: LocalFingerprint, ordinary: bool, remote: RemoteFingerprint)
    requires DownloadPlausible(job, local, ordinary, remote)
    ensures ordinary && local.present && local.kind == KindFile && RemoteMatches(remote, job.expectedRemote, KindFile)
  {
  }

  lemma DownloadSettles(
    job: Job, local: LocalFingerprint, ordinary: bool, remote: RemoteFingerprint, local2: LocalFingerprint,
    remote2: RemoteFingerprint)
    requires DownloadPlausible(job, local, ordinary, remote) && job.IsDownload()
    requires LocalEquivalent(local2, local) && RemoteEquivalent(remote2, remote)
    ensures Settled(job, local2, remote2)
  {
  }

  lemma StillPlausible(job: Job, remote: RemoteFingerprint, remote2: RemoteFingerprint)
    requires RemoteMatches(remote, job.expectedRemote, KindFile) && RemoteEquivalent(remote2, remote)
    ensures RemoteMatches(remote2, job.expectedRemote, KindFile)
  {
  }

  lemma DownloadStays(w: World, w': World)
    requires Rely(w, w')
    ensures w.download == None ==> w'.download == None
  {
  }

  // ----- proveRecoveredPostcondition -----

  /** The kinds decided by the two observations alone. */
  function DecideByLooking(job: Job, local: LocalFingerprint, ordinary: bool, remote: RemoteFingerprint): bool {
    && ordinary
    && match job.kind
       case OpDeleteRemote => !local.present && !remote.present
       case OpDeleteLocal => !local.present && !remote.present
       case OpEnsureRemote =>
         LocalEquivalent(local, job.expectedLocal) && local.present && remote.present && remote.kind == KindDir
       case OpEnsureLocal =>
         RemoteMatches(remote, job.expectedRemote, job.entryKind) && local.present && local.kind == KindDir
  }

  lemma LookingJudges(w: World)
    requires w.job.entryKind == KindDir || w.job.kind == OpDeleteRemote || w.job.kind == OpDeleteLocal
    ensures DecideByLooking(w.job, FpOf(w.target), OrdinaryOrAbsent(w.target), RemoteOf(w.remote)) <==>
              Proven(w.job, w.target, w.remote)
  {
  }

  lemma LookingIsSound(w: World, local: LocalFingerprint, ordinary: bool, remote: RemoteFingerprint)
    requires w.job.entryKind == KindDir || w.job.kind == OpDeleteRemote || w.job.kind == OpDeleteLocal
    requires DecideByLooking(w.job, local, ordinary, remote)
    ensures Consistent(w, local, remote) && Settled(w.job, local, remote) && ordinary
  {
  }

  /** The path of a remote operation shows no file or directory, or one that its
      kind of entry cannot be. */
  predicate Unreadable(w: World) {
    && !w.job.IsLocal()
    && (LogicalFp(w).Err? || (w.job.expectedLocal.present && w.job.expectedLocal.kind != w.job.entryKind))
  }

  method Prove(h: Host) returns (r: Reply<Verdict>)
    requires Inv(h.w) && h.w.begun && h.w.row.Some?
    modifies h
    ensures Inv(h.w) && Idles(old(h.w), h.w)
    ensures r.Done? ==> Judged(h.w, r.value)
    ensures r.Failed? && h.w.edits == 0 ==> h.balked || Unreadable(h.w)
    ensures old(h.balked) || r.Died? ==> h.balked
  {
    hide Inv, Rely, Idles, Judged, Proven, Consistent, DecideByLooking;
    ghost var w0 := h.w;
    var post := ObservePostState(h);
    RelyIdles(w0, h.w);
    QuietIdles(w0, h.w);
    if !post.Done? { return post.PropagateFailure(); }
    var local, ordinary := post.value.0, post.value.1;
    ghost var w1 := h.w;
    if !w1.job.IsLocal() { LogicalIsOrdinary(w1, local); }
    var observed := ObserveRemote(h);
    RelyIdles(w1, h.w);
    QuietIdles(w1, h.w);
    IdlesTrans(w0, w1, h.w);
    if !observed.Done? { return observed.PropagateFailure(); }
    var remote := observed.value;
    ghost var w2 := h.w;
    if h.w.job.kind == OpEnsureRemote && h.w.job.entryKind != KindDir {
      FileJob(h.w);
      r := ProveUpload(h, local, remote, w1);
      RelyIdles(w2, h.w);
      IdlesTrans(w0, w2, h.w);
    } else if h.w.job.kind == OpEnsureLocal && h.w.job.entryKind != KindDir {
      FileJob(h.w);
      OwnsSlots(h.w);
      BegunChecked(w0);
      r := ProveDownload(h, local, ordinary, remote, w1);
      IdlesTrans(w0, w2, h.w);
      QuietIdles(w2, h.w);
    } else {
      var satisfied := DecideByLooking(h.w.job, local, ordinary, remote);
      DownloadsOnly(w2);
      LookedAt(w1, w2, local, ordinary, remote);
      r := Done(Verdict(satisfied, local, remote));
    }
  }

  lemma FileJob(w: World)
    requires Inv(w) && w.job.entryKind != KindDir
    ensures w.job.entryKind == KindFile
  {
  }

  lemma BegunChecked(w: World)
    requires Inv(w) && w.begun && w.job.IsDownload()
    ensures !w.job.expectedRemote.absent
  {
    hide SlotInv, VersionInv, BaselineInv, LogInv, QuietInv;
  }

  lemma OwnsSlots(w: World)
    requires Inv(w) && w.begun && w.row.Some? && w.job.IsDownload()
    ensures DownloadSlot in OwnedSlots(w.job, w.row.value)
  {
    hide SlotInv, VersionInv, BaselineInv, LogInv, QuietInv;
  }

  lemma LookedAt(w1: World, w2: World, local: LocalFingerprint, ordinary: bool, remote: RemoteFingerprint)
    requires Rely(w1, w2) && w2.download == None
    requires w2.job.entryKind == KindDir || w2.job.kind == OpDeleteRemote || w2.job.kind == OpDeleteLocal
    requires local == FpOf(w1.target) && ordinary == OrdinaryOrAbsent(w1.target) && remote == RemoteOf(w2.remote)
    ensures Judged(w2, Verdict(DecideByLooking(w2.job, local, ordinary, remote), local, remote))
  {
    hide Rely, Proven, Consistent, DecideByLooking, Settled;
    QuietIsStill(w1, w2);
    LookingJudges(w2);
    if DecideByLooking(w2.job, local, ordinary, remote) { LookingIsSound(w2, local, ordinary, remote); }
  }
}
