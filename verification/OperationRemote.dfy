/** The executor's remote mutations and its content comparisons. */
module OperationRemote {
  import opened Domain
  import opened OperationWorld
  import opened OperationActions
  import opened OperationHost
  import opened OperationExecutor

  /** A remote mutation under way: no pin, nothing parked. */
  ghost predicate Sending(w: World) {
    && IsRunning(w) && !w.job.IsLocal() && w.row.value.pin.None? && w.recovery == None && w.download == None
    && w.begun
  }

  lemma RelyKeepsSending(w: World, w': World)
    requires Sending(w) && Rely(w, w')
    ensures Sending(w') && Later(w, w') && w'.row == w.row && (Unapplied(w) ==> Unapplied(w'))
  {
  }

  /** What every attempt at a remote mutation leaves behind. */
  ghost predicate Sent(w: World, w': World, done: bool) {
    Later(w, w') && Sending(w') && w'.row == w.row && (done ==> w'.edits == 0 ==> w'.effects == 1)
  }

  /** The revision carries the bytes of the version at the path, and the
      expected local version is a known one. */
  ghost predicate Uploaded(w: World, fp: RemoteFingerprint) {
    && fp.present && fp.kind == KindFile
    && w.target.Some? && w.target.value.FileObj?
    && (fp.id, fp.rev) in w.remoteVersions && w.remoteVersions[(fp.id, fp.rev)] == w.target.value.content
    && LKey(w.job.expectedLocal) in w.localVersions
  }

  lemma ObservedIsKnown(w: World, fp: LocalFingerprint)
    requires Inv(w) && !w.job.IsLocal() && LogicalFp(w) == Ok(fp) && fp.present && fp.kind == KindFile
    ensures w.target.Some? && w.target.value.FileObj? && fp == FileFp(w.target.value)
    ensures LKey(fp) in w.localVersions && w.localVersions[LKey(fp)] == w.target.value.content
  {
    hide LogInv, QuietInv, Sound;
    InvParts(w);
  }

  lemma RemoteIsKnown(w: World)
    requires Inv(w) && w.remote.Some? && w.remote.value.RemoteFile?
    ensures (w.remote.value.id, w.remote.value.rev) in w.remoteVersions
    ensures w.remoteVersions[(w.remote.value.id, w.remote.value.rev)] == w.remote.value.content
  {
    hide LogInv, QuietInv, Sound;
    InvParts(w);
  }

  /** Both sides are as the plan expects them. */
  predicate Uploadable(w: World) {
    && w.job.expectedLocal.present && w.job.expectedLocal.kind == KindFile
    && LogicalFp(w).Ok? && LocalEquivalent(LogicalFp(w).value, w.job.expectedLocal)
    && RemoteMatches(RemoteOf(w.remote), w.job.expectedRemote, KindFile)
  }

  /** A well-formed new version: of the expected object, if there is one. */
  predicate WellVersioned(job: Job, fp: RemoteFingerprint) {
    && !Blank(fp.id) && !Blank(fp.rev)
    && (job.expectedRemote.absent || (fp.id == job.expectedRemote.id && fp.rev != job.expectedRemote.rev))
  }

  /** Upload: both sides are compared with the plan, then the conditional copy
      is made. */
  method Upload(h: Host) returns (r: Reply<RemoteFingerprint>)
    requires Inv(h.w) && Sending(h.w) && Unapplied(h.w) && h.w.job.kind == OpEnsureRemote &&
               h.w.job.entryKind == KindFile
    modifies h
    ensures Inv(h.w) && Sent(old(h.w), h.w, r.Done?)
    ensures r.Done? ==> Uploaded(h.w, r.value)
    ensures r.Failed? && h.w.edits == 0 ==> h.balked || !Uploadable(old(h.w))
    ensures r.Done? && h.w.edits == 0 ==> r.value == RemoteOf(h.w.remote)
    ensures r.Done? && h.w.edits == 0 ==> h.balked || WellVersioned(h.w.job, r.value)
    ensures old(h.balked) || r.Died? ==> h.balked
  {
    hide Inv, Rely, Later, LogicalFp, Blank;
    ghost var w0 := h.w;
    var checked := CheckUpload(h);
    RelyKeepsSending(w0, h.w);
    QuietIsStill(w0, h.w);
    if !checked.Done? { return checked.PropagateFailure(); }
    ghost var w1, v, key := h.w, h.w, ("", "");
    r, v, key := h.Upload();
    RelyKeepsSending(w1, v);
    QuietIsStill(w1, v);
    LaterTrans(w0, w1, h.w);
    LaterKnows(w1, h.w, LKey(h.w.job.expectedLocal));
  }

  /** The comparison of both sides with the plan. */
  method CheckUpload(h: Host) returns (r: Reply<()>)
    requires Inv(h.w) && !h.w.job.IsLocal()
    modifies h
    ensures Inv(h.w) && Rely(old(h.w), h.w)
    ensures r.Done? ==> LKey(h.w.job.expectedLocal) in h.w.localVersions
    ensures r.Failed? && h.w.edits == 0 ==> h.balked || !Uploadable(h.w)
    ensures r.Done? && h.w.edits == 0 ==> Uploadable(h.w) && h.w.target.Some? && h.w.target.value.FileObj?
    ensures old(h.balked) || r.Died? ==> h.balked
  {
    hide Inv, Rely, LogicalFp;
    ghost var w0 := h.w;
    RelyRefl(w0);
    if !h.w.job.expectedLocal.present || h.w.job.expectedLocal.kind != KindFile { return Failed; }
    var current := ObserveLocal(h);
    if !current.Done? { return current.PropagateFailure(); }
    if !LocalEquivalent(current.value, h.w.job.expectedLocal) { return Failed; }
    RelyKeepsJob(w0, h.w);
    ObservedIsKnown(h.w, current.value);
    ghost var w1 := h.w;
    var source := ObserveRemote(h);
    RelyIsLater(w1, h.w);
    QuietIsStill(w1, h.w);
    LaterKnows(w1, h.w, LKey(h.w.job.expectedLocal));
    RelyTrans(w0, w1, h.w);
    if !source.Done? { return source.PropagateFailure(); }
    r := if RemoteMatches(source.value, h.w.job.expectedRemote, KindFile) then Done(()) else Failed;
  }

  lemma RelyKeepsJob(w: World, w': World)
    requires Rely(w, w')
    ensures w'.job == w.job
  {
  }

  lemma LaterKnows(w: World, w': World, key: LocalKey)
    requires Later(w, w') && key in w.localVersions
    ensures key in w'.localVersions && w'.job == w.job
  {
  }

  /** EnsureRemoteDir. */
  method EnsureRemoteDir(h: Host) returns (r: Reply<()>)
    requires Inv(h.w) && Sending(h.w) && Unapplied(h.w) && h.w.job.kind == OpEnsureRemote &&
               h.w.job.entryKind == KindDir
    modifies h
    ensures Inv(h.w) && Sent(old(h.w), h.w, r.Done?)
    ensures r.Done? ==> h.w.job.expectedRemote.absent && h.w.remote.Some? && h.w.remote.value.RemoteDir?
    ensures r.Failed? && h.w.edits == 0 ==> h.balked || !old(h.w).job.expectedRemote.absent || old(h.w).remote.Some?
    ensures r.Done? && h.w.edits == 0 ==> h.balked || !Blank(RemoteOf(h.w.remote).id)
    ensures old(h.balked) || r.Died? ==> h.balked
  {
    hide Inv, Remembers, Later;
    ghost var w0 := h.w;
    LaterRefl(w0);
    if !h.w.job.expectedRemote.absent { return Failed; }
    var current := ObserveRemote(h);
    RelyKeepsSending(w0, h.w);
    QuietIsStill(w0, h.w);
    if !current.Done? { return current.PropagateFailure(); }
    if current.value.present { return Failed; }
    ghost var w1, v, id := h.w, h.w, "";
    r, v, id := h.MakeRemoteDir();
    RelyKeepsSending(w1, v);
    QuietIsStill(w1, v);
    LaterTrans(w0, w1, h.w);
  }

  /** The event took away the present object that the plan expected. */
  predicate RemovedExpected(w: World, e: Event) {
    e.RemoteChanged? && e.was.Some? && RemoteMatches(RemoteOf(e.was), w.job.expectedRemote, w.job.entryKind)
  }

  /** The expected object is there, and a directory is empty. */
  predicate Removable(w: World) {
    && w.remote.Some? && RemoteMatches(RemoteOf(w.remote), w.job.expectedRemote, w.job.entryKind)
    && !w.job.expectedRemote.absent && (w.remote.value.RemoteDir? ==> w.remote.value.empty)
  }

  /** DeleteRemoteFile and DeleteRemoteDir. */
  method DeleteRemote(h: Host) returns (r: Reply<()>)
    requires Inv(h.w) && Sending(h.w) && Unapplied(h.w) && h.w.job.kind == OpDeleteRemote
    modifies h
    ensures Inv(h.w) && Sent(old(h.w), h.w, r.Done?)
    ensures r.Done? ==> h.w.remote == None
    ensures r.Done? ==> h.w.log != [] && RemovedExpected(h.w, h.w.log[|h.w.log| - 1])
    ensures r.Failed? && h.w.edits == 0 ==> h.balked || !Removable(old(h.w))
    ensures old(h.balked) || r.Died? ==> h.balked
  {
    hide Inv, Remembers, Later;
    ghost var w0, v := h.w, h.w;
    LaterRefl(w0);
    if h.w.job.expectedRemote.absent ||
        (h.w.job.entryKind == KindDir && !Blank(h.w.job.expectedRemote.rev)) { return Failed; }
    r, v := h.DeleteRemote();
    RelyKeepsSending(w0, v);
    QuietIsStill(w0, v);
  }

  // ----- Content comparison -----

  /** Both fingerprints name known versions; same says whether of equal bytes. */
  ghost predicate Compared(w: World, local: LocalFingerprint, id: string, rev: string, same: bool) {
    && LKey(local) in w.localVersions && (id, rev) in w.remoteVersions
    && (same <==> w.localVersions[LKey(local)] == w.remoteVersions[(id, rev)])
  }

  lemma ComparedStays(w: World, w': World, local: LocalFingerprint, id: string, rev: string, same: bool)
    requires Compared(w, local, id, rev, same) && Later(w, w')
    ensures Compared(w', local, id, rev, same)
  {
  }

  /** A version that was seen, and is seen again, was there all the time. */
  lemma NeverReturns(a: World, b: World, c: World)
    requires Idles(a, b) && Idles(b, c)
    requires a.target.Some? && a.target.value.FileObj? && LKey(FileFp(a.target.value)) in a.localVersions
    requires c.target.Some? && c.target.value.FileObj? && LKey(FileFp(c.target.value)) == LKey(FileFp(a.target.value))
    ensures b.target == a.target && c.target == a.target
  {
  }

  /** Both sides are present files as they were planned, of one size. */
  predicate Comparable(w: World, local: LocalFingerprint, expected: RemoteExpectation) {
    && local.present && local.kind == KindFile && !expected.absent
    && LogicalFp(w).Ok? && LocalEquivalent(LogicalFp(w).value, local)
    && RemoteMatches(RemoteOf(w.remote), expected, KindFile) && RemoteOf(w.remote).size == local.size
  }

  /** CompareFileContent: an unchanged local file against the exact planned
      revision, checked before and after the bytes are read. */
  method CompareFileContent(h: Host, local: LocalFingerprint, expected: RemoteExpectation) returns (r: Reply<bool>)
    requires Inv(h.w) && !h.w.job.IsLocal()
    modifies h
    ensures Inv(h.w) && Rely(old(h.w), h.w)
    ensures r.Done? ==>
              local.present && local.kind == KindFile && Compared(h.w, local, expected.id, expected.rev, r.value)
    ensures r.Failed? && h.w.edits == 0 ==> h.balked || !Comparable(old(h.w), local, expected)
    ensures old(h.balked) || r.Died? ==> h.balked
  {
    hide Inv, Rely, Remembers, LogicalFp;
    ghost var w0 := h.w;
    RelyRefl(w0);
    if !local.present || local.kind != KindFile || expected.absent { return Failed; }
    var before := ObserveLocal(h);
    if !before.Done? { return before.PropagateFailure(); }
    if !LocalEquivalent(before.value, local) { return Failed; }
    QuietIsStill(w0, h.w);
    ghost var w1 := h.w;
    ObservedIsKnown(w1, before.value);
    var source := ObserveRemote(h);
    RelyTrans(w0, w1, h.w);
    QuietIsStill(w1, h.w);
    if !source.Done? { return source.PropagateFailure(); }
    if !RemoteMatches(source.value, expected, KindFile) || source.value.size != local.size { return Failed; }
    ghost var w2 := h.w;
    RemoteIsKnown(w2);
    var remoteBytes := h.w.remote.value.content;
    var read := h.Call();
    RelyTrans(w0, w2, h.w);
    QuietIsStill(w2, h.w);
    if !read.Done? { return read.PropagateFailure(); }
    if h.w.target.None? || !h.w.target.value.FileObj? { return Failed; }
    var equal := h.w.target.value.content == remoteBytes;
    ghost var w3 := h.w;
    RelyTrans(w1, w2, w3);
    r := ConfirmUnchanged(h, local, expected, equal, w1, w2);
    RelyTrans(w0, w3, h.w);
    QuietIsStill(w3, h.w);
  }

  /** The second half: both sides are still as they were before the read, so the
      bytes read are those of the two named versions. */
  method ConfirmUnchanged(
    h: Host, local: LocalFingerprint, expected: RemoteExpectation, equal: bool, ghost w1: World, ghost w2: World)
    returns (r: Reply<bool>)
    requires Inv(h.w) && !h.w.job.IsLocal() && Rely(w1, h.w) && Rely(w2, h.w)
    requires local.present && local.kind == KindFile && (expected.id, expected.rev) in w2.remoteVersions
    requires w1.target.Some? && w1.target.value.FileObj? && LKey(FileFp(w1.target.value)) == LKey(local)
    requires LKey(local) in w1.localVersions
    requires h.w.target.Some? && h.w.target.value.FileObj?
    requires equal <==> h.w.target.value.content == w2.remoteVersions[(expected.id, expected.rev)]
    modifies h
    ensures Inv(h.w) && Rely(old(h.w), h.w)
    ensures r.Done? ==> Compared(h.w, local, expected.id, expected.rev, r.value)
    ensures r.Failed? && h.w.edits == 0 ==> h.balked || !Comparable(old(h.w), local, expected)
    ensures old(h.balked) || r.Died? ==> h.balked
  {
    hide Inv, Rely, Remembers, LogicalFp, Compared;
    ghost var w3 := h.w;
    var after := ObserveLocal(h);
    if !after.Done? { return after.PropagateFailure(); }
    if !LocalEquivalent(after.value, local) { return Failed; }
    QuietIsStill(w3, h.w);
    ghost var w4 := h.w;
    ObservedIsKnown(w4, after.value);
    RelyIdles(w1, w3);
    RelyIdles(w3, w4);
    NeverReturns(w1, w3, w4);
    KnownLater(w2, w3, w4, expected.id, expected.rev);
    IsCompared(w4, local, expected, equal);
    var remote := ObserveRemote(h);
    RelyTrans(w3, w4, h.w);
    RelyIsLater(w4, h.w);
    QuietIsStill(w4, h.w);
    if !remote.Done? { return remote.PropagateFailure(); }
    if !RemoteMatches(remote.value, expected, KindFile) { return Failed; }
    ComparedStays(w4, h.w, local, expected.id, expected.rev, equal);
    r := Done(equal);
  }

  lemma IsCompared(w: World, local: LocalFingerprint, expected: RemoteExpectation, equal: bool)
    requires w.target.Some? && w.target.value.FileObj? && LKey(local) in w.localVersions
    requires w.localVersions[LKey(local)] == w.target.value.content && (expected.id, expected.rev) in w.remoteVersions
    requires equal <==> w.target.value.content == w.remoteVersions[(expected.id, expected.rev)]
    ensures Compared(w, local, expected.id, expected.rev, equal)
  {
  }

  lemma KnownLater(a: World, b: World, c: World, id: string, rev: string)
    requires Rely(a, b) && Rely(b, c) && (id, rev) in a.remoteVersions
    ensures (id, rev) in c.remoteVersions && c.remoteVersions[(id, rev)] == a.remoteVersions[(id, rev)]
  {
  }

  lemma PinnedIsKnown(w: World)
    requires Inv(w) && w.target.Some? && w.target.value.FileObj?
    ensures LKey(FileFp(w.target.value)) in w.localVersions
    ensures w.localVersions[LKey(FileFp(w.target.value))] == w.target.value.content
  {
    hide LogInv, QuietInv, Sound;
    InvParts(w);
  }

  lemma StagedIsExpected(w: World, w': World)
    requires Staged(w) && Rely(w, w') && w'.download.Some?
    ensures w'.download.value.FileObj? && w'.job == w.job
    ensures (w'.job.expectedRemote.id, w'.job.expectedRemote.rev) in w'.remoteVersions
    ensures w'.remoteVersions[(w'.job.expectedRemote.id, w'.job.expectedRemote.rev)] == w'.download.value.content
  {
  }

  /** What the pinned comparison says about the path at one moment during it. */
  ghost predicate PinnedVerdict(seen: World, same: bool) {
    if seen.target.Some? && seen.target.value.FileObj? then
      Compared(seen, FileFp(seen.target.value), seen.job.expectedRemote.id, seen.job.expectedRemote.rev, same)
    else !same
  }

  predicate ExpectedIsThere(w: World) {
    !w.job.expectedRemote.absent && RemoteMatches(RemoteOf(w.remote), w.job.expectedRemote, KindFile)
  }

  lemma IdlesQuietly(w: World, w': World)
    requires Idles(w, w')
    ensures w.edits <= w'.edits && w'.job == w.job
    ensures w'.edits == 0 ==> w'.target == w.target && w'.remote == w.remote
  {
  }

  /** ComparePinnedFileContent: the expected revision is staged beside the
      pinned path and compared byte for byte; the staging slot is cleared. */
  method ComparePinnedFileContent(h: Host) returns (r: Reply<bool>, ghost seen: World)
    requires Inv(h.w) && h.w.row.Some? && DownloadSlot in OwnedSlots(h.w.job, h.w.row.value) && h.w.job.IsDownload()
    modifies h
    ensures Inv(h.w) && Idles(old(h.w), h.w)
    ensures r.Done? ==> Idles(old(h.w), seen) && Idles(seen, h.w) && PinnedVerdict(seen, r.value)
    ensures r.Done? && r.value ==> h.w.download == None
    ensures r.Failed? && h.w.edits == 0 ==> h.balked || !ExpectedIsThere(old(h.w))
    ensures old(h.balked) || r.Died? ==> h.balked
  {
    hide Inv, Rely, Remembers, Idles, Staged, Compared;
    ghost var w0 := h.w;
    seen := w0;
    if h.w.job.expectedRemote.absent { IdlesRefl(w0); return Failed, w0; }
    var before := ObservePinned(h);
    RelyIdles(w0, h.w);
    if !before.Done? { return before.PropagateFailure(), w0; }
    if !before.value.1 || before.value.0.kind != KindFile {
      IdlesRefl(h.w);
      return Done(false), h.w;
    }
    ghost var w1 := h.w;
    IdlesQuietly(w0, w1);
    var cleared := h.Unstage();
    IdlesTrans(w0, w1, h.w);
    if !cleared.Done? { return Died, w0; }
    ghost var w2 := h.w;
    SlotStays(w0, w2);
    var staged := h.Stage();
    IdlesTrans(w0, w2, h.w);
    if staged.Died? { return Died, w0; }
    ghost var w3 := h.w;
    IdlesQuietly(w1, w2);
    IdlesQuietly(w2, w3);
    if staged.Done? {
      r, seen := CompareStaged(h, before.value.0);
      if r.Done? { IdlesTrans(w0, w3, seen); }
    } else {
      r := Failed;
      IdlesRefl(w3);
    }
    IdlesTrans(w0, w3, h.w);
    if r.Died? { return; }
    ghost var w4 := h.w;
    IdlesQuietly(w3, w4);
    var removed := h.Unstage();
    IdlesTrans(w0, w4, h.w);
    IdlesQuietly(w4, h.w);
    if r.Done? { IdlesTrans(seen, w4, h.w); }
    if removed.Died? { r := Died; }
  }

  lemma SlotStays(w: World, w': World)
    requires Idles(w, w')
    ensures w'.row == w.row && w'.job == w.job
  {
  }

  /** The comparison proper, with the revision staged. */
  method CompareStaged(h: Host, before: LocalFingerprint) returns (r: Reply<bool>, ghost seen: World)
    requires Inv(h.w) && Staged(h.w)
    modifies h
    ensures Inv(h.w) && Idles(old(h.w), h.w)
    ensures r.Done? ==> Idles(old(h.w), seen) && Idles(seen, h.w) && PinnedVerdict(seen, r.value)
    ensures r.Failed? && h.w.edits == 0 ==>
              || h.balked || !ExpectedIsThere(old(h.w)) || old(h.w).download.None?
              || !OrdinaryOrAbsent(old(h.w).target) || FpOf(old(h.w).target) != before || before.kind != KindFile
    ensures old(h.balked) || r.Died? ==> h.balked
  {
    hide Inv, Rely, Remembers, Idles, Staged, Compared;
    ghost var w0 := h.w;
    var read := h.Call();
    RelyIdles(w0, h.w);
    seen := h.w;
    QuietIsStill(w0, seen);
    if !read.Done? { return read.PropagateFailure(), w0; }
    if h.w.target.None? || !h.w.target.value.FileObj? || h.w.download.None? { return Failed, w0; }
    StagedIsExpected(w0, seen);
    PinnedIsKnown(seen);
    var equal := h.w.target.value.content == h.w.download.value.content;
    assert PinnedVerdict(seen, equal) by { VerdictFrom(seen, equal); }
    var after := ObservePinned(h);
    RelyIdles(seen, h.w);
    IdlesTrans(w0, seen, h.w);
    QuietIsStill(seen, h.w);
    if !after.Done? { return after.PropagateFailure(), w0; }
    if !after.value.1 || !LocalEquivalent(after.value.0, before) { return Failed, w0; }
    ghost var w1 := h.w;
    var remote := ObserveRemote(h);
    RelyIdles(w1, h.w);
    IdlesTrans(w0, w1, h.w);
    QuietIsStill(w1, h.w);
    IdlesTrans(seen, w1, h.w);
    if !remote.Done? { return remote.PropagateFailure(), w0; }
    if !RemoteMatches(remote.value, h.w.job.expectedRemote, KindFile) { return Failed, w0; }
    r := Done(equal);
  }

  lemma VerdictFrom(w: World, same: bool)
    requires w.target.Some? && w.target.value.FileObj?
    requires LKey(FileFp(w.target.value)) in w.localVersions
    requires (w.job.expectedRemote.id, w.job.expectedRemote.rev) in w.remoteVersions
    requires same <==>
               w.localVersions[LKey(FileFp(w.target.value))] == w.remoteVersions[(w.job.expectedRemote.id,
               w.job.expectedRemote.rev)]
    ensures PinnedVerdict(w, same)
  {
  }
}
