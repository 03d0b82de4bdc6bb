/** The executor's work on artifacts that an earlier process left behind. */
module OperationRecovery {
  import opened Domain
  import opened OperationWorld
  import opened OperationActions
  import opened OperationHost
  import opened OperationExecutor
  import opened OperationRemote

  /** CleanupLocalDownloadArtifact. */
  method CleanupLocalDownloadArtifact(h: Host) returns (r: Reply<()>)
    requires Inv(h.w)
    modifies h
    ensures Inv(h.w) && Idles(old(h.w), h.w)
    ensures r.Done? ==> h.w.download == None
    ensures old(h.w).download == None ==> h.w.download == None
    ensures r.Failed? ==> h.balked
    ensures old(h.balked) || r.Died? ==> h.balked
  {
    hide Inv, Remembers;
    ghost var w0 := h.w;
    var ctx := h.Call();
    RelyIdles(w0, h.w);
    if !ctx.Done? { return ctx; }
    ghost var w1 := h.w;
    r := h.Unstage();
    IdlesTrans(w0, w1, h.w);
  }

  /** LocalRecoveryArtifact: whether the slot holds anything. */
  method LocalRecoveryArtifact(h: Host) returns (r: Reply<bool>)
    requires Inv(h.w)
    modifies h
    ensures Inv(h.w) && Rely(old(h.w), h.w)
    ensures r.Done? ==> (r.value <==> h.w.recovery.Some?)
    ensures r.Failed? ==> h.balked
    ensures old(h.balked) || r.Died? ==> h.balked
  {
    var _ :- h.Call();
    r := Done(h.w.recovery.Some?);
  }

  /** The postcondition of the operation is proven; only its slot may be left. */
  ghost predicate CleanupDue(w: World) {
    && w.row.Some? && w.row.value.phase == Recovering && w.row.value.pin.Some? && w.authority == w.row.value.pin
    && (w.edits == 0 && w.recovery.Some? ==> if w.job.kind == OpDeleteLocal then w.effects == 0 else w.effects == 1)
  }

  lemma CleanupStaysDue(w: World, w': World)
    requires CleanupDue(w) && Rely(w, w')
    ensures CleanupDue(w') && Later(w, w') && w'.row == w.row && NoNewDownload(w, w') && w'.log == w.log
    ensures w.recovery == None ==> w'.recovery == None
  {
  }

  /** os.Stat of the slot reports that nothing is there although a link is. */
  predicate Dangles(w: World) {
    w.recovery.Some? && w.authority.Some? && w.authority.value.linkText.None? && w.recovery.value.StatIdent().None?
  }

  /** What a look at the slot shows is the expected state: lstat for an ordinary
      pin, the link's text and what it projects for a copied link. */
  predicate ShowsExpected(slot: Option<Obj>, pin: Pin, job: Job) {
    if pin.linkText.Some? then
      && slot.Some? && slot.value.LinkObj? && slot.value.text == pin.linkText.value
      && StatFp(slot).Ok? && LocalEquivalent(StatFp(slot).value, job.expectedLocal)
    else slot.Some? && LstatFp(slot).Ok? && LocalEquivalent(LstatFp(slot).value, job.expectedLocal)
  }

  /** The last event unlinks the object that was in the slot before, which is an
      expected one exactly when a look at the slot would have shown it. */
  ghost predicate UnlinksWhatWasThere(w: World, w': World, pin: Pin) {
    && w.recovery.Some? && w.log < w'.log
    && var e := w'.log[|w'.log| - 1];
    && e.Unlinked? && e.o == w.recovery.value && e.at.phase == Recovering
    && (IsExpected(e.o, pin, w.job) <==> ShowsExpected(w.recovery, pin, w.job))
  }

  /** The slot's object is not the pinned one, or cannot be removed. */
  predicate Unremovable(w: World) {
    w.recovery.Some? && w.authority.Some? &&
        (!PassesIdentityCheck(w.recovery.value, w.authority.value) || Crowded(w.recovery))
  }

  /** CleanupLocalRecoveryArtifact: a copied symlink goes by its text, anything
      else by the identity that os.Stat reports. os.Stat follows a link that has
      got into the slot: one that resolves to the pinned object is removed, and
      a dangling one is taken for an empty slot. seen is the state at the check. */
  method CleanupLocalRecoveryArtifact(h: Host) returns (r: Reply<()>, ghost seen: World)
    requires Inv(h.w) && CleanupDue(h.w)
    modifies h
    ensures Inv(h.w) && Later(old(h.w), h.w) && h.w.row == old(h.w).row && NoNewDownload(old(h.w), h.w)
    ensures old(h.w).recovery == None ==> h.w.recovery == None && h.w.effects == old(h.w).effects
    ensures r.Done? ==> Rely(old(h.w), seen) && (h.w.recovery.Some? <==> Dangles(seen))
    ensures r.Done? && h.w.recovery.Some? ==> h.w.edits > 0 && JustOverlooked(h.w.log, h.w.parent)
    ensures r.Done? && h.w.edits == old(h.w).edits && old(h.w).recovery.Some? ==>
              if Dangles(old(h.w)) then h.w.recovery == old(h.w).recovery
              else UnlinksWhatWasThere(old(h.w), h.w, h.w.row.value.pin.value)
    ensures h.w.edits == 0 && r.Done? ==> old(h.w).recovery.Some? ==> h.w.effects == 1
    ensures h.w.edits == 0 ==> h.w.target == old(h.w).target && h.w.remote == old(h.w).remote
    ensures r.Failed? && h.w.edits == 0 ==> h.balked || Unremovable(old(h.w))
    ensures old(h.balked) || r.Died? ==> h.balked
  {
    hide Inv, Rely, Later, IsExpected, Holder, PassesIdentityCheck, Dangles, UnlinksWhatWasThere, CleanupDue;
    ghost var w0 := h.w;
    r := TwoCalls(h);
    seen := h.w;
    CleanupStaysDue(w0, seen);
    QuietSame(w0, seen);
    if !r.Done? { return; }
    r := CleanLooked(h);
    LaterTrans(w0, seen, h.w);
    if r.Done? && h.w.edits == w0.edits && w0.recovery.Some? && !Dangles(w0) { UnlinkedWasThere(w0, h.w); }
  }

  /** The context check and the stat. */
  method TwoCalls(h: Host) returns (r: Reply<()>)
    requires Inv(h.w)
    modifies h
    ensures Inv(h.w) && Rely(old(h.w), h.w)
    ensures r.Failed? ==> h.balked
    ensures old(h.balked) || r.Died? ==> h.balked
  {
    hide Inv, Rely;
    ghost var w0 := h.w;
    r := h.Call();
    if !r.Done? { return; }
    ghost var w1 := h.w;
    r := h.Call();
    RelyTrans(w0, w1, h.w);
  }

  /** What follows on what the stat showed. */
  method CleanLooked(h: Host) returns (r: Reply<()>)
    requires Inv(h.w) && CleanupDue(h.w)
    modifies h
    ensures Inv(h.w) && Later(old(h.w), h.w) && h.w.row == old(h.w).row && NoNewDownload(old(h.w), h.w) &&
              old(h.w).edits <= h.w.edits
    ensures old(h.w).recovery == None ==> h.w.recovery == None && h.w.effects == old(h.w).effects
    ensures r.Done? ==> (h.w.recovery.Some? <==> Dangles(old(h.w)))
    ensures r.Done? && h.w.recovery.Some? ==>
              h.w.edits > 0 && JustOverlooked(h.w.log, h.w.parent) && h.w.recovery == old(h.w).recovery
    ensures r.Done? && h.w.edits == old(h.w).edits && old(h.w).recovery.Some? && !Dangles(old(h.w)) ==>
              var o, d := old(h.w).recovery.value, old(h.w).parent;
              h.w.log == old(h.w).log + [Identified(o, d), Unlinked(o, old(h.w).Now())]
    ensures h.w.edits == 0 && r.Done? ==> old(h.w).recovery.Some? ==> h.w.effects == 1
    ensures h.w.edits == 0 ==> h.w.target == old(h.w).target && h.w.remote == old(h.w).remote
    ensures r.Failed? && h.w.edits == 0 ==> h.balked || Unremovable(old(h.w))
    ensures old(h.balked) || r.Died? ==> h.balked
  {
    hide Inv, Rely, Later, IsExpected, Holder, PassesIdentityCheck, Dangles;
    ghost var seen := h.w;
    LaterRefl(seen);
    if h.w.recovery == None { EmptyDoesNotDangle(seen); return Done(()); }
    var o, pin := h.w.recovery.value, h.w.row.value.pin.value;
    if pin.linkText.None? && o.StatIdent().None? {
      DanglingIsNotQuiet(h.w);
      h.Overlook();
      BusyIsLater(seen, h.w);
      return Done(());
    }
    if !PassesIdentityCheck(o, pin) { return Failed; }
    PassingDoesNotDangle(seen);
    DueMayIdentify(seen);
    r := UnlinkIdentified(h);
  }

  lemma EmptyDoesNotDangle(w: World)
    requires w.recovery == None
    ensures !Dangles(w)
  {
  }

  lemma PassingDoesNotDangle(w: World)
    requires CleanupDue(w) && w.recovery.Some? && PassesIdentityCheck(w.recovery.value, w.row.value.pin.value)
    ensures !Dangles(w)
  {
  }

  lemma DueMayIdentify(w: World)
    requires Inv(w) && CleanupDue(w) && w.recovery.Some? && PassesIdentityCheck(w.recovery.value, w.row.value.pin.value)
    ensures CanIdentify(w)
  {
    hide SlotInv, BaselineInv, LogInv, QuietInv;
  }

  lemma UnlinkedWasThere(w0: World, w: World)
    requires CleanupDue(w0) && w0.recovery.Some?
    requires w.log == w0.log + [Identified(w0.recovery.value, w0.parent), Unlinked(w0.recovery.value, w0.Now())]
    ensures UnlinksWhatWasThere(w0, w, w0.row.value.pin.value)
  {
  }

  /** The check passed; unlink what is in the slot, which may be gone by now. */
  method UnlinkIdentified(h: Host) returns (r: Reply<()>)
    requires Inv(h.w) && CleanupDue(h.w) && CanIdentify(h.w)
    modifies h
    ensures Inv(h.w) && Later(old(h.w), h.w) && h.w.row == old(h.w).row && NoNewDownload(old(h.w), h.w)
    ensures old(h.w).edits <= h.w.edits && (r.Done? ==> h.w.recovery == None)
    ensures r.Done? && h.w.edits == old(h.w).edits ==>
              var o, d := old(h.w).recovery.value, old(h.w).parent;
              h.w.log == old(h.w).log + [Identified(o, d), Unlinked(o, old(h.w).Now())]
    ensures h.w.edits == 0 ==>
              h.w.target == old(h.w).target && h.w.remote == old(h.w).remote && (r.Done? ==> h.w.effects == 1)
    ensures r.Failed? && h.w.edits == 0 ==> h.balked || Crowded(old(h.w).recovery)
    ensures old(h.balked) || r.Died? ==> h.balked
  {
    hide Inv, Rely, Later, Holder, PassesIdentityCheck, FoundOut;
    ghost var w0 := h.w;
    h.Identify();
    BusyIsLater(w0, h.w);
    IdentifiedMayGo(w0, h.w);
    ghost var w1, v := h.w, h.w;
    var gone;
    gone, v := h.Unlink();
    UnchangedUnlessEdited(w1, v);
    LaterTrans(w0, w1, h.w);
    r := match gone case Done(_) => Done(()) case Failed => Failed case Died => Died;
  }

  lemma IdentifiedMayGo(w: World, w': World)
    requires CleanupDue(w) && CanIdentify(w) && w' == Identify(w) && FoundOut(w', IdentityChecked)
    ensures MayUnlink(w') && CleanupDue(w')
  {
  }

  lemma UnchangedUnlessEdited(w: World, w': World)
    requires Rely(w, w')
    ensures w'.edits == w.edits || w'.edits == 0 ==> w' == w
    ensures w.edits <= w'.edits && w'.log == w.log
  {
  }

  lemma QuietSame(w: World, w': World)
    requires Rely(w, w')
    ensures w'.edits == w.edits || w'.edits == 0 ==> w' == w
    ensures w'.effects == w.effects && (w.recovery == None ==> w'.recovery == None)
  {
  }

  lemma DanglingIsNotQuiet(w: World)
    requires Inv(w) && CleanupDue(w) && w.recovery.Some? && w.row.value.pin.value.linkText.None?
    requires w.recovery.value.StatIdent().None?
    ensures w.edits > 0 && CanOverlook(w) && Dangles(w)
  {
    hide VersionInv, BaselineInv, LogInv;
  }

  // ----- The operator's restore of a blocked operation -----

  ghost predicate IsBlocked(w: World) {
    w.row.Some? && w.row.value.phase == Blocked && w.row.value.pin.Some? && w.authority == w.row.value.pin &&
        w.job.IsLocal()
  }

  lemma RelyKeepsBlocked(w: World, w': World)
    requires IsBlocked(w) && Rely(w, w')
    ensures IsBlocked(w') && w'.log == w.log
  {
  }

  /** The first look at an object: its link text, or its own fingerprint. */
  predicate LooksExpected(o: Option<Obj>, pin: Pin, job: Job) {
    && o.Some?
    && (if pin.linkText.Some? then o.value.LinkObj? && o.value.text == pin.linkText.value
        else o.value.Ordinary() && LocalEquivalent(FpOf(o), job.expectedLocal))
  }

  /** The second look: the link text, or the pinned physical identity. */
  predicate IsPinned(o: Option<Obj>, pin: Pin) {
    o.Some? && PassesIdentityCheck(o.value, pin)
  }

  /** The slot holds the expected pinned object and the path is free. */
  predicate Restorable(w: World)
    requires w.row.Some? && w.row.value.pin.Some?
  {
    && w.job.expectedLocal.present && w.target.None?
    && LooksExpected(w.recovery, w.row.value.pin.value, w.job) && IsPinned(w.recovery, w.row.value.pin.value)
  }

  /** RestoreLocalRecoveryArtifact: only an object that still is the expected
      one goes back, never over a present target; if something else arrives at
      the path, it goes to the slot instead. */
  method RestoreArtifact(h: Host) returns (r: Reply<()>)
    requires Inv(h.w) && IsBlocked(h.w)
    modifies h
    ensures Inv(h.w) && Later(old(h.w), h.w) && h.w.row == old(h.w).row
    ensures r.Done? ==> IsPinned(h.w.target, h.w.row.value.pin.value)
    ensures h.w.edits == old(h.w).edits && (r.Done? || h.w.log != old(h.w).log) ==> Restorable(old(h.w))
    ensures r.Failed? && h.w.edits == 0 ==> h.balked || !Restorable(old(h.w))
    ensures old(h.balked) || r.Died? ==> h.balked
    ensures r.Failed? && h.w.log != old(h.w).log ==> h.balked || h.w.target == None
  {
    hide Inv, Rely, Later, IsBlocked, IsPinned;
    ghost var w0, v := h.w, h.w;
    LaterRefl(w0);
    r := CheckRestorable(h);
    ghost var w1 := h.w;
    StillBlocked(w0, w0, w1);
    if !r.Done? { return; }
    BlockedHasPin(w1);
    UnchangedUnlessEdited(w0, w1);
    r, v := h.Restore();
    RelyKeepsBlocked(w1, v);
    UnchangedUnlessEdited(w1, v);
    LaterTrans(w0, w1, h.w);
    if !r.Done? { RelyIsLater(w1, v); return; }
    RestoredIsUp(v);
    ghost var w2 := h.w;
    r := VerifyRestored(h, h.w.row.value.pin.value);
    LaterTrans(w0, w2, h.w);
    LaterEdits(w2, h.w);
  }

  lemma BlockedHasPin(w: World)
    requires IsBlocked(w)
    ensures w.row.Some? && w.row.value.phase == Blocked && w.row.value.pin.Some?
  {
  }

  lemma RestoredIsUp(v: World)
    requires Inv(v) && CanRestore(v) && IsBlocked(v)
    ensures PutUp(OperationActions.Restore(v)) && OperationActions.Restore(v).row.Some? &&
              OperationActions.Restore(v).row.value.pin.Some?
  {
    hide Inv;
    RestoreIsQuiet(v);
  }

  /** The looks before the restore: the slot's fingerprint or link text, its
      identity, and an empty target. */
  method CheckRestorable(h: Host) returns (r: Reply<()>)
    requires Inv(h.w) && IsBlocked(h.w)
    modifies h
    ensures Inv(h.w) && Rely(old(h.w), h.w) && h.w.log == old(h.w).log
    ensures r.Done? && h.w.edits == old(h.w).edits ==> h.w == old(h.w) && Restorable(h.w)
    ensures r.Failed? && h.w.edits == 0 ==> h.balked || !Restorable(old(h.w))
    ensures old(h.balked) || r.Died? ==> h.balked
  {
    hide Inv, Rely, LooksExpected, IsPinned;
    ghost var w0 := h.w;
    RelyRefl(w0);
    if !h.w.job.expectedLocal.present { return Failed; }
    var pin := h.w.row.value.pin.value;
    r := h.Call();
    if !r.Done? { return; }
    if !LooksExpected(h.w.recovery, pin, h.w.job) { return Failed; }
    ghost var w1 := h.w;
    UnchangedUnlessEdited(w0, w1);
    r := h.Call();
    RelyTrans(w0, w1, h.w);
    UnchangedUnlessEdited(w1, h.w);
    if !r.Done? { return; }
    if !IsPinned(h.w.recovery, pin) { return Failed; }
    ghost var w2 := h.w;
    r := h.Call();
    RelyTrans(w0, w2, h.w);
    UnchangedUnlessEdited(w2, h.w);
    if r.Done? && h.w.target.Some? { r := Failed; }
  }

  lemma StillBlocked(a: World, b: World, c: World)
    requires IsBlocked(a) && IsBlocked(b) && Later(a, b) && b.row == a.row && Rely(b, c)
    ensures IsBlocked(c) && Later(a, c) && c.row == a.row
  {
  }

  lemma RestoreIsQuiet(v: World)
    requires Inv(v) && CanRestore(v) && IsBlocked(v)
    ensures Unapplied(v) && NothingUnexpected(Restore(v))
  {
    hide JournalInv, VersionInv, BaselineInv, LogInv;
  }

  /** The state right after a restore. */
  ghost predicate PutUp(w: World) {
    IsBlocked(w) && w.recovery == None && Unapplied(w) && NothingUnexpected(w)
  }

  lemma StillUp(a: World, b: World, c: World)
    requires PutUp(b) && Later(a, b) && b.row == a.row && Rely(b, c)
    ensures PutUp(c) && Later(a, c) && c.row == a.row
  {
  }

  method VerifyRestored(h: Host, pin: Pin) returns (r: Reply<()>)
    requires Inv(h.w) && PutUp(h.w) && h.w.row.value.pin == Some(pin)
    modifies h
    ensures Inv(h.w) && Later(old(h.w), h.w) && h.w.row == old(h.w).row
    ensures r.Done? ==> IsPinned(h.w.target, pin)
    ensures r.Failed? && h.w.edits == 0 ==>
              h.balked || !LooksExpected(old(h.w).target, pin, old(h.w).job) || !IsPinned(old(h.w).target, pin)
    ensures old(h.balked) || r.Died? ==> h.balked
    ensures r.Failed? ==> h.balked || h.w.target == None
  {
    hide Inv, Rely, Later;
    ghost var w0 := h.w;
    LaterRefl(w0);
    var looked := h.Call();
    StillUp(w0, w0, h.w);
    QuietIsStill(w0, h.w);
    if looked.Died? { return Died; }
    if looked.Done? && LooksExpected(h.w.target, pin, h.w.job) {
      if pin.linkText.Some? { return Done(()); }
      ghost var w1 := h.w;
      var stat := h.Call();
      StillUp(w0, w1, h.w);
      QuietIsStill(w1, h.w);
      if stat.Died? { return Died; }
      if stat.Done? && IsPinned(h.w.target, pin) { return Done(()); }
    }
    ghost var w2, v := h.w, h.w;
    r, v := h.Park();
    BusyIsLater(w2, h.w);
    LaterTrans(w0, w2, h.w);
    LaterEdits(w2, h.w);
    if r.Done? { r := Failed; }
  }
}
