/** The executor: one journaled local or remote mutation under its pin,
    call by call. */
module OperationExecutor {
  import opened Domain
  import opened OperationWorld
  import opened OperationActions
  import opened OperationHost

  // ----- Observations -----

  /** os.Lstat: only ordinary objects have a fingerprint. */
  function LstatFp(o: Option<Obj>): Outcome<LocalFingerprint> {
    if OrdinaryOrAbsent(o) then Ok(FpOf(o)) else Err
  }

  /** ObserveLocalEntry: the logical path under the root's symlink mode. */
  function LogicalFp(w: World): Outcome<LocalFingerprint> {
    if w.row.Some? && w.row.value.pin.Some? && w.route.Elsewhere? then Ok(w.route.fp)
    else if w.job.mode == Follow || w.job.mode == Copy then StatFp(w.target)
    else LstatFp(w.target)
  }

  function AnchorIdentity(w: World, linkText: Option<string>): Option<nat> {
    if !w.job.expectedLocal.present || linkText.Some? then Some(w.parent)
    else if w.target.None? then None
    else w.target.value.StatIdent()
  }

  method ObserveLocal(h: Host) returns (r: Reply<LocalFingerprint>)
    requires Inv(h.w)
    modifies h
    ensures Inv(h.w) && Rely(old(h.w), h.w)
    ensures r.Done? ==> LogicalFp(h.w) == Ok(r.value)
    ensures old(h.balked) || r.Died? ==> h.balked
    ensures r.Failed? ==> h.balked || LogicalFp(h.w).Err?
  {
    var _ :- h.Call();
    var fp := LogicalFp(h.w);
    r := if fp.Ok? then Done(fp.value) else Failed;
  }

  /** The pinned path's fingerprint and whether an ordinary object is there. */
  method ObservePinned(h: Host) returns (r: Reply<(LocalFingerprint, bool)>)
    requires Inv(h.w)
    modifies h
    ensures Inv(h.w) && Rely(old(h.w), h.w)
    ensures r.Done? ==> r.value == (FpOf(h.w.target), OrdinaryOrAbsent(h.w.target))
    ensures old(h.balked) || r.Died? ==> h.balked
    ensures r.Failed? ==> h.balked
  {
    var _ :- h.Call();
    r := Done((FpOf(h.w.target), OrdinaryOrAbsent(h.w.target)));
  }

  method ObserveRemote(h: Host) returns (r: Reply<RemoteFingerprint>)
    requires Inv(h.w)
    modifies h
    ensures Inv(h.w) && Rely(old(h.w), h.w)
    ensures r.Done? ==> r.value == RemoteOf(h.w.remote)
    ensures old(h.balked) || r.Died? ==> h.balked
    ensures r.Failed? ==> h.balked
  {
    var _ :- h.Call();
    r := Done(RemoteOf(h.w.remote));
  }

  /** verifyPinnedLocalMutationAnchor. */
  method VerifyAnchor(h: Host, op: Row) returns (r: Reply<()>)
    requires Inv(h.w) && op.pin.Some?
    modifies h
    ensures Inv(h.w) && Rely(old(h.w), h.w)
    ensures r.Done? ==> AnchorIdentity(h.w, op.pin.value.linkText) == Some(op.pin.value.identity)
    ensures old(h.balked) || r.Died? ==> h.balked
    ensures r.Failed? ==> h.balked || AnchorIdentity(h.w, op.pin.value.linkText) != Some(op.pin.value.identity)
  {
    var _ :- h.Call();
    r := if AnchorIdentity(h.w, op.pin.value.linkText) == Some(op.pin.value.identity) then Done(()) else Failed;
  }

  /** The pinned path is in the expected state. */
  predicate Expected(w: World, pin: Pin) {
    if w.target.Some? then IsExpected(w.target.value, pin, w.job)
    else pin.linkText.None? && !w.job.expectedLocal.present
  }

  /** The path leads to an object that a pin can name: in the expected state, and
      a link only as a copied one that leads somewhere. */
  predicate Resolvable(w: World) {
    && LogicalFp(w).Ok? && LocalEquivalent(LogicalFp(w).value, w.job.expectedLocal)
    && (w.target.Some? && w.target.value.LinkObj? ==> w.job.mode == Copy && w.target.value.referent.Resolves?)
  }

  /** ResolveLocalMutationTarget: the pin the path would get now. */
  method Resolve(h: Host) returns (r: Reply<Pin>)
    requires Inv(h.w)
    modifies h
    ensures Inv(h.w) && Rely(old(h.w), h.w)
    ensures r.Done? ==> AnchorIdentity(h.w, r.value.linkText) == Some(r.value.identity)
    ensures r.Done? && h.w.edits == 0 ==> PinHolds(h.w, r.value) && Resolvable(h.w)
    ensures r.Failed? && h.w.edits == 0 ==> h.balked || !Resolvable(h.w)
    ensures old(h.balked) || r.Died? ==> h.balked
  {
    hide Inv, Remembers, PinHolds;
    ghost var w0 := h.w;
    var current :- ObserveLocal(h);
    if !LocalEquivalent(current, h.w.job.expectedLocal) { return Failed; }
    ghost var w1 := h.w;
    r := ResolveObject(h);
    RelyTrans(w0, w1, h.w);
  }

  /** The second half: the walk to the path, and the identity of what is there. */
  method ResolveObject(h: Host) returns (r: Reply<Pin>)
    requires Inv(h.w) && LogicalFp(h.w).Ok? && LocalEquivalent(LogicalFp(h.w).value, h.w.job.expectedLocal)
    modifies h
    ensures Inv(h.w) && Rely(old(h.w), h.w)
    ensures r.Done? ==> AnchorIdentity(h.w, r.value.linkText) == Some(r.value.identity)
    ensures r.Done? && h.w.edits == 0 ==> PinHolds(h.w, r.value) && Resolvable(h.w)
    ensures r.Failed? && h.w.edits == 0 ==> h.balked || !Resolvable(h.w)
    ensures old(h.balked) || r.Died? ==> h.balked
  {
    hide Inv, Remembers;
    ghost var w1 := h.w;
    var walked :- h.Call();
    ghost var w2 := h.w;
    RouteIsFixed(w2);
    var linkText := None;
    if h.w.job.mode == Follow || h.w.job.mode == Copy {
      if h.w.target.None? {
        if h.w.job.expectedLocal.present { return Failed; }
      } else if h.w.target.value.LinkObj? {
        if h.w.job.mode == Follow || h.w.target.value.referent.Dangling? { return Failed; }
        linkText := Some(h.w.target.value.text);
      }
    }
    var stated := h.Call();
    RelyTrans(w1, w2, h.w);
    if !stated.Done? { return stated.PropagateFailure(); }
    RouteIsFixed(h.w);
    var identity := AnchorIdentity(h.w, linkText);
    r := if identity.Some? then Done(Pin(identity.value, linkText)) else Failed;
  }

  /** The pinned path is in the expected state under its pinned anchor. */
  predicate PinHolds(w: World, pin: Pin) {
    Expected(w, pin) && AnchorIdentity(w, pin.linkText) == Some(pin.identity)
  }

  /** The link itself, its text, and what it projects: three calls. */
  method PinnedLinkExpected(h: Host, pin: Pin) returns (r: Reply<bool>)
    requires Inv(h.w) && pin.linkText.Some?
    modifies h
    ensures Inv(h.w) && Rely(old(h.w), h.w)
    ensures r.Done? && h.w.edits == old(h.w).edits ==> (r.value <==> Expected(h.w, pin))
    ensures r.Failed? && h.w.edits == old(h.w).edits ==> h.balked
    ensures old(h.balked) || r.Died? ==> h.balked
  {
    hide Inv, Remembers;
    ghost var w0 := h.w;
    var lstat :- h.Call();
    ghost var w1 := h.w;
    if h.w.target.None? || !h.w.target.value.LinkObj? { return Done(false); }
    var readlink := h.Call();
    RelyTrans(w0, w1, h.w);
    if !readlink.Done? { return readlink.PropagateFailure(); }
    if h.w.target.None? || !h.w.target.value.LinkObj? { return Failed; }
    if h.w.target.value.text != pin.linkText.value { return Done(false); }
    ghost var w2 := h.w;
    var stat := h.Call();
    RelyTrans(w0, w2, h.w);
    if !stat.Done? { return stat.PropagateFailure(); }
    var projected := StatFp(h.w.target);
    r := if projected.Err? then Failed else Done(LocalEquivalent(projected.value, h.w.job.expectedLocal));
  }

  /** PinnedLocalPreconditionHolds: the pinned path alone decides, not the
      current chain of links. */
  method PinnedPreconditionHolds(h: Host, op: Row) returns (r: Reply<bool>)
    requires Inv(h.w) && op.pin.Some?
    modifies h
    ensures Inv(h.w) && Rely(old(h.w), h.w)
    ensures r.Done? && r.value && h.w.edits == old(h.w).edits ==> PinHolds(h.w, op.pin.value)
    ensures old(h.balked) || r.Died? ==> h.balked
    ensures r == Done(false) && h.w.edits == old(h.w).edits ==> h.balked || !PinHolds(h.w, op.pin.value)
    ensures r.Failed? && h.w.edits == old(h.w).edits ==> h.balked
  {
    hide Inv, Remembers, IsExpected;
    ghost var w0 := h.w;
    var expected;
    if op.pin.value.linkText.Some? {
      expected := PinnedLinkExpected(h, op.pin.value);
    } else {
      var lstat := h.Call();
      PlainExpected(h.w, op.pin.value);
      expected := if lstat.Done? then
          Done(OrdinaryOrAbsent(h.w.target) && LocalEquivalent(FpOf(h.w.target), h.w.job.expectedLocal))
                  else lstat.PropagateFailure();
    }
    if !expected.Done? || !expected.value { return expected; }
    ghost var w1 := h.w;
    var anchor := VerifyAnchor(h, op);
    RelyTrans(w0, w1, h.w);
    r := match anchor case Done(_) => Done(true) case Failed => Done(false) case Died => Died;
  }

  lemma PlainExpected(w: World, pin: Pin)
    requires pin.linkText.None?
    ensures Expected(w, pin) <==> OrdinaryOrAbsent(w.target) && LocalEquivalent(FpOf(w.target), w.job.expectedLocal)
  {
  }

  predicate MayHaveStarted(op: Row) { op.phase == Running || op.phase == Recovering }

  /** The checks before every local side effect: an unstarted operation is
      resolved again and must still lead to its pin, a started one is checked at
      its pinned path; then the anchor. */
  method CheckLocal(h: Host, op: Row) returns (r: Reply<()>)
    requires Inv(h.w) && op.pin.Some?
    modifies h
    ensures Inv(h.w) && Rely(old(h.w), h.w)
    ensures r.Done? && h.w.authority == op.pin ==> NothingUnexpected(h.w)
    ensures r.Done? ==> AnchorIdentity(h.w, op.pin.value.linkText) == Some(op.pin.value.identity)
    ensures r.Done? && h.w.edits == 0 ==> PinHolds(h.w, op.pin.value)
    ensures r.Done? && !MayHaveStarted(op) && h.w.edits == old(h.w).edits ==> h.w.route == ToTarget
    ensures r.Failed? && MayHaveStarted(op) && h.w.edits == old(h.w).edits ==>
              h.balked || !PinHolds(h.w, op.pin.value)
    ensures r.Failed? && h.w.edits == 0 ==> h.balked || !PinHolds(h.w, op.pin.value) || !Resolvable(h.w)
    ensures old(h.balked) || r.Died? ==> h.balked
  {
    hide Inv, Remembers;
    ghost var w0 := h.w;
    if MayHaveStarted(op) {
      var holds :- PinnedPreconditionHolds(h, op);
      if !holds { return Failed; }
    } else {
      var current :- ObserveLocal(h);
      if !LocalEquivalent(current, h.w.job.expectedLocal) { return Failed; }
      ghost var w1 := h.w;
      var resolved := Resolve(h);
      RelyTrans(w0, w1, h.w);
      if !resolved.Done? { return resolved.PropagateFailure(); }
      RouteIsFixed(h.w);
      if h.w.route.Elsewhere? || resolved.value.linkText != op.pin.value.linkText { return Failed; }
    }
    ghost var w2 := h.w;
    r := VerifyAnchor(h, op);
    RelyTrans(w0, w2, h.w);
    RouteIsFixed(h.w);
  }

  lemma RouteIsFixed(w: World)
    requires Inv(w)
    ensures w.edits == 0 ==> w.route == ToTarget
  {
  }

  // ----- Moving the present object aside -----

  /** Puts the slot's object back after a failure; if the path is taken by now
      it stays in the slot. Either way the failure is reported. */
  method PutBack(h: Host, op: Row) returns (r: Reply<()>)
    requires Inv(h.w) && Armed(h.w, op)
    modifies h
    ensures Inv(h.w) && Busy(old(h.w), h.w) && !r.Done?
    ensures old(h.balked) || r.Died? ==> h.balked
    ensures r.Failed? ==> h.balked || h.w.recovery == None || h.w.target.Some?
  {
    hide Inv;
    var back, v := h.Restore();
    r := if back.Died? then Died else Failed;
  }

  /** The slot holds the pinned object in its expected state. */
  predicate SlotAsPinned(w: World, pin: Pin) {
    && w.recovery.Some? && IsExpected(w.recovery.value, pin, w.job) && PassesIdentityCheck(w.recovery.value, pin)
  }

  /** The path holds it. */
  predicate PathAsPinned(w: World, pin: Pin) { PinHolds(w, pin) && w.target.Some? }

  lemma ParkedAsPinned(w: World, pin: Pin)
    requires CanPark(w) && PathAsPinned(w, pin)
    ensures SlotAsPinned(Park(w), pin)
  {
  }

  /** A directory that cannot be removed because it is not empty. */
  predicate Crowded(o: Option<Obj>) { o.Some? && o.value.DirObj? && !o.value.empty }

  /** With nobody else writing, the object moved and everything else stayed. */
  predicate OnlyMoved(w: World, w': World) {
    w'.edits == 0 ==> w'.target == None && w'.recovery == w.target && w'.download == w.download
  }

  predicate StaysPut(w: World, w': World) {
    w'.edits == 0 ==>
      w.edits == 0 && w'.target == w.target && w'.recovery == w.recovery && w'.download == w.download
  }

  lemma QuietStaysPut(w: World, w': World)
    requires Rely(w, w')
    ensures StaysPut(w, w')
  {
  }

  lemma MovedStaysPut(w: World, v: World, w': World)
    requires Rely(w, v) && CanPark(v) && StaysPut(Park(v), w')
    ensures OnlyMoved(w, w')
  {
  }

  /** The slot holds an object that the running attempt may unlink. */
  ghost predicate Preserved(w: World) { Validated(w) && w.recovery.Some? }

  /** preserveExpectedLocalEntryAt: first the rename, then a look at what was
      really moved. */
  method PreserveEntry(h: Host, op: Row) returns (r: Reply<()>)
    requires Inv(h.w) && Armed(h.w, op) && h.w.recovery == None && NothingUnexpected(h.w)
    requires op.pin.value.linkText.None? ==> h.w.job.expectedLocal.present
    modifies h
    ensures Inv(h.w) && Busy(old(h.w), h.w)
    ensures r.Done? ==> Preserved(h.w)
    ensures r.Failed? && h.w.edits == 0 ==> h.balked || !PathAsPinned(old(h.w), op.pin.value)
    ensures r.Done? ==> OnlyMoved(old(h.w), h.w)
    ensures old(h.balked) || r.Died? ==> h.balked
    ensures r.Failed? ==> h.balked || h.w.recovery == None || h.w.target.Some?
  {
    hide Inv, Rely, Busy, Later, Holder, Preserved, SlotAsPinned;
    ghost var w0, v := h.w, h.w;
    r, v := h.Park();
    QuietIsStill(w0, v);
    if !r.Done? { return; }
    ghost var w1 := h.w;
    BusyKeepsArmed(w0, w1, op);
    r := InspectMoved(h, op);
    BusyTrans(w0, w1, h.w);
    BusyIsLater(w1, h.w);
    LaterEdits(w1, h.w);
    if PathAsPinned(v, op.pin.value) { ParkedAsPinned(v, op.pin.value); }
    if r.Done? { MovedStaysPut(w0, v, h.w); }
  }

  lemma BusyKeepsArmed(w: World, w': World, op: Row)
    requires Armed(w, op) && Busy(w, w')
    ensures Armed(w', op)
  {
  }

  lemma BusyTrans(a: World, b: World, c: World)
    requires Busy(a, b) && Busy(b, c)
    ensures Busy(a, c)
  {
  }

  /** The second half: what was moved must be the pinned object in its expected
      state; otherwise it is put back. */
  method InspectMoved(h: Host, op: Row) returns (r: Reply<()>)
    requires Inv(h.w) && Armed(h.w, op) && (op.pin.value.linkText.None? ==> h.w.job.expectedLocal.present)
    modifies h
    ensures Inv(h.w) && Busy(old(h.w), h.w)
    ensures r.Done? ==> Preserved(h.w)
    ensures r.Failed? && h.w.edits == 0 ==> h.balked || !SlotAsPinned(old(h.w), op.pin.value)
    ensures r.Done? ==> StaysPut(old(h.w), h.w)
    ensures old(h.balked) || r.Died? ==> h.balked
    ensures r.Failed? ==> h.balked || h.w.recovery == None || h.w.target.Some?
  {
    hide Inv, Rely, Busy, Holder, Preserved, SlotAsPinned, Later;
    ghost var w0 := h.w;
    var fits;
    if op.pin.value.linkText.None? {
      fits := MovedEntryFits(h, op);
    } else {
      fits := MovedLinkFits(h, op);
    }
    if fits.Died? { return Died; }
    if fits.Done? && fits.value { return Done(()); }
    ghost var w1 := h.w;
    BusyKeepsArmed(w0, w1, op);
    r := PutBack(h, op);
    BusyTrans(w0, w1, h.w);
    BusyIsLater(w1, h.w);
    LaterEdits(w1, h.w);
  }

  /** Two looks at the slot: the expected fingerprint and the pinned identity. */
  method MovedEntryFits(h: Host, op: Row) returns (r: Reply<bool>)
    requires Inv(h.w) && Armed(h.w, op) && op.pin.value.linkText.None? && h.w.job.expectedLocal.present
    modifies h
    ensures Inv(h.w) && Busy(old(h.w), h.w)
    ensures r.Done? && r.value ==> Preserved(h.w) && StaysPut(old(h.w), h.w)
    ensures !(r.Done? && r.value) && h.w.edits == 0 ==> h.balked || !SlotAsPinned(old(h.w), op.pin.value)
    ensures old(h.balked) || r.Died? ==> h.balked
  {
    hide Inv, Rely, Busy, Holder, FoundOut, Later, CanValidate, SlotKept;
    ghost var w0 := h.w;
    var lstat :- h.Call();
    BusyKeepsArmed(w0, h.w, op);
    QuietIsStill(w0, h.w);
    ghost var w1 := h.w;
    var observed := LstatFp(h.w.recovery);
    if observed.Err? || !LocalEquivalent(observed.value, h.w.job.expectedLocal) { return Done(false); }
    MayValidate(h.w, op);
    h.Validate();
    BusyTrans(w0, w1, h.w);
    BusyKeepsArmed(w1, h.w, op);
    ghost var w2 := h.w;
    var stat := h.Call();
    BusyTrans(w0, w2, h.w);
    QuietIsStill(w2, h.w);
    if !stat.Done? { return stat.PropagateFailure(); }
    BusyKeepsArmed(w2, h.w, op);
    FoundStays(w2, h.w, ContentChecked);
    if h.w.recovery.None? || h.w.recovery.value.StatIdent() != Some(op.pin.value.identity) { return Done(false); }
    OrdinaryIsExact(w2, h.w, op);
    r := Done(true);
  }

  lemma MayValidate(w: World, op: Row)
    requires Armed(w, op) && op.pin.value.linkText.None? && w.job.expectedLocal.present
    requires LstatFp(w.recovery).Ok? && LocalEquivalent(LstatFp(w.recovery).value, w.job.expectedLocal)
    ensures CanValidate(w) && w.recovery.value.Ordinary()
  {
  }

  lemma FoundStays(w: World, w': World, state: SlotState)
    requires FoundOut(w, state) && w'.log == w.log && SlotKept(w, w')
    ensures w'.recovery.Some? ==> FoundOut(w', state)
  {
  }

  lemma OrdinaryIsExact(w: World, w': World, op: Row)
    requires w.recovery.Some? && w.recovery.value.Ordinary() && SlotKept(w, w') && w'.recovery.Some? && Armed(w', op)
    requires op.pin.value.linkText.None? && w'.recovery.value.StatIdent() == Some(op.pin.value.identity)
    ensures ExactlyAuthorized(w'.recovery.value, op.pin.value)
  {
  }

  /** The copied link still stands at the path, with its text. */
  method LinkStands(h: Host, op: Row) returns (r: Reply<()>)
    requires Inv(h.w) && op.pin.Some? && op.pin.value.linkText.Some?
    modifies h
    ensures Inv(h.w) && Rely(old(h.w), h.w)
    ensures r.Done? ==>
              h.w.target.Some? && h.w.target.value.LinkObj? && Some(h.w.target.value.text) == op.pin.value.linkText
    ensures r.Failed? && h.w.edits == 0 ==> h.balked || !PathAsPinned(h.w, op.pin.value)
    ensures old(h.balked) || r.Died? ==> h.balked
  {
    hide Inv, Rely;
    var text := op.pin.value.linkText.value;
    ghost var w0 := h.w;
    var lstat :- h.Call();
    QuietIsStill(w0, h.w);
    ghost var w1 := h.w;
    if h.w.target.None? || !h.w.target.value.LinkObj? { return Failed; }
    r := h.Call();
    RelyTrans(w0, w1, h.w);
    QuietIsStill(w1, h.w);
    if !r.Done? { return; }
    if h.w.target.None? || !h.w.target.value.LinkObj? || h.w.target.value.text != text { r := Failed; }
  }

  /** preserveExpectedCopySymlinkAt: the link is compared by its text, before
      and after the rename, and by the fingerprint it projects. */
  method PreserveCopySymlink(h: Host, op: Row) returns (r: Reply<()>)
    requires Inv(h.w) && Armed(h.w, op) && op.pin.value.linkText.Some? && h.w.recovery == None && NothingUnexpected(h.w)
    modifies h
    ensures Inv(h.w) && Busy(old(h.w), h.w)
    ensures r.Done? ==> Preserved(h.w)
    ensures r.Failed? && h.w.edits == 0 ==> h.balked || !PathAsPinned(old(h.w), op.pin.value)
    ensures r.Done? ==> OnlyMoved(old(h.w), h.w)
    ensures old(h.balked) || r.Died? ==> h.balked
    ensures r.Failed? ==> h.balked || h.w.recovery == None || h.w.target.Some?
  {
    hide Inv, Rely, Busy, Later, Holder, Preserved, PathAsPinned, NothingUnexpected;
    ghost var w0 := h.w;
    r := LinkStands(h, op);
    ghost var w1 := h.w;
    RelyIsBusy(w0, w1);
    ArmedStays(w0, w1, op);
    QuietIsStill(w0, w1);
    if !r.Done? { return; }
    r := PreserveEntry(h, op);
    BusyTrans(w0, w1, h.w);
    BusyIsLater(w1, h.w);
    LaterEdits(w1, h.w);
  }

  /** Nobody else makes the slot, or an unexpected object that counts. */
  lemma ArmedStays(w: World, w': World, op: Row)
    requires Armed(w, op) && w.recovery == None && NothingUnexpected(w) && Rely(w, w')
    ensures Armed(w', op) && w'.recovery == None && NothingUnexpected(w')
  {
    hide Remembers;
  }

  /** Two looks at the slot: the link's text, and what it projects. */
  method MovedLinkFits(h: Host, op: Row) returns (r: Reply<bool>)
    requires Inv(h.w) && Armed(h.w, op) && op.pin.value.linkText.Some?
    modifies h
    ensures Inv(h.w) && Busy(old(h.w), h.w)
    ensures r.Done? && r.value ==> Preserved(h.w) && StaysPut(old(h.w), h.w)
    ensures !(r.Done? && r.value) && h.w.edits == 0 ==> h.balked || !SlotAsPinned(old(h.w), op.pin.value)
    ensures old(h.balked) || r.Died? ==> h.balked
  {
    hide Inv, Rely, Busy, Holder, FoundOut, Later, CanValidate;
    ghost var w0 := h.w;
    var looked :- h.Call();
    BusyKeepsArmed(w0, h.w, op);
    QuietIsStill(w0, h.w);
    ghost var w1 := h.w;
    if h.w.recovery.None? || !h.w.recovery.value.LinkObj? { return Done(false); }
    if h.w.recovery.value.text != op.pin.value.linkText.value { return Done(false); }
    var stat := h.Call();
    BusyTrans(w0, w1, h.w);
    QuietIsStill(w1, h.w);
    if !stat.Done? { return stat.PropagateFailure(); }
    BusyKeepsArmed(w1, h.w, op);
    var projected := StatFp(h.w.recovery);
    if h.w.recovery.None? || projected.Err? || !LocalEquivalent(projected.value, h.w.job.expectedLocal) {
      return Done(false);
    }
    ghost var w2 := h.w;
    MayValidateLink(w2, op);
    h.Validate();
    BusyTrans(w0, w2, h.w);
    BusyKeepsArmed(w2, h.w, op);
    r := Done(true);
  }

  lemma MayValidateLink(w: World, op: Row)
    requires Armed(w, op) && op.pin.value.linkText.Some? && w.recovery.Some? && w.recovery.value.LinkObj?
    requires w.recovery.value.text == op.pin.value.linkText.value
    requires StatFp(w.recovery).Ok? && LocalEquivalent(StatFp(w.recovery).value, w.job.expectedLocal)
    ensures CanValidate(w)
  {
  }

  // ----- Entry points -----

  /** The caller's copy of the row, read before this attempt. */
  ghost predicate Tracks(w: World, op: Row) {
    && w.row.Some? && w.row.value.pin == op.pin && w.authority == op.pin
    && w.row.value.phase != Blocked && op.phase != Blocked
    && (op.phase == Planned <==> w.row.value.phase == Planned)
  }

  /** Safe to attempt: nothing is parked and, if nobody else wrote, nothing was
      done. */
  ghost predicate Ready(w: World) {
    w.recovery == None && (w.edits == 0 ==> w.effects == 0 && AtRest(w))
  }

  lemma StillTracks(w: World, w': World, op: Row)
    requires Tracks(w, op) && Ready(w) && Rely(w, w')
    ensures Tracks(w', op) && Ready(w') && Idles(w, w') && Later(w, w') &&
              (w'.download.Some? ==> w'.download == w.download)
    ensures w'.job == w.job
  {
    RelyIdles(w, w');
    TracksIsStable(w, w', op);
  }

  lemma TracksIsStable(w: World, w': World, op: Row)
    requires Tracks(w, op) && Ready(w) && Idles(w, w')
    ensures Tracks(w', op) && Ready(w')
  {
    hide Remembers;
  }

  /** The durable start was not confirmed: nothing happened to user data; the
      start itself may be on the books because its reply was lost. */
  ghost predicate Unstarted(w: World, w': World) {
    && (w'.log == w.log || (|w'.log| == |w.log| + 1 && w'.log[..|w.log|] == w.log && w'.log[|w.log|].Began?))
    && w'.effects == w.effects && SlotKept(w, w')
    && (w'.edits == w.edits ==> w'.target == w.target && w'.remote == w.remote)
  }

  /** What every attempt at a local mutation leaves behind. */
  ghost predicate Attempted(w: World, w': World, op: Row, done: bool, started: bool) {
    && Later(w, w')
    && w'.row.Some? && w'.row.value.pin == op.pin
    && (if started then IsRunning(w') else !done && (w'.row == w.row || IsRunning(w')) && Unstarted(w, w'))
    && (done ==> w'.recovery == None && (w'.edits == 0 ==> w'.effects == 1))
  }

  /** No download appears. */
  predicate NoNewDownload(w: World, w': World) {
    w'.download.Some? ==> w'.download == w.download
  }

  method PreserveExpected(h: Host, op: Row) returns (r: Reply<()>)
    requires Inv(h.w) && Armed(h.w, op) && h.w.recovery == None && NothingUnexpected(h.w)
    requires op.pin.value.linkText.None? ==> h.w.job.expectedLocal.present
    modifies h
    ensures Inv(h.w) && Busy(old(h.w), h.w)
    ensures r.Done? ==> Preserved(h.w)
    ensures r.Failed? && h.w.edits == 0 ==> h.balked || !PathAsPinned(old(h.w), op.pin.value)
    ensures r.Done? ==> OnlyMoved(old(h.w), h.w)
    ensures old(h.balked) || r.Died? ==> h.balked
    ensures r.Failed? ==> h.balked || h.w.recovery == None || h.w.target.Some?
  {
    if op.pin.value.linkText.Some? {
      r := PreserveCopySymlink(h, op);
    } else {
      r := PreserveEntry(h, op);
    }
  }

  /** Unlinks the validated object, or puts it back. */
  method UnlinkPreserved(h: Host, op: Row) returns (r: Reply<()>)
    requires Inv(h.w) && Armed(h.w, op) && h.w.job.kind == OpDeleteLocal && Validated(h.w)
    modifies h
    ensures Inv(h.w) && Later(old(h.w), h.w) && h.w.row == old(h.w).row && NoNewDownload(old(h.w), h.w)
    ensures r.Done? ==> h.w.recovery == None && (h.w.edits == 0 ==> h.w.effects == 1)
    ensures r.Done? ==> |h.w.log| > 0 && h.w.log[|h.w.log| - 1].Unlinked?
    ensures r.Failed? && h.w.edits == 0 ==> h.balked || old(h.w).recovery.None? || Crowded(old(h.w).recovery)
    ensures old(h.balked) || r.Died? ==> h.balked
    ensures r.Failed? ==> h.balked || h.w.recovery == None || h.w.target.Some?
  {
    hide Inv, Rely, Busy, Later, Validated, Armed, MayUnlink, CanUnlink;
    ghost var w0 := h.w;
    var ctx := h.Call();
    BusyIsLater(w0, h.w);
    QuietIsStill(w0, h.w);
    BusyKeepsArmed(w0, h.w, op);
    if ctx.Died? { return Died; }
    ghost var w1, v := h.w, h.w;
    if ctx.Done? {
      MayUnlinkValidated(w0, w1, op);
      var gone;
      gone, v := h.Unlink();
      LaterTrans(w0, w1, h.w);
      QuietIsStill(w1, v);
      if gone == Done(true) { UnlinkIsDone(v, w1); return Done(()); }
      BusyKeepsArmed(w1, h.w, op);
      if gone.Died? { return Died; }
    }
    ghost var w2 := h.w;
    r := PutBack(h, op);
    BusyIsLater(w2, h.w);
    LaterTrans(w0, w2, h.w);
    LaterEdits(w2, h.w);
  }

  lemma UnlinkIsDone(v: World, w: World)
    requires CanUnlink(v) && Rely(w, v) && w.job.kind == OpDeleteLocal
    ensures var w' := Unlink(v);
            w'.recovery == None && (w'.edits == 0 ==> w'.effects == 1) && |w'.log| > 0 && w'.log[|w'.log| - 1].Unlinked?
  {
  }

  lemma BusyIsLater(w: World, w': World)
    requires Busy(w, w')
    ensures Later(w, w') && w'.row == w.row && w'.job == w.job && NoNewDownload(w, w')
  {
  }

  lemma MayUnlinkValidated(w: World, w': World, op: Row)
    requires Validated(w) && Rely(w, w') && Armed(w', op) && w.job.kind == OpDeleteLocal
    ensures MayUnlink(w')
  {
    hide Holder, Remembers;
  }

  /** The callback that crosses the durable side-effect boundary. */
  method EnterSideEffect(h: Host, op: Row) returns (r: Reply<()>)
    requires Inv(h.w) && Tracks(h.w, op) && Ready(h.w) && op.pin.Some? && h.w.job.IsLocal() && StartChecks(h.w.job)
    modifies h
    ensures Inv(h.w) && Later(old(h.w), h.w) && NoNewDownload(old(h.w), h.w) && h.w.recovery == None
    ensures r.Done? ==> Armed(h.w, op) && (Staged(old(h.w)) ==> Staged(h.w))
    ensures NothingUnexpected(old(h.w)) ==> NothingUnexpected(h.w)
    ensures !r.Done? ==> Attempted(old(h.w), h.w, op, false, false)
    ensures r.Done? && h.w.edits == 0 ==> CanBegin(old(h.w)) && h.w == OperationActions.Begin(old(h.w))
    ensures old(h.balked) || r.Died? ==> h.balked
    ensures r.Failed? ==> h.balked
  {
    hide Inv, Remembers, Holder;
    ghost var w0, v := h.w, h.w;
    r, v := h.Begin();
    if Staged(w0) { StagedIsStable(w0, v); }
  }

  /** The path still leads to the pinned object in its expected state. */
  predicate Stands(w: World, pin: Pin) { PinHolds(w, pin) && Resolvable(w) }

  lemma BegunStands(w: World, pin: Pin)
    requires CanBegin(w)
    ensures PinHolds(OperationActions.Begin(w), pin) <==> PinHolds(w, pin)
    ensures PinHolds(w, pin) && w.job.expectedLocal.present ==> w.target.Some?
  {
  }

  lemma LaterEdits(w: World, w': World)
    requires Later(w, w')
    ensures w.edits <= w'.edits
  {
  }

  /** DeleteLocal. */
  method DeleteLocal(h: Host, op: Row) returns (r: Reply<()>, started: bool)
    requires Inv(h.w) && Tracks(h.w, op) && Ready(h.w) && op.pin.Some? && h.w.job.kind == OpDeleteLocal
    modifies h
    ensures Inv(h.w) && Attempted(old(h.w), h.w, op, r.Done?, started)
    ensures r.Done? ==> |h.w.log| > 0 && h.w.log[|h.w.log| - 1].Unlinked?
    ensures NoNewDownload(old(h.w), h.w)
    ensures r.Failed? && h.w.edits == 0 ==>
              || h.balked || !old(h.w).job.expectedLocal.present || !Stands(old(h.w), op.pin.value)
              || Crowded(old(h.w).target)
    ensures !started ==> h.balked || h.w.row == old(h.w).row
    ensures old(h.balked) || r.Died? ==> h.balked
    ensures r.Failed? ==> h.balked || h.w.recovery == None || h.w.target.Some?
  {
    hide Inv, Rely, Validated, Idles, Resolvable, Later;
    started := false;
    ghost var w0 := h.w;
    IdlesRefl(w0);
    IdleAttempt(w0, w0, op);
    if !h.w.job.expectedLocal.present { return Failed, false; }
    r := CheckLocal(h, op);
    StillTracks(w0, h.w, op);
    QuietIsStill(w0, h.w);
    IdleAttempt(w0, h.w, op);
    if !r.Done? { return; }
    ghost var w1 := h.w;
    r := EnterSideEffect(h, op);
    if !r.Done? { AttemptedAfter(w0, w1, h.w, op, false, false); return; }
    ghost var w2 := h.w;
    LaterTrans(w0, w1, w2);
    started := true;
    r := PreserveAndUnlink(h, op);
    LaterTrans(w0, w2, h.w);
    LaterEdits(w2, h.w);
    if w2.edits == 0 { BegunStands(w1, op.pin.value); }
  }

  /** The side effect of a delete. */
  method PreserveAndUnlink(h: Host, op: Row) returns (r: Reply<()>)
    requires Inv(h.w) && Armed(h.w, op) && h.w.job.kind == OpDeleteLocal && h.w.recovery == None &&
               NothingUnexpected(h.w)
    requires h.w.job.expectedLocal.present
    modifies h
    ensures Inv(h.w) && Later(old(h.w), h.w) && h.w.row == old(h.w).row && NoNewDownload(old(h.w), h.w)
    ensures r.Done? ==> h.w.recovery == None && (h.w.edits == 0 ==> h.w.effects == 1)
    ensures r.Done? ==> |h.w.log| > 0 && h.w.log[|h.w.log| - 1].Unlinked?
    ensures r.Failed? && h.w.edits == 0 ==>
              h.balked || !PathAsPinned(old(h.w), op.pin.value) || Crowded(old(h.w).target)
    ensures old(h.balked) || r.Died? ==> h.balked
    ensures r.Failed? ==> h.balked || h.w.recovery == None || h.w.target.Some?
  {
    hide Inv, Rely, Validated, Busy, Later, Armed;
    ghost var w0 := h.w;
    ArmedHasPin(w0, op);
    r := PreserveExpected(h, op);
    BusyIsLater(w0, h.w);
    if r.Done? {
      BusyKeepsArmed(w0, h.w, op);
      ghost var w1 := h.w;
      r := UnlinkPreserved(h, op);
      LaterTrans(w0, w1, h.w);
      LaterEdits(w1, h.w);
    }
  }

  lemma ArmedHasPin(w: World, op: Row)
    requires Armed(w, op)
    ensures op.pin.Some?
  {
  }

  lemma IdlesRefl(w: World)
    ensures Idles(w, w)
  {
  }

  /** Before the durable start there are only observations and staging. */
  lemma IdleAttempt(w: World, w': World, op: Row)
    requires Tracks(w', op) && Idles(w, w')
    ensures Attempted(w, w', op, false, false)
  {
  }

  lemma AttemptedAfter(a: World, b: World, c: World, op: Row, done: bool, started: bool)
    requires Idles(a, b) && Attempted(b, c, op, done, started)
    ensures Attempted(a, c, op, done, started)
  {
  }

  /** EnsureLocalDir. On success, before is the state just before the mkdir. */
  method EnsureLocalDir(h: Host, op: Row) returns (r: Reply<()>, started: bool, ghost before: World)
    requires Inv(h.w) && Tracks(h.w, op) && Ready(h.w) && op.pin.Some?
    requires h.w.job.kind == OpEnsureLocal && h.w.job.entryKind == KindDir
    modifies h
    ensures Inv(h.w) && Attempted(old(h.w), h.w, op, r.Done?, started)
    ensures r.Done? ==> Later(old(h.w), before) && before.target == None && h.w.target.Some? && h.w.target.value.DirObj?
    ensures r.Done? ==> CanMakeDir(before) && h.w == MakeDir(before, h.w.target.value.ident)
    ensures NoNewDownload(old(h.w), h.w)
    ensures r.Failed? && h.w.edits == 0 ==>
              || h.balked || old(h.w).job.expectedLocal.present || !Stands(old(h.w), op.pin.value)
              || old(h.w).target.Some?
    ensures !started ==> h.balked || h.w.row == old(h.w).row
    ensures old(h.balked) || r.Died? ==> h.balked
  {
    hide Inv, Rely, Ready, Validated, Idles, PinHolds, Resolvable, Later;
    started := false;
    ghost var w0 := h.w;
    before := w0;
    IdlesRefl(w0);
    IdleAttempt(w0, w0, op);
    if h.w.job.expectedLocal.present { return Failed, false, before; }
    r := CheckLocal(h, op);
    StillTracks(w0, h.w, op);
    QuietIsStill(w0, h.w);
    IdleAttempt(w0, h.w, op);
    if !r.Done? { return; }
    ghost var w1 := h.w;
    r := EnterSideEffect(h, op);
    if !r.Done? { AttemptedAfter(w0, w1, h.w, op, false, false); return; }
    ghost var w2 := h.w;
    LaterTrans(w0, w1, w2);
    started := true;
    ghost var ident;
    r, before, ident := h.MakeDir();
    LaterTrans(w0, w2, h.w);
    RelyIsLater(w2, before);
    LaterEdits(before, h.w);
    QuietIsStill(w2, before);
    LaterTrans(w0, w2, before);
  }

  // ----- Downloads -----

  /** A download is staged and the attempt may install it. */
  ghost predicate Loaded(w: World, op: Row) {
    Armed(w, op) && w.job.IsDownload() && Staged(w)
  }

  lemma LoadedStays(w: World, w': World, op: Row)
    requires Loaded(w, op) && Busy(w, w')
    ensures Loaded(w', op)
  {
  }

  lemma InstallKeepsValidated(v: World, op: Row)
    requires CanInstall(v) && Validated(v) && Armed(v, op)
    ensures MayUnlink(Install(v))
  {
    assert Install(v).log[..|v.log|] == v.log;
  }

  /** The staged file went to the target by an event at position n or later. */
  ghost predicate InstalledSince(log: seq<Event>, n: nat, temp: Option<Obj>) {
    exists k :: n <= k < |log| && log[k].Installed? && temp == Some(log[k].o)
  }

  lemma InstalledNow(w: World, v: World, w': World)
    requires CanInstall(v) && w.log <= v.log && v.download == w.download && Install(v).log <= w'.log
    ensures InstalledSince(w'.log, |w.log|, w.download)
  {
    var k := |v.log|;
    assert Install(v).log[k] == Installed(v.download.value, v.Now());
    assert w'.log[k] == Install(v).log[k];
  }

  lemma InstalledEarlier(w: World, w': World, log: seq<Event>)
    requires Busy(w, w')
    ensures InstalledSince(log, |w'.log|, w'.download) ==> InstalledSince(log, |w.log|, w.download)
  {
  }

  /** Installs over an empty path and then unlinks the prior object; if the
      path was taken meanwhile, the prior object goes back. */
  method InstallOverPreserved(h: Host, op: Row) returns (r: Reply<()>)
    requires Inv(h.w) && Loaded(h.w, op) && Validated(h.w)
    modifies h
    ensures Inv(h.w) && Later(old(h.w), h.w) && h.w.row == old(h.w).row
    ensures r.Done? ==> h.w.recovery == None && (h.w.edits == 0 ==> h.w.effects == 1)
    ensures r.Done? ==> |h.w.log| > 0 && h.w.log[|h.w.log| - 1].Unlinked?
    ensures r.Done? ==> old(h.w).download.Some? && InstalledSince(h.w.log, |old(h.w).log|, old(h.w).download)
    ensures r.Failed? && h.w.edits == 0 ==>
              || h.balked || old(h.w).target.Some? || old(h.w).download.None?
              || old(h.w).recovery.None? || Crowded(old(h.w).recovery)
    ensures r.Done? && h.w.edits == 0 ==> h.w.target == old(h.w).download
    ensures r.Failed? ==>
              || h.balked || h.w.recovery == None || h.w.target.Some?
              || InstalledSince(h.w.log, |old(h.w).log|, old(h.w).download)
    ensures old(h.balked) || r.Died? ==> h.balked
  {
    hide Inv, Rely, Holder, ExactlyAuthorized, Staged, InstalledSince, FoundOut;
    ghost var w0, v := h.w, h.w;
    r, v := h.Install();
    ValidatedIsStable(w0, v);
    QuietIsStill(w0, v);
    if r.Done? {
      InstallKeepsValidated(v, op);
      ghost var w1, u := h.w, h.w;
      var gone;
      gone, u := h.Unlink();
      LaterTrans(w0, w1, h.w);
      InstalledNow(w0, v, h.w);
      LaterEdits(w1, h.w);
      QuietIsStill(w1, u);
      r := if gone == Done(true) then Done(()) else if gone.Died? then Died else Failed;
    } else if r.Failed? {
      ghost var w1 := h.w;
      r := PutBack(h, op);
      BusyIsLater(w1, h.w);
      LaterTrans(w0, w1, h.w);
      LaterEdits(w1, h.w);
    }
  }

  /** installDownloadedPhysicalTemp, and its counterpart for a copied symlink:
      success means that the staged file was moved to the empty target. */
  method InstallDownloaded(h: Host, op: Row) returns (r: Reply<()>)
    requires Inv(h.w) && Loaded(h.w, op) && h.w.recovery == None && NothingUnexpected(h.w)
    modifies h
    ensures Inv(h.w) && Later(old(h.w), h.w) && h.w.row == old(h.w).row
    ensures r.Done? ==> h.w.recovery == None && (h.w.edits == 0 ==> h.w.effects == 1)
    ensures r.Done? ==> old(h.w).download.Some? && InstalledSince(h.w.log, |old(h.w).log|, old(h.w).download)
    ensures r.Failed? && h.w.edits == 0 ==>
              || h.balked || !PinHolds(old(h.w), op.pin.value) || old(h.w).download.None?
              || Crowded(old(h.w).target)
    ensures r.Done? && h.w.edits == 0 ==> h.w.target == old(h.w).download
    ensures r.Failed? ==>
              || h.balked || h.w.recovery == None || h.w.target.Some?
              || InstalledSince(h.w.log, |old(h.w).log|, old(h.w).download)
    ensures old(h.balked) || r.Died? ==> h.balked
  {
    hide Inv, Rely, Holder, Validated, Staged, InstalledSince, Busy, Later;
    ghost var w0, v := h.w, h.w;
    if op.pin.value.linkText.None? && !h.w.job.expectedLocal.present {
      r := InstallOverNothing(h, op);
      return;
    }
    r := PreserveLoaded(h, op);
    ghost var w1 := h.w;
    BusyIsLater(w0, w1);
    if !r.Done? { return; }
    var ctx := Done(());
    if op.pin.value.linkText.None? {
      ctx := h.Call();
      LoadedStays(w1, h.w, op);
      ValidatedIsStable(w1, h.w);
      BusyIsLater(w1, h.w);
      QuietIsStill(w1, h.w);
    } else { LaterRefl(w1); BusyRefl(w1); }
    ghost var w2 := h.w;
    LaterTrans(w0, w1, w2);
    if !ctx.Done? {
      r := ctx;
      if ctx.Failed? { r := PutBack(h, op); BusyIsLater(w2, h.w); LaterTrans(w0, w2, h.w); LaterEdits(w2, h.w); }
      return;
    }
    r := InstallOverPreserved(h, op);
    LaterTrans(w0, w2, h.w);
    LaterEdits(w2, h.w);
    LaterEdits(w1, w2);
    BusyTrans(w0, w1, w2);
    InstalledEarlier(w0, w2, h.w.log);
    if r.Done? { SameDownload(w0, w2); }
  }

  lemma BusyRefl(w: World)
    ensures Busy(w, w)
  {
  }

  lemma SameDownload(w: World, w': World)
    requires Busy(w, w') && w'.download.Some?
    ensures w'.download == w.download && w.log <= w'.log
  {
  }

  method InstallOverNothing(h: Host, op: Row) returns (r: Reply<()>)
    requires Inv(h.w) && Loaded(h.w, op) && h.w.recovery == None
    modifies h
    ensures Inv(h.w) && Later(old(h.w), h.w) && h.w.row == old(h.w).row
    ensures r.Done? ==> h.w.recovery == None && (h.w.edits == 0 ==> h.w.effects == 1)
    ensures r.Done? ==> old(h.w).download.Some? && InstalledSince(h.w.log, |old(h.w).log|, old(h.w).download)
    ensures r.Failed? && h.w.edits == 0 ==> h.balked || old(h.w).target.Some? || old(h.w).download.None?
    ensures r.Done? && h.w.edits == 0 ==> h.w.target == old(h.w).download
    ensures r.Failed? ==> h.balked || h.w.recovery == None || h.w.target.Some?
    ensures old(h.balked) || r.Died? ==> h.balked
  {
    hide Inv, Rely, Holder, Staged, InstalledSince;
    ghost var w0, v := h.w, h.w;
    r, v := h.Install();
    QuietIsStill(w0, v);
    if r.Done? { InstalledNow(w0, v, h.w); }
  }

  /** PreserveExpected keeps the staged file. */
  method PreserveLoaded(h: Host, op: Row) returns (r: Reply<()>)
    requires Inv(h.w) && Loaded(h.w, op) && h.w.recovery == None && NothingUnexpected(h.w)
    requires op.pin.value.linkText.None? ==> h.w.job.expectedLocal.present
    modifies h
    ensures Inv(h.w) && Busy(old(h.w), h.w)
    ensures r.Done? ==> Validated(h.w) && Loaded(h.w, op)
    ensures r.Failed? && h.w.edits == 0 ==> h.balked || !PathAsPinned(old(h.w), op.pin.value)
    ensures r.Done? ==> OnlyMoved(old(h.w), h.w)
    ensures r.Failed? ==> h.balked || h.w.recovery == None || h.w.target.Some?
    ensures old(h.balked) || r.Died? ==> h.balked
  {
    hide Inv, Rely, Holder, Validated, Staged, Busy;
    ghost var w0 := h.w;
    r := PreserveExpected(h, op);
    LoadedStays(w0, h.w, op);
  }

  /** The fingerprint names a known version with the bytes of the expected
      remote revision. */
  ghost predicate NamesExpected(w: World, fp: LocalFingerprint) {
    && fp.present && fp.kind == KindFile
    && LKey(fp) in w.localVersions
    && (w.job.expectedRemote.id, w.job.expectedRemote.rev) in w.remoteVersions
    && w.localVersions[LKey(fp)] == w.remoteVersions[(w.job.expectedRemote.id, w.job.expectedRemote.rev)]
  }

  lemma NamesExpectedStays(w: World, w': World, fp: LocalFingerprint)
    requires NamesExpected(w, fp) && Later(w, w')
    ensures NamesExpected(w', fp)
  {
  }

  lemma StagedNamesExpected(w: World)
    requires Inv(w) && Staged(w) && w.download.Some?
    ensures NamesExpected(w, FpOf(w.download))
  {
    InvParts(w);
  }

  /** The state an unfinished attempt at a download works in. */
  ghost predicate Loading(w: World, op: Row) {
    && Tracks(w, op) && Ready(w) && op.pin.Some? && w.job.IsDownload() && !w.job.expectedRemote.absent
  }

  lemma StillLoading(w: World, w': World, op: Row)
    requires Loading(w, op) && Idles(w, w')
    ensures Loading(w', op) && Attempted(w, w', op, false, false)
  {
    TracksIsStable(w, w', op);
  }

  lemma RelyKeepsLoading(w: World, w': World, op: Row)
    requires Loading(w, op) && Rely(w, w')
    ensures w'.row == w.row
    ensures Loading(w', op) && Idles(w, w') && NoNewDownload(w, w')
    ensures Staged(w) ==> Staged(w')
    ensures NothingUnexpected(w) ==> NothingUnexpected(w')
  {
    RelyIdles(w, w');
    StillLoading(w, w', op);
    if Staged(w) { StagedIsStable(w, w'); }
  }

  /** commitDownloadedPhysicalTemp: both sides are checked again, then the
      durable boundary is crossed and the file is installed. */
  method CommitDownloaded(h: Host, op: Row) returns (r: Reply<LocalFingerprint>, started: bool)
    requires Inv(h.w) && Loading(h.w, op) && Staged(h.w)
    modifies h
    ensures Inv(h.w) && Attempted(old(h.w), h.w, op, r.Done?, started)
    ensures r.Done? ==> NamesExpected(h.w, r.value)
    ensures r.Failed? && h.w.edits == 0 ==>
              || h.balked || !Stands(old(h.w), op.pin.value) || old(h.w).download.None? || Crowded(old(h.w).target)
              || !RemoteMatches(RemoteOf(old(h.w).remote), old(h.w).job.expectedRemote, KindFile)
    ensures r.Done? && h.w.edits == 0 ==> r.value == FpOf(h.w.target)
    ensures !started ==> h.balked || h.w.row == old(h.w).row
    ensures old(h.balked) || r.Died? ==> h.balked
  {
    hide Inv, Rely, RemoteMatches, RemoteOf, Crowded, FpOf, Staged, NamesExpected, Later, Ready;
    hide Loading, Idles, Attempted;
    started := false;
    ghost var w0 := h.w;
    LoadingHasPin(w0, op);
    var checked := CheckLocal(h, op);
    RelyKeepsLoading(w0, h.w, op);
    QuietIsStill(w0, h.w);
    IdleLoading(w0, h.w, op);
    if !checked.Done? { return checked.PropagateFailure(), false; }
    ghost var w1 := h.w;
    var remote := ObserveRemote(h);
    RelyKeepsLoading(w1, h.w, op);
    QuietIsStill(w1, h.w);
    IdlesTrans(w0, w1, h.w);
    IdleLoading(w0, h.w, op);
    if !remote.Done? { return remote.PropagateFailure(), false; }
    if !RemoteMatches(remote.value, h.w.job.expectedRemote, KindFile) { return Failed, false; }
    ghost var w2 := h.w;
    var stat := h.Call();
    RelyKeepsLoading(w2, h.w, op);
    QuietIsStill(w2, h.w);
    IdlesTrans(w0, w2, h.w);
    IdleLoading(w0, h.w, op);
    if !stat.Done? { return stat.PropagateFailure(), false; }
    if h.w.download.None? { return Failed, false; }
    ghost var w3 := h.w;
    r, started := InstallStaged(h, op);
    AttemptedAfter(w0, w3, h.w, op, r.Done?, started);
    AttemptedIsLater(w3, h.w, op, r.Done?, started);
  }

  lemma LoadingHasPin(w: World, op: Row)
    requires Loading(w, op)
    ensures op.pin.Some? && w.authority == op.pin
  {
  }

  lemma IdleLoading(w: World, w': World, op: Row)
    requires Loading(w', op) && Idles(w, w')
    ensures Attempted(w, w', op, false, false)
  {
    IdleAttempt(w, w', op);
  }

  method InstallStaged(h: Host, op: Row) returns (r: Reply<LocalFingerprint>, started: bool)
    requires Inv(h.w) && Loading(h.w, op) && Staged(h.w) && h.w.download.Some? && NothingUnexpected(h.w)
    modifies h
    ensures Inv(h.w) && Attempted(old(h.w), h.w, op, r.Done?, started)
    ensures r.Done? ==> NamesExpected(h.w, r.value)
    ensures r.Failed? && h.w.edits == 0 ==>
              h.balked || !PinHolds(old(h.w), op.pin.value) || Crowded(old(h.w).target)
    ensures r.Done? && h.w.edits == 0 ==> r.value == FpOf(h.w.target)
    ensures !started ==> h.balked || h.w.row == old(h.w).row
    ensures old(h.balked) || r.Died? ==> h.balked
  {
    hide Inv, Rely, Staged, NamesExpected, Ready, Later;
    ghost var w0 := h.w;
    StagedNamesExpected(w0);
    var temp := FpOf(h.w.download);
    LoadingMayStart(w0, op);
    var entered := EnterSideEffect(h, op);
    if !entered.Done? { return entered.PropagateFailure(), false; }
    NamesExpectedStays(w0, h.w, temp);
    ghost var w1 := h.w;
    JobStays(w0, w1);
    var installed := InstallDownloaded(h, op);
    NamesExpectedStays(w1, h.w, temp);
    LaterTrans(w0, w1, h.w);
    LaterEdits(w1, h.w);
    if w1.edits == 0 { BegunStands(w0, op.pin.value); }
    started := true;
    r := if installed.Done? then Done(temp) else installed.PropagateFailure();
  }

  lemma JobStays(w: World, w': World)
    requires Later(w, w')
    ensures w'.job == w.job
  {
  }

  lemma LoadingMayStart(w: World, op: Row)
    requires Loading(w, op)
    ensures w.job.IsLocal() && StartChecks(w.job)
  {
  }

  lemma OwnsDownloadSlot(w: World, op: Row)
    requires Inv(w) && Loading(w, op)
    ensures DownloadSlot in OwnedSlots(w.job, w.row.value)
  {
    InvParts(w);
  }

  /** Stages the exact revision in the cleared download slot, commits it, and
      clears the slot again on every return. */
  method StageAndCommit(h: Host, op: Row) returns (r: Reply<LocalFingerprint>, started: bool)
    requires Inv(h.w) && Loading(h.w, op)
    modifies h
    ensures Inv(h.w) && Attempted(old(h.w), h.w, op, r.Done?, started)
    ensures r.Done? ==> NamesExpected(h.w, r.value)
    ensures !r.Died? ==> h.w.download == None
    ensures r.Failed? && h.w.edits == 0 ==>
              || h.balked || !Stands(old(h.w), op.pin.value) || Crowded(old(h.w).target)
              || !RemoteMatches(RemoteOf(old(h.w).remote), old(h.w).job.expectedRemote, KindFile)
              || old(h.w).job.expectedRemote.absent
    ensures r.Done? && h.w.edits == 0 ==> r.value == FpOf(h.w.target)
    ensures !started ==> h.balked || h.w.row == old(h.w).row
    ensures old(h.balked) || r.Died? ==> h.balked
  {
    hide Inv, Rely, Staged, NamesExpected, Idles, Ready, Loading, Attempted, Later;
    hide Stands, Crowded, RemoteMatches, RemoteOf, FpOf;
    ghost var w0 := h.w;
    started := false;
    var cleared := h.Unstage();
    StillLoading(w0, h.w, op);
    IdlesStand(w0, h.w, op.pin.value);
    if !cleared.Done? { return Died, false; }
    ghost var w1 := h.w;
    OwnsDownloadSlot(w1, op);
    LoadingHasRow(w1, op);
    var staged := h.Stage();
    IdlesTrans(w0, w1, h.w);
    StillLoading(w1, h.w, op);
    IdlesStand(w0, h.w, op.pin.value);
    IdleLoading(w0, h.w, op);
    if staged.Died? { return Died, false; }
    ghost var w2 := h.w;
    if staged.Done? {
      r, started := CommitDownloaded(h, op);
      AttemptedAfter(w0, w2, h.w, op, r.Done?, started);
      AttemptedIsLater(w2, h.w, op, r.Done?, started);
    } else {
      r := Failed;
    }
    if r.Died? { return; }
    ghost var w3 := h.w;
    var removed := h.Unstage();
    AttemptedThenIdle(w0, w3, h.w, op, r.Done?, started);
    IdlesStand(w3, h.w, op.pin.value);
    if r.Done? { NamesExpectedStays(w3, h.w, r.value); }
    if removed.Died? { if r.Done? { DoneIsStarted(w0, h.w, op, started); } r := Died; }
  }

  lemma LoadingHasRow(w: World, op: Row)
    requires Loading(w, op)
    ensures w.row.Some?
  {
  }

  lemma DoneIsStarted(w: World, w': World, op: Row, started: bool)
    requires Attempted(w, w', op, true, started)
    ensures Attempted(w, w', op, false, started)
  {
  }

  lemma AttemptedThenIdle(a: World, b: World, c: World, op: Row, done: bool, started: bool)
    requires Attempted(a, b, op, done, started) && Idles(b, c)
    ensures Attempted(a, c, op, done, started) && Later(b, c)
  {
  }

  lemma AttemptedIsLater(w: World, w': World, op: Row, done: bool, started: bool)
    requires Attempted(w, w', op, done, started)
    ensures w.edits <= w'.edits
  {
  }

  /** Staging touches nothing that the pin speaks of. */
  lemma IdlesStand(w: World, w': World, pin: Pin)
    requires Idles(w, w')
    ensures w.edits <= w'.edits && w'.job == w.job && w'.row == w.row
    ensures w'.edits == 0 ==>
              && w'.target == w.target && w'.remote == w.remote && (Stands(w', pin) <==> Stands(w, pin))
  {
    hide IsExpected;
  }

  /** EnsureLocalFile: the exact revision is staged beside the pinned path and
      only then committed. */
  method EnsureLocalFile(h: Host, op: Row) returns (r: Reply<LocalFingerprint>, started: bool)
    requires Inv(h.w) && Tracks(h.w, op) && Ready(h.w) && op.pin.Some? && h.w.job.IsDownload()
    modifies h
    ensures Inv(h.w) && Attempted(old(h.w), h.w, op, r.Done?, started)
    ensures r.Done? ==> NamesExpected(h.w, r.value)
    ensures !r.Died? && (old(h.w).download == None || r.Done?) ==> h.w.download == None
    ensures r.Failed? && h.w.edits == 0 ==>
              || h.balked || !Stands(old(h.w), op.pin.value) || Crowded(old(h.w).target)
              || !RemoteMatches(RemoteOf(old(h.w).remote), old(h.w).job.expectedRemote, KindFile)
              || old(h.w).job.expectedRemote.absent
    ensures r.Done? && h.w.edits == 0 ==> r.value == FpOf(h.w.target)
    ensures !started ==> h.balked || h.w.row == old(h.w).row
    ensures old(h.balked) || r.Died? ==> h.balked
  {
    hide Inv, Rely, Staged, NamesExpected, Ready, Attempted, Idles;
    ghost var w0 := h.w;
    IdlesRefl(w0);
    IdleAttempt(w0, w0, op);
    if h.w.job.expectedRemote.absent { return Failed, false; }
    var checked := CheckLocal(h, op);
    RelyKeepsLoading(w0, h.w, op);
    QuietIsStill(w0, h.w);
    IdleLoading(w0, h.w, op);
    if !checked.Done? { return checked.PropagateFailure(), false; }
    ghost var w1 := h.w;
    r, started := StageAndCommit(h, op);
    AttemptedAfter(w0, w1, h.w, op, r.Done?, started);
    AttemptedIsLater(w1, h.w, op, r.Done?, started);
  }
}
