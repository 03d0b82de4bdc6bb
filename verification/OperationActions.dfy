/** The atomic actions on one operation's world: outside edits, system calls,
    remote calls and journal transactions, each with a proof that it keeps the
    invariant under the condition its caller must establish. */
module OperationActions {
  import opened Domain
  import opened OperationWorld

  // ----- Everybody else -----

  /** Outside edits, between any two actions of the syncer. Nobody else makes
      or takes away the operation's slots, but the object in the recovery slot
      may be edited in place, and the directory at the pinned path may be
      replaced by another one: the slots then leave with it. A directory that
      was moved away with an occupied slot does not come back. A new local or
      remote file version has a fingerprint that was never seen before. */
  datatype Edit =
    | PutTarget(o: Option<Obj>)
    | TouchSlot(touched: Obj)
    | PutRemote(r: Option<RemoteObj>)
    | Retarget(route: Route)
    | NewParent(parent: nat, found: Option<Obj>)

  predicate FreshLocal(w: World, o: Option<Obj>) {
    && (o.Some? ==> o.value.IsProper())
    && (o.Some? && o.value.FileObj? ==>
          LKey(FileFp(o.value)) !in w.localVersions && o.value.content == w.truth.local(LKey(FileFp(o.value))))
  }

  predicate FreshRemote(w: World, r: Option<RemoteObj>) {
    r.Some? && r.value.RemoteFile? ==>
      (r.value.id, r.value.rev) !in w.remoteVersions && r.value.content == w.truth.remote((r.value.id, r.value.rev))
  }

  /** The target of a remote operation is what the logical path dereferences
      to, so it is never a link itself. */
  predicate Reachable(w: World, o: Option<Obj>) {
    o.Some? && o.value.LinkObj? ==> w.job.IsLocal()
  }

  predicate Legal(w: World, e: Edit) {
    match e
    case PutTarget(o) => FreshLocal(w, o) && Reachable(w, o)
    case TouchSlot(o) => w.recovery.Some? && SameObject(w.recovery.value, o) && FreshLocal(w, Some(o))
    case PutRemote(r) => FreshRemote(w, r)
    case Retarget(_) => w.row.Some? && w.row.value.pin.Some?
    case NewParent(p, o) => p != w.parent && p !in w.away && FreshLocal(w, o) && Reachable(w, o)
  }

  /** The directory at the pinned path leaves, with its slots if they are
      occupied. */
  function MoveAway(w: World): map<nat, Left> {
    if OccupiedSlots(w) == {} then w.away else w.away[w.parent := Left(w.recovery, w.download)]
  }

  function Learn(versions: map<LocalKey, Content>, o: Option<Obj>): map<LocalKey, Content> {
    if o.Some? && o.value.FileObj? then versions[LKey(FileFp(o.value)) := o.value.content] else versions
  }

  function LearnRemote(versions: map<RemoteKey, Content>, r: Option<RemoteObj>): map<RemoteKey, Content> {
    if r.Some? && r.value.RemoteFile? then versions[(r.value.id, r.value.rev) := r.value.content] else versions
  }

  /** An illegal edit does not happen. */
  function ApplyEdit(w: World, e: Edit): World {
    if !Legal(w, e) then w
    else
      var w := w.(edits := w.edits + 1);
      match e
      case PutTarget(o) => w.(target := o, localVersions := Learn(w.localVersions, o))
      case TouchSlot(o) => w.(recovery := Some(o), localVersions := Learn(w.localVersions, Some(o)))
      case PutRemote(r) => w.(remote := r, remoteVersions := LearnRemote(w.remoteVersions, r))
      case Retarget(route) => w.(route := route)
      case NewParent(parent, o) =>
        w.(parent := parent, target := o, away := MoveAway(w), recovery := None, download := None,
           localVersions := Learn(w.localVersions, o))
  }

  function ApplyEdits(w: World, es: seq<Edit>): World
    decreases |es|
  {
    if es == [] then w else ApplyEdits(ApplyEdit(w, es[0]), es[1..])
  }

  // ----- What an action may rely on -----

  /** Known versions stay known, and a version that is gone does not return. */
  ghost predicate Remembers(w: World, w': World) {
    && (forall k | k in w.localVersions :: k in w'.localVersions && w'.localVersions[k] == w.localVersions[k])
    && (forall k | k in w.remoteVersions :: k in w'.remoteVersions && w'.remoteVersions[k] == w.remoteVersions[k])
    && (w'.target.Some? && w'.target.value.FileObj? && LKey(FileFp(w'.target.value)) in w.localVersions ==>
          w'.target == w.target)
    && (w'.remote.Some? && w'.remote.value.RemoteFile? &&
         (w'.remote.value.id, w'.remote.value.rev) in w.remoteVersions ==>
          w'.remote == w.remote)
  }

  /** The recovery slot holds what it held, in the same directory, or the
      directory is gone. */
  predicate SlotKept(w: World, w': World) {
    w'.recovery.Some? ==> w.recovery.Some? && SameObject(w.recovery.value, w'.recovery.value) && w'.parent == w.parent
  }

  /** What outside edits leave alone. */
  ghost predicate Rely(w: World, w': World) {
    && w'.job == w.job && w'.row == w.row && w'.authority == w.authority && w'.baseline == w.baseline &&
         w'.truth == w.truth
    && w'.log == w.log && w'.effects == w.effects && w'.begun == w.begun
    && w'.target0 == w.target0 && w'.remote0 == w.remote0
    && SlotKept(w, w') && (w'.download.Some? ==> w'.download == w.download)
    && w.edits <= w'.edits
    && (w'.edits == w.edits ==> w' == w)
    && Remembers(w, w')
  }

  lemma RelyRefl(w: World)
    ensures Rely(w, w)
  {
  }

  lemma RelyTrans(a: World, b: World, c: World)
    requires Rely(a, b) && Rely(b, c)
    ensures Rely(a, c)
  {
  }

  lemma QuietIsStill(w: World, w': World)
    requires Rely(w, w')
    ensures w'.edits == 0 ==> w' == w
    ensures w'.job == w.job
  {
  }

  lemma EditRelies(w: World, e: Edit)
    requires VersionInv(w)
    ensures Rely(w, ApplyEdit(w, e)) && VersionInv(ApplyEdit(w, e))
  {
    EditRemembers(w, e);
    EditKeepsVersions(w, e);
    hide Remembers, VersionInv, Learn, LearnRemote;
  }

  lemma EditRemembers(w: World, e: Edit)
    requires VersionInv(w)
    ensures Remembers(w, ApplyEdit(w, e))
  {
  }

  lemma EditKeepsVersions(w: World, e: Edit)
    requires VersionInv(w)
    ensures VersionInv(ApplyEdit(w, e))
  {
    hide FileFp, RemoteKnown, LearnRemote, FreshRemote;
    if e.PutRemote? { LearnedRemote(w, e.r); }
  }

  lemma LearnedRemote(w: World, r: Option<RemoteObj>)
    requires VersionInv(w)
    ensures FreshRemote(w, r) ==>
              var versions := LearnRemote(w.remoteVersions, r);
              RemoteKnown(r, versions) && forall k | k in versions :: versions[k] == w.truth.remote(k)
  {
  }

  lemma EditKeepsInv(w: World, e: Edit)
    requires Inv(w)
    ensures Inv(ApplyEdit(w, e))
  {
    hide Ledger, LastPark, Holder, Lawful, QuietInv, StartChecks, LogInv, LastPark;
    EditRelies(w, e);
    EditKeepsLog(w, e);
  }

  lemma EditKeepsLog(w: World, e: Edit)
    requires LogInv(w) && w.parent !in w.away
    ensures LogInv(ApplyEdit(w, e))
  {
    hide Ledger, LastPark, Holder, Lawful, LastPark;
  }

  lemma {:induction false} EditsKeepInv(w: World, es: seq<Edit>)
    requires Inv(w)
    ensures Inv(ApplyEdits(w, es)) && Rely(w, ApplyEdits(w, es))
    decreases |es|
  {
    hide Inv, Rely, ApplyEdit;
    if es == [] {
      RelyRefl(w);
    } else {
      var w1 := ApplyEdit(w, es[0]);
      EditKeepsInv(w, es[0]);
      assert VersionInv(w) by { InvParts(w); }
      EditRelies(w, es[0]);
      EditsKeepInv(w1, es[1..]);
      RelyTrans(w, w1, ApplyEdits(w1, es[1..]));
    }
  }

  lemma InvParts(w: World)
    requires Inv(w)
    ensures JournalInv(w) && SlotInv(w) && VersionInv(w) && BaselineInv(w) && LogInv(w)
  {
  }

  // ----- Moves between the target and the recovery slot -----

  function Logged(w: World, e: Event): World { w.(log := w.log + [e]) }

  lemma LogStep(w: World, e: Event)
    requires LogInv(w) && Lawful(w.job, w.authority, e) && Follows(Holder(w.log, DirOf(e)), e)
    ensures Ledger(w.log + [e]) && (forall x | x in w.log + [e] :: Lawful(w.job, w.authority, x))
    ensures forall d :: Holder(w.log + [e], d) == After(Holder(w.log, d), e, d)
    ensures LastPark(w.log + [e]) == if e.Parked? then Some(e.at.dir) else LastPark(w.log)
  {
    hide Lawful, Follows, After;
    assert (w.log + [e])[..|w.log|] == w.log;
  }

  /** The row stands in the running phase with a complete pin if it is local. */
  predicate IsRunning(w: World) {
    w.row.Some? && w.row.value.phase == Running
  }

  /** No effect yet, as far as nobody else wrote. */
  predicate Unapplied(w: World) {
    w.edits == 0 ==> w.effects == 0
  }

  predicate CanPark(w: World) {
    && w.row.Some? && (w.row.value.phase == Running || w.row.value.phase == Blocked)
    && w.job.IsLocal() && w.target.Some? && w.recovery == None && Unapplied(w)
    && NothingUnexpected(w)
  }

  /** rename(target, recovery slot) without replacing. */
  function Park(w: World): World
    requires CanPark(w)
  {
    Logged(w.(target := None, recovery := w.target), Parked(w.target.value, w.Now()))
  }

  lemma ParkKeepsInv(w: World)
    requires Inv(w) && CanPark(w)
    ensures Inv(Park(w))
  {
    hide Ledger, LastPark, Holder, Lawful, Applied, Proven;
    assert Lawful(w.job, w.authority, Parked(w.target.value, w.Now())) by { LawfulParked(w); }
    LogStep(w, Parked(w.target.value, w.Now()));
  }

  lemma LawfulParked(w: World)
    requires JournalInv(w) && CanPark(w)
    ensures Lawful(w.job, w.authority, Parked(w.target.value, w.Now()))
  {
  }

  /** The object in the slot passed the fingerprint check. */
  predicate CanValidate(w: World) {
    && w.begun && w.row.Some? && w.authority.Some? && w.recovery.Some?
    && IsExpected(w.recovery.value, w.authority.value, w.job)
  }

  function Validate(w: World): World
    requires CanValidate(w)
  {
    Logged(w, Checked(w.recovery.value, w.parent))
  }

  lemma ValidateKeepsInv(w: World)
    requires Inv(w) && CanValidate(w)
    ensures Inv(Validate(w)) && Holder(Validate(w).log, w.parent) == Held(w.recovery.value, ContentChecked)
  {
    hide Ledger, Holder, Proven, LastPark, Lawful;
    var e := Checked(w.recovery.value, w.parent);
    assert Lawful(w.job, w.authority, e) by { LawfulFinding(w, e); }
    LogStep(w, e);
  }

  /** The object in the slot passed recovery's identity check. */
  predicate CanIdentify(w: World) {
    && w.begun && w.row.Some? && w.authority.Some? && w.recovery.Some?
    && PassesIdentityCheck(w.recovery.value, w.authority.value) && w.recovery.value.IsProper()
  }

  function Identify(w: World): World
    requires CanIdentify(w)
  {
    Logged(w, Identified(w.recovery.value, w.parent))
  }

  lemma IdentifyKeepsInv(w: World)
    requires Inv(w) && CanIdentify(w)
    ensures Inv(Identify(w)) && Holder(Identify(w).log, w.parent) == Held(w.recovery.value, IdentityChecked)
  {
    hide Ledger, Holder, Proven, LastPark, Lawful;
    var e := Identified(w.recovery.value, w.parent);
    assert Lawful(w.job, w.authority, e) by { LawfulFinding(w, e); }
    LogStep(w, e);
  }

  /** os.Stat of the occupied slot reports that nothing is there: a link that
      dangles. */
  predicate CanOverlook(w: World) {
    w.begun && w.row.Some? && w.recovery.Some? && Stray(w.recovery.value, w.authority) &&
        w.recovery.value.StatIdent().None?
  }

  function Overlook(w: World): World
    requires CanOverlook(w)
  {
    Logged(w, Overlooked(w.recovery.value, w.parent))
  }

  lemma OverlookKeepsInv(w: World)
    requires Inv(w) && CanOverlook(w)
    ensures Inv(Overlook(w)) && JustOverlooked(Overlook(w).log, w.parent)
  {
    hide Ledger, Holder, Proven, LastPark, Lawful;
    var e := Overlooked(w.recovery.value, w.parent);
    assert Lawful(w.job, w.authority, e) by { LawfulFinding(w, e); }
    LogStep(w, e);
  }

  lemma LawfulFinding(w: World, e: Event)
    requires (CanValidate(w) && e == Checked(w.recovery.value, w.parent)) ||
               (CanIdentify(w) && e == Identified(w.recovery.value, w.parent)) ||
             (CanOverlook(w) && e == Overlooked(w.recovery.value, w.parent))
    ensures Lawful(w.job, w.authority, e)
  {
  }

  predicate CanRestore(w: World) {
    && w.row.Some? && (w.row.value.phase == Running || w.row.value.phase == Blocked)
    && w.target == None && w.recovery.Some?
  }

  /** rename(recovery slot, target) without replacing. */
  function Restore(w: World): World
    requires CanRestore(w)
  {
    Logged(w.(target := w.recovery, recovery := None), Restored(w.recovery.value, w.Now()))
  }

  lemma RestoreKeepsInv(w: World)
    requires Inv(w) && CanRestore(w)
    ensures Inv(Restore(w))
  {
    hide Ledger, LastPark, Holder, Lawful, Proven;
    var e := Restored(w.recovery.value, w.Now());
    assert w.job.IsLocal();
    assert Lawful(w.job, w.authority, e) by { LawfulRestored(w); }
    LogStep(w, e);
  }

  lemma LawfulRestored(w: World)
    requires JournalInv(w) && CanRestore(w) && w.job.IsLocal()
    ensures Lawful(w.job, w.authority, Restored(w.recovery.value, w.Now()))
  {
  }

  /** unlink or rmdir of the recovery slot. */
  predicate CanUnlink(w: World) {
    && w.row.Some? && w.row.value.pin.Some? && w.recovery.Some?
    && (w.row.value.phase == Running ==>
          ExactlyAuthorized(w.recovery.value, w.row.value.pin.value) && Holder(w.log, w.parent).Held? &&
              Holder(w.log, w.parent).state == ContentChecked)
    && (w.row.value.phase == Recovering ==>
         Holder(w.log, w.parent).Held? && Holder(w.log, w.parent).state == IdentityChecked)
    && (w.row.value.phase == Running || w.row.value.phase == Recovering)
    && (w.recovery.value.DirObj? ==> w.recovery.value.empty)
    && (w.edits == 0 ==> if w.job.kind == OpDeleteLocal then w.effects == 0 else w.effects == 1)
  }

  function Unlink(w: World): World
    requires CanUnlink(w)
  {
    var w1 := w.(recovery := None, effects := if w.job.kind == OpDeleteLocal then w.effects + 1 else w.effects);
    Logged(w1, Unlinked(w.recovery.value, w.Now()))
  }

  lemma UnlinkKeepsInv(w: World)
    requires Inv(w) && CanUnlink(w)
    ensures Inv(Unlink(w))
  {
    hide Ledger, LastPark, Holder, Lawful, Proven, ExactlyAuthorized, LastPark;
    var e := Unlinked(w.recovery.value, w.Now());
    assert Lawful(w.job, w.authority, e) by { LawfulUnlinked(w); }
    LogStep(w, e);
  }

  lemma LawfulUnlinked(w: World)
    requires JournalInv(w) && CanUnlink(w)
    ensures Lawful(w.job, w.authority, Unlinked(w.recovery.value, w.Now()))
  {
  }

  // ----- Creating the target -----

  predicate CanInstall(w: World) {
    && IsRunning(w) && w.job.IsDownload() && w.target == None && w.download.Some? && Unapplied(w)
    && (w.edits == 0 ==> RemoteMatches(RemoteOf(w.remote), w.job.expectedRemote, KindFile))
    && (w.job.expectedRemote.id, w.job.expectedRemote.rev) in w.remoteVersions
    && w.download.value.FileObj?
    && w.download.value.content == w.remoteVersions[(w.job.expectedRemote.id, w.job.expectedRemote.rev)]
  }

  /** rename(download slot, target) without replacing. */
  function Install(w: World): World
    requires CanInstall(w)
  {
    Logged(w.(target := w.download, download := None, effects := w.effects + 1), Installed(w.download.value, w.Now()))
  }

  lemma InstallKeepsInv(w: World)
    requires Inv(w) && CanInstall(w)
    ensures Inv(Install(w))
  {
    hide Ledger, LastPark, Holder, Lawful;
    var e := Installed(w.download.value, w.Now());
    assert Lawful(w.job, w.authority, e) by { LawfulInstalled(w, w.download.value); }
    LogStep(w, e);
  }

  lemma LawfulInstalled(w: World, o: Obj)
    requires JournalInv(w) && IsRunning(w) && w.job.IsLocal()
    ensures Lawful(w.job, w.authority, Installed(o, w.Now()))
  {
  }

  predicate CanMakeDir(w: World) {
    IsRunning(w) && w.job.kind == OpEnsureLocal && w.job.entryKind == KindDir && w.target == None && Unapplied(w)
  }

  function MakeDir(w: World, ident: nat): World
    requires CanMakeDir(w)
  {
    Logged(w.(target := Some(DirObj(ident, true)), effects := w.effects + 1), Installed(DirObj(ident, true), w.Now()))
  }

  lemma MakeDirKeepsInv(w: World, ident: nat)
    requires Inv(w) && CanMakeDir(w)
    ensures Inv(MakeDir(w, ident))
  {
    hide Ledger, LastPark, Holder, Lawful, Proven;
    var e := Installed(DirObj(ident, true), w.Now());
    assert Lawful(w.job, w.authority, e) by { LawfulInstalled(w, DirObj(ident, true)); }
    LogStep(w, e);
  }

  // ----- The download slot -----

  predicate CanStage(w: World, f: Obj) {
    && w.row.Some? && DownloadSlot in OwnedSlots(w.job, w.row.value)
    && f.FileObj?
    && f.content == w.truth.local(LKey(FileFp(f)))
  }

  function Stage(w: World, f: Obj): World
    requires CanStage(w, f)
  {
    w.(download := Some(f), localVersions := Learn(w.localVersions, Some(f)))
  }

  lemma StageKeepsInv(w: World, f: Obj)
    requires Inv(w) && CanStage(w, f)
    ensures Inv(Stage(w, f))
  {
    hide LogInv, QuietInv, StartChecks;
    StageLog(w, f);
  }

  lemma StageLog(w: World, f: Obj)
    requires LogInv(w) && CanStage(w, f) && (w.edits == 0 ==> QuietInv(w))
    ensures LogInv(Stage(w, f)) && (w.edits == 0 ==> QuietInv(Stage(w, f)))
  {
    hide Lawful, Ledger, Holder, CanStage;
  }

  function Unstage(w: World): World { w.(download := None) }

  lemma UnstageKeepsInv(w: World)
    requires Inv(w)
    ensures Inv(Unstage(w))
  {
    hide Lawful, Ledger, Holder, StartChecks, Proven;
  }

  // ----- The remote side -----

  predicate CanUpload(w: World, key: RemoteKey) {
    && IsRunning(w) && w.job.kind == OpEnsureRemote && w.job.entryKind == KindFile && Unapplied(w)
    && w.target.Some? && w.target.value.FileObj?
    && RemoteMatches(RemoteOf(w.remote), w.job.expectedRemote, KindFile)
    && key !in w.remoteVersions && w.truth.remote(key) == w.target.value.content
    && (!w.job.expectedRemote.absent ==> key.0 == w.job.expectedRemote.id && key.1 != w.job.expectedRemote.rev)
  }

  /** The conditional upload: a new revision with the bytes read locally. */
  function Upload(w: World, key: RemoteKey): World
    requires CanUpload(w, key)
  {
    var r := Some(RemoteFile(key.0, key.1, w.target.value.content));
    Logged(w.(remote := r, remoteVersions := LearnRemote(w.remoteVersions, r), effects := w.effects + 1),
        RemoteChanged(w.remote, w.Now()))
  }

  lemma UploadKeepsInv(w: World, key: RemoteKey)
    requires Inv(w) && CanUpload(w, key)
    ensures Inv(Upload(w, key))
  {
    hide Ledger, LastPark, Holder, Lawful;
    assert Lawful(w.job, w.authority, RemoteChanged(w.remote, w.Now())) by { LawfulRemote(w); }
    LogStep(w, RemoteChanged(w.remote, w.Now()));
  }

  lemma LawfulRemote(w: World)
    requires JournalInv(w) && IsRunning(w) && !w.job.IsLocal() &&
               RemoteMatches(RemoteOf(w.remote), w.job.expectedRemote, w.job.entryKind)
    ensures Lawful(w.job, w.authority, RemoteChanged(w.remote, w.Now()))
  {
  }

  predicate CanMakeRemoteDir(w: World) {
    && IsRunning(w) && w.job.kind == OpEnsureRemote && w.job.entryKind == KindDir && Unapplied(w)
    && w.job.expectedRemote.absent && w.remote == None
  }

  function MakeRemoteDir(w: World, id: string): World
    requires CanMakeRemoteDir(w)
  {
    Logged(w.(remote := Some(RemoteDir(id, true)), effects := w.effects + 1), RemoteChanged(w.remote, w.Now()))
  }

  lemma MakeRemoteDirKeepsInv(w: World, id: string)
    requires Inv(w) && CanMakeRemoteDir(w)
    ensures Inv(MakeRemoteDir(w, id))
  {
    hide Ledger, LastPark, Holder, Lawful, Proven;
    assert Lawful(w.job, w.authority, RemoteChanged(w.remote, w.Now())) by { LawfulRemote(w); }
    LogStep(w, RemoteChanged(w.remote, w.Now()));
  }

  /** The exact object, at the exact revision or empty. */
  predicate CanDeleteRemote(w: World) {
    && IsRunning(w) && w.job.kind == OpDeleteRemote && Unapplied(w)
    && !w.job.expectedRemote.absent
    && RemoteMatches(RemoteOf(w.remote), w.job.expectedRemote, w.job.entryKind)
    && w.remote.Some? && (w.remote.value.RemoteDir? ==> w.remote.value.empty)
  }

  function DeleteRemote(w: World): World
    requires CanDeleteRemote(w)
  {
    Logged(w.(remote := None, effects := w.effects + 1), RemoteChanged(w.remote, w.Now()))
  }

  lemma DeleteRemoteKeepsInv(w: World)
    requires Inv(w) && CanDeleteRemote(w)
    ensures Inv(DeleteRemote(w))
  {
    hide Ledger, LastPark, Holder, Lawful, Proven;
    assert Lawful(w.job, w.authority, RemoteChanged(w.remote, w.Now())) by { LawfulRemote(w); }
    LogStep(w, RemoteChanged(w.remote, w.Now()));
  }

  // ----- Journal transactions -----

  predicate CanBegin(w: World) {
    && w.row.Some? && w.row.value.phase != Blocked
    && (w.job.IsLocal() ==> w.row.value.pin.Some? && StartChecks(w.job))
    && (w.edits == 0 ==> w.effects == 0 && AtRest(w))
  }

  /** SetOperationPhase(running), counting an attempt. */
  function Begin(w: World): World
    requires CanBegin(w)
  {
    var row := w.row.value;
    Logged(w.(row := Some(row.(phase := Running, attempts := row.attempts + 1)), begun := true),
           Began(w.target, w.recovery, w.remote))
  }

  lemma BeginKeepsInv(w: World)
    requires Inv(w) && CanBegin(w)
    ensures Inv(Begin(w))
  {
    hide Ledger, LastPark, Holder, Lawful, Applied, Proven;
    assert Lawful(w.job, w.authority, Began(w.target, w.recovery, w.remote)) by { LawfulBegan(w); }
    LogStep(w, Began(w.target, w.recovery, w.remote));
  }

  lemma LawfulBegan(w: World)
    ensures Lawful(w.job, w.authority, Began(w.target, w.recovery, w.remote))
  {
  }

  predicate CanSetPhase(w: World, phase: Phase) {
    && w.row.Some? && w.row.value.phase != Planned && (phase == Recovering || phase == Blocked)
  }

  function SetPhase(w: World, phase: Phase): World
    requires CanSetPhase(w, phase)
  {
    w.(row := Some(w.row.value.(phase := phase)))
  }

  lemma SetPhaseKeepsInv(w: World, phase: Phase)
    requires Inv(w) && CanSetPhase(w, phase)
    ensures Inv(SetPhase(w, phase))
  {
    hide Ledger, LastPark, Holder, Lawful, Proven, StartChecks;
  }

  predicate CanPin(w: World) {
    w.row.Some? && w.row.value.phase == Planned && w.row.value.pin == None && w.job.IsLocal()
  }

  function SetPin(w: World, pin: Pin): World
    requires CanPin(w)
  {
    w.(row := Some(w.row.value.(pin := Some(pin))), authority := Some(pin))
  }

  lemma SetPinKeepsInv(w: World, pin: Pin)
    requires Inv(w) && CanPin(w)
    ensures Inv(SetPin(w, pin))
  {
    hide Ledger, LastPark, Holder, Lawful, Applied, Proven, StartChecks;
  }

  /** DeleteOperation: guarded on the planned phase. */
  predicate CanDiscard(w: World) {
    w.row.Some? && w.row.value.phase == Planned && w.download == None
  }

  function Discard(w: World): World
    requires CanDiscard(w)
  {
    w.(row := None)
  }

  lemma DiscardKeepsInv(w: World)
    requires Inv(w) && CanDiscard(w)
    ensures Inv(Discard(w))
  {
    hide Ledger, LastPark, Holder, Lawful, Applied, Proven, StartChecks;
  }

  /** What must be true of the state at completion: the slot is empty, or
      recovery has just found nothing in it; without other writers the effect
      happened or was not needed. */
  predicate Completable(w: World) {
    && w.row.Some? && w.row.value.phase != Planned
    && w.download == None && (w.recovery.Some? ==> w.edits > 0 && JustOverlooked(w.log, w.parent))
    && (w.edits == 0 ==> w.effects == 1 || (AtRest(w) && Proven(w.job, w.target0, w.remote0)))
  }

  /** The completion transactions: baseline and journal row together. */
  predicate CanComplete(w: World, result: Option<(LocalFingerprint, RemoteFingerprint)>) {
    && Completable(w)
    && Committable(w.job, result)
    && (result.Some? ==> Sound(w, result.value.0, result.value.1))
    && (w.edits == 0 ==> result == PairOf(w.target, w.remote))
  }

  function Complete(w: World, result: Option<(LocalFingerprint, RemoteFingerprint)>): World
    requires CanComplete(w, result)
  {
    Logged(w.(row := None, baseline := result), Committed(result))
  }

  lemma CompleteKeepsInv(w: World, result: Option<(LocalFingerprint, RemoteFingerprint)>)
    requires Inv(w) && CanComplete(w, result)
    ensures Inv(Complete(w, result))
  {
    hide Ledger, LastPark, Holder, Lawful, Proven, StartChecks, LogInv, Committable;
    CompleteLog(w, result);
  }

  lemma CompleteLog(w: World, result: Option<(LocalFingerprint, RemoteFingerprint)>)
    requires LogInv(w) && w.begun && CanComplete(w, result)
    ensures LogInv(Complete(w, result))
  {
    hide Ledger, Holder, Proven, LastPark;
    assert Lawful(w.job, w.authority, Committed(result));
    LogStep(w, Committed(result));
    assert Complete(w, result).log[..|w.log|] == w.log;
  }
}
