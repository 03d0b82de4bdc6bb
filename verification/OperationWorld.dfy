/** One journaled operation and everything it can touch: its journal row, the
    pinned local path with its download and recovery slots, the remote entry
    and the baseline. Every atomic action of the syncer and of everybody else
    is a function on this state; the invariant below survives all of them. */
module OperationWorld {
  import opened Domain

  // ----- Objects -----

  datatype Content = Content(tag: int, size: nat)

  /** What a symbolic link resolves to at the moment. */
  datatype Referent = Dangling | Resolves(ident: nat, fp: LocalFingerprint)

  /** A filesystem object; ident is its device and inode, or volume and file ID. */
  datatype Obj =
    | FileObj(ident: nat, mtime: int, content: Content)
    | DirObj(ident: nat, empty: bool)
    | LinkObj(ident: nat, text: string, referent: Referent)
    | OtherObj(ident: nat)
  {
    predicate Ordinary() { FileObj? || DirObj? }

    /** A link is another object than the one it leads to. */
    predicate IsProper() { LinkObj? && referent.Resolves? ==> referent.ident != ident }

    /** The identity os.Stat reports: a link is followed. */
    function StatIdent(): Option<nat> {
      if LinkObj? then (if referent.Resolves? then Some(referent.ident) else None) else Some(ident)
    }
  }

  function FileFp(f: Obj): LocalFingerprint
    requires f.FileObj?
  {
    LocalFingerprint(true, KindFile, f.content.size, f.mtime)
  }

  /** The lstat fingerprint of an absent or ordinary path. */
  function FpOf(o: Option<Obj>): LocalFingerprint {
    if o.None? then LOCAL_ABSENT
    else if o.value.FileObj? then FileFp(o.value)
    else if o.value.DirObj? then LOCAL_DIR
    else LOCAL_ABSENT
  }

  predicate OrdinaryOrAbsent(o: Option<Obj>) {
    o.Some? ==> o.value.Ordinary()
  }

  datatype RemoteObj = RemoteFile(id: string, rev: string, content: Content) | RemoteDir(id: string, empty: bool)

  function RemoteOf(r: Option<RemoteObj>): RemoteFingerprint {
    match r
    case None => REMOTE_ABSENT
    case Some(RemoteFile(id, rev, content)) => RemoteFingerprint(true, KindFile, id, rev, content.size, 0)
    case Some(RemoteDir(id, _)) => RemoteFingerprint(true, KindDir, id, "", 0, 0)
  }

  /** Version tokens: a local size and mtime, a remote ID and revision. */
  type LocalKey = (int, int)
  type RemoteKey = (string, string)

  function LKey(fp: LocalFingerprint): LocalKey { (fp.size, fp.mtimeNS) }

  // ----- The operation -----

  datatype OpKind = OpEnsureRemote | OpEnsureLocal | OpDeleteRemote | OpDeleteLocal
  datatype Phase = Planned | Running | Recovering | Blocked
  datatype SymlinkMode = Follow | Copy | Reject | Ignore

  /** The immutable intent of the operation. */
  datatype Job = Job(
    kind: OpKind, entryKind: EntryKind, expectedLocal: LocalFingerprint, expectedRemote: RemoteExpectation,
    mode: SymlinkMode)
  {
    predicate IsLocal() { kind == OpEnsureLocal || kind == OpDeleteLocal }
    predicate IsDownload() { kind == OpEnsureLocal && entryKind == KindFile }
  }

  /** The durable pin of a local mutation: the anchor identity and, for a
      copied symlink leaf, its link text. */
  datatype Pin = Pin(identity: nat, linkText: Option<string>)

  datatype Row = Row(pin: Option<Pin>, phase: Phase, attempts: nat)

  /** Whether the logical path still resolves to the pinned path. */
  datatype Route = ToTarget | Elsewhere(fp: LocalFingerprint)

  datatype Slot = DownloadSlot | RecoverySlot

  /** The row's state, and the directory at the pinned path, when something
      happened to user data. */
  datatype Mark = Mark(phase: Phase, attempts: nat, pinned: bool, dir: nat)

  /** Checked: the slot's object passed an attempt's fingerprint check.
      Identified: it passed recovery's identity check. Overlooked: recovery's
      os.Stat found nothing although the slot is occupied. */
  datatype Event =
    | Began(target: Option<Obj>, slot: Option<Obj>, remote: Option<RemoteObj>)
    | Parked(o: Obj, at: Mark)
    | Checked(o: Obj, dir: nat)
    | Identified(o: Obj, dir: nat)
    | Overlooked(o: Obj, dir: nat)
    | Restored(o: Obj, at: Mark)
    | Unlinked(o: Obj, at: Mark)
    | Installed(o: Obj, at: Mark)
    | RemoteChanged(was: Option<RemoteObj>, at: Mark)
    | Committed(result: Option<(LocalFingerprint, RemoteFingerprint)>)

  /** What a directory that was moved away from the pinned path took along. */
  datatype Left = Left(recovery: Option<Obj>, download: Option<Obj>)

  /** A version token names the same bytes for ever. */
  datatype Truth = Truth(local: LocalKey -> Content, remote: RemoteKey -> Content)

  datatype World = World(
    job: Job,
    row: Option<Row>, authority: Option<Pin>,
    target: Option<Obj>, parent: nat, route: Route,
    recovery: Option<Obj>, download: Option<Obj>, away: map<nat, Left>,
    remote: Option<RemoteObj>,
    baseline: Option<(LocalFingerprint, RemoteFingerprint)>,
    truth: Truth, localVersions: map<LocalKey, Content>, remoteVersions: map<RemoteKey, Content>,
    log: seq<Event>, edits: nat, effects: nat, begun: bool,
    target0: Option<Obj>, remote0: Option<RemoteObj>)
  {
    function Now(): Mark
      requires row.Some?
    {
      Mark(row.value.phase, row.value.attempts, row.value.pin.Some?, parent)
    }
  }

  // ----- What is authorized -----

  /** Recovery's check before it unlinks: a copied link by its text, anything
      else by the identity that os.Stat reports, which follows links. */
  predicate PassesIdentityCheck(o: Obj, pin: Pin) {
    if pin.linkText.Some? then o.LinkObj? && o.text == pin.linkText.value
    else o.StatIdent() == Some(pin.identity)
  }

  /** What an attempt may unlink: the copied link with the pinned text, or the
      very object of the pinned identity. */
  predicate ExactlyAuthorized(o: Obj, pin: Pin) {
    if pin.linkText.Some? then o.LinkObj? && o.text == pin.linkText.value
    else o.ident == pin.identity && o.Ordinary()
  }

  /** os.Stat: links are followed. */
  function StatFp(o: Option<Obj>): Outcome<LocalFingerprint> {
    match o
    case None => Ok(LOCAL_ABSENT)
    case Some(FileObj(_, _, _)) => Ok(FileFp(o.value))
    case Some(DirObj(_, _)) => Ok(LOCAL_DIR)
    case Some(LinkObj(_, _, referent)) => if referent.Resolves? then Ok(referent.fp) else Ok(LOCAL_ABSENT)
    case Some(OtherObj(_)) => Err
  }

  /** The object is what the plan expected to find at the pinned path: a copied
      symlink by its text and what it projects, anything else by itself. */
  predicate IsExpected(o: Obj, pin: Pin, job: Job) {
    if pin.linkText.Some? then
      && o.LinkObj? && o.text == pin.linkText.value
      && StatFp(Some(o)).Ok? && LocalEquivalent(StatFp(Some(o)).value, job.expectedLocal)
    else o.Ordinary() && LocalEquivalent(FpOf(Some(o)), job.expectedLocal)
  }

  /** If nobody else wrote, what stands at the pinned path is what the plan
      expected. */
  predicate NothingUnexpected(w: World) {
    w.edits == 0 && w.target.Some? ==> w.authority.Some? && IsExpected(w.target.value, w.authority.value, w.job)
  }

  /** What a completion leaves behind: the operation's postcondition, as a fact
      about the two fingerprints that are recorded. */
  predicate Settled(job: Job, local: LocalFingerprint, remote: RemoteFingerprint) {
    match job.kind
    case OpEnsureRemote => LocalEquivalent(local, job.expectedLocal) && local.present && remote.present
    case OpEnsureLocal => RemoteMatches(remote, job.expectedRemote, job.entryKind) && local.present
    case _ => !local.present && !remote.present
  }

  /** A result that is completed with: a well-formed pair of two present sides of
      one kind that meets the postcondition, or the removal of the row. */
  predicate Committable(job: Job, result: Option<(LocalFingerprint, RemoteFingerprint)>) {
    match result
    case None => Settled(job, LOCAL_ABSENT, REMOTE_ABSENT)
    case Some((local, remote)) =>
      && local.present && remote.present && local.kind == remote.kind
      && local.Valid() && remote.Valid() && Settled(job, local, remote)
  }

  /** When each kind of change to user data is lawful. Blocked rows are changed
      only by the operator's explicit restore. */
  predicate Lawful(job: Job, pin: Option<Pin>, e: Event) {
    match e
    case Began(_, _, _) => true
    case Parked(_, at) => job.IsLocal() && (at.phase == Running || at.phase == Blocked) && at.attempts >= 1 && at.pinned
    case Checked(o, _) => pin.Some? && IsExpected(o, pin.value, job)
    case Identified(o, _) => pin.Some? && PassesIdentityCheck(o, pin.value) && o.IsProper()
    case Overlooked(o, _) => Stray(o, pin) && o.StatIdent().None?
    case Restored(_, at) =>
      job.IsLocal() && (at.phase == Running || at.phase == Blocked) && at.attempts >= 1 &&
      at.pinned
    case Unlinked(o, at) =>
      && job.IsLocal() && at.attempts >= 1 && at.pinned && pin.Some?
      && (at.phase == Running || at.phase == Recovering)
      && (at.phase == Running ==> ExactlyAuthorized(o, pin.value))
    case Installed(_, at) => job.IsLocal() && at.phase == Running && at.attempts >= 1 && at.pinned
    case RemoteChanged(was, at) =>
      && at.phase == Running && at.attempts >= 1 && !job.IsLocal()
      && RemoteMatches(RemoteOf(was), job.expectedRemote, job.entryKind)
    case Committed(result) => Committable(job, result)
  }

  /** The same object, edited in place at most. */
  predicate SameObject(a: Obj, b: Obj) {
    && a.ident == b.ident
    && a.FileObj? == b.FileObj? && a.DirObj? == b.DirObj? && a.LinkObj? == b.LinkObj?
    && (a.LinkObj? ==> a.text == b.text)
  }

  /** What the recovery slot in one directory holds, as the history of moves
      tells it, and what was last found out about it since it was moved there. */
  datatype SlotState = Unseen | ContentChecked | IdentityChecked
  datatype Holding = Nothing | Held(o: Obj, state: SlotState)

  /** The one event's effect on the slot in directory d. */
  function After(h: Holding, e: Event, d: nat): Holding {
    match e
    case Parked(o, at) => if at.dir == d then Held(o, Unseen) else h
    case Checked(o, dir) => if dir == d then Held(o, ContentChecked) else h
    case Identified(o, dir) => if dir == d then Held(o, IdentityChecked) else h
    case Restored(_, at) => if at.dir == d then Nothing else h
    case Unlinked(_, at) => if at.dir == d then Nothing else h
    case _ => h
  }

  function Holder(log: seq<Event>, d: nat): Holding {
    if log == [] then Nothing else After(Holder(log[..|log| - 1], d), log[|log| - 1], d)
  }

  predicate Holds(h: Holding, o: Obj) { h.Held? && SameObject(h.o, o) }

  /** The directory whose slot an event is about. */
  function DirOf(e: Event): nat {
    match e
    case Parked(_, at) => at.dir
    case Checked(_, dir) => dir
    case Identified(_, dir) => dir
    case Overlooked(_, dir) => dir
    case Restored(_, at) => at.dir
    case Unlinked(_, at) => at.dir
    case _ => 0
  }

  /** Double-entry bookkeeping of the recovery slots: only an empty slot is
      filled, only its present object leaves it, an attempt unlinks only what
      it validated in the slot, and recovery only what passed its identity check
      there. */
  predicate Follows(held: Holding, e: Event) {
    match e
    case Parked(_, _) => held == Nothing
    case Checked(o, _) => Holds(held, o)
    case Identified(o, _) => Holds(held, o)
    case Overlooked(o, _) => Holds(held, o)
    case Restored(o, _) => Holds(held, o)
    case Unlinked(o, at) =>
      Holds(held, o) && (at.phase == Running ==> held.state == ContentChecked) &&
          (at.phase == Recovering ==> held.state == IdentityChecked)
    case _ => true
  }

  predicate Ledger(log: seq<Event>) {
    log == [] ||
    var init, e := log[..|log| - 1], log[|log| - 1];
    Ledger(init) && Follows(Holder(init, DirOf(e)), e)
  }

  /** The directory of the last move into a slot. */
  function LastPark(log: seq<Event>): Option<nat> {
    if log == [] then None
    else if log[|log| - 1].Parked? then Some(log[|log| - 1].at.dir)
    else LastPark(log[..|log| - 1])
  }

  // ----- Slots a scan recognizes -----

  /** The slots the journal row accounts for in a preflight scan. */
  function OwnedSlots(job: Job, row: Row): set<Slot> {
    if !job.IsLocal() || row.pin.None? then {}
    else if row.phase == Planned then
      if job.IsDownload() && row.attempts == 0 then {DownloadSlot} else {}
    else {RecoverySlot} + (if job.IsDownload() then {DownloadSlot} else {})
  }

  function OccupiedSlots(w: World): set<Slot> {
    (if w.recovery.Some? then {RecoverySlot} else {}) + (if w.download.Some? then {DownloadSlot} else {})
  }

  // ----- The invariant -----

  /** Checks every executor entry point makes before a local side effect. */
  predicate StartChecks(job: Job) {
    && (job.kind == OpDeleteLocal ==> job.expectedLocal.present)
    && (job.kind == OpEnsureLocal && job.entryKind == KindDir ==> !job.expectedLocal.present)
    && (job.kind == OpEnsureLocal && job.entryKind == KindFile ==> !job.expectedRemote.absent)
  }

  predicate JournalInv(w: World) {
    && (w.row.Some? ==>
          var r := w.row.value;
          && (r.phase == Planned <==> !w.begun)
          && (r.attempts >= 1 <==> w.begun)
          && (w.begun && w.job.IsLocal() ==> r.pin.Some?)
          && (!w.job.IsLocal() ==> r.pin.None?)
          && r.pin == w.authority)
    && (w.begun && w.job.IsLocal() ==> StartChecks(w.job))
    && (w.job.entryKind != NoKind)
  }

  /** A symbolic link that took the place of an object pinned without one. */
  predicate Stray(o: Obj, pin: Option<Pin>) {
    o.LinkObj? && pin.Some? && pin.value.linkText.None?
  }

  /** Every occupied slot at the pinned path is accounted for by the row. */
  predicate SlotInv(w: World) {
    && (if w.row.Some? then OccupiedSlots(w) <= OwnedSlots(w.job, w.row.value) else w.download == None)
    && (w.download.Some? ==> w.download.value.FileObj?)
    && w.parent !in w.away
  }

  predicate LocalKnown(o: Option<Obj>, versions: map<LocalKey, Content>) {
    o.Some? && o.value.FileObj? ==>
      LKey(FileFp(o.value)) in versions && versions[LKey(FileFp(o.value))] == o.value.content
  }

  predicate RemoteKnown(r: Option<RemoteObj>, versions: map<RemoteKey, Content>) {
    r.Some? && r.value.RemoteFile? ==>
      (r.value.id, r.value.rev) in versions && versions[(r.value.id, r.value.rev)] == r.value.content
  }

  predicate VersionInv(w: World) {
    && (w.target.Some? && w.target.value.LinkObj? ==> w.job.IsLocal())
    && (w.target.Some? ==> w.target.value.IsProper()) && (w.recovery.Some? ==> w.recovery.value.IsProper())
    && LocalKnown(w.target, w.localVersions)
    && LocalKnown(w.recovery, w.localVersions)
    && LocalKnown(w.download, w.localVersions)
    && RemoteKnown(w.remote, w.remoteVersions)
    && (forall k | k in w.localVersions :: w.localVersions[k] == w.truth.local(k))
    && (forall k | k in w.remoteVersions :: w.remoteVersions[k] == w.truth.remote(k))
  }

  /** A committed pair of fingerprints: both present, of one kind, and for
      files naming versions with equal bytes. */
  predicate Sound(w: World, local: LocalFingerprint, remote: RemoteFingerprint) {
    && local.present && remote.present && local.kind == remote.kind
    && (local.kind == KindFile ==>
          && LKey(local) in w.localVersions
          && (remote.id, remote.rev) in w.remoteVersions
          && w.localVersions[LKey(local)] == w.remoteVersions[(remote.id, remote.rev)])
  }

  predicate BaselineInv(w: World) {
    w.baseline.Some? ==> Sound(w, w.baseline.value.0, w.baseline.value.1)
  }

  /** The slot in directory d, at the pinned path or moved away. */
  function SlotAt(w: World, d: nat): Option<Obj> {
    if d == w.parent then w.recovery else if d in w.away then w.away[d].recovery else None
  }

  predicate Tallies(h: Holding, slot: Option<Obj>) {
    if slot.Some? then Holds(h, slot.value) else h == Nothing
  }

  /** The last event was recovery finding nothing in the occupied slot. */
  predicate JustOverlooked(log: seq<Event>, dir: nat) {
    log != [] && log[|log| - 1].Overlooked? && log[|log| - 1].dir == dir
  }

  /** The books agree with the slots, and a started row goes with its completion
      transaction, at which the slot was empty or had just been overlooked. */
  ghost predicate LogInv(w: World) {
    && (forall e | e in w.log :: Lawful(w.job, w.authority, e))
    && (!w.begun ==> w.log == [])
    && (w.begun && w.row.None? ==>
          && w.log != [] && w.log[|w.log| - 1] == Committed(w.baseline)
          && (w.recovery.Some? ==> JustOverlooked(w.log[..|w.log| - 1], w.parent)))
    && Ledger(w.log)
    && Tallies(Holder(w.log, w.parent), w.recovery)
    && (forall d :: Tallies(Holder(w.log, d), SlotAt(w, d)))
    && (w.recovery.Some? ==> LastPark(w.log) == Some(w.parent))
  }

  // ----- Runs with no other writer -----

  predicate AtRest(w: World) {
    w.target == w.target0 && w.recovery == None && w.remote == w.remote0
  }

  predicate InSlot(w: World) {
    w.target == None && w.recovery == w.target0 && w.target0.Some? && w.remote == w.remote0 && w.job.IsLocal()
  }

  /** The postcondition that recovery proves, as a fact about the state. */
  predicate Proven(job: Job, target: Option<Obj>, remote: Option<RemoteObj>) {
    && OrdinaryOrAbsent(target)
    && match job.kind
       case OpDeleteLocal => target.None? && remote.None?
       case OpDeleteRemote => target.None? && remote.None?
       case OpEnsureLocal =>
         && RemoteMatches(RemoteOf(remote), job.expectedRemote, job.entryKind)
         && target.Some?
         && (if job.entryKind == KindDir then target.value.DirObj? else SameFile(target, remote))
       case OpEnsureRemote =>
         && LocalEquivalent(FpOf(target), job.expectedLocal) && target.Some? && remote.Some?
         && (if job.entryKind == KindDir then remote.value.RemoteDir?
             else
               && target.value.FileObj? && remote.value.RemoteFile? && target.value.content == remote.value.content
               && !(!job.expectedRemote.absent && remote.value.id == job.expectedRemote.id &&
                    remote.value.rev == job.expectedRemote.rev))
  }

  /** The state after the operation's one effect. */
  predicate Applied(w: World) {
    match w.job.kind
    case OpDeleteLocal => w.target == None && w.recovery == None && w.remote == w.remote0 && w.job.expectedLocal.present
    case OpDeleteRemote =>
      w.target == w.target0 && w.recovery == None && w.remote == None &&
      !w.job.expectedRemote.absent
    case OpEnsureLocal =>
      && w.remote == w.remote0 && w.target.Some?
      && (w.recovery == None || (w.recovery == w.target0 && w.target0.Some?))
      && (if w.job.entryKind == KindDir then w.target.value.DirObj? && !w.job.expectedLocal.present
          else Proven(w.job, w.target, w.remote))
    case OpEnsureRemote =>
      && w.target == w.target0 && w.recovery == None && w.remote.Some?
      && !RemoteMatches(RemoteOf(w.remote), w.job.expectedRemote, w.job.entryKind)
      && (if w.job.entryKind == KindDir then w.remote.value.RemoteDir? else SameFile(w.target, w.remote))
  }

  /** A local and a remote file with the same bytes. */
  predicate SameFile(target: Option<Obj>, remote: Option<RemoteObj>) {
    target.Some? && target.value.FileObj? && remote.Some? && remote.value.RemoteFile? &&
        target.value.content == remote.value.content
  }

  /** The row that stands for a state: the pair, or none for absence. */
  function PairOf(target: Option<Obj>, remote: Option<RemoteObj>): Option<(LocalFingerprint, RemoteFingerprint)> {
    if target.None? && remote.None? then None else Some((FpOf(target), RemoteOf(remote)))
  }

  /** With nobody else writing: the untouched state, the prior object in the
      slot, or the completed state, with at most one effect; every attempt
      began untouched; only expected objects are unlinked; and the row of a
      started operation is gone only when its effect happened, or was not
      needed, and with the final state recorded. */
  ghost predicate QuietInv(w: World) {
    && w.effects <= 1
    && (w.effects == 0 ==> AtRest(w) || InSlot(w))
    && (w.effects == 1 ==> w.begun && Applied(w))
    && (!w.begun ==> AtRest(w))
    && (w.recovery.Some? ==> w.authority.Some? && IsExpected(w.recovery.value, w.authority.value, w.job))
    && w.route == ToTarget && w.away == map[]
    && (forall e | e in w.log && e.Began? :: e.target == w.target0 && e.slot == None && e.remote == w.remote0)
    && (forall e | e in w.log && e.Unlinked? :: w.authority.Some? && IsExpected(e.o, w.authority.value, w.job))
    && (w.row.None? && w.begun ==>
          && w.recovery == None && (w.effects == 1 || (AtRest(w) && Proven(w.job, w.target0, w.remote0)))
          && w.baseline == PairOf(w.target, w.remote))
  }

  ghost predicate Inv(w: World) {
    && JournalInv(w)
    && SlotInv(w)
    && VersionInv(w)
    && BaselineInv(w)
    && LogInv(w)
    && (w.edits == 0 ==> QuietInv(w))
  }
}
