/** The machine that one operation runs on: the world plus a script of what
    everybody else does before each system call, remote call or transaction,
    and of how that call ends. All scripts together are all interleavings of
    outside edits, failures and crashes. */
module OperationHost {
  import opened Domain
  import opened OperationWorld
  import opened OperationActions

  datatype Reply<+T> = Done(value: T) | Failed | Died {
    predicate IsFailure() { !Done? }
    function PropagateFailure<U>(): Reply<U> requires !Done? { if Failed? then Reply.Failed else Reply.Died }
    function Extract(): T requires Done? { value }
  }

  /** A call goes through, fails without effect, takes effect but reports an
      error, or the process dies before it. */
  datatype Fate = Goes | Fails | LosesReply | Dies

  /** Others' edits, the fate of the call, the verdict of a store check, and
      the fresh tokens the call would hand out. */
  datatype Turn = Turn(edits: seq<Edit>, fate: Fate, granted: bool, ident: nat, mtime: int, partial: Content,
      key: RemoteKey)

  const LAST_TURN := Turn([], Dies, false, 0, 0, Content(0, 0), ("", ""))

  /** A later state of the same operation. */
  ghost predicate Later(w: World, w': World) {
    && w'.job == w.job && w'.target0 == w.target0 && w'.remote0 == w.remote0 && w'.truth == w.truth
    && w.edits <= w'.edits && w.log <= w'.log
    && (w.begun ==> w'.begun)
    && (w.authority.Some? ==> w'.authority == w.authority)
    && (forall k | k in w.localVersions :: k in w'.localVersions && w'.localVersions[k] == w.localVersions[k])
    && (forall k | k in w.remoteVersions :: k in w'.remoteVersions && w'.remoteVersions[k] == w.remoteVersions[k])
  }

  lemma LaterRefl(w: World)
    ensures Later(w, w)
  {
  }

  lemma LaterTrans(a: World, b: World, c: World)
    requires Later(a, b) && Later(b, c)
    ensures Later(a, c)
  {
  }

  lemma UploadIsLater(w: World, v: World, key: RemoteKey)
    requires Later(w, v) && CanUpload(v, key)
    ensures Later(w, OperationActions.Upload(v, key))
  {
  }

  lemma MakeRemoteDirIsLater(w: World, v: World, id: string)
    requires Later(w, v) && CanMakeRemoteDir(v)
    ensures Later(w, OperationActions.MakeRemoteDir(v, id))
  {
  }

  lemma DeleteRemoteIsLater(w: World, v: World)
    requires Later(w, v) && CanDeleteRemote(v)
    ensures Later(w, OperationActions.DeleteRemote(v))
  {
  }

  lemma RelyKeepsRow(w: World, w': World)
    requires Rely(w, w')
    ensures w'.row == w.row && w'.job == w.job && (Unapplied(w) ==> Unapplied(w'))
  {
  }

  lemma RelyIsLater(w: World, w': World)
    requires Rely(w, w')
    ensures Later(w, w')
  {
  }

  class Host {
    var w: World
    var script: seq<Turn>
    /** Some call failed by itself, answered with unfit tokens, was refused by the
        store, or was never made because the process died: what follows is not
        explained by the world alone. */
    var balked: bool

    constructor (w: World, script: seq<Turn>)
      ensures this.w == w && this.script == script && !balked
    {
      this.w, this.script, balked := w, script, false;
    }

    /** Everybody else moves, and the fate of the next call is drawn. */
    method Next() returns (t: Turn)
      requires Inv(w)
      modifies this
      ensures Inv(w) && Rely(old(w), w)
      ensures balked <==> old(balked) || t.fate != Goes
    {
      if script == [] {
        RelyRefl(w);
        balked := true;
        return LAST_TURN;
      }
      t := script[0];
      script := script[1..];
      balked := balked || t.fate != Goes;
      EditsKeepInv(w, t.edits);
      w := ApplyEdits(w, t.edits);
    }

    /** Any call that only reads. */
    method Call() returns (r: Reply<()>)
      requires Inv(w)
      modifies this
      ensures Inv(w) && Rely(old(w), w) && Busy(old(w), w)
      ensures w.log == old(w).log && SlotKept(old(w), w)
      ensures NothingUnexpected(old(w)) ==> NothingUnexpected(w)
      ensures old(balked) || r.Died? ==> balked
      ensures r.Failed? ==> balked
    {
      var t := Next();
      RelyIsBusy(old(w), w);
      r := match t.fate case Dies => Died case Goes => Done(()) case _ => Failed;
    }

    /** rename(target, recovery) without replacing. */
    method Park() returns (r: Reply<()>, ghost v: World)
      requires Inv(w) && w.row.Some? && (w.row.value.phase == Running || w.row.value.phase == Blocked)
      requires w.job.IsLocal() && w.recovery == None && Unapplied(w) && NothingUnexpected(w)
      modifies this
      ensures Inv(w) && Rely(old(w), v) && Inv(v)
      ensures if r.Done? then CanPark(v) && w == OperationActions.Park(v) else w == v
      ensures Busy(old(w), w) && (!r.Done? ==> w.recovery == None)
      ensures old(balked) || r.Died? ==> balked
      ensures r.Failed? ==> balked || v.target == None
    {
      hide Inv, Rely, Busy, NothingUnexpected;
      var t := Next();
      v := w;
      RelyIsBusy(old(w), v);
      MayStillPark(old(w), v);
      if t.fate != Goes || w.target == None {
        r := if t.fate == Dies then Died else Failed;
      } else {
        ParkKeepsInv(w);
        ParkIsBusy(old(w), v);
        w := OperationActions.Park(w);
        r := Done(());
      }
    }

    /** Records that the object now in the slot passed the fingerprint check. */
    method Validate()
      requires Inv(w) && CanValidate(w)
      modifies this`w
      ensures Inv(w) && w == OperationActions.Validate(old(w)) && Busy(old(w), w) && FoundOut(w, ContentChecked)
    {
      ValidateKeepsInv(w);
      w := OperationActions.Validate(w);
    }

    /** Records that the object now in the slot passed recovery's identity check. */
    method Identify()
      requires Inv(w) && CanIdentify(w)
      modifies this`w
      ensures Inv(w) && w == OperationActions.Identify(old(w)) && Busy(old(w), w) && FoundOut(w, IdentityChecked)
    {
      IdentifyKeepsInv(w);
      w := OperationActions.Identify(w);
    }

    /** Records that recovery's os.Stat found nothing in the occupied slot. */
    method Overlook()
      requires Inv(w) && CanOverlook(w)
      modifies this`w
      ensures Inv(w) && w == OperationActions.Overlook(old(w)) && Busy(old(w), w) && JustOverlooked(w.log, w.parent)
    {
      OverlookKeepsInv(w);
      w := OperationActions.Overlook(w);
    }

    /** rename(recovery, target) without replacing. */
    method Restore() returns (r: Reply<()>, ghost v: World)
      requires Inv(w) && w.row.Some? && (w.row.value.phase == Running || w.row.value.phase == Blocked)
      modifies this
      ensures Inv(w) && Rely(old(w), v) && Inv(v)
      ensures if r.Done? then CanRestore(v) && w == OperationActions.Restore(v) else w == v
      ensures Busy(old(w), w)
      ensures old(balked) || r.Died? ==> balked
      ensures r.Failed? ==> balked || v.target.Some? || v.recovery == None
    {
      hide Inv, Rely, Busy;
      var t := Next();
      v := w;
      RelyIsBusy(old(w), v);
      RelyKeepsRow(old(w), v);
      if t.fate != Goes || w.target.Some? || w.recovery == None {
        r := if t.fate == Dies then Died else Failed;
      } else {
        RestoreKeepsInv(w);
        RestoreIsBusy(old(w), v);
        w := OperationActions.Restore(w);
        r := Done(());
      }
    }

    /** unlink or rmdir of the recovery slot; a directory must be empty.
        Done(false) reports that nothing is there. */
    method Unlink() returns (r: Reply<bool>, ghost v: World)
      requires Inv(w) && MayUnlink(w)
      modifies this
      ensures Inv(w) && Rely(old(w), v) && Inv(v)
      ensures if r == Done(true) then CanUnlink(v) && w == OperationActions.Unlink(v) else w == v
      ensures Later(old(w), w) && w.row == old(w).row && (w.download.Some? ==> w.download == old(w).download)
      ensures r.Done? && !r.value ==> w.recovery == None
      ensures r != Done(true) ==> Busy(old(w), w)
      ensures old(balked) || r.Died? ==> balked
      ensures r.Failed? ==> balked || (v.recovery.Some? && v.recovery.value.DirObj? && !v.recovery.value.empty)
    {
      hide Inv;
      var t := Next();
      v := w;
      RelyIsBusy(old(w), v);
      MayUnlinkIsStable(old(w), w);
      if t.fate != Goes || (w.recovery.Some? && w.recovery.value.DirObj? && !w.recovery.value.empty) {
        r := if t.fate == Dies then Died else Failed;
      } else if w.recovery == None {
        r := Done(false);
      } else {
        UnlinkKeepsInv(w);
        w := OperationActions.Unlink(w);
        r := Done(true);
      }
    }

    /** rename(download, target) without replacing. */
    method Install() returns (r: Reply<()>, ghost v: World)
      requires Inv(w) && IsRunning(w) && w.job.IsDownload() && Unapplied(w) && Staged(w)
      modifies this
      ensures Inv(w) && Rely(old(w), v) && Inv(v)
      ensures if r.Done? then CanInstall(v) && w == OperationActions.Install(v) else w == v
      ensures Later(old(w), w) && w.row == old(w).row && Busy(old(w), v) && SlotKept(old(w), v)
      ensures old(balked) || r.Died? ==> balked
      ensures r.Failed? ==> balked || v.target.Some? || v.download == None
    {
      hide Inv;
      var t := Next();
      v := w;
      RelyIsBusy(old(w), v);
      StagedIsStable(old(w), w);
      if t.fate != Goes || w.target.Some? || w.download == None {
        r := if t.fate == Dies then Died else Failed;
      } else {
        InstallKeepsInv(w);
        w := OperationActions.Install(w);
        r := Done(());
      }
    }

    /** mkdir of the target. */
    method MakeDir() returns (r: Reply<()>, ghost v: World, ghost ident: nat)
      requires Inv(w) && IsRunning(w) && w.job.kind == OpEnsureLocal && w.job.entryKind == KindDir && Unapplied(w)
      modifies this
      ensures Inv(w) && Rely(old(w), v) && Inv(v)
      ensures if r.Done? then CanMakeDir(v) && w == OperationActions.MakeDir(v, ident) else w == v
      ensures Later(old(w), w) && w.row == old(w).row && (w.download.Some? ==> w.download == old(w).download)
      ensures old(w).recovery == None ==> w.recovery == None
      ensures old(balked) || r.Died? ==> balked
      ensures r.Failed? ==> balked || v.target.Some?
    {
      hide Inv;
      var t := Next();
      RelyIsBusy(old(w), w);
      v, ident := w, t.ident;
      if t.fate != Goes || w.target.Some? {
        r := if t.fate == Dies then Died else Failed;
      } else {
        MakeDirKeepsInv(w, t.ident);
        w := OperationActions.MakeDir(w, t.ident);
        r := Done(());
      }
    }

    /** Downloads the expected revision into the download slot; a failure or a
        crash may leave a partial file there. */
    method Stage() returns (r: Reply<()>)
      requires Inv(w) && w.row.Some? && DownloadSlot in OwnedSlots(w.job, w.row.value)
      modifies this
      ensures Inv(w) && Idles(old(w), w)
      ensures r.Done? ==> Staged(w) && w.download.Some?
      ensures old(balked) || r.Died? ==> balked
      ensures r.Failed? ==>
                || balked || !RemoteMatches(RemoteOf(w.remote), w.job.expectedRemote, KindFile)
                || w.job.expectedRemote.absent
    {
      hide Inv, Rely, Idles, CanStage, Staged, OwnedSlots, FileFp;
      var t := Next();
      var whole := t.fate == Goes && RemoteMatches(RemoteOf(w.remote), w.job.expectedRemote, KindFile) &&
          !w.job.expectedRemote.absent;
      var f := FileObj(t.ident, t.mtime, if whole then w.remote.value.content else t.partial);
      var fits := f.content == w.truth.local(LKey(FileFp(f)));
      RelyIdles(old(w), w);
      balked := balked || !fits;
      if fits {
        StageMayHappen(old(w), w, f);
        if whole { WholeIsStaged(w, f); }
        StageKeepsInv(w, f);
        w := OperationActions.Stage(w, f);
      }
      r := if t.fate == Dies then Died else if whole && fits then Done(()) else Failed;
    }

    /** Removes the download slot; taken to succeed unless the process dies. */
    method Unstage() returns (r: Reply<()>)
      requires Inv(w)
      modifies this
      ensures Inv(w) && Idles(old(w), w) && !r.Failed?
      ensures w.download == None || (!r.Done? && w.download == old(w.download))
      ensures old(balked) || r.Died? ==> balked
    {
      hide Inv, Rely, Idles;
      var t := Next();
      RelyIdles(old(w), w);
      if t.fate == Dies { NoneAppears(old(w), w); return Died; }
      UnstageKeepsInv(w);
      UnstageIdles(old(w), w);
      w := OperationActions.Unstage(w);
      r := Done(());
    }

    // ----- Remote calls: the effect may happen although the call reports an error -----

    /** The conditional upload of the bytes now at the path. */
    method Upload() returns (r: Reply<RemoteFingerprint>, ghost v: World, ghost key: RemoteKey)
      requires Inv(w) && IsRunning(w) && w.job.kind == OpEnsureRemote && w.job.entryKind == KindFile && Unapplied(w)
      modifies this
      ensures Inv(w) && Rely(old(w), v) && Inv(v)
      ensures w == v || (CanUpload(v, key) && w == OperationActions.Upload(v, key))
      ensures r.Done? ==> CanUpload(v, key) && w == OperationActions.Upload(v, key) && r.value == RemoteOf(w.remote)
      ensures Later(old(w), w) && Busy(old(w), v)
      ensures old(balked) || r.Died? ==> balked
      ensures r.Done? ==> balked || (!Blank(key.0) && !Blank(key.1))
      ensures r.Failed? ==>
                || balked || v.target.None? || !v.target.value.FileObj?
                || !RemoteMatches(RemoteOf(v.remote), v.job.expectedRemote, KindFile)
    {
      hide Inv, Rely, Later, Busy, FileFp;
      var t := Next();
      RelyIsBusy(old(w), w);
      RelyIsLater(old(w), w);
      RelyKeepsRow(old(w), w);
      v, key := w, t.key;
      var able :=
        && w.target.Some? && w.target.value.FileObj?
        && RemoteMatches(RemoteOf(w.remote), w.job.expectedRemote, KindFile);
      var fits :=
        && able
        && t.key !in w.remoteVersions && w.truth.remote(t.key) == w.target.value.content
        && (!w.job.expectedRemote.absent ==> t.key.0 == w.job.expectedRemote.id && t.key.1 != w.job.expectedRemote.rev);
      balked := balked || (able && !fits) || Blank(t.key.0) || Blank(t.key.1);
      r := if t.fate == Dies then Died else Failed;
      if fits && (t.fate == Goes || t.fate == LosesReply) {
        UploadKeepsInv(w, t.key);
        UploadIsLater(old(w), w, t.key);
        w := OperationActions.Upload(w, t.key);
        r := if t.fate == Goes then Done(RemoteOf(w.remote)) else Failed;
      }
    }

    /** Mkdir: succeeds without effect when a directory is already there. */
    method MakeRemoteDir() returns (r: Reply<()>, ghost v: World, ghost id: string)
      requires Inv(w) && IsRunning(w) && w.job.kind == OpEnsureRemote && w.job.entryKind == KindDir && Unapplied(w)
      requires w.job.expectedRemote.absent
      modifies this
      ensures Inv(w) && Rely(old(w), v) && Inv(v)
      ensures w == v || (CanMakeRemoteDir(v) && w == OperationActions.MakeRemoteDir(v, id))
      ensures r.Done? && v.remote == None ==> CanMakeRemoteDir(v) && w == OperationActions.MakeRemoteDir(v, id)
      ensures r.Done? ==> w.remote.Some? && w.remote.value.RemoteDir?
      ensures Later(old(w), w)
      ensures old(balked) || r.Died? ==> balked
      ensures r.Done? && v.remote == None ==> balked || !Blank(id)
      ensures r.Failed? ==> balked || (v.remote.Some? && v.remote.value.RemoteFile?)
    {
      hide Inv, Rely, Later;
      var t := Next();
      RelyIsLater(old(w), w);
      RelyKeepsRow(old(w), w);
      v, id := w, t.key.0;
      balked := balked || Blank(t.key.0);
      r := if t.fate == Dies then Died else Failed;
      if t.fate == Goes || t.fate == LosesReply {
        if w.remote == None {
          MakeRemoteDirKeepsInv(w, t.key.0);
          MakeRemoteDirIsLater(old(w), w, t.key.0);
          w := OperationActions.MakeRemoteDir(w, t.key.0);
          r := if t.fate == Goes then Done(()) else Failed;
        } else if w.remote.value.RemoteDir? && t.fate == Goes {
          r := Done(());
        }
      }
    }

    /** Deletes the exact expected object. */
    method DeleteRemote() returns (r: Reply<()>, ghost v: World)
      requires Inv(w) && IsRunning(w) && w.job.kind == OpDeleteRemote && Unapplied(w) && !w.job.expectedRemote.absent
      modifies this
      ensures Inv(w) && Rely(old(w), v) && Inv(v)
      ensures w == v || (CanDeleteRemote(v) && w == OperationActions.DeleteRemote(v))
      ensures r.Done? ==> CanDeleteRemote(v) && w == OperationActions.DeleteRemote(v)
      ensures Later(old(w), w)
      ensures old(balked) || r.Died? ==> balked
      ensures r.Failed? ==>
                || balked || v.remote.None? || !RemoteMatches(RemoteOf(v.remote), v.job.expectedRemote, v.job.entryKind)
                || (v.remote.value.RemoteDir? && !v.remote.value.empty)
    {
      hide Inv, Rely, Later;
      var t := Next();
      RelyIsLater(old(w), w);
      RelyKeepsRow(old(w), w);
      v := w;
      var able :=
        && RemoteMatches(RemoteOf(w.remote), w.job.expectedRemote, w.job.entryKind)
        && w.remote.Some? && (w.remote.value.RemoteDir? ==> w.remote.value.empty);
      r := if t.fate == Dies then Died else Failed;
      if able && (t.fate == Goes || t.fate == LosesReply) {
        DeleteRemoteKeepsInv(w);
        DeleteRemoteIsLater(old(w), w);
        w := OperationActions.DeleteRemote(w);
        r := if t.fate == Goes then Done(()) else Failed;
      }
    }

    // ----- Journal transactions: likewise -----

    /** SetOperationPhase(running) with an attempt counted. */
    method Begin() returns (r: Reply<()>, ghost v: World)
      requires Inv(w) && CanBegin(w)
      modifies this
      ensures Inv(w) && Rely(old(w), v) && Inv(v) && CanBegin(v)
      ensures r.Done? ==> w == OperationActions.Begin(v)
      ensures !r.Done? ==> w == v || w == OperationActions.Begin(v)
      ensures Later(old(w), w)
      ensures old(balked) || r.Died? ==> balked
      ensures r.Failed? ==> balked
    {
      hide Inv;
      var t := Next();
      v := w;
      RelyIsBusy(old(w), v);
      CanBeginIsStable(old(w), w);
      r := if t.fate == Dies then Died else Failed;
      if t.fate == Goes || t.fate == LosesReply {
        BeginKeepsInv(w);
        w := OperationActions.Begin(w);
        r := if t.fate == Goes then Done(()) else Failed;
      }
    }

    /** SetOperationPhase without counting an attempt: no guard on the old phase. */
    method SetPhase(phase: Phase) returns (r: Reply<()>, ghost v: World)
      requires Inv(w) && CanSetPhase(w, phase)
      modifies this
      ensures Inv(w) && Rely(old(w), v) && Inv(v) && CanSetPhase(v, phase)
      ensures r.Done? ==> w == OperationActions.SetPhase(v, phase)
      ensures !r.Done? ==> w == v || w == OperationActions.SetPhase(v, phase)
      ensures Later(old(w), w)
      ensures old(balked) || r.Died? ==> balked
      ensures r.Failed? ==> balked
    {
      hide Inv;
      var t := Next();
      v := w;
      RelyIsBusy(old(w), v);
      r := if t.fate == Dies then Died else Failed;
      if t.fate == Goes || t.fate == LosesReply {
        SetPhaseKeepsInv(w, phase);
        w := OperationActions.SetPhase(w, phase);
        r := if t.fate == Goes then Done(()) else Failed;
      }
    }

    /** AuthorizeAndPinLocalMutation; Done(false) is the store's refusal. */
    method Authorize(pin: Pin) returns (r: Reply<bool>, ghost v: World)
      requires Inv(w) && CanPin(w)
      modifies this
      ensures Inv(w) && Rely(old(w), v) && Inv(v) && CanPin(v)
      ensures r.Done? && r.value ==> w == SetPin(v, pin)
      ensures r.Done? && !r.value ==> w == v
      ensures w == v || w == SetPin(v, pin)
      ensures Later(old(w), w)
      ensures old(balked) || r.Died? ==> balked
      ensures r.Failed? || r == Done(false) ==> balked
    {
      hide Inv;
      var t := Next();
      v := w;
      RelyIsBusy(old(w), v);
      InvParts(w);
      balked := balked || !t.granted;
      r := if t.fate == Dies then Died else if t.fate == Goes then Done(t.granted) else Failed;
      if t.granted && (t.fate == Goes || t.fate == LosesReply) {
        SetPinKeepsInv(w, pin);
        w := SetPin(w, pin);
      }
    }

    /** DeleteOperation: refuses unless the row is planned. */
    method Discard() returns (r: Reply<()>)
      requires Inv(w) && w.row.Some? && (w.row.value.phase == Planned ==> w.download == None)
      modifies this
      ensures Inv(w) && (w.row == None || w.row == old(w).row)
      ensures r.Done? ==> w.row == None
      ensures old(w).row.value.phase != Planned ==> w.row == old(w).row && !r.Done?
      ensures Later(old(w), w) && w.begun == old(w).begun && w.effects == old(w).effects && old(w).edits <= w.edits
      ensures w.edits == 0 ==> w.target == old(w).target && w.remote == old(w).remote
      ensures old(balked) || r.Died? ==> balked
      ensures r.Failed? ==> balked || old(w).row.value.phase != Planned
    {
      hide Inv;
      var t := Next();
      RelyIsBusy(old(w), w);
      r := if t.fate == Dies then Died else Failed;
      if w.row.value.phase == Planned && (t.fate == Goes || t.fate == LosesReply) {
        DiscardKeepsInv(w);
        w := OperationActions.Discard(w);
        r := if t.fate == Goes then Done(()) else Failed;
      }
    }

    /** The completion transactions. */
    method Complete(result: Option<(LocalFingerprint, RemoteFingerprint)>) returns (r: Reply<()>, ghost v: World)
      requires Inv(w) && CanComplete(w, result)
      modifies this
      ensures Inv(w) && Rely(old(w), v) && Inv(v) && CanComplete(v, result)
      ensures r.Done? ==> w == OperationActions.Complete(v, result)
      ensures !r.Done? ==> w == v || w == OperationActions.Complete(v, result)
      ensures Later(old(w), w)
      ensures old(balked) || r.Died? ==> balked
      ensures r.Failed? ==> balked
    {
      hide Inv;
      var t := Next();
      v := w;
      RelyIsBusy(old(w), v);
      CanCompleteIsStable(old(w), w, result);
      r := if t.fate == Dies then Died else Failed;
      if t.fate == Goes || t.fate == LosesReply {
        CompleteKeepsInv(w, result);
        w := OperationActions.Complete(w, result);
        r := if t.fate == Goes then Done(()) else Failed;
      }
    }
  }

  // ----- Conditions that outside edits cannot break -----

  lemma CanBeginIsStable(w: World, w': World)
    requires CanBegin(w) && Rely(w, w')
    ensures CanBegin(w')
  {
    hide Remembers;
  }

  lemma CanCompleteIsStable(w: World, w': World, result: Option<(LocalFingerprint, RemoteFingerprint)>)
    requires CanComplete(w, result) && Rely(w, w')
    ensures CanComplete(w', result)
  {
    hide Proven;
  }

  /** The last that was found out about the object in the slot. */
  ghost predicate FoundOut(w: World, state: SlotState) {
    Holder(w.log, w.parent).Held? && Holder(w.log, w.parent).state == state
  }

  /** Whatever is still in the slot may be unlinked. */
  ghost predicate MayUnlink(w: World) {
    && w.row.Some? && w.row.value.pin.Some?
    && (w.row.value.phase == Running || w.row.value.phase == Recovering)
    && (w.recovery.Some? ==>
          && (w.row.value.phase == Running ==>
               ExactlyAuthorized(w.recovery.value, w.row.value.pin.value) && FoundOut(w, ContentChecked))
          && (w.row.value.phase == Recovering ==> FoundOut(w, IdentityChecked)))
    && (w.edits == 0 ==> if w.job.kind == OpDeleteLocal then w.effects == 0 else w.effects == 1)
  }

  lemma MayUnlinkIsStable(w: World, w': World)
    requires MayUnlink(w) && Rely(w, w')
    ensures MayUnlink(w')
  {
    hide Holder, Remembers;
  }

  /** The download slot holds the exact expected revision, if it is still there. */
  predicate Staged(w: World) {
    && (w.job.expectedRemote.id, w.job.expectedRemote.rev) in w.remoteVersions
    && (w.download.Some? ==>
          && w.download.value.FileObj?
          && w.download.value.content == w.remoteVersions[(w.job.expectedRemote.id, w.job.expectedRemote.rev)])
    && (w.edits == 0 ==> RemoteMatches(RemoteOf(w.remote), w.job.expectedRemote, KindFile))
  }

  lemma StagedIsStable(w: World, w': World)
    requires Staged(w) && Rely(w, w')
    ensures Staged(w')
  {
  }

  /** Rely, except that the download slot may have been written or removed. */
  ghost predicate Idles(w: World, w': World) {
    && w'.job == w.job && w'.row == w.row && w'.authority == w.authority && w'.baseline == w.baseline
    && w'.log == w.log && w'.effects == w.effects && w'.begun == w.begun
    && w'.target0 == w.target0 && w'.remote0 == w.remote0 && w'.truth == w.truth
    && SlotKept(w, w')
    && w.edits <= w'.edits
    && (w'.edits == w.edits ==>
         w'.target == w.target && w'.remote == w.remote && w'.recovery == w.recovery && w'.parent == w.parent &&
         w'.away == w.away && w'.route == w.route)
    && Remembers(w, w')
  }

  lemma RelyIdles(w: World, w': World)
    requires Rely(w, w')
    ensures Idles(w, w')
  {
  }

  lemma UnstageIdles(w: World, v: World)
    requires Idles(w, v)
    ensures Idles(w, Unstage(v))
  {
  }

  lemma NoneAppears(w: World, w': World)
    requires Rely(w, w')
    ensures w'.download == None || w'.download == w.download
  {
  }

  lemma IdlesTrans(a: World, b: World, c: World)
    requires Idles(a, b) && Idles(b, c)
    ensures Idles(a, c)
  {
  }

  lemma StageMayHappen(w: World, v: World, f: Obj)
    requires Rely(w, v) && f.FileObj?
    requires Inv(v) && f.content == v.truth.local(LKey(FileFp(f)))
    requires v.row.Some? && DownloadSlot in OwnedSlots(v.job, v.row.value)
    ensures CanStage(v, f) && Idles(w, Stage(v, f))
  {
    hide Inv, OwnedSlots;
    InvParts(v);
  }

  lemma WholeIsStaged(w: World, f: Obj)
    requires Inv(w) && CanStage(w, f) && w.remote.Some? && w.remote.value.RemoteFile? &&
               f.content == w.remote.value.content
    requires RemoteMatches(RemoteOf(w.remote), w.job.expectedRemote, KindFile) && !w.job.expectedRemote.absent
    ensures Staged(Stage(w, f))
  {
    hide JournalInv, SlotInv, BaselineInv, LogInv, QuietInv, OwnedSlots;
  }

  // ----- Relations kept across several calls -----

  /** While an attempt works on the recovery slot. */
  ghost predicate Busy(w: World, w': World) {
    && w'.job == w.job && w'.row == w.row && w'.authority == w.authority &&
         (w'.download.Some? ==> w'.download == w.download)
    && w'.effects == w.effects && w'.begun == w.begun && w'.target0 == w.target0 && w'.remote0 == w.remote0 &&
         w'.truth == w.truth
    && w.edits <= w'.edits && w.log <= w'.log
    && (w'.edits == w.edits ==> w'.remote == w.remote)
    && (forall k | k in w.localVersions :: k in w'.localVersions && w'.localVersions[k] == w.localVersions[k])
    && (forall k | k in w.remoteVersions :: k in w'.remoteVersions && w'.remoteVersions[k] == w.remoteVersions[k])
  }

  lemma RelyIsBusy(w: World, w': World)
    requires Rely(w, w')
    ensures Busy(w, w')
  {
  }

  lemma MayStillPark(w: World, v: World)
    requires Rely(w, v) && w.row.Some? && w.job.IsLocal() && w.recovery == None && Unapplied(w) && NothingUnexpected(w)
    ensures v.row == w.row && v.job == w.job && v.recovery == None && Unapplied(v) && NothingUnexpected(v)
  {
  }

  lemma ParkIsBusy(w: World, v: World)
    requires Busy(w, v) && CanPark(v)
    ensures Busy(w, Park(v))
  {
  }

  lemma RestoreIsBusy(w: World, v: World)
    requires Busy(w, v) && CanRestore(v)
    ensures Busy(w, Restore(v))
  {
  }

  /** What the slot holds, if anything, the running attempt may unlink. */
  ghost predicate Validated(w: World) {
    && w.row.Some? && w.row.value.pin.Some?
    && (w.recovery.Some? ==> ExactlyAuthorized(w.recovery.value, w.row.value.pin.value) && FoundOut(w, ContentChecked))
  }

  lemma ValidatedIsStable(w: World, w': World)
    requires Validated(w) && Rely(w, w')
    ensures Validated(w')
  {
    hide Holder, Remembers;
  }

  /** An attempt in its side-effect phase, before its effect. */
  ghost predicate Armed(w: World, op: Row) {
    && IsRunning(w) && w.job.IsLocal() && w.row.value.pin == op.pin && op.pin.Some?
    && w.authority == op.pin && w.begun && Unapplied(w)
  }
}
