/** Concrete runs of one operation that show where the obvious stronger
    statements about crash recovery are false of the code. */
module OperationWitnesses {
  import opened Domain
  import opened OperationWorld
  import opened OperationActions
  import opened OperationHost
  import opened OperationLaws
  import opened OperationRuns

  const OLD_FILE := FileObj(10, 7, Content(1, 3))
  const OLD_FP := LocalFingerprint(true, KindFile, 3, 7)
  const NOWHERE := RemoteExpectation(true, "", "")
  const PIN := Pin(10, None)

  /** The two local versions that occur, and one remote version. */
  const TRUTH :=
      Truth((k: LocalKey) => if k == (3, 7) then Content(1, 3) else Content(2, 4), (k: RemoteKey) => Content(1, 3))

  /** A planned delete of a local file that is gone remotely. */
  const DELETE := World(
    Job(OpDeleteLocal, KindFile, OLD_FP, NOWHERE, Follow), Some(Row(None, Planned, 0)), None,
    Some(OLD_FILE), 5, ToTarget, None, None, map[], None, None, TRUTH, map[(3, 7) := Content(1, 3)], map[],
    [], 0, 0, false, Some(OLD_FILE), None)

  lemma DeleteIsFresh()
    ensures Fresh(DELETE)
  {
  }

  /** The first attempt, just before its rename. */
  function Attempt(): World { Begin(SetPin(DELETE, PIN)) }

  lemma AttemptHolds()
    ensures Inv(Attempt())
  {
    hide Inv, Fresh;
    DeleteIsFresh();
    FreshHolds(DELETE);
    SetPinKeepsInv(DELETE, PIN);
    BeginKeepsInv(SetPin(DELETE, PIN));
  }

  /** The attempt up to its rename, with one outside edit just before. */
  function Interrupted(e: Edit): World
    requires Legal(Attempt(), e) && e.PutTarget? && e.o.Some?
  {
    var w := ApplyEdit(Attempt(), e);
    assert CanPark(w);
    Park(w)
  }

  lemma InterruptedHolds(e: Edit)
    requires Legal(Attempt(), e) && e.PutTarget? && e.o.Some?
    ensures Inv(SetPhase(Interrupted(e), Recovering))
  {
    hide Inv;
    AttemptHolds();
    EditKeepsInv(Attempt(), e);
    ParkKeepsInv(ApplyEdit(Attempt(), e));
    SetPhaseKeepsInv(Interrupted(e), Recovering);
  }

  /** The user moves the file away and leaves a link to it; the attempt renames
      the link into the slot and dies; recovery begins. */
  function LinkFound(referent: Referent): World
    requires LinkObj(99, "moved", referent).IsProper()
  {
    SetPhase(Interrupted(PutTarget(Some(LinkObj(99, "moved", referent)))), Recovering)
  }

  /** Identity of what recovery unlinks: the link in the slot passes the check,
      which follows it to the pinned object, and the link, another object, goes. */
  lemma RecoveryMayUnlinkALink()
    ensures var w := LinkFound(Resolves(10, OLD_FP));
            && Proven(w.job, w.target, w.remote)
            && CanIdentify(w) && CanUnlink(Identify(w)) && Inv(Unlink(Identify(w)))
            && w.recovery.value.ident != PIN.identity && !ExactlyAuthorized(w.recovery.value, PIN)
  {
    hide Inv, Holder;
    InterruptedHolds(PutTarget(Some(LinkObj(99, "moved", Resolves(10, OLD_FP)))));
    var w := LinkFound(Resolves(10, OLD_FP));
    IdentifyKeepsInv(w);
    UnlinkKeepsInv(Identify(w));
  }

  /** Empty slots after completion: a dangling link in the slot looks like an
      empty slot to os.Stat, so the row completes and the slot stays occupied. */
  lemma CompletionMayLeaveADanglingLink()
    ensures var w := LinkFound(Dangling);
            && CanOverlook(w)
            && CanComplete(Overlook(w), None) && Inv(Complete(Overlook(w), None))
            && Complete(Overlook(w), None).row == None && OccupiedSlots(Complete(Overlook(w), None)) == {RecoverySlot}
  {
    hide Inv, Holder;
    InterruptedHolds(PutTarget(Some(LinkObj(99, "moved", Dangling))));
    var w := LinkFound(Dangling);
    OverlookKeepsInv(w);
    CompleteKeepsInv(Overlook(w), None);
  }

  /** The attempt parks the file and its process dies; then there is one outside
      edit, and recovery begins. */
  function EditedAfter(e: Edit): World {
    assert CanPark(Attempt());
    SetPhase(ApplyEdit(Park(Attempt()), e), Recovering)
  }

  lemma EditedAfterHolds(e: Edit)
    ensures Inv(EditedAfter(e))
  {
    hide Inv, SetPhase;
    AttemptHolds();
    ParkKeepsInv(Attempt());
    EditKeepsInv(Park(Attempt()), e);
    SetPhaseKeepsInv(ApplyEdit(Park(Attempt()), e), Recovering);
  }

  /** Where a parked object ends: the process dies after the rename, the user
      moves the whole directory away, and recovery, which finds neither target
      nor slot at the pinned path, takes the delete for done. The row goes while
      the object lies in the moved directory, neither put back nor unlinked. */
  lemma CompletionMayForgetAMovedDirectory()
    ensures var w := EditedAfter(NewParent(6, None));
            && w.edits == 1 && Proven(w.job, w.target, w.remote) && w.recovery == None
            && CanComplete(w, None)
            && var done := Complete(w, None);
            && Inv(done) && done.row == None && done.target == None && done.recovery == None
            && done.away == map[5 := Left(Some(OLD_FILE), None)]
            && |done.log| == 3 && done.log[1].Parked? && done.log[1].o == OLD_FILE && !LeftAfter(done.log, 1)
  {
    hide Inv, EditedAfter, LeftAfter, Proven, CanComplete, Complete;
    MovedAway();
    EditedAfterHolds(NewParent(6, None));
    DeleteCompletes(EditedAfter(NewParent(6, None)));
  }

  /** With both slots empty, a delete in the recovering phase completes and
      leaves the rest of the world as it is. */
  lemma DeleteCompletes(w: World)
    requires Inv(w) && w.edits > 0 && w.job.kind == OpDeleteLocal && w.row.Some? && w.row.value.phase == Recovering
    requires w.recovery == None && w.download == None && |w.log| == 2 && w.log[1].Parked?
    ensures CanComplete(w, None)
    ensures var done := Complete(w, None);
            && Inv(done) && done.row == None && done.target == w.target && done.recovery == None && done.away == w.away
            && |done.log| == 3 && done.log[1] == w.log[1] && !LeftAfter(done.log, 1)
  {
    hide Inv, LeftAfter, Proven;
    CompleteKeepsInv(w, None);
    NotLeft(Complete(w, None).log);
  }

  lemma MovedAway()
    ensures var w := EditedAfter(NewParent(6, None));
            && w.edits == 1 && w.job == DELETE.job && w.target == None && w.remote == None && w.recovery == None &&
                 w.download == None
            && w.away == map[5 := Left(Some(OLD_FILE), None)] && w.row.Some? && w.row.value.phase == Recovering
            && |w.log| == 2 && w.log[1].Parked? && w.log[1].o == OLD_FILE
            && Proven(w.job, w.target, w.remote)
  {
  }

  lemma NotLeft(log: seq<Event>)
    requires |log| == 3 && log[1].Parked? && log[2].Committed?
    ensures !LeftAfter(log, 1)
  {
  }

  /** Fingerprint of what recovery unlinks: the parked file is edited in place
      after the process died, and recovery, which checks only the identity,
      unlinks the new content. */
  lemma RecoveryMayUnlinkAnEdit()
    ensures var w := EditedAfter(TouchSlot(FileObj(10, 8, Content(2, 4))));
            && w.edits == 1 && Proven(w.job, w.target, w.remote)
            && CanIdentify(w) && CanUnlink(Identify(w)) && Inv(Unlink(Identify(w)))
            && !LocalEquivalent(FpOf(w.recovery), w.job.expectedLocal)
  {
    hide Inv, Holder;
    var e := TouchSlot(FileObj(10, 8, Content(2, 4)));
    EditedAfterHolds(e);
    var w := EditedAfter(e);
    IdentifyKeepsInv(w);
    UnlinkKeepsInv(Identify(w));
  }

  // ----- Completion without an effect -----

  /** The operation is begun and its process dies before any effect; recovery
      finds it. */
  function StartedInVain(w: World, pin: Pin): World
    requires Fresh(w) && (w.job.IsLocal() ==> StartChecks(w.job))
  {
    SetPhase(Begin(if w.job.IsLocal() then SetPin(w, pin) else w), Recovering)
  }

  /** Exactly one effect: a started row can be completed without any effect
      exactly when the untouched state already meets the postcondition and can
      be recorded, and then only with that state as the result. */
  lemma CompletionNeedsNoEffectExactlyWhenProven(w: World, pin: Pin)
    requires Fresh(w) && (w.job.IsLocal() ==> StartChecks(w.job))
    ensures var x := StartedInVain(w, pin);
            && Inv(x) && x.effects == 0 && x.edits == 0
            && (forall result :: CanComplete(x, result) <==>
                  && result == PairOf(w.target, w.remote)
                  && Proven(w.job, w.target, w.remote) && Committable(w.job, result))
            && (forall result | CanComplete(x, result) ::
                  Inv(Complete(x, result)) && Complete(x, result).row == None && Complete(x, result).effects == 0)
  {
    hide Ledger, Holder, Lawful, LastPark, Proven, Committable, Sound;
    FreshHolds(w);
    var p := if w.job.IsLocal() then SetPin(w, pin) else w;
    if w.job.IsLocal() { SetPinKeepsInv(w, pin); }
    BeginKeepsInv(p);
    SetPhaseKeepsInv(Begin(p), Recovering);
    var x := SetPhase(Begin(p), Recovering);
    forall result
      ensures CanComplete(x, result) <==>
                result == PairOf(w.target, w.remote) && Proven(w.job, w.target, w.remote) && Committable(w.job, result)
      ensures CanComplete(x, result) ==> Inv(Complete(x, result))
    {
      if Proven(w.job, w.target, w.remote) &&
          Committable(w.job, PairOf(w.target, w.remote)) { InvParts(x); ProvenIsSound(x); }
      if CanComplete(x, result) { CompleteKeepsInv(x, result); }
    }
  }

  /** A proven state of files is recorded with equal bytes. */
  lemma ProvenIsSound(w: World)
    requires VersionInv(w) && Proven(w.job, w.target, w.remote) && Committable(w.job, PairOf(w.target, w.remote))
    ensures var result := PairOf(w.target, w.remote); result.Some? ==> Sound(w, result.value.0, result.value.1)
  {
  }

  /** A planned download of a revision whose bytes are already there. */
  const SAME_BYTES := World(
    Job(OpEnsureLocal, KindFile, OLD_FP, RemoteExpectation(false, "doc", "2"), Follow), Some(Row(None, Planned, 0)),
        None,
    Some(OLD_FILE), 5, ToTarget, None, None, map[], Some(RemoteFile("doc", "2", Content(1, 3))), None, TRUTH,
    map[(3, 7) := Content(1, 3)], map[("doc", "2") := Content(1, 3)],
    [], 0, 0, false, Some(OLD_FILE), Some(RemoteFile("doc", "2", Content(1, 3))))

  /** Exactly one effect: a started row is removed without any effect when the
      process dies after the durable start and the untouched state already meets
      the postcondition. */
  lemma CompletionMayNeedNoEffect()
    ensures var w := SetPhase(Begin(SetPin(SAME_BYTES, PIN)), Recovering);
            && Proven(w.job, w.target, w.remote) && CanComplete(w, Some((OLD_FP, RemoteOf(w.remote))))
            && var done := Complete(w, Some((OLD_FP, RemoteOf(w.remote))));
            && Inv(done) && done.row == None && done.begun && done.edits == 0 && done.effects == 0
  {
    hide Ledger, Holder, Lawful, LastPark;
    FreshHolds(SAME_BYTES);
    SetPinKeepsInv(SAME_BYTES, PIN);
    BeginKeepsInv(SetPin(SAME_BYTES, PIN));
    SetPhaseKeepsInv(Begin(SetPin(SAME_BYTES, PIN)), Recovering);
    assert 'd' in "doc" && '2' in "2";
    CompleteKeepsInv(SetPhase(Begin(SetPin(SAME_BYTES, PIN)), Recovering),
        Some((OLD_FP, RemoteOf(Some(RemoteFile("doc", "2", Content(1, 3)))))));
  }
}
