/** Whole lives of operations: any number of processes, each cut short
    anywhere, with the operator's commands in between; and what the invariant
    then says about every object that was touched. */
module OperationRuns {
  import opened Domain
  import opened OperationWorld
  import opened OperationActions
  import opened OperationHost
  import opened OperationExecutor
  import opened OperationRecovery
  import opened OperationSyncer
  import opened OperationLaws

  // ----- Runs -----

  /** A freshly journaled intent in a world whose versions are known. */
  ghost predicate Fresh(w: World) {
    && w.row == Some(Row(None, Planned, 0)) && w.authority == None && w.job.entryKind != NoKind
    && w.recovery == None && w.download == None && w.away == map[] && w.route == ToTarget
    && w.log == [] && w.edits == 0 && w.effects == 0 && !w.begun
    && w.target0 == w.target && w.remote0 == w.remote
    && VersionInv(w) && BaselineInv(w)
  }

  lemma FreshHolds(w: World)
    requires Fresh(w)
    ensures Inv(w)
  {
  }

  /** The bytes on both sides are those their version tokens name, and a remote
      operation's path leads to no link. */
  predicate Honest(job: Job, truth: Truth, target: Option<Obj>, remote: Option<RemoteObj>) {
    && job.entryKind != NoKind
    && (target.Some? && target.value.FileObj? ==> target.value.content == truth.local(LKey(FileFp(target.value))))
    && (target.Some? && target.value.LinkObj? ==> job.IsLocal())
    && (target.Some? ==> target.value.IsProper())
    && (remote.Some? && remote.value.RemoteFile? ==>
         remote.value.content == truth.remote((remote.value.id, remote.value.rev)))
  }

  /** A new intent, in the world as it is when it is journaled. */
  function NewIntent(job: Job, truth: Truth, target: Option<Obj>, parent: nat, remote: Option<RemoteObj>): World {
    World(job, Some(Row(None, Planned, 0)), None, target, parent, ToTarget, None, None, map[], remote, None,
          truth, Learn(map[], target), LearnRemote(map[], remote), [], 0, 0, false, target, remote)
  }

  lemma NewIsFresh(job: Job, truth: Truth, target: Option<Obj>, parent: nat, remote: Option<RemoteObj>)
    requires Honest(job, truth, target, remote)
    ensures Fresh(NewIntent(job, truth, target, parent, remote))
  {
  }

  datatype Command = FirstAttempt | NextCycle | RestoreCommand | RetryCommand

  /** One process: what it is asked to do, and what happens to it. */
  datatype Session = Session(command: Command, script: seq<Turn>)

  /** The first attempt: pin, then execute. */
  method Attempt(h: Host) returns (r: Reply<()>)
    requires Inv(h.w) && h.w.row == Some(Row(None, Planned, 0))
    modifies h
    ensures Inv(h.w) && Later(old(h.w), h.w)
    ensures r.Done? ==> Completed(h.w)
    ensures r.Failed? && h.w.edits == 0 ==> h.balked || !Feasible(old(h.w), None)
    ensures old(h.balked) || r.Died? ==> h.balked
  {
    hide Inv, Rely, Later, Completed;
    ghost var w0 := h.w;
    PlannedIsUntouched(w0);
    var op := PinTarget(h, h.w.row.value);
    if !op.Done? { return op.PropagateFailure(); }
    ghost var w1 := h.w;
    PlannedIsUntouched(w1);
    r := Execute(h, op.value);
    LaterTrans(w0, w1, h.w);
  }

  method RunSession(h: Host, command: Command)
    requires Inv(h.w)
    modifies h
    ensures Inv(h.w) && Later(old(h.w), h.w)
    ensures command.RestoreCommand? && h.w.row != old(h.w).row ==>
              && IsBlocked(old(h.w)) && h.w.row == Some(old(h.w).row.value.(phase := Recovering))
              && (h.w.edits == old(h.w).edits ==> Restorable(old(h.w)))
    ensures command.RetryCommand? && h.w.row != old(h.w).row ==>
              && old(h.w).row.Some? && old(h.w).row.value.phase == Blocked
              && h.w.row == Some(old(h.w).row.value.(phase := Recovering))
  {
    hide Inv, Rely, Later;
    LaterRefl(h.w);
    if h.w.row == None { return; }
    match command
    case FirstAttempt =>
      if h.w.row == Some(Row(None, Planned, 0)) {
        var _ := Attempt(h);
      }
    case NextCycle =>
      var _ := RecoverOne(h);
    case RestoreCommand =>
      if h.w.row.value.phase == Blocked && h.w.job.IsLocal() {
        ghost var w0 := h.w;
        StartedIsPinned(w0);
        var restored := RestoreArtifact(h);
        if restored.Done? {
          ghost var w1 := h.w;
          var _, v := h.SetPhase(Recovering);
          LaterTrans(w0, w1, h.w);
          LaterEdits(w0, w1);
          LaterEdits(w1, h.w);
          RelyKeepsRow(w1, v);
        }
      }
    case RetryCommand =>
      if h.w.row.value.phase == Blocked {
        ghost var w0 := h.w;
        var _, v := h.SetPhase(Recovering);
        RelyKeepsRow(w0, v);
      }
  }

  /** Any number of processes, each with any script of outside edits, failures
      and a crash. */
  method Run(w: World, sessions: seq<Session>) returns (h: Host)
    requires Fresh(w)
    ensures Inv(h.w) && Later(w, h.w)
  {
    hide Inv, Later, Fresh;
    FreshHolds(w);
    LaterRefl(w);
    h := new Host(w, []);
    for i := 0 to |sessions|
      invariant Inv(h.w) && Later(w, h.w)
      invariant fresh(h)
    {
      ghost var before := h.w;
      h.script := sessions[i].script;
      RunSession(h, sessions[i].command);
      LaterTrans(w, before, h.w);
    }
  }

  /** recoverExistingOperations over all rows of a root: unless a row blocks or a
      call fails, every row is gone afterwards, and with it every slot at the
      pinned paths but one that holds an overlooked link. So the pass that
      follows scans with no row and no artifact. */
  method RecoverAll(hosts: seq<Host>) returns (r: Reply<bool>)
    requires forall i, j :: 0 <= i < j < |hosts| ==> hosts[i] != hosts[j]
    requires forall i :: 0 <= i < |hosts| ==> Inv(hosts[i].w)
    modifies set x | x in hosts
    ensures forall i :: 0 <= i < |hosts| ==> Inv(hosts[i].w)
    ensures r == Done(false) ==> forall i :: 0 <= i < |hosts| ==> hosts[i].w.row == None && NoArtifact(hosts[i].w)
    ensures r == Done(true) ==>
              exists i :: 0 <= i < |hosts| && hosts[i].w.row.Some? && hosts[i].w.row.value.phase == Blocked
    ensures !r.Done? ==>
              exists i :: 0 <= i < |hosts| &&
                (hosts[i].w.edits > 0 || hosts[i].balked ||
                 (old(hosts[i].w).row.Some? && !Settleable(old(hosts[i].w))))
  {
    hide Inv, Settleable;
    for i := 0 to |hosts|
      invariant forall j :: 0 <= j < |hosts| ==> Inv(hosts[j].w)
      invariant forall j :: i <= j < |hosts| ==> hosts[j].w == old(hosts[j].w)
      invariant forall j :: 0 <= j < i ==> hosts[j].w.row == None
    {
      if hosts[i].w.row.Some? {
        r := RecoverOne(hosts[i]);
        if r != Done(false) { return; }
      }
    }
    forall i | 0 <= i < |hosts|
      ensures NoArtifact(hosts[i].w)
    {
      OnlyOverlookedLinksOutliveTheRow(hosts[i].w);
    }
    r := Done(false);
  }

  /** No slot at the pinned path is occupied, but for a link that was overlooked
      because it dangled. */
  predicate NoArtifact(w: World) {
    && w.download == None
    && (w.recovery.Some? ==>
          Stray(w.recovery.value, w.authority) && w.edits > 0 && w.log != [] &&
              JustOverlooked(w.log[..|w.log| - 1], w.parent))
  }
}
