/** What the invariant of a journaled operation says about user data. */
module OperationLaws {
  import opened Domain
  import opened OperationWorld
  import opened OperationActions
  import opened OperationHost

  // ----- Every object moved is accounted for -----

  /** The object goes back to the pinned path, or is unlinked. */
  predicate Leaves(e: Event, o: Obj, dir: nat) {
    (e.Restored? || e.Unlinked?) && SameObject(e.o, o) && e.at.dir == dir
  }

  /** The object moved aside by event i left its slot later. */
  predicate LeftAfter(log: seq<Event>, i: nat)
    requires i < |log| && log[i].Parked?
  {
    exists j :: i < j < |log| && Leaves(log[j], log[i].o, log[i].at.dir)
  }

  lemma LastEvent(log: seq<Event>)
    requires Ledger(log) && log != []
    ensures var init, e := log[..|log| - 1], log[|log| - 1];
            && Ledger(init) && Follows(Holder(init, DirOf(e)), e)
            && forall d :: Holder(log, d) == After(Holder(init, d), e, d)
  {
  }

  lemma StaysUntilItLeaves(held: Holding, e: Event, d: nat)
    requires held.Held? && (DirOf(e) == d ==> Follows(held, e))
    ensures Leaves(e, held.o, d) || (After(held, e, d).Held? && SameObject(After(held, e, d).o, held.o))
  {
  }

  lemma {:induction false} MovedOutOrHeld(log: seq<Event>, i: nat)
    requires Ledger(log) && i < |log| && log[i].Parked?
    ensures LeftAfter(log, i) ||
              (Holder(log, log[i].at.dir).Held? && SameObject(Holder(log, log[i].at.dir).o, log[i].o))
  {
    hide Ledger, Holder, Follows, After;
    var n, d := |log| - 1, log[i].at.dir;
    LastEvent(log);
    if i < n {
      var init := log[..n];
      MovedOutOrHeld(init, i);
      if LeftAfter(init, i) {
        var j :| i < j < n && Leaves(init[j], init[i].o, d);
        assert Leaves(log[j], log[i].o, d);
      } else {
        StaysUntilItLeaves(Holder(init, d), log[n], d);
        if Leaves(log[n], Holder(init, d).o, d) {
          assert Leaves(log[n], log[i].o, d) && i < n < |log|;
        }
      }
    } else {
      JustParked(Holder(log[..n], d), log[n]);
    }
  }

  lemma JustParked(h: Holding, e: Event)
    requires e.Parked?
    ensures After(h, e, e.at.dir) == Held(e.o, Unseen)
  {
  }

  lemma {:induction false} EmptyOnceLeft(log: seq<Event>, j: nat)
    requires Ledger(log) && j < |log| && (log[j].Restored? || log[j].Unlinked?)
    requires forall k :: j < k < |log| ==> !log[k].Parked?
    ensures Holder(log, log[j].at.dir) == Nothing
  {
    hide Ledger, Holder, Follows, After;
    var n, d := |log| - 1, log[j].at.dir;
    LastEvent(log);
    if j < n {
      EmptyOnceLeft(log[..n], j);
      NothingComesOfNothing(log[n], d);
    } else {
      EmptyAfter(Holder(log[..n], d), log[n]);
    }
  }

  lemma NothingComesOfNothing(e: Event, d: nat)
    requires !e.Parked? && (DirOf(e) == d ==> Follows(Nothing, e))
    ensures After(Nothing, e, d) == Nothing
  {
  }

  lemma EmptyAfter(h: Holding, e: Event)
    requires e.Restored? || e.Unlinked?
    ensures After(h, e, e.at.dir) == Nothing
  {
  }

  lemma {:induction false} LastParkIs(log: seq<Event>, i: nat)
    requires i < |log| && log[i].Parked? && forall k :: i < k < |log| ==> !log[k].Parked?
    ensures LastPark(log) == Some(log[i].at.dir)
  {
    if i < |log| - 1 { LastParkIs(log[..|log| - 1], i); }
  }

  /** Every object the syncer ever moved aside was put back, was unlinked, or is
      in the recovery slot of the directory it was moved in: at the pinned path,
      or wherever that directory was moved since. */
  lemma MovedObjectIsAccountedFor(w: World, i: nat)
    requires Inv(w) && i < |w.log| && w.log[i].Parked?
    ensures LeftAfter(w.log, i) ||
            (SlotAt(w, w.log[i].at.dir).Some? && SameObject(w.log[i].o, SlotAt(w, w.log[i].at.dir).value))
  {
    hide Ledger, Holder, JournalInv, SlotInv, VersionInv, BaselineInv, QuietInv, LeftAfter, LastPark;
    MovedOutOrHeld(w.log, i);
    assert Tallies(Holder(w.log, w.log[i].at.dir), SlotAt(w, w.log[i].at.dir));
  }

  /** The slot at the pinned path is occupied exactly when the last object moved
      aside has not left it and the directory at the path is still the one of
      that move; so recovery, which looks at the path alone, forgets an object
      exactly when its directory was moved away. */
  lemma LastMovedObjectIsInPlace(w: World, i: nat)
    requires Inv(w) && i < |w.log| && w.log[i].Parked? && forall k :: i < k < |w.log| ==> !w.log[k].Parked?
    ensures LeftAfter(w.log, i) <==> SlotAt(w, w.log[i].at.dir) == None
    ensures w.recovery.Some? <==> !LeftAfter(w.log, i) && w.parent == w.log[i].at.dir
  {
    hide Ledger, Holder, JournalInv, VersionInv, BaselineInv, QuietInv, LeftAfter, LastPark;
    var d := w.log[i].at.dir;
    MovedObjectIsAccountedFor(w, i);
    LastParkIs(w.log, i);
    assert Tallies(Holder(w.log, d), SlotAt(w, d));
    if LeftAfter(w.log, i) {
      assert Holder(w.log, d) == Nothing by {
        hide SlotAt;
        WhereItLeft(w.log, i);
      }
    }
  }

  lemma WhereItLeft(log: seq<Event>, i: nat)
    requires Ledger(log) && i < |log| && log[i].Parked? && LeftAfter(log, i)
    requires forall k :: i < k < |log| ==> !log[k].Parked?
    ensures Holder(log, log[i].at.dir) == Nothing
  {
    hide Ledger, Holder;
    var j :| i < j < |log| && Leaves(log[j], log[i].o, log[i].at.dir);
    EmptyOnceLeft(log, j);
  }

  // ----- Every unlink is justified -----

  predicate MovesSlot(e: Event, dir: nat) {
    (e.Parked? || e.Restored? || e.Unlinked?) && e.at.dir == dir
  }

  predicate Finding(e: Event, state: SlotState) {
    if state == ContentChecked then e.Checked? else e.Identified?
  }

  /** Event i looked at the very object in the slot of dir before event k, and
      nothing was moved in or out of that slot in between. */
  predicate LookedAt(log: seq<Event>, i: nat, k: nat, state: SlotState, o: Obj, dir: nat) {
    && i < k <= |log| && Finding(log[i], state) && DirOf(log[i]) == dir && SameObject(log[i].o, o)
    && forall j :: i < j < k ==> !MovesSlot(log[j], dir)
  }

  lemma {:induction false} FoundEarlier(log: seq<Event>, d: nat) returns (i: nat)
    requires Ledger(log) && Holder(log, d).Held? && Holder(log, d).state != Unseen
    ensures LookedAt(log, i, |log|, Holder(log, d).state, Holder(log, d).o, d) && log[i].o == Holder(log, d).o
  {
    hide Ledger, Holder, Follows, After;
    i := 0;
    if log == [] {
      NothingHeldInitially(d);
    } else {
      var n := |log| - 1;
      LastEvent(log);
      StateComesFrom(Holder(log[..n], d), log[n], d);
      if Finding(log[n], Holder(log, d).state) && DirOf(log[n]) == d {
        i := n;
      } else {
        i := FoundEarlier(log[..n], d);
      }
    }
  }

  lemma StateComesFrom(h: Holding, e: Event, d: nat)
    requires After(h, e, d).Held? && After(h, e, d).state != Unseen
    ensures if Finding(e, After(h, e, d).state) && DirOf(e) == d then e.o == After(h, e, d).o
            else h == After(h, e, d) && !MovesSlot(e, d)
  {
  }

  lemma NothingHeldInitially(d: nat)
    ensures Holder([], d) == Nothing
  {
  }

  lemma {:induction false} LedgerPrefix(log: seq<Event>, k: nat)
    requires Ledger(log) && k < |log|
    ensures Ledger(log[..k]) && Follows(Holder(log[..k], DirOf(log[k])), log[k])
  {
    var n := |log| - 1;
    if k < n {
      LedgerPrefix(log[..n], k);
      assert log[..n][..k] == log[..k];
    }
  }

  /** Before every unlink the object was looked at in the same slot, after the
      last move into it: a running attempt validated that it is what the plan
      expected and has the pinned identity or link text; recovery checked the
      identity that os.Stat reports, or the link text. */
  lemma UnlinkIsJustified(w: World, k: nat) returns (i: nat)
    requires Inv(w) && k < |w.log| && w.log[k].Unlinked?
    ensures var e, pin := w.log[k], w.authority;
            && pin.Some? && i < k
            && (e.at.phase == Running ==>
                  LookedAt(w.log, i, k, ContentChecked, e.o, e.at.dir) && IsExpected(w.log[i].o, pin.value, w.job) &&
                      ExactlyAuthorized(e.o, pin.value))
            && (e.at.phase != Running ==>
                  e.at.phase == Recovering && LookedAt(w.log, i, k, IdentityChecked, e.o, e.at.dir) &&
                      PassesIdentityCheck(w.log[i].o, pin.value))
  {
    hide Ledger, Holder, JournalInv, SlotInv, VersionInv, BaselineInv, QuietInv, IsExpected;
    hide LastPark, Tallies, ExactlyAuthorized, PassesIdentityCheck;
    var e := w.log[k];
    assert Lawful(w.job, w.authority, e);
    LedgerPrefix(w.log, k);
    i := FoundEarlier(w.log[..k], e.at.dir);
    LookedInPrefix(w.log, i, k, Holder(w.log[..k], e.at.dir), e);
    assert Lawful(w.job, w.authority, w.log[i]);
  }

  lemma LookedInPrefix(log: seq<Event>, i: nat, k: nat, held: Holding, e: Event)
    requires k < |log| && e == log[k] && e.Unlinked? && Follows(held, e) && held.Held?
    requires LookedAt(log[..k], i, k, held.state, held.o, e.at.dir)
    ensures LookedAt(log, i, k, held.state, e.o, e.at.dir)
  {
    forall j | i < j < k
      ensures !MovesSlot(log[j], e.at.dir)
    {
      assert !MovesSlot(log[..k][j], e.at.dir);
    }
  }

  /** What recovery unlinks under an ordinary pin is the pinned object itself,
      exactly when it is not a symbolic link; a link was seen to resolve to the
      pinned object. */
  lemma RecoveryUnlinksThePinned(w: World, k: nat) returns (i: nat)
    requires Inv(w) && k < |w.log| && w.log[k].Unlinked? && w.log[k].at.phase == Recovering
    requires w.authority.Some? && w.authority.value.linkText.None?
    ensures var o, pin := w.log[k].o, w.authority.value;
            && (o.ident == pin.identity <==> !o.LinkObj?)
            && (o.LinkObj? ==>
                  && i < k && w.log[i].Identified? && SameObject(w.log[i].o, o)
                  && w.log[i].o.referent.Resolves? && w.log[i].o.referent.ident == pin.identity)
  {
    hide Inv;
    i := UnlinkIsJustified(w, k);
    IdentifiedIsProper(w, i);
  }

  lemma IdentifiedIsProper(w: World, i: nat)
    requires Inv(w) && i < |w.log| && w.log[i].Identified?
    ensures w.log[i].o.IsProper()
  {
    hide JournalInv, SlotInv, VersionInv, BaselineInv, QuietInv, Ledger, Holder, LastPark, Tallies;
    assert Lawful(w.job, w.authority, w.log[i]);
  }

  // ----- No other writer -----

  /** With nobody else writing, any number of crashes at any step leave the
      operation untouched, completed, or with the prior object in its slot; every
      attempt began untouched; the effect happened at most once; only expected
      objects were unlinked; and a started row is gone only when the effect
      happened, or when the untouched state already met the postcondition, and
      what it recorded is the final state. */
  lemma QuietRunsAreAtomic(w: World)
    requires Inv(w) && w.edits == 0
    ensures AtRest(w) || InSlot(w) || Applied(w)
    ensures w.effects <= 1 && (w.effects == 0 ==> AtRest(w) || InSlot(w)) && (w.effects == 1 ==> Applied(w))
    ensures w.effects == 1 && w.job.kind == OpEnsureRemote ==>
              && w.target == w.target0 && w.recovery == None && w.remote.Some?
              && !RemoteMatches(RemoteOf(w.remote), w.job.expectedRemote, w.job.entryKind)
              && (if w.job.entryKind == KindDir then w.remote.value.RemoteDir? else SameFile(w.target, w.remote))
    ensures forall k :: 0 <= k < |w.log| && w.log[k].Began? ==>
              w.log[k].target == w.target0 && w.log[k].slot == None && w.log[k].remote == w.remote0
    ensures forall e | e in w.log && e.Unlinked? :: w.authority.Some? && IsExpected(e.o, w.authority.value, w.job)
    ensures w.row == None && w.begun && !Proven(w.job, w.target0, w.remote0) ==>
              Applied(w) && w.effects == 1 && w.recovery == None
    ensures w.row == None && w.begun && w.effects == 0 ==> Proven(w.job, w.target0, w.remote0) && AtRest(w)
    ensures w.row == None && w.begun ==> w.baseline == PairOf(w.target, w.remote)
  {
    hide JournalInv, SlotInv, VersionInv, BaselineInv, LogInv, Proven;
    assert QuietInv(w);
  }

  // ----- Journal phases -----

  /** User data changes only under a journaled attempt: in the running phase, or
      while recovery cleans the slot, or by the operator's restore of a blocked
      row; local changes need the pin. A planned row has no attempt and has
      touched nothing. */
  lemma PhasesGuardUserData(w: World)
    requires Inv(w)
    ensures w.row.Some? && w.row.value.phase == Planned <==> w.row.Some? && w.row.value.attempts == 0
    ensures w.row.Some? && w.row.value.phase == Planned ==> w.log == [] && w.recovery == None
    ensures forall e | e in w.log && (e.Installed? || e.RemoteChanged?) :: e.at.phase == Running && e.at.attempts >= 1
    ensures forall e | e in w.log && (e.Parked? || e.Restored?) ::
              (e.at.phase == Running || e.at.phase == Blocked) && e.at.attempts >= 1
    ensures forall e | e in w.log && e.Unlinked? ::
              (e.at.phase == Running || e.at.phase == Recovering) && e.at.attempts >= 1
    ensures forall e | e in w.log && (e.Parked? || e.Restored? || e.Installed? || e.Unlinked?) ::
              e.at.pinned && w.job.IsLocal()
    ensures forall e | e in w.log && e.RemoteChanged? :: !w.job.IsLocal()
  {
    hide Ledger, Holder, VersionInv, BaselineInv, QuietInv, StartChecks, LastPark;
    forall e | e in w.log
      ensures Lawful(w.job, w.authority, e)
    {
    }
    PlannedSlotIsEmpty(w);
  }

  lemma PlannedSlotIsEmpty(w: World)
    requires Inv(w)
    ensures w.row.Some? && w.row.value.phase == Planned ==> w.recovery == None && w.log == []
  {
    hide Ledger, Holder, VersionInv, BaselineInv, QuietInv, StartChecks, Lawful, LastPark;
  }

  /** A row that started never stands as planned again, and it disappears only
      with the completion transaction, whose result is the baseline. */
  lemma StartedRowsEndInACommit(w: World, w': World)
    requires Inv(w) && Inv(w') && Later(w, w') && w.begun
    ensures w'.row.Some? ==> w'.row.value.phase != Planned && w'.row.value.attempts >= 1
    ensures w'.row.None? ==> w'.log != [] && w'.log[|w'.log| - 1] == Committed(w'.baseline)
  {
    hide Ledger, Holder, SlotInv, VersionInv, BaselineInv, QuietInv, StartChecks, Lawful, LastPark;
  }

  // ----- Slots -----

  /** What the slot of a directory holds was moved there and has not left. */
  lemma {:induction false} HeldWasParked(log: seq<Event>, d: nat) returns (i: nat)
    requires Ledger(log) && Holder(log, d).Held?
    ensures i < |log| && log[i].Parked? && log[i].at.dir == d && SameObject(log[i].o, Holder(log, d).o) &&
              !LeftAfter(log, i)
  {
    hide Ledger, Holder, Follows, After;
    i := 0;
    if log == [] {
      NothingHeldInitially(d);
    } else {
      var n := |log| - 1;
      LastEvent(log);
      HeldComesFrom(Holder(log[..n], d), log[n], d);
      if log[n].Parked? && log[n].at.dir == d {
        i := n;
      } else {
        i := HeldWasParked(log[..n], d);
        StillNotLeft(log, i);
      }
    }
  }

  lemma HeldComesFrom(h: Holding, e: Event, d: nat)
    requires After(h, e, d).Held? && (DirOf(e) == d ==> Follows(h, e))
    ensures if e.Parked? && e.at.dir == d then After(h, e, d).o == e.o
            else h.Held? && SameObject(h.o, After(h, e, d).o) && !((e.Restored? || e.Unlinked?) && e.at.dir == d)
  {
  }

  lemma StillNotLeft(log: seq<Event>, i: nat)
    requires i < |log| - 1 && log[i].Parked? && !LeftAfter(log[..|log| - 1], i)
    requires var e := log[|log| - 1]; !((e.Restored? || e.Unlinked?) && e.at.dir == log[i].at.dir)
    ensures !LeftAfter(log, i)
  {
  }

  /** An occupied slot at the pinned path has an owner. The staging slot belongs
      to the live row of a pinned download. What is in the recovery slot was moved
      there by this operation and has not left, and it belongs to the live row of
      a started local operation, or is a link that was overlooked at completion. */
  lemma OccupiedSlotsHaveAnOwner(w: World)
    requires Inv(w)
    ensures w.download.Some? ==>
              && w.row.Some? && w.row.value.pin.Some? && w.job.IsDownload()
              && (w.row.value.phase == Planned ==> w.row.value.attempts == 0)
    ensures w.recovery.Some? ==>
              && w.begun && w.job.IsLocal()
              && (exists i :: 0 <= i < |w.log| && ParkedHere(w, i) && !LeftAfter(w.log, i))
              && (if w.row.Some? then w.row.value.pin.Some? && w.row.value.phase != Planned
                  else w.log != [] && JustOverlooked(w.log[..|w.log| - 1], w.parent))
  {
    hide Ledger, Holder, Lawful, VersionInv, BaselineInv, QuietInv, StartChecks, LastPark, LeftAfter;
    if w.recovery.Some? {
      var i := HeldWasParked(w.log, w.parent);
      assert ParkedHere(w, i);
      LoggedHasBegun(w);
      ParkedIsLocal(w, i);
    }
  }

  lemma ParkedIsLocal(w: World, i: nat)
    requires Inv(w) && i < |w.log| && w.log[i].Parked?
    ensures w.job.IsLocal()
  {
    hide Ledger, Holder, JournalInv, SlotInv, VersionInv, BaselineInv, QuietInv, LastPark, Tallies;
    assert Lawful(w.job, w.authority, w.log[i]);
  }

  /** Event i moved the object in the slot there. */
  predicate ParkedHere(w: World, i: nat)
    requires i < |w.log|
  {
    w.log[i].Parked? && w.log[i].at.dir == w.parent && w.recovery.Some? && SameObject(w.log[i].o, w.recovery.value)
  }

  /** Once the row is gone the staging slot is empty, and the recovery slot at
      the pinned path is occupied exactly when recovery's os.Stat found nothing
      in it just before the completion: it then held a link that dangled. */
  lemma OnlyOverlookedLinksOutliveTheRow(w: World)
    requires Inv(w) && w.row == None
    ensures w.download == None
    ensures w.recovery.Some? <==> w.begun && JustOverlooked(w.log[..|w.log| - 1], w.parent)
    ensures w.recovery.Some? ==> |w.log| >= 2
    ensures w.recovery.Some? ==>
              var seen := w.log[|w.log| - 2].o;
              && Stray(w.recovery.value, w.authority) && w.edits > 0
              && SameObject(seen, w.recovery.value) && seen.LinkObj? && seen.referent.Dangling?
  {
    hide JournalInv, VersionInv, BaselineInv, Ledger, Holder, Follows, After, LastPark, Proven, Applied, Lawful;
    if w.begun {
      var n := |w.log| - 1;
      LastEvent(w.log);
      if JustOverlooked(w.log[..n], w.parent) {
        LastEvent(w.log[..n]);
        assert w.log[..n][..n - 1] == w.log[..n - 1];
        OverlookedIsHeld(w, n);
      }
    } else {
      NothingHeldInitially(w.parent);
    }
    if w.recovery.Some? {
      assert w.log[|w.log| - 2] in w.log;
      OverlookedIsStray(w, w.log[|w.log| - 2]);
      if w.edits == 0 { QuietRemovalIsClean(w); }
    }
  }

  /** When the row is gone, the last object moved aside was put back or unlinked,
      unless its directory was moved away while it was in the slot, or it was a
      link that dangled when recovery looked at it. */
  lemma ForgottenExactlyWhenMovedOrOverlooked(w: World, i: nat)
    requires Inv(w) && w.row == None && i < |w.log| && w.log[i].Parked?
    requires forall k :: i < k < |w.log| ==> !w.log[k].Parked?
    ensures var d := w.log[i].at.dir;
            !LeftAfter(w.log, i) <==>
            if d == w.parent then JustOverlooked(w.log[..|w.log| - 1], d) else d in w.away && w.away[d].recovery.Some?
  {
    hide Inv, LeftAfter;
    LastMovedObjectIsInPlace(w, i);
    OnlyOverlookedLinksOutliveTheRow(w);
    LoggedHasBegun(w);
  }

  lemma LoggedHasBegun(w: World)
    requires Inv(w) && w.log != []
    ensures w.begun
  {
    hide JournalInv, SlotInv, VersionInv, BaselineInv, QuietInv, Ledger, Holder, LastPark;
  }

  lemma OverlookedIsHeld(w: World, n: nat)
    requires n == |w.log| - 1 && n >= 1 && w.log[n].Committed? && JustOverlooked(w.log[..n], w.parent)
    requires Follows(Holder(w.log[..n - 1], w.parent), w.log[n - 1]) && Tallies(Holder(w.log, w.parent), w.recovery)
    requires Holder(w.log, w.parent) == After(Holder(w.log[..n], w.parent), w.log[n], w.parent)
    requires Holder(w.log[..n], w.parent) == After(Holder(w.log[..n - 1], w.parent), w.log[n - 1], w.parent)
    ensures w.recovery.Some? && SameObject(w.log[n - 1].o, w.recovery.value)
  {
    hide Holder;
  }

  lemma OverlookedIsStray(w: World, e: Event)
    requires e.Overlooked? && Lawful(w.job, w.authority, e) && w.recovery.Some? && SameObject(e.o, w.recovery.value)
    ensures Stray(w.recovery.value, w.authority) && e.o.LinkObj? && e.o.referent.Dangling?
  {
  }

  lemma QuietRemovalIsClean(w: World)
    requires Inv(w) && w.row == None && w.edits == 0
    ensures w.recovery == None
  {
    hide JournalInv, VersionInv, BaselineInv, LogInv, Proven, Applied;
    assert w.begun ==> w.recovery == None;
  }
}
