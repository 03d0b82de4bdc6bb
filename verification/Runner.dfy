/** The daemon: one worker per root under pause, resume and removal, and the
    loop in which a worker turns hints into cycles. */
module Runner {

  // ----- The worker map -----

  datatype RootID = RootID(id: int)

  /** A worker goroutine: asked to stop, and fully exited. */
  datatype Worker = Worker(root: RootID, cancelled: bool, done: bool)

  datatype RootRow = RootRow(id: RootID, enabled: bool)

  /** All workers ever started, by handle. A worker that is not done is the one
      the map holds for its root. */
  ghost predicate Fenced(workers: map<RootID, nat>, all: seq<Worker>) {
    && (forall r | r in workers :: workers[r] < |all| && all[workers[r]].root == r)
    && (forall h | 0 <= h < |all| && !all[h].done :: all[h].root in workers && workers[all[h].root] == h)
  }

  /** The ID is the table's primary key. */
  predicate DistinctIds(roots: seq<RootRow>) {
    forall i, j | 0 <= i < j < |roots| :: roots[i].id != roots[j].id
  }

  /** Workers only ever become cancelled or done, and new ones are appended. */
  ghost predicate Progress(before: seq<Worker>, after: seq<Worker>) {
    && |before| <= |after|
    && forall h | 0 <= h < |before| ::
         && after[h].root == before[h].root
         && (before[h].cancelled ==> after[h].cancelled)
         && (before[h].done ==> after[h].done)
  }

  lemma ProgressRefl(a: seq<Worker>)
    ensures Progress(a, a)
  {
  }

  lemma ProgressTrans(a: seq<Worker>, b: seq<Worker>, c: seq<Worker>)
    requires Progress(a, b) && Progress(b, c)
    ensures Progress(a, c) && |a| <= |b| <= |c|
  {
  }

  lemma DoneStays(a: seq<Worker>, b: seq<Worker>, c: seq<Worker>)
    requires Progress(a, b) && Progress(b, c)
    ensures Progress(a, c) && (forall h | 0 <= h < |b| && b[h].done :: c[h].done)
    ensures forall h | 0 <= h < |a| && a[h].done :: c[h].done
  {
  }

  lemma FencedEntries(workers: map<RootID, nat>, all: seq<Worker>)
    requires Fenced(workers, all)
    ensures forall r | r in workers :: workers[r] < |all|
  {
  }

  lemma DroppedStaysFenced(workers: map<RootID, nat>, all: seq<Worker>, r: RootID)
    requires Fenced(workers, all) && r in workers && workers[r] < |all| && all[workers[r]].done
    ensures Fenced(workers - {r}, all)
  {
  }

  /** The first n listed roots are as their rows say. */
  ghost predicate Served(workers: map<RootID, nat>, all: seq<Worker>, roots: seq<RootRow>, n: nat)
    requires n <= |roots|
  {
    && (forall j | 0 <= j < n && roots[j].enabled :: roots[j].id in workers)
    && (forall j | 0 <= j < n && !roots[j].enabled && roots[j].id in workers ::
          workers[roots[j].id] < |all| && all[workers[roots[j].id]].cancelled)
  }

  lemma NoneServed(workers: map<RootID, nat>, all: seq<Worker>, roots: seq<RootRow>)
    ensures Served(workers, all, roots, 0)
  {
  }

  lemma AllServed(workers: map<RootID, nat>, all: seq<Worker>, roots: seq<RootRow>)
    requires Served(workers, all, roots, |roots|) && Fenced(workers, all)
    ensures forall j | 0 <= j < |roots| && roots[j].enabled :: roots[j].id in workers
    ensures forall j | 0 <= j < |roots| && !roots[j].enabled && roots[j].id in workers ::
              all[workers[roots[j].id]].cancelled
  {
  }

  lemma ServedStays(workers: map<RootID, nat>, a: seq<Worker>, b: seq<Worker>, roots: seq<RootRow>, n: nat)
    requires n <= |roots| && Served(workers, a, roots, n) && Progress(a, b)
    ensures Served(workers, b, roots, n)
  {
  }

  lemma ServedStep(
    w: map<RootID, nat>, a: seq<Worker>, w': map<RootID, nat>, a': seq<Worker>, roots: seq<RootRow>, i: nat)
    requires i < |roots| && DistinctIds(roots) && Served(w, a, roots, i) && Fenced(w, a) && Fenced(w', a') &&
               Progress(a, a')
    requires roots[i].enabled ==> roots[i].id in w'
    requires !roots[i].enabled && roots[i].id in w' ==> w'[roots[i].id] < |a'| && a'[w'[roots[i].id]].cancelled
    requires forall r | r in w :: r in w' && w'[r] == w[r]
    requires forall r | r in w' && r !in w :: roots[i] == RootRow(r, true)
    ensures Served(w', a', roots, i + 1)
  {
  }

  lemma NewAreListed(was: seq<Worker>, all: seq<Worker>, roots: seq<RootRow>, row: RootRow, n: nat)
    requires n <= |was| <= |all| && row in roots && Progress(was, all)
    requires forall h | n <= h < |was| :: RootRow(was[h].root, true) in roots
    requires forall h | |was| <= h < |all| :: row == RootRow(all[h].root, true)
    ensures forall h | n <= h < |all| :: RootRow(all[h].root, true) in roots
  {
  }

  /** At most one live worker per root, also while a cancelled one is still
      unwinding. */
  lemma OneLiveWorkerPerRoot(workers: map<RootID, nat>, all: seq<Worker>, h: nat, k: nat)
    requires Fenced(workers, all) && h < |all| && k < |all|
    requires !all[h].done && !all[k].done && all[h].root == all[k].root
    ensures h == k
  {
  }

  class Supervisor {
    var workers: map<RootID, nat>
    var all: seq<Worker>
    /** Which workers exit, whenever the supervisor gives way. */
    var exits: seq<set<nat>>

    constructor (exits: seq<set<nat>>)
      ensures Fenced(workers, all) && workers == map[] && all == []
    {
      workers, all, this.exits := map[], [], exits;
    }

    /** Others run: any of the workers may exit, cancelled or not. */
    method Yield()
      requires Fenced(workers, all)
      modifies this`all, this`exits
      ensures Fenced(workers, all) && Progress(old(all), all) && |all| == |old(all)|
      ensures forall h | 0 <= h < |all| :: all[h].cancelled == old(all)[h].cancelled
    {
      if exits != [] {
        var gone := exits[0];
        exits := exits[1..];
        var was := all;
        all := seq(|was|, h requires 0 <= h < |was| => if h in gone then was[h].(done := true) else was[h]);
      }
    }

    method Cancel(root: RootID)
      requires Fenced(workers, all) && root in workers
      modifies this`all
      ensures Fenced(workers, all) && Progress(old(all), all) && |all| == |old(all)|
      ensures all == old(all)[workers[root] := old(all)[workers[root]].(cancelled := true)]
    {
      all := all[workers[root] := all[workers[root]].(cancelled := true)];
    }

    /** Drops the entries of workers that have fully exited, and no others. */
    method Reap()
      requires Fenced(workers, all)
      modifies this
      ensures Fenced(workers, all) && Progress(old(all), all) && |all| == |old(all)|
      ensures forall r | r in workers :: r in old(workers) && workers[r] == old(workers)[r]
      ensures forall r | r in old(workers) && r !in workers :: all[old(workers)[r]].done
      ensures forall r | r in old(workers) && old(all)[old(workers)[r]].done :: r !in workers
    {
      hide Fenced, Progress;
      var rest := workers.Keys;
      ghost var before, w0 := all, workers;
      ProgressRefl(all);
      FencedEntries(workers, all);
      while rest != {}
        invariant Fenced(workers, all) && Progress(before, all) && |all| == |before|
        invariant rest <= workers.Keys <= w0.Keys
        invariant forall r | r in workers :: workers[r] == w0[r] && w0[r] < |all|
        invariant forall r | r in w0 && r !in workers :: w0[r] < |all| && all[w0[r]].done
        invariant forall r | r in w0 && r !in rest && before[w0[r]].done :: r !in workers
        decreases |rest|
      {
        var r :| r in rest;
        ghost var a1 := all;
        Yield();
        DoneStays(before, a1, all);
        FencedEntries(workers, all);
        if all[workers[r]].done {
          DroppedStaysFenced(workers, all, r);
          workers := workers - {r};
        }
        rest := rest - {r};
      }
      FencedEntries(workers, all);
    }

    /** One listed root: cancel the worker of a paused root, start one for an
        enabled root that has no entry. */
    method ServeRow(row: RootRow)
      requires Fenced(workers, all)
      modifies this`workers, this`all
      ensures Fenced(workers, all) && Progress(old(all), all)
      ensures row.enabled ==> row.id in workers
      ensures !row.enabled && row.id in workers ==> all[workers[row.id]].cancelled
      ensures forall r | r in old(workers) :: r in workers && workers[r] == old(workers)[r]
      ensures forall r | r in workers && r !in old(workers) :: row == RootRow(r, true)
      ensures forall h | |old(all)| <= h < |all| :: row == RootRow(all[h].root, true)
    {
      if !row.enabled {
        if row.id in workers { Cancel(row.id); }
      } else if row.id !in workers {
        workers := workers[row.id := |all|];
        all := all + [Worker(row.id, false, false)];
      }
    }

    /** The loop over the listing. */
    method ServeAll(roots: seq<RootRow>) returns (seen: set<RootID>)
      requires Fenced(workers, all) && DistinctIds(roots)
      modifies this
      ensures Fenced(workers, all) && Progress(old(all), all)
      ensures forall r :: r in seen <==> exists j :: 0 <= j < |roots| && roots[j].id == r
      ensures forall j | 0 <= j < |roots| && roots[j].enabled :: roots[j].id in workers
      ensures forall j | 0 <= j < |roots| && !roots[j].enabled && roots[j].id in workers ::
                all[workers[roots[j].id]].cancelled
      ensures forall h | |old(all)| <= h < |all| :: RootRow(all[h].root, true) in roots
    {
      hide Fenced, Progress, Served;
      ghost var before := all;
      seen := {};
      ProgressRefl(all);
      NoneServed(workers, all, roots);
      for i := 0 to |roots|
        invariant Fenced(workers, all) && Progress(before, all) && |before| <= |all|
        invariant forall r :: r in seen <==> exists j :: 0 <= j < i && roots[j].id == r
        invariant Served(workers, all, roots, i)
        invariant forall h | |before| <= h < |all| :: RootRow(all[h].root, true) in roots
      {
        assert roots[i] in roots;
        seen := seen + {roots[i].id};
        ghost var was := all;
        ServeNext(roots, i);
        ProgressTrans(before, was, all);
        NewAreListed(was, all, roots, roots[i], |before|);
      }
      AllServed(workers, all, roots);
    }

    method ServeNext(roots: seq<RootRow>, i: nat)
      requires Fenced(workers, all) && DistinctIds(roots) && i < |roots| && Served(workers, all, roots, i)
      modifies this
      ensures Fenced(workers, all) && Progress(old(all), all) && Served(workers, all, roots, i + 1)
      ensures forall h | |old(all)| <= h < |all| :: roots[i] == RootRow(all[h].root, true)
    {
      hide Fenced, Progress, Served;
      ghost var a0, w0 := all, workers;
      Yield();
      ServedStays(w0, a0, all, roots, i);
      ghost var a1 := all;
      ServeRow(roots[i]);
      ServedStep(w0, a1, workers, all, roots, i);
      ProgressTrans(a0, a1, all);
    }

    /** syncWorkers: starts a worker for an enabled root that has no entry, and
        cancels the workers of paused and removed roots. */
    method SyncWorkers(roots: seq<RootRow>)
      requires Fenced(workers, all) && DistinctIds(roots)
      modifies this
      ensures Fenced(workers, all) && Progress(old(all), all)
      ensures forall row | row in roots && row.enabled :: row.id in workers
      ensures forall r | r in workers && RootRow(r, true) !in roots :: all[workers[r]].cancelled
      ensures forall h | |old(all)| <= h < |all| :: RootRow(all[h].root, true) in roots
    {
      Reap();
      var seen := ServeAll(roots);
      CancelUnseen(roots, seen);
    }

    method CancelUnseen(roots: seq<RootRow>, seen: set<RootID>)
      requires Fenced(workers, all)
      requires forall r :: r in seen <==> exists j :: 0 <= j < |roots| && roots[j].id == r
      requires forall j | 0 <= j < |roots| && !roots[j].enabled && roots[j].id in workers ::
                 all[workers[roots[j].id]].cancelled
      modifies this`all, this`exits
      ensures Fenced(workers, all) && Progress(old(all), all) && |all| == |old(all)|
      ensures forall r | r in workers && RootRow(r, true) !in roots :: all[workers[r]].cancelled
    {
      var rest := workers.Keys;
      while rest != {}
        invariant Fenced(workers, all) && Progress(old(all), all) && |all| == |old(all)|
        invariant rest <= workers.Keys
        invariant forall r | r in workers && r !in rest && r !in seen :: all[workers[r]].cancelled
        decreases |rest|
      {
        var r :| r in rest;
        Yield();
        if r !in seen { Cancel(r); }
        rest := rest - {r};
      }
      forall r | r in workers && RootRow(r, true) !in roots
        ensures all[workers[r]].cancelled
      {
        if r in seen {
          var j :| 0 <= j < |roots| && roots[j].id == r;
          assert roots[j] in roots;
        }
      }
    }
  }

  /** Any number of refreshes, over any history of pauses, resumes and removals
      and any delay of exiting workers. */
  method Supervise(exits: seq<set<nat>>, listings: seq<seq<RootRow>>) returns (s: Supervisor)
    requires forall l | l in listings :: DistinctIds(l)
    ensures Fenced(s.workers, s.all)
    ensures forall h, k | 0 <= h < |s.all| && 0 <= k < |s.all| && !s.all[h].done && !s.all[k].done &&
              s.all[h].root == s.all[k].root :: h == k
  {
    s := new Supervisor(exits);
    for i := 0 to |listings|
      invariant fresh(s) && Fenced(s.workers, s.all)
    {
      assert listings[i] in listings;
      s.SyncWorkers(listings[i]);
    }
  }

  // ----- The worker loop -----

  /** What happened to a worker, in order. The watcher's channel has one place: a
      hint that finds it taken is dropped, for the one in the channel says all. */
  datatype Event = HintAccepted | HintsCoalesced(count: nat) | CycleStarted | StateUnreadable | RootDisabled
      | NoDataPlane

  /** A reading of the root's row. */
  datatype Reading = Unreadable | Missing | Row(enabled: bool)

  /** What the loop waits for in its select. */
  datatype Wakeup =
    | Poll
    | Health(row: Reading, plannedWork: bool)
    | Hint | HintsClosed
    | WatchError | WatchErrorsClosed
    | WatcherDone
    | Stop

  /** One turn of the loop: what the pending branch reads and gets, when hints
      arrive, and what the select yields. */
  datatype Round = Round(
    row: Reading, planeOk: bool, watchOk: bool, hintsBefore: nat, hintsDuring: nat, hintsAfter: nat, wake: Wakeup)

  predicate IsHint(e: Event) { e.HintAccepted? || e.HintsCoalesced? }

  /** Hints are unserved as long as nothing else happened after them: no cycle
      started, and the root did not turn out to be unreadable, paused or without
      a data plane. */
  predicate Unserved(log: seq<Event>) {
    log != [] && IsHint(log[|log| - 1])
  }

  function Count(log: seq<Event>, e: Event): nat {
    if log == [] then 0 else Count(log[..|log| - 1], e) + (if log[|log| - 1] == e then 1 else 0)
  }

  lemma CountStep(log: seq<Event>, d: Event, e: Event)
    ensures Count(log + [d], e) == Count(log, e) + (if d == e then 1 else 0)
  {
    assert (log + [d])[..|log|] == log;
  }

  /** Every hint up to now was answered: a cycle started after it, or the root
      could not be served then. */
  ghost predicate AllAnswered(log: seq<Event>) {
    forall i :: 0 <= i < |log| && IsHint(log[i]) ==> exists j :: i < j < |log| && !IsHint(log[j])
  }

  lemma {:induction false} LastAnswersAll(log: seq<Event>)
    ensures AllAnswered(log) <==> !Unserved(log)
  {
    var n := |log| - 1;
    if Unserved(log) {
      assert 0 <= n < |log| && IsHint(log[n]);
    } else {
      forall i | 0 <= i < |log| && IsHint(log[i])
        ensures exists j :: i < j < |log| && !IsHint(log[j])
      {
        assert i < n < |log| && !IsHint(log[n]);
      }
    }
  }

  /** From position n on nothing but hints was noted. */
  predicate NoMoreCycles(log: seq<Event>, n: nat) {
    forall i :: n <= i < |log| ==> IsHint(log[i])
  }

  class RootLoop {
    var pending: bool
    var lastEnabled: bool
    var hasData: bool
    var watching: bool
    /** The hint channel is open; it holds at most one hint. */
    var hintsOpen: bool
    var buffered: bool
    var log: seq<Event>
    /** Hints taken from the channel, and other reasons to run again. */
    var taken: nat
    var others: nat

    ghost predicate Valid()
      reads this
    {
      && (Unserved(log) ==> buffered || pending)
      && (buffered ==> hintsOpen)
      && taken + (if buffered then 1 else 0) <= Count(log, HintAccepted)
      && Count(log, CycleStarted) + (if pending then 1 else 0) <= 1 + taken + others
    }

    constructor (enabled: bool)
      ensures Valid() && log == [] && pending == lastEnabled == enabled
      ensures !hasData && !watching && !hintsOpen && !buffered && taken == others == 0
    {
      pending, lastEnabled := enabled, enabled;
      hasData, watching, hintsOpen, buffered := false, false, false, false;
      log, taken, others := [], 0, 0;
    }

    method Note(e: Event)
      requires Valid() && !IsHint(e) && e != CycleStarted
      modifies this`log
      ensures Valid() && log == old(log) + [e]
    {
      CountStep(log, e, HintAccepted);
      CountStep(log, e, CycleStarted);
      log := log + [e];
    }

    /** The watcher posts hints: the first fills the one place, the others, and all
        that find it full, are dropped into it. */
    method Post(hints: nat)
      requires Valid()
      modifies this`log, this`buffered
      ensures Valid() && (old(buffered) ==> buffered)
      ensures log == if hints == 0 || !hintsOpen then old(log)
                     else if old(buffered) then old(log) + [HintsCoalesced(hints)]
                     else if hints == 1 then old(log) + [HintAccepted]
                     else old(log) + [HintAccepted, HintsCoalesced(hints - 1)]
      ensures hints > 0 && hintsOpen ==> buffered && Unserved(log)
      ensures (hints == 0 || !hintsOpen) ==> buffered == old(buffered)
    {
      hide Count, Valid;
      if hints == 0 || !hintsOpen { return; }
      var dropped := hints;
      if !buffered {
        Accept();
        dropped := hints - 1;
      }
      if dropped > 0 { Coalesce(dropped); }
    }

    method Accept()
      requires Valid() && hintsOpen && !buffered
      modifies this`log, this`buffered
      ensures Valid() && buffered && log == old(log) + [HintAccepted] && Unserved(log)
    {
      hide Count;
      CountStep(log, HintAccepted, HintAccepted);
      CountStep(log, HintAccepted, CycleStarted);
      log := log + [HintAccepted];
      buffered := true;
    }

    method Coalesce(dropped: nat)
      requires Valid() && buffered
      modifies this`log
      ensures Valid() && log == old(log) + [HintsCoalesced(dropped)] && Unserved(log)
    {
      hide Count;
      CountStep(log, HintsCoalesced(dropped), HintAccepted);
      CountStep(log, HintsCoalesced(dropped), CycleStarted);
      log := log + [HintsCoalesced(dropped)];
    }

    method StartCycle()
      requires Valid() && pending
      modifies this`log, this`pending
      ensures Valid() && !pending && log == old(log) + [CycleStarted]
    {
      CountStep(log, CycleStarted, HintAccepted);
      CountStep(log, CycleStarted, CycleStarted);
      log := log + [CycleStarted];
      pending := false;
    }

    /** The root cannot be served now. */
    method StandDown(e: Event)
      requires Valid() && !IsHint(e) && e != CycleStarted
      modifies this`log, this`pending
      ensures Valid() && !pending && log == old(log) + [e]
    {
      Note(e);
      pending := false;
    }

    /** The pending branch. False means that the root is gone. */
    method RunPending(r: Round) returns (alive: bool)
      requires Valid()
      modifies this
      ensures Valid() && old(log) <= log
      ensures alive ==> !pending
      ensures !old(pending) ==> alive && log == old(log) && buffered == old(buffered) && lastEnabled == old(lastEnabled)
      ensures old(pending) ==> (alive <==> !r.row.Missing?) && (r.row.Row? ==> lastEnabled == r.row.enabled)
      ensures old(pending) ==>
                match r.row
                case Unreadable => log == old(log) + [StateUnreadable]
                case Missing => log == old(log)
                case Row(enabled) =>
                  if !enabled then log == old(log) + [RootDisabled]
                  else if !old(hasData) && !r.planeOk then log == old(log) + [NoDataPlane]
                  else |log| > |old(log)| && log[|old(log)|] == CycleStarted && NoMoreCycles(log, |old(log)| + 1)
      ensures old(pending) && r.row.Row? && r.row.enabled ==>
                && hasData == (old(hasData) || r.planeOk)
                && watching == (old(watching) || (hasData && r.watchOk))
    {
      hide Count;
      alive := true;
      if !pending { return; }
      match r.row
      case Unreadable =>
        StandDown(StateUnreadable);
      case Missing =>
        alive := false;
      case Row(enabled) =>
        lastEnabled := enabled;
        if !enabled {
          StandDown(RootDisabled);
          return;
        }
        if !hasData {
          hasData := r.planeOk;
          if !hasData {
            StandDown(NoDataPlane);
            return;
          }
        }
        if !watching && r.watchOk {
          watching, hintsOpen := true, true;
        }
        StartCycle();
        Post(r.hintsDuring);
    }

    method WakeUp()
      requires Valid()
      modifies this`pending, this`others
      ensures Valid() && pending
    {
      if !pending { others := others + 1; }
      pending := true;
    }

    /** The select's ways to end the worker. */
    static predicate EndsTheWorker(wake: Wakeup) {
      wake.Stop? || (wake.Health? && wake.row.Missing?)
    }

    /** Whether a wakeup asks for another cycle. A hint and a closed watcher count
        only while there is a watcher to send them. */
    predicate AsksForCycle(wake: Wakeup)
      reads this
    {
      match wake
      case Poll => true
      case Health(row, plannedWork) => row.Row? && row.enabled && (!lastEnabled || plannedWork)
      case Hint => buffered
      case WatchError => watching
      case WatcherDone => watching
      case _ => false
    }

    /** The select: every unserved hint is still in the channel. False means that
        the worker stops. */
    method Select(wake: Wakeup) returns (alive: bool)
      requires Valid() && !pending
      requires !AllAnswered(log) ==> buffered
      modifies this
      ensures Valid() && log == old(log)
      ensures alive <==> !EndsTheWorker(wake)
      ensures pending <==> old(AsksForCycle(wake))
      ensures lastEnabled == if wake.Health? && wake.row.Row? then wake.row.enabled else old(lastEnabled)
      ensures buffered == (old(buffered) && !wake.Hint? && !(wake.WatcherDone? && old(watching)))
      ensures old(buffered) && !buffered ==> pending
      ensures watching == (old(watching) && !wake.WatcherDone?)
      ensures hintsOpen == (old(hintsOpen) && !(wake.WatcherDone? && old(watching)) &&
                !(wake.HintsClosed? && !old(buffered)))
    {
      alive := true;
      match wake
      case Poll => WakeUp();
      case Health(row, plannedWork) =>
        if row.Missing? { return false; }
        if row.Row? {
          if row.enabled && (!lastEnabled || plannedWork) { WakeUp(); }
          lastEnabled := row.enabled;
        }
      case Hint =>
        if buffered {
          buffered := false;
          taken := taken + 1;
          pending := true;
        }
      case HintsClosed =>
        if !buffered { hintsOpen := false; }
      case WatchError =>
        if watching { WakeUp(); }
      case WatchErrorsClosed =>
      case WatcherDone =>
        if watching {
          WakeUp();
          watching, hintsOpen, buffered := false, false, false;
        }
      case Stop =>
        alive := false;
    }

    /** runRoot, round by round. No hint is lost: at any moment every hint was
        followed by the start of a cycle, or by the root being found unreadable,
        paused or without a data plane, or the channel still holds it or a cycle
        is pending; and there are no more cycles than hints taken and other
        wakeups ask for. */
    method Run(rounds: seq<Round>) returns (served: nat, stopped: bool)
      requires Valid()
      modifies this
      ensures served <= |rounds| && (!stopped ==> served == |rounds|) && (stopped ==> served > 0)
      ensures forall i :: 0 <= i < served && !(stopped && i == served - 1) ==> !EndsTheWorker(rounds[i].wake)
      ensures stopped ==> EndsTheWorker(rounds[served - 1].wake) || rounds[served - 1].row.Missing?
      ensures Valid() && old(log) <= log
      ensures forall i :: 0 <= i < |log| && IsHint(log[i]) ==>
                (exists j :: i < j < |log| && log[j] in {CycleStarted, StateUnreadable, RootDisabled, NoDataPlane}) ||
                    buffered || pending
      ensures Count(log, CycleStarted) <= 1 + taken + others && taken <= Count(log, HintAccepted)
    {
      hide Count, Valid, AllAnswered;
      served, stopped := 0, false;
      while served < |rounds| && !stopped
        invariant Valid() && old(log) <= log && served <= |rounds| && (stopped ==> served > 0)
        invariant forall i :: 0 <= i < served && !(stopped && i == served - 1) ==> !EndsTheWorker(rounds[i].wake)
        invariant stopped ==> EndsTheWorker(rounds[served - 1].wake) || rounds[served - 1].row.Missing?
      {
        var round := rounds[served];
        served := served + 1;
        Post(round.hintsBefore);
        var alive := RunPending(round);
        if alive {
          Post(round.hintsAfter);
          HintsAreKept();
          alive := Select(round.wake);
        }
        stopped := !alive;
      }
      HintsAreKept();
      if !buffered && !pending { AnswersAreServices(log); }
      CyclesAreAskedFor();
    }

    /** A hint that nothing answered is in the channel, or a cycle is pending. */
    lemma HintsAreKept()
      requires Valid()
      ensures AllAnswered(log) || buffered || pending
    {
      hide Count;
      LastAnswersAll(log);
    }

    lemma CyclesAreAskedFor()
      requires Valid()
      ensures Count(log, CycleStarted) <= 1 + taken + others && taken <= Count(log, HintAccepted)
    {
      hide Count;
    }
  }

  lemma AnswersAreServices(log: seq<Event>)
    requires AllAnswered(log)
    ensures forall i :: 0 <= i < |log| && IsHint(log[i]) ==>
              exists j :: i < j < |log| && log[j] in {CycleStarted, StateUnreadable, RootDisabled, NoDataPlane}
  {
    forall i | 0 <= i < |log| && IsHint(log[i])
      ensures exists j :: i < j < |log| && log[j] in {CycleStarted, StateUnreadable, RootDisabled, NoDataPlane}
    {
      var j :| i < j < |log| && !IsHint(log[j]);
      assert log[j] in {CycleStarted, StateUnreadable, RootDisabled, NoDataPlane};
    }
  }
}
