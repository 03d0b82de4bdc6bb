/** Durable conflict records, their reconciliation with a plan, and the
    operation that resolves one of them. */
module Conflicts {
  import opened Paths
  import opened Domain
  import opened RootPlan

  datatype Conflict = Conflict(
    rootID: int, relPath: string, kind: ConflictKind,
    local: LocalFingerprint, remote: RemoteFingerprint, resolved: bool)
  {
    predicate Valid() {
      rootID > 0 && ValidRelPath(relPath) && kind != NoConflict && local.Valid() && remote.Valid()
    }
  }

  type Rows = map<int, Conflict>

  predicate Open(rows: Rows, rootID: int, id: int) {
    id in rows && rows[id].rootID == rootID && !rows[id].resolved
  }

  /** At most one unresolved record per path. */
  ghost predicate OnePerPath(rows: Rows) {
    forall i, j | i in rows && j in rows && !rows[i].resolved && !rows[j].resolved &&
        rows[i].rootID == rows[j].rootID && i != j ::
      rows[i].relPath != rows[j].relPath
  }

  /** Records are never deleted, reopened or altered, only resolved. */
  ghost predicate OnlyResolves(before: Rows, after: Rows) {
    forall i | i in before :: i in after && (after[i] == before[i] || after[i] == before[i].(resolved := true))
  }

  /** The record still describes the conflict the plan found. */
  predicate Matches(c: Conflict, d: Decision, snap: Snapshot) {
    && c.kind == d.conflict
    && LocalEquivalent(c.local, snap.LocalAt(c.relPath)) && RemoteEquivalent(c.remote, snap.RemoteAt(c.relPath))
  }

  /** The conflicts of a plan, by path. */
  function Current(ds: seq<Decision>): map<string, Decision> {
    if ds == [] then map[]
    else
      var d := ds[|ds| - 1];
      var rest := Current(ds[..|ds| - 1]);
      if d.kind == ConflictFound then rest[d.relPath := d] else rest
  }

  lemma {:induction false} CurrentMembers(ds: seq<Decision>, p: string)
    requires p in Current(ds)
    ensures Current(ds)[p] in ds && Current(ds)[p].relPath == p && Current(ds)[p].kind == ConflictFound
  {
    var n := |ds| - 1;
    assert ds == ds[..n] + [ds[n]];
    if !(ds[n].kind == ConflictFound && ds[n].relPath == p) {
      CurrentMembers(ds[..n], p);
    }
  }

  lemma {:induction false} CurrentComplete(ds: seq<Decision>, d: Decision)
    requires d in ds && d.kind == ConflictFound
    ensures d.relPath in Current(ds)
  {
    var n := |ds| - 1;
    assert ds == ds[..n] + [ds[n]];
    if ds[n] != d { CurrentComplete(ds[..n], d); }
  }

  // ----- What reconciliation makes of each record -----

  predicate Survives(c: Conflict, current: map<string, Decision>, snap: Snapshot) {
    c.relPath in current && Matches(c, current[c.relPath], snap)
  }

  function Settled(c: Conflict, rootID: int, current: map<string, Decision>, snap: Snapshot): Conflict {
    if c.rootID != rootID || c.resolved || Excluded(snap.excluded, c.relPath) || Survives(c, current, snap) then c
    else c.(resolved := true)
  }

  /** Some records settled, the others as before. */
  ghost predicate PartlySettled(
    before: Rows, rows: Rows, rootID: int, current: map<string, Decision>, snap: Snapshot, done: set<int>)
  {
    && rows.Keys == before.Keys
    && (forall i | i in before :: rows[i] == if i in done then Settled(before[i], rootID, current, snap) else before[i])
  }

  /** The records mirror the plan: outside excluded paths the unresolved records
      of the root are in one-to-one correspondence with the plan's conflicts, and
      describe them. */
  ghost predicate Mirrors(rows: Rows, rootID: int, current: map<string, Decision>, snap: Snapshot) {
    && OnePerPath(rows)
    && (forall i | Open(rows, rootID, i) && !Excluded(snap.excluded, rows[i].relPath) ::
         Survives(rows[i], current, snap))
    && (forall p | p in current :: exists i :: Open(rows, rootID, i) && rows[i].relPath == p)
  }

  /** What a reconciliation, finished or not, never does: touch another root or
      an excluded path, alter or reopen a record, or replace a record whose
      conflict is unchanged. */
  ghost predicate Respects(before: Rows, after: Rows, rootID: int, current: map<string, Decision>, snap: Snapshot) {
    && OnlyResolves(before, after)
    && (forall i | i in before &&
         (before[i].rootID != rootID || Excluded(snap.excluded, before[i].relPath) ||
         Survives(before[i], current, snap)) ::
          after[i] == before[i])
    && (forall i | i in after && i !in before :: after[i].rootID == rootID && after[i].relPath in current)
  }

  lemma AddOpen(rows: Rows, id: int, c: Conflict)
    requires OnePerPath(rows) && id !in rows && !c.resolved
    ensures OnePerPath(rows[id := c]) <==> forall i | Open(rows, c.rootID, i) :: rows[i].relPath != c.relPath
  {
    var after := rows[id := c];
    if OnePerPath(after) {
      forall i | Open(rows, c.rootID, i)
        ensures rows[i].relPath != c.relPath
      {
        assert after[i] == rows[i] && after[id] == c;
      }
    }
  }

  class ConflictStore {
    var rows: Rows
    var nextID: int
    /** Store calls that still succeed before one fails. */
    var budget: nat

    ghost predicate Valid()
      reads this
    {
      nextID > 0 && forall i | i in rows :: 0 < i < nextID
    }

    constructor (budget: nat)
      ensures Valid() && OnePerPath(rows) && rows == map[] && this.budget == budget
    {
      rows, nextID, this.budget := map[], 1, budget;
    }

    /** ResolveConflict: guarded on an unresolved row. */
    method Resolve(id: int) returns (ok: bool)
      requires Valid()
      modifies this
      ensures Valid() && nextID == old(nextID)
      ensures ok ==>
                id in old(rows) && !old(rows)[id].resolved && rows == old(rows)[id := old(rows)[id].(resolved := true)]
      ensures !ok ==> rows == old(rows)
      ensures old(budget) > 0 && id in old(rows) && !old(rows)[id].resolved ==> ok
      ensures budget == if ok then old(budget) - 1 else old(budget)
    {
      if budget == 0 || id !in rows || rows[id].resolved { return false; }
      budget := budget - 1;
      rows := rows[id := rows[id].(resolved := true)];
      ok := true;
    }

    /** CreateConflict: one insert, without any check of its own for an
        unresolved row on the same path. */
    method Create(c: Conflict) returns (ok: bool, id: int)
      requires Valid() && !c.resolved
      modifies this
      ensures Valid() && id == old(nextID)
      ensures rows == if ok then old(rows)[id := c] else old(rows)
      ensures ok && OnePerPath(old(rows)) ==>
                (OnePerPath(rows) <==> forall i | Open(old(rows), c.rootID, i) :: old(rows)[i].relPath != c.relPath)
      ensures old(budget) > 0 && c.Valid() ==> ok
      ensures budget == if ok then old(budget) - 1 else old(budget)
    {
      id := nextID;
      if budget == 0 || !c.Valid() { return false, id; }
      budget := budget - 1;
      ghost var before := rows;
      rows := rows[id := c];
      nextID := nextID + 1;
      if OnePerPath(before) { AddOpen(before, id, c); }
      ok := true;
    }

    /** ListConflicts of the unresolved rows of a root, by ID. */
    method ListOpen(rootID: int) returns (ids: seq<int>)
      requires Valid()
      ensures forall i :: i in ids <==> Open(rows, rootID, i)
      ensures forall i, j :: 0 <= i < j < |ids| ==> ids[i] < ids[j]
    {
      ids := [];
      for n := 0 to nextID
        invariant forall i :: i in ids <==> Open(rows, rootID, i) && i < n
        invariant forall i, j :: 0 <= i < j < |ids| ==> ids[i] < ids[j]
      {
        if n in rows && rows[n].rootID == rootID && !rows[n].resolved {
          assert forall k | 0 <= k < |ids| :: ids[k] in ids;
          ids := ids + [n];
        }
      }
    }

    /** The first loop: records that no longer describe a conflict of the plan are
        resolved; the paths of the others are kept. */
    method SettleExisting(rootID: int, current: map<string, Decision>, snap: Snapshot)
      returns (ok: bool, kept: set<string>)
      requires Valid() && OnePerPath(rows)
      modifies this
      ensures Valid() && OnePerPath(rows)
      ensures exists done :: PartlySettled(old(rows), rows, rootID, current, snap, done)
      ensures ok ==>
                rows.Keys == old(rows).Keys &&
                (forall i | i in rows :: rows[i] == Settled(old(rows)[i], rootID, current, snap))
      ensures ok ==> forall p :: p in kept <==>
                exists i :: Open(rows, rootID, i) && rows[i].relPath == p && !Excluded(snap.excluded, p)
      ensures !ok ==> budget == 0
    {
      hide Matches, Excluded;
      var existing := ListOpen(rootID);
      ghost var before, done := rows, {};
      kept := {};
      for n := 0 to |existing|
        invariant Valid() && PartlySettled(before, rows, rootID, current, snap, done)
        invariant forall i :: i in done <==> i in existing[..n]
        invariant forall p :: p in kept <==> exists i | i in done :: Keeps(before, current, snap, i, p)
      {
        var id := existing[n];
        assert id in existing && Open(before, rootID, id);
        var c := rows[id];
        assert id !in existing[..n];
        assert existing[..n + 1] == existing[..n] + [id];
        done := done + {id};
        if Excluded(snap.excluded, c.relPath) {
          continue;
        }
        if !Survives(c, current, snap) {
          ok := Resolve(id);
          if !ok {
            done := done - {id};
            SettledOnePerPath(before, rows, rootID, current, snap, done);
            return;
          }
        } else {
          kept := kept + {c.relPath};
        }
      }
      SettledOnePerPath(before, rows, rootID, current, snap, done);
      AllSettled(before, rows, rootID, current, snap, done);
      ok := true;
    }

    /** The second loop: a new record for every conflict that has none. */
    method RecordNew(rootID: int, current: map<string, Decision>, snap: Snapshot, kept: set<string>) returns (ok: bool)
      requires Valid() && OnePerPath(rows)
      requires forall p | p in current :: p in kept <==> exists i :: Open(rows, rootID, i) && rows[i].relPath == p
      modifies this
      ensures Valid() && OnePerPath(rows)
      ensures exists done: set<string> :: Extended(old(rows), rows, rootID, current, snap, kept, done)
      ensures ok ==> Extended(old(rows), rows, rootID, current, snap, kept, current.Keys)
      ensures !ok ==> budget == 0 || exists p | p in current :: !NewRecord(rootID, p, current[p], snap).Valid()
    {
      hide Matches, Excluded, OnePerPath, Extended;
      var todo := current.Keys;
      ghost var before := rows;
      ghost var done: set<string> := {};
      NothingExtended(before, rootID, current, snap, kept);
      while todo != {}
        invariant Valid() && OnePerPath(rows)
        invariant done + todo == current.Keys && done !! todo
        invariant Extended(before, rows, rootID, current, snap, kept, done)
        decreases |todo|
      {
        var p :| p in todo;
        if p !in kept {
          NoOpenRecord(before, rows, rootID, current, snap, kept, done, p);
          ghost var mid := rows;
          var id;
          ok, id := Create(NewRecord(rootID, p, current[p], snap));
          if !ok { return; }
          ExtendOne(before, mid, rootID, current, snap, kept, done, p, id);
        } else {
          ExtendKept(before, rows, rootID, current, snap, kept, done, p);
        }
        todo := todo - {p};
        done := done + {p};
      }
      assert done == current.Keys;
      ok := true;
    }

    /** reconcileConflictRecords. Whatever call fails, the records stay one per
        path and nothing beyond this root's own paths is touched; when it
        succeeds they mirror the plan. */
    method Reconcile(rootID: int, snap: Snapshot, decisions: seq<Decision>) returns (ok: bool)
      requires Valid() && OnePerPath(rows)
      requires forall d | d in decisions :: !Excluded(snap.excluded, d.relPath)
      modifies this
      ensures Valid() && OnePerPath(rows)
      ensures Respects(old(rows), rows, rootID, Current(decisions), snap)
      ensures ok ==> Mirrors(rows, rootID, Current(decisions), snap)
      ensures ok ==> forall i | Open(rows, rootID, i) && !Excluded(snap.excluded, rows[i].relPath) ::
                exists d | d in decisions :: Records(rows[i], d, snap)
      ensures ok ==> forall d | d in decisions && d.kind == ConflictFound && UniqueIn(decisions, d) ::
                exists i :: Open(rows, rootID, i) && Records(rows[i], d, snap)
      ensures forall i, d | i in old(rows) && d in decisions && UniqueIn(decisions, d) &&
                Records(old(rows)[i], d, snap) ::
                i in rows && rows[i] == old(rows)[i]
      ensures !ok ==>
                budget == 0 || exists d | d in decisions && d.kind == ConflictFound ::
                    !NewRecord(rootID, d.relPath, d, snap).Valid()
    {
      hide Records, UniqueIn;
      hide Matches, Excluded, OnePerPath, PartlySettled, Extended, Current, Survives;
      var current := CollectConflicts(decisions);
      ghost var before := rows;
      var kept;
      ok, kept := SettleExisting(rootID, current, snap);
      ghost var done :| PartlySettled(before, rows, rootID, current, snap, done);
      SettlingRespects(before, rows, rootID, current, snap, done);
      RecordsSurvive(before, rows, rootID, decisions, snap);
      if !ok { return; }
      ghost var mid := rows;
      KeptArePlanned(mid, rootID, current, snap, decisions, kept);
      ok := RecordNew(rootID, current, snap, kept);
      if !ok && budget > 0 {
        var p :| p in current && !NewRecord(rootID, p, current[p], snap).Valid();
        CurrentMembers(decisions, p);
      }
      ghost var added: set<string> :| Extended(mid, rows, rootID, current, snap, kept, added);
      ExtendingRespects(before, mid, rows, rootID, current, snap, kept, added);
      if ok {
        AllMirrored(before, mid, rows, rootID, current, snap, kept);
        MirrorsRecords(rows, rootID, decisions, snap);
      }
      RecordsSurvive(before, rows, rootID, decisions, snap);
    }
  }

  /** The record is about this conflict of the plan: the same path and kind of
      conflict, and both sides as they were seen, up to what is no change: a
      file's size and time and its revision are versions, a directory has none. */
  predicate Records(c: Conflict, d: Decision, snap: Snapshot) {
    && d.kind == ConflictFound && c.relPath == d.relPath && c.kind == d.conflict
    && var (local, remote) := (snap.LocalAt(d.relPath), snap.RemoteAt(d.relPath));
    && c.local.present == local.present && c.remote.present == remote.present
    && (local.present ==> c.local.kind == local.kind)
    && (local.present && local.kind != KindDir ==> c.local.size == local.size && c.local.mtimeNS == local.mtimeNS)
    && (remote.present ==> c.remote.kind == remote.kind && c.remote.id == remote.id)
    && (remote.present && remote.kind != KindDir ==> c.remote.rev == remote.rev && c.remote.size == remote.size)
  }

  /** The list has no other decision for that path. */
  predicate UniqueIn(decisions: seq<Decision>, d: Decision) {
    forall e | e in decisions && e.relPath == d.relPath :: e == d
  }

  lemma RecordsIsMatch(c: Conflict, d: Decision, snap: Snapshot)
    requires d.kind == ConflictFound
    ensures Records(c, d, snap) <==> c.relPath == d.relPath && Matches(c, d, snap)
  {
  }

  lemma MirrorsRecords(rows: Rows, rootID: int, decisions: seq<Decision>, snap: Snapshot)
    requires Mirrors(rows, rootID, Current(decisions), snap)
    requires forall d | d in decisions :: !Excluded(snap.excluded, d.relPath)
    ensures forall i | Open(rows, rootID, i) && !Excluded(snap.excluded, rows[i].relPath) ::
              exists d | d in decisions :: Records(rows[i], d, snap)
    ensures forall d | d in decisions && d.kind == ConflictFound && UniqueIn(decisions, d) ::
              exists i :: Open(rows, rootID, i) && Records(rows[i], d, snap)
  {
    hide Excluded, Records, Matches, OnePerPath, Current;
    var current := Current(decisions);
    forall i | Open(rows, rootID, i) && !Excluded(snap.excluded, rows[i].relPath)
      ensures exists d | d in decisions :: Records(rows[i], d, snap)
    {
      assert Survives(rows[i], current, snap);
      CurrentMembers(decisions, rows[i].relPath);
      RecordsIsMatch(rows[i], current[rows[i].relPath], snap);
    }
    forall d | d in decisions && d.kind == ConflictFound && UniqueIn(decisions, d)
      ensures exists i :: Open(rows, rootID, i) && Records(rows[i], d, snap)
    {
      CurrentComplete(decisions, d);
      CurrentMembers(decisions, d.relPath);
      var i :| Open(rows, rootID, i) && rows[i].relPath == d.relPath;
      assert Survives(rows[i], current, snap);
      RecordsIsMatch(rows[i], d, snap);
    }
  }

  lemma RecordsSurvive(before: Rows, rows: Rows, rootID: int, decisions: seq<Decision>, snap: Snapshot)
    requires Respects(before, rows, rootID, Current(decisions), snap)
    ensures forall i, d | i in before && d in decisions && UniqueIn(decisions, d) && Records(before[i], d, snap) ::
              i in rows && rows[i] == before[i]
  {
    hide Excluded, Records, Matches, Current;
    forall i, d | i in before && d in decisions && UniqueIn(decisions, d) && Records(before[i], d, snap)
      ensures i in rows && rows[i] == before[i]
    {
      RecordedConflict(before[i], d, snap);
      CurrentComplete(decisions, d);
      CurrentMembers(decisions, d.relPath);
      RecordsIsMatch(before[i], d, snap);
      assert Survives(before[i], Current(decisions), snap);
    }
  }

  lemma RecordedConflict(c: Conflict, d: Decision, snap: Snapshot)
    requires Records(c, d, snap)
    ensures d.kind == ConflictFound && c.relPath == d.relPath
  {
  }

  method CollectConflicts(decisions: seq<Decision>) returns (current: map<string, Decision>)
    ensures current == Current(decisions)
  {
    current := map[];
    for i := 0 to |decisions|
      invariant current == Current(decisions[..i])
    {
      assert decisions[..i + 1][..i] == decisions[..i];
      if decisions[i].kind == ConflictFound {
        current := current[decisions[i].relPath := decisions[i]];
      }
    }
    assert decisions[..|decisions|] == decisions;
  }

  function NewRecord(rootID: int, p: string, d: Decision, snap: Snapshot): Conflict {
    Conflict(rootID, p, d.conflict, snap.LocalAt(p), snap.RemoteAt(p), false)
  }

  /** The records plus a new one for each path of done that had none. */
  ghost predicate Extended(
    before: Rows, rows: Rows, rootID: int, current: map<string, Decision>, snap: Snapshot, kept: set<string>,
    done: set<string>)
  {
    && (forall i | i in before :: i in rows && rows[i] == before[i])
    && (forall i | i in rows && i !in before ::
          && rows[i].relPath in done && rows[i].relPath !in kept && rows[i].relPath in current
          && rows[i] == NewRecord(rootID, rows[i].relPath, current[rows[i].relPath], snap))
    && (forall p | p in done && p !in kept :: exists i :: Open(rows, rootID, i) && rows[i].relPath == p)
  }

  lemma NothingExtended(rows: Rows, rootID: int, current: map<string, Decision>, snap: Snapshot, kept: set<string>)
    ensures Extended(rows, rows, rootID, current, snap, kept, {})
  {
  }

  lemma ExtendKept(
    before: Rows, rows: Rows, rootID: int, current: map<string, Decision>, snap: Snapshot, kept: set<string>,
    done: set<string>, p: string)
    requires Extended(before, rows, rootID, current, snap, kept, done) && p in kept
    ensures Extended(before, rows, rootID, current, snap, kept, done + {p})
  {
  }

  lemma NoOpenRecord(
    before: Rows, rows: Rows, rootID: int, current: map<string, Decision>, snap: Snapshot, kept: set<string>,
    done: set<string>, p: string)
    requires Extended(before, rows, rootID, current, snap, kept, done) && p in current && p !in kept && p !in done
    requires forall q | q in current :: q in kept <==> exists i :: Open(before, rootID, i) && before[i].relPath == q
    ensures forall i | Open(rows, rootID, i) :: rows[i].relPath != p
  {
    forall i | Open(rows, rootID, i)
      ensures rows[i].relPath != p
    {
      if i in before { assert Open(before, rootID, i); }
    }
  }

  lemma ExtendOne(
    before: Rows, rows: Rows, rootID: int, current: map<string, Decision>, snap: Snapshot, kept: set<string>,
    done: set<string>, p: string, id: int)
    requires Extended(before, rows, rootID, current, snap, kept, done) && p in current && p !in kept && id !in rows
    ensures Extended(before, rows[id := NewRecord(rootID, p, current[p], snap)], rootID, current, snap, kept,
              done + {p})
  {
    var after := rows[id := NewRecord(rootID, p, current[p], snap)];
    assert Open(after, rootID, id) && after[id].relPath == p;
    forall q | q in done + {p} && q !in kept
      ensures exists i :: Open(after, rootID, i) && after[i].relPath == q
    {
      if q != p {
        var i :| Open(rows, rootID, i) && rows[i].relPath == q;
        assert Open(after, rootID, i) && after[i].relPath == q;
      }
    }
  }

  lemma SettlingRespects(
    before: Rows, rows: Rows, rootID: int, current: map<string, Decision>, snap: Snapshot, done: set<int>)
    requires PartlySettled(before, rows, rootID, current, snap, done)
    ensures Respects(before, rows, rootID, current, snap)
  {
    hide Matches, Excluded;
  }

  lemma ExtendingRespects(
    before: Rows, mid: Rows, rows: Rows, rootID: int, current: map<string, Decision>, snap: Snapshot, kept: set<string>,
    added: set<string>)
    requires Respects(before, mid, rootID, current, snap) && Extended(mid, rows, rootID, current, snap, kept, added)
    ensures Respects(before, rows, rootID, current, snap)
  {
    hide Matches, Excluded, Survives;
  }

  lemma KeptArePlanned(
    mid: Rows, rootID: int, current: map<string, Decision>, snap: Snapshot, decisions: seq<Decision>, kept: set<string>)
    requires forall d | d in decisions :: !Excluded(snap.excluded, d.relPath)
    requires current == Current(decisions)
    requires forall p :: p in kept <==>
               exists i :: Open(mid, rootID, i) && mid[i].relPath == p && !Excluded(snap.excluded, p)
    ensures forall p | p in current :: !Excluded(snap.excluded, p)
    ensures forall p | p in current :: p in kept <==> exists i :: Open(mid, rootID, i) && mid[i].relPath == p
  {
    hide Excluded, Current;
    forall p | p in current
      ensures !Excluded(snap.excluded, p)
    {
      CurrentMembers(decisions, p);
    }
  }

  lemma AllMirrored(
    before: Rows, mid: Rows, rows: Rows, rootID: int, current: map<string, Decision>, snap: Snapshot, kept: set<string>)
    requires OnePerPath(rows) && Extended(mid, rows, rootID, current, snap, kept, current.Keys)
    requires mid.Keys == before.Keys && (forall i | i in mid :: mid[i] == Settled(before[i], rootID, current, snap))
    requires forall p | p in current :: p in kept <==> exists i :: Open(mid, rootID, i) && mid[i].relPath == p
    ensures Mirrors(rows, rootID, current, snap)
  {
    hide Excluded;
    forall i | Open(rows, rootID, i) && !Excluded(snap.excluded, rows[i].relPath)
      ensures Survives(rows[i], current, snap)
    {
      if i in mid { assert mid[i] == Settled(before[i], rootID, current, snap); }
    }
    forall p | p in current
      ensures exists i :: Open(rows, rootID, i) && rows[i].relPath == p
    {
      if p in kept {
        var i :| Open(mid, rootID, i) && mid[i].relPath == p;
        assert Open(rows, rootID, i) && rows[i].relPath == p;
      }
    }
  }

  /** Record i stays open for path p. */
  predicate Keeps(rows: Rows, current: map<string, Decision>, snap: Snapshot, i: int, p: string) {
    i in rows && rows[i].relPath == p && !Excluded(snap.excluded, p) && Survives(rows[i], current, snap)
  }

  lemma AllSettled(
    before: Rows, rows: Rows, rootID: int, current: map<string, Decision>, snap: Snapshot, done: set<int>)
    requires PartlySettled(before, rows, rootID, current, snap, done)
    requires forall i :: i in done <==> Open(before, rootID, i)
    ensures forall i | i in rows :: rows[i] == Settled(before[i], rootID, current, snap)
    ensures forall p :: (exists i | i in done :: Keeps(before, current, snap, i, p)) <==>
                        (exists i :: Open(rows, rootID, i) && rows[i].relPath == p && !Excluded(snap.excluded, p))
  {
    hide Matches, Excluded;
    forall p
      ensures (exists i | i in done :: Keeps(before, current, snap, i, p)) <==>
              (exists i :: Open(rows, rootID, i) && rows[i].relPath == p && !Excluded(snap.excluded, p))
    {
      if i :| i in done && Keeps(before, current, snap, i, p) {
        assert Open(rows, rootID, i) && rows[i].relPath == p;
      }
      if i :| Open(rows, rootID, i) && rows[i].relPath == p && !Excluded(snap.excluded, p) {
        assert Open(before, rootID, i);
        assert i in done && Keeps(before, current, snap, i, p);
      }
    }
  }

  lemma SettledOnePerPath(
    before: Rows, rows: Rows, rootID: int, current: map<string, Decision>, snap: Snapshot, done: set<int>)
    requires OnePerPath(before) && PartlySettled(before, rows, rootID, current, snap, done)
    ensures OnePerPath(rows)
  {
    hide Matches, Excluded;
  }

  // ----- Runs -----

  datatype Cycle = Cycle(snap: Snapshot, decisions: seq<Decision>, budget: nat)

  /** Over any run of reconciliations, each cut short by a failing call anywhere,
      at most one unresolved record exists per path. */
  method Run(rootID: int, cycles: seq<Cycle>) returns (store: ConflictStore)
    requires forall c, d | c in cycles && d in c.decisions :: !Excluded(c.snap.excluded, d.relPath)
    ensures store.Valid() && OnePerPath(store.rows)
  {
    hide Excluded, Mirrors, Current;
    store := new ConflictStore(0);
    for i := 0 to |cycles|
      invariant fresh(store) && store.Valid() && OnePerPath(store.rows)
    {
      assert cycles[i] in cycles;
      store.budget := cycles[i].budget;
      var _ := store.Reconcile(rootID, cycles[i].snap, cycles[i].decisions);
    }
  }

  // ----- Resolving a conflict -----

  datatype Choice = KeepLocal | KeepRemote

  datatype Resolution = Resolution(kind: DecisionKind, entryKind: EntryKind, expectedLocal: LocalFingerprint,
      expectedRemote: RemoteExpectation)

  /** OperationForConflictResolution. */
  function ResolutionOf(c: Conflict, choice: Choice): Outcome<Resolution> {
    if c.resolved || !c.Valid() || c.kind == KindMismatch then Err
    else if (c.local.present && c.local.kind == KindDir) || (c.remote.present && c.remote.kind == KindDir) then Err
    else if !c.local.present && !c.remote.present then Err
    else
      var base := Resolution(Noop, NoKind, c.local, ExpectationOf(c.remote));
      if choice == KeepLocal then
        if c.local.present then
          if c.remote.present && c.local.kind != c.remote.kind then Err
          else Ok(base.(kind := EnsureRemote, entryKind := c.local.kind))
        else Ok(base.(kind := DeleteRemote, entryKind := c.remote.kind))
      else
        if c.remote.present then
          if c.local.present && c.local.kind != c.remote.kind then Err
          else Ok(base.(kind := EnsureLocal, entryKind := c.remote.kind))
        else Ok(base.(kind := DeleteLocal, entryKind := c.local.kind))
  }

  /** The operation is an external one on a file; it writes the side that was not
      chosen, and deletes exactly when the chosen side is absent. */
  lemma ResolutionIsExternal(c: Conflict, choice: Choice)
    requires ResolutionOf(c, choice).Ok?
    ensures var r := ResolutionOf(c, choice).value;
            && IsExternal(r.kind) && r.entryKind == KindFile
            && (r.kind == EnsureRemote || r.kind == DeleteRemote <==> choice == KeepLocal)
            && (IsDelete(r.kind) <==> if choice == KeepLocal then !c.local.present else !c.remote.present)
  {
    hide ValidRelPath, Blank;
  }

  lemma ResolvedIsValid(c: Conflict, choice: Choice)
    requires ResolutionOf(c, choice).Ok?
    ensures ValidRelPath(c.relPath)
  {
    hide ValidRelPath, Blank;
  }

  /** A remote revision has one size. */
  predicate OneSize(a: RemoteFingerprint, b: RemoteFingerprint) {
    a.present && b.present && a.kind == KindFile && b.kind == KindFile && a.id == b.id && a.rev == b.rev ==>
        a.size == b.size
  }

  /** The side that is overwritten or deleted is exactly the recorded version:
      the operation's precondition, on both sides, holds of a state just when
      that state is equivalent to the record. */
  lemma ResolutionExpectsTheRecord(c: Conflict, choice: Choice, local: LocalFingerprint, remote: RemoteFingerprint)
    requires ResolutionOf(c, choice).Ok? && local.Valid() && remote.Valid() && OneSize(remote, c.remote)
    ensures var r := ResolutionOf(c, choice).value;
            LocalEquivalent(local, r.expectedLocal) && RemoteMatches(remote, r.expectedRemote, r.entryKind) <==>
            LocalEquivalent(local, c.local) && RemoteEquivalent(remote, c.remote)
  {
    hide ValidRelPath, Blank;
  }
}
