/** The store's guarded transactions on configured roots, followed claims and
    operation pins. Each is one atomic step; creating a root is two, with the
    writer reservation held in between. */
module Registry {
  import opened Domain
  import opened Ownership

  /** Granted commits; Refused is an authority conflict; Failed an error. */
  datatype Verdict = Granted | Refused | Failed

  /** What the executor resolved for one mutation. */
  datatype Target = Target(
    path: Path, anchor: string, authority: Option<Authority>, symlinkTarget: string, claims: map<Rel, Claim>)
  {
    function Effective(): Authority {
      if authority.Some? then authority.value else if claims.Keys != {} then FollowPhysical else Lexical
    }
  }

  // ----- History of claims -----

  /** From one state to a later one without the removal of a root: claims are
      only added, only while their root is being paired, and a recorded claim keeps its kind,
      its known target and, for a directory, its identity. */
  ghost predicate Grows(before: Books, after: Books) {
    && (forall k | k in before.claims :: k in after.claims && Continues(before.claims[k], after.claims[k]))
    && (forall k | k in after.claims && k !in before.claims && k.0 in before.roots :: !before.roots[k.0].initialized)
    && (forall i | i in before.roots :: i in after.roots)
    && (forall i | i in before.roots :: before.roots[i].initialized ==> after.roots[i].initialized)
  }

  /** What never changes about a claim while its root stays: it is not forgotten,
      it keeps its kind, its known target and, if it is a directory, its identity;
      and an initialized root gets no new one. */
  lemma ClaimsAreKept(before: Books, after: Books, k: (int, Rel))
    requires Grows(before, after)
    ensures k in before.claims ==>
              && k in after.claims && after.claims[k].kind == before.claims[k].kind
              && (before.claims[k].target.Some? ==> after.claims[k].target == before.claims[k].target)
              && (before.claims[k].kind == KindDir ==> after.claims[k].identity == before.claims[k].identity)
    ensures k in after.claims && k.0 in before.roots && before.roots[k.0].initialized ==> k in before.claims
  {
  }

  lemma InitializedStays(a: Books, b: Books, i: int)
    requires Grows(a, b) && i in a.roots
    ensures i in b.roots && (a.roots[i].initialized ==> b.roots[i].initialized)
  {
  }

  lemma GrowsTrans(a: Books, b: Books, c: Books)
    requires Grows(a, b) && Grows(b, c)
    ensures Grows(a, c)
  {
    forall k | k in a.claims
      ensures k in c.claims && Continues(a.claims[k], c.claims[k])
    {
      assert Continues(a.claims[k], b.claims[k]) && Continues(b.claims[k], c.claims[k]);
    }
    forall k | k in c.claims && k !in a.claims && k.0 in a.roots
      ensures !a.roots[k.0].initialized
    {
      InitializedStays(a, b, k.0);
    }
  }

  // ----- validateFollowedPhysicalClaims -----

  predicate ValidObserved(n: Naming, observed: map<Rel, Claim>) {
    && (forall p | p in observed :: Recordable(p, observed[p]))
    && (forall p, q | p in observed && q in observed && p != q :: !ClaimsOverlap(n, observed[p], observed[q]))
  }

  /** order lists exactly the observed paths. */
  predicate Enumerates(order: seq<Rel>, paths: set<Rel>) {
    && (forall p | p in order :: p in paths)
    && (forall p | p in paths :: p in order)
  }

  // ----- Backfill of legacy targets -----

  predicate Legacy(b: Books, root: int, p: Rel) {
    (root, p) in b.claims && b.claims[(root, p)].target.None?
  }

  /** The verdict on one legacy row, on the state before any backfill. */
  predicate Backfillable(n: Naming, b: Books, root: int, observed: map<Rel, Claim>, p: Rel) {
    && (root, p) in b.claims && p in observed
    && b.claims[(root, p)].kind == observed[p].kind && b.claims[(root, p)].identity == observed[p].identity
    && !Conflict(n, b, root, p, observed[p], true)
  }

  function Backfilled(b: Books, root: int, observed: map<Rel, Claim>): Books {
    b.(claims := map k | k in b.claims ::
         if k.0 == root && b.claims[k].target.None? && k.1 in observed then observed[k.1] else b.claims[k])
  }

  // ----- Reservation -----

  /** May this observed claim be recorded now? */
  predicate Acceptable(n: Naming, b: Books, root: int, p: Rel, c: Claim) {
    && root in b.roots
    && (if (root, p) in b.claims then Continues(b.claims[(root, p)], c) else !b.roots[root].initialized)
    && !Conflict(n, b, root, p, c, false)
  }

  /** Recording the observed claims one after the other, each against what is
      recorded so far. */
  function Recorded(b: Books, root: int, observed: map<Rel, Claim>, order: seq<Rel>): Books
    requires forall p | p in order :: p in observed
  {
    if order == [] then b
    else
      var init := order[..|order| - 1];
      var p := order[|order| - 1];
      SetClaim(Recorded(b, root, observed, init), root, p, observed[p])
  }

  predicate AllAcceptable(n: Naming, b: Books, root: int, observed: map<Rel, Claim>, order: seq<Rel>)
    requires forall p | p in order :: p in observed
  {
    if order == [] then true
    else
      var init := order[..|order| - 1];
      var p := order[|order| - 1];
      AllAcceptable(n, b, root, observed, init) &&
          Acceptable(n, Recorded(b, root, observed, init), root, p, observed[p])
  }

  lemma {:induction false} RecordedKeeps(n: Naming, b: Books, root: int, observed: map<Rel, Claim>, order: seq<Rel>)
    requires Owned(n, b) && ValidObserved(n, observed) && (forall p | p in order :: p in observed)
    requires AllAcceptable(n, b, root, observed, order) && root in b.roots
    ensures Owned(n, Recorded(b, root, observed, order)) && Grows(b, Recorded(b, root, observed, order))
    ensures Recorded(b, root, observed, order).roots == b.roots && Recorded(b, root, observed, order).ops == b.ops
  {
    hide Owned, Conflict, Continues;
    if order == [] {
      GrowsRefl(b);
    } else {
      var init := order[..|order| - 1];
      var p := order[|order| - 1];
      var b1 := Recorded(b, root, observed, init);
      RecordedKeeps(n, b, root, observed, init);
      assert p in order;
      SetClaimKeeps(n, b1, root, p, observed[p], false);
      SetClaimGrows(n, b1, root, p, observed[p]);
      GrowsTrans(b, b1, SetClaim(b1, root, p, observed[p]));
    }
  }

  lemma GrowsRefl(b: Books)
    ensures Grows(b, b)
  {
  }

  lemma SetClaimGrows(n: Naming, b: Books, root: int, p: Rel, c: Claim)
    requires Acceptable(n, b, root, p, c)
    ensures Grows(b, SetClaim(b, root, p, c))
  {
    hide Conflict;
  }

  lemma {:induction false} RecordedAll(b: Books, root: int, observed: map<Rel, Claim>, order: seq<Rel>)
    requires forall p | p in order :: p in observed
    ensures var b' := Recorded(b, root, observed, order);
            && (forall p | p in order :: (root, p) in b'.claims && b'.claims[(root, p)] == observed[p])
            && (forall k | k in b'.claims && !(k.0 == root && k.1 in order) ::
                 k in b.claims && b'.claims[k] == b.claims[k])
            && (forall k | k in b.claims :: k in b'.claims)
  {
    if order != [] {
      var init := order[..|order| - 1];
      RecordedAll(b, root, observed, init);
      assert order == init + [order[|order| - 1]];
    }
  }

  lemma {:induction false} AcceptablePrefix(
    n: Naming, b: Books, root: int, observed: map<Rel, Claim>, order: seq<Rel>, i: nat)
    requires (forall p | p in order :: p in observed) && i <= |order| && AllAcceptable(n, b, root, observed, order)
    ensures AllAcceptable(n, b, root, observed, order[..i])
  {
    hide Acceptable, Recorded;
    if i < |order| {
      AcceptablePrefix(n, b, root, observed, order[..|order| - 1], i);
      assert order[..|order| - 1][..i] == order[..i];
    } else {
      assert order[..i] == order;
    }
  }

  /** Some legacy rows filled in, the others as they were. */
  ghost predicate PartlyBackfilled(b0: Books, b: Books, root: int, observed: map<Rel, Claim>, done: set<Rel>) {
    && b.roots == b0.roots && b.ops == b0.ops && b.claims.Keys == b0.claims.Keys
    && (forall p | p in done :: p in observed && Legacy(b0, root, p))
    && (forall k | k in b0.claims :: b.claims[k] == if k.0 == root && k.1 in done then observed[k.1] else b0.claims[k])
  }

  /** A legacy row meets the same obstacles whichever rows were filled before it,
      because the observed claims are disjoint among themselves. */
  lemma BackfillOrderIsIrrelevant(
    n: Naming, b0: Books, b: Books, root: int, observed: map<Rel, Claim>, done: set<Rel>, p: Rel)
    requires ValidObserved(n, observed) && PartlyBackfilled(b0, b, root, observed, done)
    requires forall q | q in done :: Backfillable(n, b0, root, observed, q)
    requires p in observed && p !in done && Legacy(b0, root, p)
    ensures Conflict(n, b, root, p, observed[p], true) <==> Conflict(n, b0, root, p, observed[p], true)
  {
    hide Overlap, RootOverlapsClaim;
    forall k | k in b0.claims && k != (root, p)
      ensures (ClaimsOverlap(n, observed[p], b.claims[k]) || (b.claims[k].target.None? && !(true && k.0 == root))) <==>
              (ClaimsOverlap(n, observed[p], b0.claims[k]) || (b0.claims[k].target.None? && !(true && k.0 == root)))
    {
      if k.0 == root && k.1 in done {
        DoneIsNoObstacle(n, b0, root, observed, p, k.1);
      }
    }
  }

  lemma DoneIsNoObstacle(n: Naming, b0: Books, root: int, observed: map<Rel, Claim>, p: Rel, q: Rel)
    requires ValidObserved(n, observed) && p in observed && p != q && Backfillable(n, b0, root, observed, q) &&
               Legacy(b0, root, q)
    ensures !ClaimsOverlap(n, observed[p], observed[q]) && !ClaimsOverlap(n, observed[p], b0.claims[(root, q)])
    ensures observed[q].target.Some?
  {
    hide Overlap, Conflict;
  }

  lemma BackfillStep(n: Naming, b0: Books, b: Books, root: int, observed: map<Rel, Claim>, done: set<Rel>, p: Rel)
    requires Owned(n, b) && ValidObserved(n, observed) && PartlyBackfilled(b0, b, root, observed, done) &&
               root in b.roots
    requires p in observed && p !in done && Legacy(b0, root, p) && !Conflict(n, b, root, p, observed[p], true)
    requires b0.claims[(root, p)].kind == observed[p].kind && b0.claims[(root, p)].identity == observed[p].identity
    requires Grows(b0, b)
    ensures Owned(n, SetClaim(b, root, p, observed[p])) && Grows(b0, SetClaim(b, root, p, observed[p]))
    ensures PartlyBackfilled(b0, SetClaim(b, root, p, observed[p]), root, observed, done + {p})
  {
    hide Owned, Conflict;
    SetClaimKeeps(n, b, root, p, observed[p], true);
    LegacyGrows(b, root, p, observed[p]);
    GrowsTrans(b0, b, SetClaim(b, root, p, observed[p]));
  }

  lemma LegacyGrows(b: Books, root: int, p: Rel, c: Claim)
    requires (root, p) in b.claims && Continues(b.claims[(root, p)], c)
    ensures Grows(b, SetClaim(b, root, p, c))
  {
  }

  /** The checks on one legacy row, on the state filled so far. */
  predicate FitsBackfill(n: Naming, b: Books, root: int, observed: map<Rel, Claim>, p: Rel) {
    && p in observed && (root, p) in b.claims
    && b.claims[(root, p)].kind == observed[p].kind && b.claims[(root, p)].identity == observed[p].identity
    && !Conflict(n, b, root, p, observed[p], true)
  }

  lemma BackfillVerdict(
    n: Naming, b0: Books, b: Books, root: int, observed: map<Rel, Claim>, done: set<Rel>, p: Rel, fits: bool)
    requires Owned(n, b) && ValidObserved(n, observed) && PartlyBackfilled(b0, b, root, observed, done) &&
               root in b0.roots
    requires forall q | q in done :: Backfillable(n, b0, root, observed, q)
    requires p !in done && Legacy(b0, root, p) && Grows(b0, b)
    requires fits == FitsBackfill(n, b, root, observed, p)
    ensures fits <==> Backfillable(n, b0, root, observed, p)
    ensures fits ==>
              && p in observed && Owned(n, SetClaim(b, root, p, observed[p])) &&
                   Grows(b0, SetClaim(b, root, p, observed[p]))
              && PartlyBackfilled(b0, SetClaim(b, root, p, observed[p]), root, observed, done + {p})
  {
    hide Owned, Conflict, Grows, ValidObserved;
    if p in observed {
      BackfillOrderIsIrrelevant(n, b0, b, root, observed, done, p);
      if fits { BackfillStep(n, b0, b, root, observed, done, p); }
    }
  }

  lemma NoneBackfilled(b: Books, root: int, observed: map<Rel, Claim>)
    ensures PartlyBackfilled(b, b, root, observed, {})
  {
  }

  lemma FullyBackfilled(b0: Books, b: Books, root: int, observed: map<Rel, Claim>, done: set<Rel>)
    requires PartlyBackfilled(b0, b, root, observed, done)
    requires forall p | Legacy(b0, root, p) :: p in done
    ensures b == Backfilled(b0, root, observed) && b.roots == b0.roots && b.ops == b0.ops
  {
    var f := Backfilled(b0, root, observed);
    assert b.claims.Keys == f.claims.Keys;
    forall k | k in b.claims
      ensures b.claims[k] == f.claims[k]
    {
      if k.0 == root && b0.claims[k].target.None? { assert Legacy(b0, root, k.1); }
    }
    assert b.claims == f.claims;
  }

  // ----- Pins -----

  /** validateLocalMutationClaims: an identity may be missing here. */
  predicate ValidTraversal(n: Naming, claims: map<Rel, Claim>) {
    && (forall p | p in claims :: (claims[p].kind == KindFile || claims[p].kind == KindDir) && claims[p].target.Some?)
    && (forall p, q | p in claims && q in claims && p != q :: !ClaimsOverlap(n, claims[p], claims[q]))
  }

  /** Checks that need only the request and the operation's row. */
  predicate PinRequestFits(n: Naming, b: Books, id: int, t: Target) {
    var a := t.Effective();
    && t.anchor != ""
    && (if a == FollowPhysical then ValidTraversal(n, t.claims) else t.claims.Keys == {})
    && (t.symlinkTarget != "" ==> a != FollowPhysical)
    && id in b.ops && b.ops[id].isLocal && b.ops[id].planned && b.ops[id].attempts == 0 && b.ops[id].pin == None
    && b.ops[id].root in b.roots
    && (a == CopyPhysical || t.symlinkTarget != "" ==> b.roots[b.ops[id].root].mode == Copy)
  }

  function Pinned(b: Books, id: int, t: Target): Books
    requires id in b.ops
  {
    b.(ops := b.ops[id := b.ops[id].(pin := Some(Pin(t.path, t.Effective(), t.symlinkTarget, t.claims.Keys)))])
  }

  /** copyMutationConfiguredRootConflictTx, for the row as it would be pinned. */
  predicate CopyConflict(n: Naming, b: Books, id: int, t: Target)
    requires id in b.ops
  {
    exists i | i in b.roots && i != b.ops[id].root :: RootOverlapsCopyPin(n, b.roots[i], Pinned(b, id, t).ops[id])
  }

  /** The root's directory overlaps what a copy-physical mutation would reach: a
      copied link is a file-like object of its own, whatever it leads to. */
  predicate OverlapsCopyTarget(n: Naming, root: Root, entryKind: EntryKind, t: Target) {
    var kind := if t.symlinkTarget != "" then KindFile else entryKind;
    Overlap(n, n.rootPath(root.local), KindDir, n.mutationPath(t.path), kind)
  }

  lemma CopyConflictIsOverlap(n: Naming, b: Books, id: int, t: Target)
    requires id in b.ops && t.Effective() == CopyPhysical
    ensures CopyConflict(n, b, id, t) <==>
              exists i | i in b.roots && i != b.ops[id].root ::
                  OverlapsCopyTarget(n, b.roots[i], b.ops[id].entryKind, t)
  {
    hide Overlap;
    assert forall i | i in b.roots ::
        RootOverlapsCopyPin(n, b.roots[i], Pinned(b, id, t).ops[id]) <==>
            OverlapsCopyTarget(n, b.roots[i], b.ops[id].entryKind, t);
  }

  /** One traversed boundary against its durable claim. */
  predicate BoundaryHolds(n: Naming, b: Books, op: Op, p: Rel, c: Claim) {
    && Applies(p, c.kind, op.src)
    && (op.root, p) in b.claims
    && var prior := b.claims[(op.root, p)];
    && prior.kind == c.kind
    && (prior.target.Some? ==> prior.target == c.target)
    && (c.identity == "" ==> c.kind == KindFile && prior.target.Some?)
    && (c.kind == KindDir ==> prior.identity == c.identity)
    && !Conflict(n, b, op.root, p, c, false)
  }

  /** A traversed boundary as it is recorded. */
  predicate Matches(b: Books, root: int, p: Rel, c: Claim) {
    && (root, p) in b.claims && b.claims[(root, p)].kind == c.kind
    && b.claims[(root, p)].target == c.target && c.target.Some?
  }

  function Refreshed(b: Books, root: int, p: Rel, c: Claim): Books {
    if c.identity != "" then SetClaim(b, root, p, c) else b
  }

  lemma RefreshKeeps(n: Naming, b: Books, op: Op, p: Rel, c: Claim)
    requires Owned(n, b) && op.root in b.roots && BoundaryHolds(n, b, op, p, c) && c.target.Some?
    requires c.kind == KindFile || c.kind == KindDir
    ensures Owned(n, Refreshed(b, op.root, p, c)) && Grows(b, Refreshed(b, op.root, p, c))
    ensures Matches(Refreshed(b, op.root, p, c), op.root, p, c)
    ensures Refreshed(b, op.root, p, c).roots == b.roots && Refreshed(b, op.root, p, c).ops == b.ops
    ensures Refreshed(b, op.root, p, c).claims.Keys == b.claims.Keys
  {
    hide Conflict, Applies;
    GrowsRefl(b);
    BelongsFacts(n, b, op.root, p);
    if c.identity != "" {
      hide Owned;
      SetClaimKeeps(n, b, op.root, p, c, false);
      LegacyGrows(b, op.root, p, c);
    }
  }

  /** No recorded claim has an unknown target. */
  predicate NoLegacy(b: Books) {
    forall k | k in b.claims :: b.claims[k].target.Some?
  }

  /** b is b0 with the boundaries in done refreshed. */
  ghost predicate PartlyRefreshed(b0: Books, b: Books, op: Op, claims: map<Rel, Claim>, done: set<Rel>) {
    && done <= claims.Keys && b.roots == b0.roots && b.claims.Keys == b0.claims.Keys
    && forall k | k in b0.claims ::
         b.claims[k] == if k.0 == op.root && k.1 in done && claims[k.1].identity != "" then claims[k.1]
             else b0.claims[k]
  }

  lemma OneMoreRefreshed(b0: Books, b: Books, op: Op, claims: map<Rel, Claim>, done: set<Rel>, p: Rel)
    requires PartlyRefreshed(b0, b, op, claims, done) && p in claims && (op.root, p) in b.claims
    ensures PartlyRefreshed(b0, Refreshed(b, op.root, p, claims[p]), op, claims, done + {p})
  {
  }

  /** A refreshed boundary is no new obstacle to another one, and its old row was
      none. */
  lemma RefreshedIsNoObstacle(n: Naming, b0: Books, op: Op, claims: map<Rel, Claim>, p: Rel, q: Rel)
    requires Owned(n, b0) && NoLegacy(b0) && ValidTraversal(n, claims) && p in claims && q in claims && p != q
    requires BoundaryHolds(n, b0, op, q, claims[q]) && Applies(p, claims[p].kind, op.src) && (op.root, p) in b0.claims
    requires claims[p].kind == KindDir ==> b0.claims[(op.root, p)].identity == claims[p].identity
    ensures !ClaimsOverlap(n, claims[p], claims[q]) && !ClaimsOverlap(n, claims[p], b0.claims[(op.root, q)])
  {
    hide Overlap, Conflict;
    assert !ClaimsOverlap(n, b0.claims[(op.root, p)], b0.claims[(op.root, q)]);
  }

  /** Without legacy rows the order in which boundaries are refreshed does not
      change the verdict on any of them. */
  lemma RefreshOrderIsIrrelevant(
    n: Naming, b0: Books, b: Books, op: Op, claims: map<Rel, Claim>, done: set<Rel>, p: Rel)
    requires Owned(n, b0) && NoLegacy(b0) && ValidTraversal(n, claims) && PartlyRefreshed(b0, b, op, claims, done)
    requires p in claims && p !in done && forall q | q in done :: BoundaryHolds(n, b0, op, q, claims[q])
    ensures BoundaryHolds(n, b, op, p, claims[p]) <==> BoundaryHolds(n, b0, op, p, claims[p])
  {
    hide Overlap, ClaimsOverlap, RootOverlapsClaim, Owned, ValidTraversal, Applies;
    var c := claims[p];
    if (op.root, p) in b0.claims && Applies(p, c.kind, op.src) &&
        (c.kind == KindDir ==> b0.claims[(op.root, p)].identity == c.identity) {
      forall k | k in b0.claims && k != (op.root, p)
        ensures ClaimsOverlap(n, c, b.claims[k]) || b.claims[k].target.None? <==>
                  ClaimsOverlap(n, c, b0.claims[k]) || b0.claims[k].target.None?
      {
        if b.claims[k] != b0.claims[k] {
          assert k == (op.root, k.1);
          RefreshedIsNoObstacle(n, b0, op, claims, p, k.1);
          TraversedIsKnown(n, claims, k.1);
        }
      }
    }
  }

  lemma DoneAreClaims(b0: Books, b: Books, op: Op, claims: map<Rel, Claim>, done: set<Rel>)
    requires PartlyRefreshed(b0, b, op, claims, done)
    ensures done <= claims.Keys
  {
  }

  lemma NoneRefreshed(b: Books, op: Op, claims: map<Rel, Claim>)
    ensures PartlyRefreshed(b, b, op, claims, {})
  {
  }

  lemma BoundaryIsRecorded(n: Naming, b: Books, op: Op, p: Rel, claims: map<Rel, Claim>)
    requires p in claims && BoundaryHolds(n, b, op, p, claims[p]) && ValidTraversal(n, claims)
    ensures (op.root, p) in b.claims && claims[p].target.Some? && Applies(p, claims[p].kind, op.src)
    ensures (claims[p].kind == KindFile || claims[p].kind == KindDir)
  {
  }

  lemma TraversedIsKnown(n: Naming, claims: map<Rel, Claim>, q: Rel)
    requires ValidTraversal(n, claims) && q in claims
    ensures claims[q].target.Some?
  {
  }

  lemma BelongsFacts(n: Naming, b: Books, root: int, p: Rel)
    requires Owned(n, b) && (root, p) in b.claims
    ensures p != []
  {
  }

  lemma StillMatches(b: Books, root: int, p: Rel, c: Claim, q: Rel, d: Claim)
    requires Matches(b, root, p, c) && p != q
    ensures Matches(Refreshed(b, root, q, d), root, p, c)
  {
  }

  lemma AllStillMatch(b: Books, op: Op, claims: map<Rel, Claim>, done: set<Rel>, p: Rel)
    requires done <= claims.Keys && p in claims && p !in done
    requires forall q | q in done :: Matches(b, op.root, q, claims[q])
    ensures forall q | q in done :: Matches(Refreshed(b, op.root, p, claims[p]), op.root, q, claims[q])
  {
    hide Matches, Refreshed;
    forall q | q in done
      ensures Matches(Refreshed(b, op.root, p, claims[p]), op.root, q, claims[q])
    {
      StillMatches(b, op.root, q, claims[q], p, claims[p]);
    }
  }

  /** The deepest traversed boundary leads to the pinned path. */
  lemma DeepestLeads(b: Books, op: Op, t: Target)
    requires op.pin == Some(Pin(t.path, FollowPhysical, t.symlinkTarget, t.claims.Keys)) && t.claims.Keys != {}
    requires forall p | p in t.claims :: Matches(b, op.root, p, t.claims[p]) && Applies(p, t.claims[p].kind, op.src)
    requires DerivedTarget(t.claims, op.src) == Some(t.path)
    ensures exists p | p in op.pin.value.boundaries :: LeadsTo(b.claims, op, p)
  {
    var d := DeepestFrom(t.claims, op.src, |op.src|);
    assert d.Some?;
    assert Matches(b, op.root, d.value, t.claims[d.value]);
    assert Within(d.value, op.src);
    assert LeadsTo(b.claims, op, d.value);
  }

  lemma PinKeeps(n: Naming, b: Books, id: int, t: Target)
    requires Owned(n, b) && PinRequestFits(n, b, id, t)
    requires t.Effective() == CopyPhysical ==> !CopyConflict(n, b, id, t)
    requires t.claims.Keys != {} ==> exists p | p in t.claims.Keys :: LeadsTo(b.claims, Pinned(b, id, t).ops[id], p)
    ensures Owned(n, Pinned(b, id, t)) && Grows(b, Pinned(b, id, t))
  {
    hide Overlap, RootsOverlap, ClaimsOverlap, RootOverlapsClaim, LeadsTo, ValidTraversal;
  }

  // ----- The store's own checks, row by row -----

  /** followedOwnershipConflictTx. */
  method FindConflict(n: Naming, b: Books, root: int, p: Rel, c: Claim, allowLegacy: bool) returns (found: bool)
    ensures found <==> Conflict(n, b, root, p, c, allowLegacy)
  {
    hide Overlap;
    var rest := b.claims.Keys - {(root, p)};
    while rest != {}
      invariant rest <= b.claims.Keys - {(root, p)}
      invariant forall k | k in b.claims && k != (root, p) && k !in rest ::
                  !ClaimsOverlap(n, c, b.claims[k]) && (b.claims[k].target.None? ==> allowLegacy && k.0 == root)
      decreases |rest|
    {
      var k :| k in rest;
      var owner := b.claims[k];
      if c.identity != "" && owner.identity == c.identity { return true; }
      if owner.target.None? {
        if !(allowLegacy && k.0 == root) { return true; }
      } else if c.target.Some? && Overlap(n, c.target.value, c.kind, owner.target.value, owner.kind) {
        return true;
      }
      rest := rest - {k};
    }
    found := FindRootAround(n, b, root, c);
  }

  lemma NoMember(s: set<int>)
    requires forall i :: i !in s
    ensures s == {}
  {
    assert forall i | i in s :: false;
  }

  lemma SomeMember(s: set<int>)
    requires s != {}
    ensures exists i :: i in s
  {
    if forall i :: i !in s { NoMember(s); }
  }

  /** Another root's directory overlaps the claim. */
  method FindRootAround(n: Naming, b: Books, root: int, c: Claim) returns (found: bool)
    ensures found <==> exists i | i in b.roots && i != root :: RootOverlapsClaim(n, b.roots[i], c)
  {
    hide Overlap;
    var rest := b.roots.Keys - {root};
    while rest != {}
      invariant rest <= b.roots.Keys - {root}
      invariant forall i | i in b.roots && i != root && i !in rest :: !RootOverlapsClaim(n, b.roots[i], c)
      decreases |rest|
    {
      SomeMember(rest);
      var i :| i in rest;
      if c.target.Some? && Overlap(n, b.roots[i].local, KindDir, c.target.value, c.kind) { return true; }
      rest := rest - {i};
    }
    found := false;
  }

  /** copyMutationConfiguredRootConflictTx. */
  method FindRootAroundCopy(n: Naming, b: Books, root: int, path: Path, kind: EntryKind) returns (found: bool)
    ensures found <==> exists i | i in b.roots && i != root ::
              Overlap(n, n.rootPath(b.roots[i].local), KindDir, n.mutationPath(path), kind)
  {
    hide Overlap;
    var rest := b.roots.Keys - {root};
    while rest != {}
      invariant rest <= b.roots.Keys - {root}
      invariant forall i | i in b.roots && i != root && i !in rest ::
                  !Overlap(n, n.rootPath(b.roots[i].local), KindDir, n.mutationPath(path), kind)
      decreases |rest|
    {
      SomeMember(rest);
      var i :| i in rest;
      if Overlap(n, n.rootPath(b.roots[i].local), KindDir, n.mutationPath(path), kind) { return true; }
      rest := rest - {i};
    }
    found := false;
  }

  /** checkSyncRootOwnershipAgainst, checkSyncRootAgainstFollowedClaims and
      checkSyncRootAgainstCopyMutationPins. */
  method AdmitsRoot(n: Naming, b: Books, r: Root) returns (ok: bool)
    ensures ok <==>
              && (forall i | i in b.roots ::
                    && !Overlap(n, b.roots[i].local, KindDir, r.local, KindDir)
                    && !Within(b.roots[i].remote, r.remote) && !Within(r.remote, b.roots[i].remote))
              && (forall k | k in b.claims ::
                    && b.claims[k].target.Some?
                    && !Overlap(n, r.local, KindDir, b.claims[k].target.value, b.claims[k].kind))
              && (forall o | o in b.ops && b.ops[o].pin.Some? && b.ops[o].pin.value.authority == CopyPhysical ::
                    !Overlap(n, n.rootPath(r.local), KindDir, n.mutationPath(b.ops[o].pin.value.path),
                        PinKind(b.ops[o])))
    ensures ok <==> RootAdmissible(n, b, r)
  {
    hide Overlap, Within;
    var apart := OverlapsNoRoot(n, b, r);
    if !apart { return false; }
    apart := AroundNoClaim(n, b, r);
    if !apart { return false; }
    ok := NoCopyPinInside(n, b, r);
  }

  method OverlapsNoRoot(n: Naming, b: Books, r: Root) returns (ok: bool)
    ensures ok <==> forall i | i in b.roots :: !RootsOverlap(n, b.roots[i], r)
  {
    hide Overlap, Within;
    var rest := b.roots.Keys;
    while rest != {}
      invariant rest <= b.roots.Keys
      invariant forall i | i in b.roots && i !in rest :: !RootsOverlap(n, b.roots[i], r)
      decreases |rest|
    {
      SomeMember(rest);
      var i :| i in rest;
      if Overlap(n, b.roots[i].local, KindDir, r.local, KindDir) { return false; }
      if Within(b.roots[i].remote, r.remote) || Within(r.remote, b.roots[i].remote) { return false; }
      rest := rest - {i};
    }
    ok := true;
  }

  method AroundNoClaim(n: Naming, b: Books, r: Root) returns (ok: bool)
    ensures ok <==> forall k | k in b.claims :: b.claims[k].target.Some? && !RootOverlapsClaim(n, r, b.claims[k])
  {
    hide Overlap;
    var rest := b.claims.Keys;
    while rest != {}
      invariant rest <= b.claims.Keys
      invariant forall k | k in b.claims && k !in rest ::
                  b.claims[k].target.Some? && !RootOverlapsClaim(n, r, b.claims[k])
      decreases |rest|
    {
      var k :| k in rest;
      if b.claims[k].target.None? { return false; }
      if Overlap(n, r.local, KindDir, b.claims[k].target.value, b.claims[k].kind) { return false; }
      rest := rest - {k};
    }
    ok := true;
  }

  method NoCopyPinInside(n: Naming, b: Books, r: Root) returns (ok: bool)
    ensures ok <==> forall o | o in b.ops :: !RootOverlapsCopyPin(n, r, b.ops[o])
  {
    hide Overlap;
    var ops := b.ops.Keys;
    while ops != {}
      invariant ops <= b.ops.Keys
      invariant forall o | o in b.ops && o !in ops :: !RootOverlapsCopyPin(n, r, b.ops[o])
      decreases |ops|
    {
      SomeMember(ops);
      var o :| o in ops;
      var op := b.ops[o];
      if op.pin.Some? && op.pin.value.authority == CopyPhysical {
        if Overlap(n, n.rootPath(r.local), KindDir, n.mutationPath(op.pin.value.path), PinKind(op)) { return false; }
      }
      ops := ops - {o};
    }
    ok := true;
  }

  /** validateFollowedPhysicalClaims and validateLocalMutationClaims: a missing
      identity is refused only in observed claims. */
  method ClaimsAreValid(n: Naming, claims: map<Rel, Claim>, observed: bool) returns (ok: bool)
    ensures ok <==> if observed then ValidObserved(n, claims) else ValidTraversal(n, claims)
  {
    hide ClaimsOverlap;
    var rest := claims.Keys;
    while rest != {}
      invariant rest <= claims.Keys
      invariant forall p | p in claims && p !in rest ::
                  && (claims[p].kind == KindFile || claims[p].kind == KindDir) && claims[p].target.Some?
                  && (observed ==> p != [] && claims[p].identity != "")
                  && forall q | q in claims && q != p :: !ClaimsOverlap(n, claims[p], claims[q])
      decreases |rest|
    {
      var p :| p in rest;
      var c := claims[p];
      if c.kind != KindFile && c.kind != KindDir { return false; }
      if c.target.None? { return false; }
      if observed && (p == [] || c.identity == "") { return false; }
      var clash := OverlapsAny(n, claims, p);
      if clash { return false; }
      rest := rest - {p};
    }
    ok := true;
  }

  method OverlapsAny(n: Naming, claims: map<Rel, Claim>, p: Rel) returns (found: bool)
    requires p in claims
    ensures found <==> exists q | q in claims && q != p :: ClaimsOverlap(n, claims[p], claims[q])
  {
    hide Overlap;
    var c, rest := claims[p], claims.Keys - {p};
    while rest != {}
      invariant rest <= claims.Keys - {p}
      invariant forall q | q in claims && q != p && q !in rest :: !ClaimsOverlap(n, c, claims[q])
      decreases |rest|
    {
      var q :| q in rest;
      if c.identity != "" && c.identity == claims[q].identity { return true; }
      if c.target.Some? && claims[q].target.Some? {
        if Overlap(n, c.target.value, c.kind, claims[q].target.value, claims[q].kind) { return true; }
      }
      rest := rest - {q};
    }
    found := false;
  }

  /** One traversed boundary against its durable claim, check by check. */
  method CheckBoundary(n: Naming, b: Books, op: Op, p: Rel, c: Claim) returns (ok: bool)
    ensures ok <==> BoundaryHolds(n, b, op, p, c)
  {
    hide Conflict;
    if p != op.src && !(c.kind == KindDir && Within(p, op.src)) { return false; }
    if (op.root, p) !in b.claims { return false; }
    var prior := b.claims[(op.root, p)];
    if prior.kind != c.kind { return false; }
    if prior.target.Some? && prior.target != c.target { return false; }
    if c.identity == "" {
      if c.kind != KindFile { return false; }
      if prior.target.None? { return false; }
    }
    if c.kind == KindDir && prior.identity != c.identity { return false; }
    var conflict := FindConflict(n, b, op.root, p, c, false);
    ok := !conflict;
  }

  /** One legacy row against the claim that was observed on its path. */
  method CheckBackfill(n: Naming, b: Books, root: int, observed: map<Rel, Claim>, p: Rel) returns (ok: bool)
    ensures ok <==> FitsBackfill(n, b, root, observed, p)
  {
    hide Conflict;
    if p !in observed || (root, p) !in b.claims { return false; }
    var c := b.claims[(root, p)];
    if c.kind != observed[p].kind || c.identity != observed[p].identity { return false; }
    var conflict := FindConflict(n, b, root, p, observed[p], true);
    ok := !conflict;
  }

  /** One observed claim against its prior one, or against the root's state. */
  method CheckClaim(n: Naming, b: Books, root: int, p: Rel, c: Claim) returns (ok: bool)
    ensures ok <==> Acceptable(n, b, root, p, c)
  {
    hide Conflict;
    if root !in b.roots { return false; }
    if (root, p) in b.claims {
      var prior := b.claims[(root, p)];
      if prior.kind != c.kind { return false; }
      if prior.kind == KindDir && prior.identity != c.identity { return false; }
      if prior.target.Some? && prior.target != c.target { return false; }
    } else if b.roots[root].initialized {
      return false;
    }
    var conflict := FindConflict(n, b, root, p, c, false);
    ok := !conflict;
  }

  /** No durable claim that applies was left out, and the path is where the deepest
      traversed one leads. */
  method CheckTraversal(b: Books, op: Op, t: Target) returns (ok: bool)
    ensures ok <==> TraversesAll(b, op, t)
  {
    hide DerivedTarget;
    var rest := b.claims.Keys;
    while rest != {}
      invariant rest <= b.claims.Keys
      invariant forall k | k in b.claims && k !in rest && k.0 == op.root && Applies(k.1, b.claims[k].kind, op.src) ::
                  k.1 in t.claims
      decreases |rest|
    {
      var k :| k in rest;
      if k.0 == op.root && Applies(k.1, b.claims[k].kind, op.src) && k.1 !in t.claims { return false; }
      rest := rest - {k};
    }
    ok := t.claims.Keys == {} || DerivedTarget(t.claims, op.src) == Some(t.path);
  }

  /** The checks that need only the request and the operation's row. */
  method CheckPinRequest(n: Naming, b: Books, id: int, t: Target) returns (ok: bool)
    ensures ok <==> PinRequestFits(n, b, id, t)
  {
    hide ValidTraversal;
    if t.anchor == "" { return false; }
    if t.Effective() == FollowPhysical {
      var valid := ClaimsAreValid(n, t.claims, false);
      if !valid { return false; }
      if t.symlinkTarget != "" { return false; }
    } else if t.claims.Keys != {} {
      return false;
    }
    if id !in b.ops { return false; }
    var op := b.ops[id];
    if !op.isLocal { return false; }
    if !op.planned || op.attempts != 0 || op.pin != None { return false; }
    if op.root !in b.roots { return false; }
    var mode := b.roots[op.root].mode;
    if t.Effective() == CopyPhysical && mode != Copy { return false; }
    if t.symlinkTarget != "" && mode != Copy { return false; }
    ok := true;
  }

  // ----- The store -----

  class Registry {
    const n: Naming
    var books: Books
    /** The root whose creation holds the writer reservation. */
    var pending: Option<Root>
    var nextID: int

    ghost predicate Valid()
      reads this
    {
      && Owned(n, books)
      && nextID > 0
      && (pending.Some? ==> RootAdmissible(n, books, pending.value) && !pending.value.initialized)
      && (forall i | i in books.roots :: i < nextID) && (forall o | o in books.ops :: o < nextID)
    }

    constructor (n: Naming)
      ensures Valid() && books == Books(map[], map[], map[]) && pending == None && this.n == n
    {
      this.n := n;
      books := Books(map[], map[], map[]);
      pending := None;
      nextID := 1;
    }

    /** PrepareSyncRootCreate: the ownership check, under the writer lock that
        stays held until Commit or Close. */
    method PrepareRoot(root: Root) returns (r: Verdict)
      requires Valid()
      modifies this
      ensures Valid() && books == old(books) && nextID == old(nextID)
      ensures r == Granted <==> old(pending) == None && !root.initialized && RootAdmissible(n, books, root)
      ensures pending == if r == Granted then Some(root) else old(pending)
    {
      if pending.Some? || root.initialized { return Failed; }
      var admitted := AdmitsRoot(n, books, root);
      if !admitted { return Failed; }
      pending := Some(root);
      r := Granted;
    }

    /** Commit of the prepared root. */
    method CommitRoot() returns (r: Verdict, id: int)
      requires Valid()
      modifies this
      ensures Valid() && (r == Granted <==> old(pending).Some?)
      ensures r == Granted ==> pending == None && id !in old(books).roots &&
                               books == old(books).(roots := old(books).roots[id := old(pending).value])
      ensures Grows(old(books), books)
      ensures r != Granted ==> books == old(books) && pending == old(pending)
    {
      id := nextID;
      if pending == None { return Failed, id; }
      AddRootKeeps(n, books, id, pending.value);
      books := books.(roots := books.roots[id := pending.value]);
      pending := None;
      nextID := nextID + 1;
      r := Granted;
    }

    /** Close rolls back; a crash does the same. */
    method CloseRoot()
      requires Valid()
      modifies this
      ensures Valid() && books == old(books) && pending == None
    {
      pending := None;
    }

    /** Recovers the targets of all legacy rows of the root from one complete
        scan, in any order: all of them, or none. */
    method Backfill(root: int, observed: map<Rel, Claim>) returns (ok: bool, b: Books)
      requires Owned(n, books) && root in books.roots && ValidObserved(n, observed)
      ensures ok <==> forall p | Legacy(books, root, p) :: Backfillable(n, books, root, observed, p)
      ensures ok ==>
                b == Backfilled(books, root, observed) && Owned(n, b) && Grows(books, b) && b.roots == books.roots &&
                b.ops == books.ops
    {
      hide Owned, Grows, ValidObserved, Backfilled, Backfillable, PartlyBackfilled, Conflict, FitsBackfill;
      var todo := set k | k in books.claims && k.0 == root && books.claims[k].target.None? :: k.1;
      ghost var all := todo;
      ghost var done := {};
      b := books;
      GrowsRefl(b);
      NoneBackfilled(b, root, observed);
      assert forall p :: p in todo <==> Legacy(books, root, p);
      while todo != {}
        invariant done + todo == all && done !! todo
        invariant PartlyBackfilled(books, b, root, observed, done) && Owned(n, b) && Grows(books, b)
        invariant forall p | p in done :: Backfillable(n, books, root, observed, p)
        decreases |todo|
      {
        var p :| p in todo;
        var fits := CheckBackfill(n, b, root, observed, p);
        BackfillVerdict(n, books, b, root, observed, done, p, fits);
        if !fits { return false, b; }
        b := SetClaim(b, root, p, observed[p]);
        todo := todo - {p};
        done := done + {p};
      }
      FullyBackfilled(books, b, root, observed, done);
      ok := true;
    }

    /** The recording loop over the sorted paths. */
    method RecordInOrder(b0: Books, root: int, observed: map<Rel, Claim>, order: seq<Rel>) returns (ok: bool, b: Books)
      requires forall p | p in order :: p in observed
      ensures ok <==> AllAcceptable(n, b0, root, observed, order)
      ensures ok ==> b == Recorded(b0, root, observed, order)
    {
      hide Acceptable;
      b := b0;
      for i := 0 to |order|
        invariant b == Recorded(b0, root, observed, order[..i]) && AllAcceptable(n, b0, root, observed, order[..i])
      {
        assert order[..i + 1][..i] == order[..i];
        var acceptable := CheckClaim(n, b, root, order[i], observed[order[i]]);
        if !acceptable {
          if AllAcceptable(n, b0, root, observed, order) { AcceptablePrefix(n, b0, root, observed, order, i + 1); }
          return false, b;
        }
        b := SetClaim(b, root, order[i], observed[order[i]]);
      }
      assert order[..|order|] == order;
      ok := true;
    }

    /** ReserveFollowedPhysicalClaims: every observed claim is recorded, or
        nothing changes. */
    method ReserveClaims(root: int, observed: map<Rel, Claim>, order: seq<Rel>) returns (r: Verdict)
      requires Valid() && Enumerates(order, observed.Keys)
      modifies this
      ensures Valid() && Grows(old(books), books) && pending == old(pending)
      ensures r != Granted ==> books == old(books)
      ensures (r == Granted <==>
                && pending == None && root in old(books).roots && ValidObserved(n, observed)
                && (forall p | Legacy(old(books), root, p) :: Backfillable(n, old(books), root, observed, p))
                && AllAcceptable(n, Backfilled(old(books), root, observed), root, observed, order))
      ensures r == Granted ==>
                && (forall p | p in observed :: (root, p) in books.claims && books.claims[(root, p)] == observed[p])
                && (forall k | k in books.claims && !(k.0 == root && k.1 in observed) ::
                     k in old(books).claims && books.claims[k] == old(books).claims[k])
                && books.roots == old(books).roots && books.ops == old(books).ops
    {
      hide Owned, RootAdmissible, ValidObserved, Backfillable, AllAcceptable, Grows;
      GrowsRefl(books);
      assert forall p | p in order :: p in observed.Keys;
      if pending.Some? || root !in books.roots { return Failed; }
      var valid := ClaimsAreValid(n, observed, true);
      if !valid { return Failed; }
      var filled, b0 := Backfill(root, observed);
      if !filled { return Refused; }
      var ok, b := RecordInOrder(b0, root, observed, order);
      if !ok { return Refused; }
      RecordedKeeps(n, b0, root, observed, order);
      RecordedAll(b0, root, observed, order);
      GrowsTrans(books, b0, b);
      books := b;
      r := Granted;
    }

    /** What has been recorded after some of the traversed boundaries. */
    ghost predicate Refreshing(b: Books, op: Op, claims: map<Rel, Claim>, done: set<Rel>)
      reads this`books
    {
      && PartlyRefreshed(books, b, op, claims, done)
      && Owned(n, b) && Grows(books, b) && b.roots == books.roots && b.ops == books.ops
      && b.claims.Keys == books.claims.Keys
      && forall p | p in done :: Matches(b, op.root, p, claims[p]) && Applies(p, claims[p].kind, op.src)
    }

    /** One traversed boundary against its durable claim, refreshing a file's
        identity. */
    method RefreshOne(b: Books, op: Op, claims: map<Rel, Claim>, ghost done: set<Rel>, p: Rel)
      returns (ok: bool, refreshed: Books)
      requires Owned(n, books) && op.root in books.roots && ValidTraversal(n, claims) && Refreshing(b, op, claims, done)
      requires p in claims && p !in done
      requires NoLegacy(books) ==> forall q | q in done :: BoundaryHolds(n, books, op, q, claims[q])
      ensures ok ==> Refreshing(refreshed, op, claims, done + {p})
      ensures NoLegacy(books) ==> (ok <==> BoundaryHolds(n, books, op, p, claims[p]))
    {
      hide Owned, Conflict, Grows, Applies, Matches, Refreshed, ClaimsOverlap, BoundaryHolds;
      hide PartlyRefreshed, NoLegacy, ValidTraversal, Continues;
      if NoLegacy(books) { RefreshOrderIsIrrelevant(n, books, b, op, claims, done, p); }
      ok := CheckBoundary(n, b, op, p, claims[p]);
      refreshed := Refreshed(b, op.root, p, claims[p]);
      if ok {
        BoundaryIsRecorded(n, b, op, p, claims);
        OneMoreRefreshed(books, b, op, claims, done, p);
        RefreshKeeps(n, b, op, p, claims[p]);
        GrowsTrans(books, b, refreshed);
        assert done <= claims.Keys by { DoneAreClaims(books, b, op, claims, done); }
        AllStillMatch(b, op, claims, done, p);
      }
    }

    /** The walk over the traversed boundaries, in any order. */
    method RefreshBoundaries(op: Op, claims: map<Rel, Claim>) returns (ok: bool, b: Books)
      requires Owned(n, books) && op.root in books.roots && ValidTraversal(n, claims)
      ensures ok ==>
                Owned(n, b) && Grows(books, b) && b.roots == books.roots && b.ops == books.ops &&
                b.claims.Keys == books.claims.Keys
      ensures ok ==> forall p | p in claims :: Matches(b, op.root, p, claims[p]) && Applies(p, claims[p].kind, op.src)
      ensures NoLegacy(books) ==> (ok <==> forall p | p in claims :: BoundaryHolds(n, books, op, p, claims[p]))
      ensures ok ==> PartlyRefreshed(books, b, op, claims, claims.Keys)
    {
      hide Owned, Grows, Applies, Matches, BoundaryHolds, PartlyRefreshed, NoLegacy, ValidTraversal;
      var todo := claims.Keys;
      ghost var done := {};
      b := books;
      GrowsRefl(b);
      NoneRefreshed(b, op, claims);
      while todo != {}
        invariant done + todo == claims.Keys && done !! todo
        invariant Refreshing(b, op, claims, done)
        invariant NoLegacy(books) ==> forall p | p in done :: BoundaryHolds(n, books, op, p, claims[p])
        decreases |todo|
      {
        var p :| p in todo;
        ok, b := RefreshOne(b, op, claims, done, p);
        if !ok { return; }
        todo := todo - {p};
        done := done + {p};
      }
      assert done == claims.Keys;
      ok := true;
    }

    /** AuthorizeAndPinLocalMutation. A followed pin traverses exactly the root's
        durable claims that apply to the path and leads where the deepest of them
        leads; a copy pin needs the copy mode and no other root in its way. */
    method AuthorizePin(id: int, t: Target) returns (r: Verdict)
      requires Valid()
      modifies this
      ensures Valid() && Grows(old(books), books) && pending == old(pending) &&
                books.claims.Keys == old(books).claims.Keys
      ensures r != Granted ==> books == old(books)
      ensures r == Granted ==>
                && old(pending) == None && PinRequestFits(n, old(books), id, t)
                && books.roots == old(books).roots && books.ops.Keys == old(books).ops.Keys
                && (forall o | o in books.ops && o != id :: books.ops[o] == old(books).ops[o])
                && var authority := if t.authority.Some? then t.authority.value
                                    else if t.claims.Keys == {} then Lexical else FollowPhysical;
                books.ops[id] == old(books).ops[id].(pin :=
                    Some(Pin(t.path, authority, t.symlinkTarget, t.claims.Keys)))
      ensures r == Granted ==>
                forall k | k in books.claims ::
                  books.claims[k] ==
                  if k.0 == old(books).ops[id].root && k.1 in t.claims && t.claims[k.1].identity != "" then
                      t.claims[k.1]
                  else old(books).claims[k]
      ensures r == Granted && t.Effective() == FollowPhysical ==>
                && var op := books.ops[id];
                && (forall p :: p in t.claims <==>
                     (op.root, p) in books.claims && Applies(p, books.claims[(op.root, p)].kind, op.src))
                && (forall p | p in t.claims :: Matches(books, op.root, p, t.claims[p]))
                && (t.claims.Keys != {} ==> DerivedTarget(t.claims, op.src) == Some(t.path))
      ensures t.Effective() == FollowPhysical && NoLegacy(old(books)) ==>
                (r == Granted <==>
                  && old(pending) == None && PinRequestFits(n, old(books), id, t)
                  && (forall p | p in t.claims :: BoundaryHolds(n, old(books), old(books).ops[id], p, t.claims[p]))
                  && TraversesAll(old(books), old(books).ops[id], t))
      ensures t.Effective() != FollowPhysical ==>
                (r == Granted <==>
                  && old(pending) == None && PinRequestFits(n, old(books), id, t)
                  && (t.Effective() == CopyPhysical ==>
                        forall i | i in old(books).roots && i != old(books).ops[id].root ::
                          !OverlapsCopyTarget(n, old(books).roots[i], old(books).ops[id].entryKind, t))) &&
                books.claims == old(books).claims
    {
      hide Owned, RootAdmissible, Grows, CopyConflict, DerivedTarget, BoundaryHolds, NoLegacy;
      GrowsRefl(books);
      if pending.Some? { return Failed; }
      var fits := CheckPinRequest(n, books, id, t);
      if !fits { return Failed; }
      var op := books.ops[id];
      if t.Effective() == CopyPhysical {
        CopyConflictIsOverlap(n, books, id, t);
        var kind := if t.symlinkTarget != "" then KindFile else op.entryKind;
        var conflict := FindRootAroundCopy(n, books, op.root, t.path, kind);
        if conflict { return Refused; }
      }
      var b := books;
      if t.Effective() == FollowPhysical {
        var ok;
        ok, b := RefreshBoundaries(op, t.claims);
        if !ok { return Refused; }
        KindsStay(books, b, op, t);
        ok := CheckTraversal(b, op, t);
        if !ok { return Refused; }
        FollowPinKeeps(n, books, b, id, t);
      } else {
        PinKeeps(n, b, id, t);
      }
      books := Pinned(b, id, t);
      r := Granted;
    }

    /** InitializeSyncRoot: closes pairing when the observed claims are exactly the
        recorded ones. */
    method InitializeRoot(root: int, observed: map<Rel, Claim>) returns (r: Verdict)
      requires Valid()
      modifies this
      ensures Valid() && Grows(old(books), books) && pending == old(pending)
      ensures (r == Granted <==>
                && old(pending) == None && root in old(books).roots && !old(books).roots[root].initialized
                && ValidObserved(n, observed) && ClaimsOf(old(books).claims, root) == observed)
      ensures books == if r == Granted
                       then old(books).(roots := old(books).roots[root := old(books).roots[root].(initialized := true)])
                       else old(books)
    {
      hide Owned, RootAdmissible, ValidObserved;
      var valid := ClaimsAreValid(n, observed, true);
      if pending.Some? || !valid || root !in books.roots || books.roots[root].initialized ||
         ClaimsOf(books.claims, root) != observed {
        return Failed;
      }
      UpdateRootKeeps(n, books, root, books.roots[root].(initialized := true));
      books := books.(roots := books.roots[root := books.roots[root].(initialized := true)]);
      r := Granted;
    }

    method SetEnabled(root: int, enabled: bool) returns (r: Verdict)
      requires Valid()
      modifies this
      ensures Valid() && Grows(old(books), books) && pending == old(pending)
      ensures r == Granted <==> old(pending) == None && root in old(books).roots
      ensures books == if r == Granted
                       then old(books).(roots := old(books).roots[root := old(books).roots[root].(enabled := enabled)])
                       else old(books)
    {
      hide Owned, RootAdmissible;
      if pending.Some? || root !in books.roots { return Failed; }
      UpdateRootKeeps(n, books, root, books.roots[root].(enabled := enabled));
      books := books.(roots := books.roots[root := books.roots[root].(enabled := enabled)]);
      r := Granted;
    }

    /** SetSyncRootSymlinkMode: only a paused root without operations, and never
        across copy once it is initialized. */
    method SetMode(root: int, mode: Mode) returns (r: Verdict)
      requires Valid()
      modifies this
      ensures Valid() && Grows(old(books), books) && pending == old(pending)
      ensures r == Granted <==>
                && old(pending) == None && root in old(books).roots && !old(books).roots[root].enabled
                && (forall o | o in old(books).ops :: old(books).ops[o].root != root)
                && (old(books).roots[root].initialized ==> (old(books).roots[root].mode == Copy <==> mode == Copy))
      ensures books == if r == Granted
                       then old(books).(roots := old(books).roots[root := old(books).roots[root].(mode := mode)])
                       else old(books)
    {
      hide Owned, RootAdmissible;
      if pending.Some? || !ModeMayChange(books, root, mode) { return Failed; }
      UpdateRootKeeps(n, books, root, books.roots[root].(mode := mode));
      books := books.(roots := books.roots[root := books.roots[root].(mode := mode)]);
      r := Granted;
    }

    /** DeleteSyncRoot: a paused root without operations; its claims go with it. */
    method DeleteRoot(root: int) returns (r: Verdict)
      requires Valid()
      modifies this
      ensures Valid() && pending == old(pending)
      ensures r == Granted <==>
                old(pending) == None && root in old(books).roots && !old(books).roots[root].enabled &&
                Idle(old(books), root)
      ensures books == if r == Granted then WithoutRoot(old(books), root) else old(books)
    {
      hide Owned, RootAdmissible;
      if pending.Some? || root !in books.roots || books.roots[root].enabled || !Idle(books, root) { return Failed; }
      WithoutRootKeeps(n, books, root);
      books := WithoutRoot(books, root);
      r := Granted;
    }

    /** CreateOperation: planned, unattempted, unpinned. */
    method CreateOperation(root: int, isLocal: bool, entryKind: EntryKind, src: Rel) returns (r: Verdict, id: int)
      requires Valid()
      modifies this
      ensures Valid() && Grows(old(books), books) && pending == old(pending)
      ensures r == Granted <==> old(pending) == None && root in old(books).roots && src != []
      ensures r == Granted ==> id !in old(books).ops
      ensures books == if r == Granted
                       then old(books).(ops := old(books).ops[id := Op(root, isLocal, entryKind, src, true, 0, None)])
                       else old(books)
    {
      hide RootAdmissible, Overlap, RootsOverlap, ClaimsOverlap, RootOverlapsClaim, LeadsTo;
      id := nextID;
      GrowsRefl(books);
      if pending.Some? || root !in books.roots || src == [] { return Failed, id; }
      books := books.(ops := books.ops[id := Op(root, isLocal, entryKind, src, true, 0, None)]);
      nextID := nextID + 1;
      r := Granted;
    }

    /** The start of an attempt. */
    method StartOperation(id: int) returns (r: Verdict)
      requires Valid()
      modifies this
      ensures Valid() && Grows(old(books), books) && pending == old(pending)
      ensures r == Granted <==> old(pending) == None && id in old(books).ops
      ensures books == if r == Granted
                       then old(books).(ops :=
                           old(books).ops[id :=
                           old(books).ops[id].(planned := false, attempts := old(books).ops[id].attempts + 1)])
                       else old(books)
    {
      hide RootAdmissible, Overlap, RootsOverlap, ClaimsOverlap, RootOverlapsClaim, LeadsTo;
      GrowsRefl(books);
      if pending.Some? || id !in books.ops { return Failed; }
      var op := books.ops[id];
      StartKeeps(n, books, id);
      books := books.(ops := books.ops[id := op.(planned := false, attempts := op.attempts + 1)]);
      r := Granted;
    }

    /** DeleteOperation of a planned row, or the removal of a completed one. */
    method RemoveOperation(id: int, completed: bool) returns (r: Verdict)
      requires Valid()
      modifies this
      ensures Valid() && Grows(old(books), books) && pending == old(pending)
      ensures r == Granted <==>
                old(pending) == None && id in old(books).ops && (completed || old(books).ops[id].planned)
      ensures books == if r == Granted then old(books).(ops := old(books).ops - {id}) else old(books)
    {
      hide RootAdmissible, Overlap, RootsOverlap, ClaimsOverlap, RootOverlapsClaim, LeadsTo;
      GrowsRefl(books);
      if pending.Some? || id !in books.ops || (!completed && !books.ops[id].planned) { return Failed; }
      books := books.(ops := books.ops - {id});
      r := Granted;
    }
  }

  predicate Idle(b: Books, root: int) {
    forall o | o in b.ops :: b.ops[o].root != root
  }

  predicate ModeMayChange(b: Books, root: int, mode: Mode) {
    && root in b.roots && !b.roots[root].enabled && Idle(b, root)
    && !(b.roots[root].initialized && ((b.roots[root].mode == Copy) != (mode == Copy)))
  }

  function WithoutRoot(b: Books, root: int): Books {
    b.(roots := b.roots - {root}, claims := map k | k in b.claims && k.0 != root :: b.claims[k])
  }

  /** Changing what ownership does not depend on. */
  lemma UpdateRootKeeps(n: Naming, b: Books, root: int, r: Root)
    requires Owned(n, b) && root in b.roots && r.local == b.roots[root].local && r.remote == b.roots[root].remote
    requires r.mode == b.roots[root].mode || Idle(b, root)
    requires b.roots[root].initialized ==> r.initialized
    ensures Owned(n, b.(roots := b.roots[root := r])) && Grows(b, b.(roots := b.roots[root := r]))
  {
    hide Overlap, ClaimsOverlap, LeadsTo, Within;
    var b' := b.(roots := b.roots[root := r]);
    forall i, j | i in b'.roots && j in b'.roots && i != j
      ensures !RootsOverlap(n, b'.roots[i], b'.roots[j])
    {
      assert !RootsOverlap(n, b.roots[i], b.roots[j]);
    }
    forall k, i | k in b'.claims && i in b'.roots && i != k.0
      ensures !RootOverlapsClaim(n, b'.roots[i], b'.claims[k])
    {
      assert !RootOverlapsClaim(n, b.roots[i], b.claims[k]);
    }
    forall o, i | o in b'.ops && i in b'.roots && i != b'.ops[o].root
      ensures !RootOverlapsCopyPin(n, b'.roots[i], b'.ops[o])
    {
      assert !RootOverlapsCopyPin(n, b.roots[i], b.ops[o]);
    }
  }

  lemma WithoutRootKeeps(n: Naming, b: Books, root: int)
    requires Owned(n, b) && Idle(b, root)
    ensures Owned(n, WithoutRoot(b, root))
  {
    hide Overlap, RootsOverlap, ClaimsOverlap, RootOverlapsClaim, RootOverlapsCopyPin, Within;
    var b' := WithoutRoot(b, root);
    forall o | o in b'.ops && b'.ops[o].pin.Some? && b'.ops[o].pin.value.boundaries != {}
      ensures exists p | p in b'.ops[o].pin.value.boundaries :: LeadsTo(b'.claims, b'.ops[o], p)
    {
      var p :| p in b.ops[o].pin.value.boundaries && LeadsTo(b.claims, b.ops[o], p);
      assert LeadsTo(b'.claims, b'.ops[o], p);
    }
  }

  lemma StartKeeps(n: Naming, b: Books, id: int)
    requires Owned(n, b) && id in b.ops
    ensures var op := b.ops[id];
            var b' := b.(ops := b.ops[id := op.(planned := false, attempts := op.attempts + 1)]);
            Owned(n, b') && Grows(b, b')
  {
    hide Overlap, RootsOverlap, ClaimsOverlap, RootOverlapsClaim, Within;
    var op := b.ops[id];
    var b' := b.(ops := b.ops[id := op.(planned := false, attempts := op.attempts + 1)]);
    forall o | o in b'.ops && b'.ops[o].pin.Some? && b'.ops[o].pin.value.boundaries != {}
      ensures exists p | p in b'.ops[o].pin.value.boundaries :: LeadsTo(b'.claims, b'.ops[o], p)
    {
      var p :| p in b.ops[o].pin.value.boundaries && LeadsTo(b.claims, b.ops[o], p);
      assert LeadsTo(b'.claims, b'.ops[o], p);
    }
  }

  /** No applicable durable claim was left out, and the path is where the deepest
      boundary leads. */
  predicate TraversesAll(b: Books, op: Op, t: Target) {
    && (forall k | k in b.claims && k.0 == op.root && Applies(k.1, b.claims[k].kind, op.src) :: k.1 in t.claims)
    && (t.claims.Keys != {} ==> DerivedTarget(t.claims, op.src) == Some(t.path))
  }

  lemma KindsStay(b0: Books, b: Books, op: Op, t: Target)
    requires Grows(b0, b) && b.claims.Keys == b0.claims.Keys
    ensures TraversesAll(b, op, t) <==> TraversesAll(b0, op, t)
  {
    hide DerivedTarget, Applies;
    assert forall k | k in b0.claims :: Continues(b0.claims[k], b.claims[k]);
  }

  lemma FollowPinKeeps(n: Naming, b0: Books, b: Books, id: int, t: Target)
    requires PinRequestFits(n, b0, id, t) && t.Effective() == FollowPhysical
    requires Owned(n, b) && Grows(b0, b) && b.roots == b0.roots && b.ops == b0.ops
    requires forall p | p in t.claims ::
               Matches(b, b.ops[id].root, p, t.claims[p]) && Applies(p, t.claims[p].kind, b.ops[id].src)
    requires TraversesAll(b, b.ops[id], t)
    ensures Owned(n, Pinned(b, id, t)) && Grows(b0, Pinned(b, id, t))
    ensures var op := Pinned(b, id, t).ops[id];
            forall p :: p in t.claims <==> (op.root, p) in b.claims && Applies(p, b.claims[(op.root, p)].kind, op.src)
  {
    hide Owned, Grows, DerivedTarget, Applies, ValidTraversal;
    var op := Pinned(b, id, t).ops[id];
    if t.claims.Keys != {} { DeepestLeads(b, op, t); }
    PinKeeps(n, b, id, t);
    GrowsTrans(b0, b, Pinned(b, id, t));
  }

  // ----- Any interleaving of requests -----

  datatype Request =
    | Prepare(root: Root) | Commit | Close
    | Reserve(id: int, observed: map<Rel, Claim>, order: seq<Rel>)
    | PinOp(id: int, target: Target)
    | Initialize(id: int, observed: map<Rel, Claim>)
    | Enable(id: int, enabled: bool)
    | ChangeMode(id: int, mode: Mode)
    | DropRoot(id: int)
    | Create(id: int, isLocal: bool, entryKind: EntryKind, src: Rel)
    | Start(id: int)
    | Remove(id: int, completed: bool)

  /** One thing that is owned. */
  datatype Entry = RootEntry(id: int, root: Root) | ClaimEntry(id: int, path: Rel, claim: Claim)
      | PinEntry(id: int, op: Op)

  predicate On(b: Books, e: Entry) {
    match e
    case RootEntry(id, root) => id in b.roots && b.roots[id] == root
    case ClaimEntry(id, path, claim) => (id, path) in b.claims && b.claims[(id, path)] == claim
    case PinEntry(id, op) => id in b.ops && b.ops[id] == op
  }

  /** What a request asks to have put on the books. */
  predicate AsksFor(b: Books, request: Request, e: Entry) {
    match request
    case Prepare(root) => e.RootEntry? && e.id !in b.roots && e.root == root
    case Reserve(id, observed, _) => e.ClaimEntry? && e.id == id && e.path in observed && e.claim == observed[e.path]
    case PinOp(id, target) => e.PinEntry? && id in b.ops && e == PinEntry(id, Pinned(b, id, target).ops[id])
    case _ => false
  }

  /** The physical objects of two entries overlap, and not because one is the
      other's own. */
  predicate Clash(n: Naming, a: Entry, e: Entry) {
    match (a, e)
    case (RootEntry(i, r), RootEntry(j, q)) => i != j && RootsOverlap(n, r, q)
    case (RootEntry(i, r), ClaimEntry(j, _, c)) => i != j && RootOverlapsClaim(n, r, c)
    case (RootEntry(i, r), PinEntry(_, op)) => i != op.root && RootOverlapsCopyPin(n, r, op)
    case (ClaimEntry(j, _, c), RootEntry(i, r)) => i != j && RootOverlapsClaim(n, r, c)
    case (ClaimEntry(i, p, c), ClaimEntry(j, q, d)) => (i, p) != (j, q) && ClaimsOverlap(n, c, d)
    case (PinEntry(_, op), RootEntry(i, r)) => i != op.root && RootOverlapsCopyPin(n, r, op)
    case _ => false
  }

  datatype State = State(books: Books, pending: Option<Root>)

  /** The request from state s to state t was granted alone: nobody was in the
      middle of creating a root, what it asks for is on the books afterwards (a
      prepared root as the reservation), and nothing that was on the books and
      still is clashes with it. */
  ghost predicate GrantedAlone(n: Naming, s: State, t: State, request: Request) {
    && s.pending == None
    && (request.Prepare? ==> t.pending == Some(request.root))
    && forall e | AsksFor(s.books, request, e) ::
         && (!request.Prepare? ==> On(t.books, e))
         && forall a | On(s.books, a) && On(t.books, a) :: !Clash(n, a, e)
  }

  lemma PrepareIsAlone(n: Naming, s: State, root: Root)
    requires RootAdmissible(n, s.books, root) && s.pending == None
    ensures GrantedAlone(n, s, State(s.books, Some(root)), Prepare(root))
  {
    hide Overlap, ClaimsOverlap, RootOverlapsClaim, RootOverlapsCopyPin;
    forall a, e | On(s.books, a) && AsksFor(s.books, Prepare(root), e)
      ensures !Clash(n, a, e)
    {
    }
  }

  lemma ReserveIsAlone(n: Naming, s: State, b: Books, id: int, observed: map<Rel, Claim>, order: seq<Rel>)
    requires Owned(n, b) && s.pending == None
    requires forall p | p in observed :: (id, p) in b.claims && b.claims[(id, p)] == observed[p]
    ensures GrantedAlone(n, s, State(b, None), Reserve(id, observed, order))
  {
    hide Overlap, RootsOverlap, ClaimsOverlap, RootOverlapsClaim, RootOverlapsCopyPin;
  }

  lemma PinIsAlone(n: Naming, s: State, b: Books, id: int, t: Target)
    requires Owned(n, b) && s.pending == None && id in s.books.ops && b.ops.Keys == s.books.ops.Keys
    requires b.ops[id] == Pinned(s.books, id, t).ops[id]
    ensures GrantedAlone(n, s, State(b, None), PinOp(id, t))
  {
    hide Overlap, RootsOverlap, ClaimsOverlap, RootOverlapsClaim, RootOverlapsCopyPin;
  }

  predicate TakesOwnership(r: Request) { r.Prepare? || r.Reserve? || r.PinOp? }

  /** Any interleaving of any requests keeps ownership disjoint and, for as long
      as no root is removed, claims only grow. Of two overlapping requests for a
      root, claims or a pin, the later one is granted only when what the earlier
      one asked for is not on the books, or no longer. */
  method Serve(reg: Registry, requests: seq<Request>) returns (verdicts: seq<Verdict>, ghost history: seq<State>)
    requires reg.Valid()
    requires forall r | r in requests && r.Reserve? :: Enumerates(r.order, r.observed.Keys)
    modifies reg
    ensures reg.Valid() && Owned(reg.n, reg.books)
    ensures (forall r | r in requests :: !r.DropRoot?) ==> Grows(old(reg.books), reg.books)
    ensures |verdicts| == |requests| && |history| == |requests| + 1
    ensures history[0] == State(old(reg.books), old(reg.pending)) &&
              history[|requests|] == State(reg.books, reg.pending)
    ensures forall j :: 0 <= j < |requests| && TakesOwnership(requests[j]) && verdicts[j] == Granted ==>
              GrantedAlone(reg.n, history[j], history[j + 1], requests[j])
    ensures forall j :: 0 <= j < |requests| && TakesOwnership(requests[j]) && verdicts[j] != Granted ==>
              history[j + 1] == history[j]
  {
    hide Owned, RootAdmissible, Grows, GrantedAlone;
    GrowsRefl(reg.books);
    verdicts, history := [], [State(reg.books, reg.pending)];
    for i := 0 to |requests|
      invariant reg.Valid()
      invariant (forall r | r in requests :: !r.DropRoot?) ==> Grows(old(reg.books), reg.books)
      invariant |verdicts| == i && |history| == i + 1
      invariant history[0] == State(old(reg.books), old(reg.pending)) && history[i] == State(reg.books, reg.pending)
      invariant forall j :: 0 <= j < i && TakesOwnership(requests[j]) && verdicts[j] == Granted ==>
                  GrantedAlone(reg.n, history[j], history[j + 1], requests[j])
      invariant forall j :: 0 <= j < i && TakesOwnership(requests[j]) && verdicts[j] != Granted ==>
                  history[j + 1] == history[j]
    {
      ghost var before := reg.books;
      assert requests[i] in requests;
      var verdict := ServeOne(reg, requests[i]);
      if !requests[i].DropRoot? && Grows(old(reg.books), before) {
        GrowsTrans(old(reg.books), before, reg.books);
      }
      verdicts, history := verdicts + [verdict], history + [State(reg.books, reg.pending)];
    }
  }

  method ServeOne(reg: Registry, request: Request) returns (verdict: Verdict)
    requires reg.Valid() && (request.Reserve? ==> Enumerates(request.order, request.observed.Keys))
    modifies reg
    ensures reg.Valid() && (!request.DropRoot? ==> Grows(old(reg.books), reg.books))
    ensures TakesOwnership(request) && verdict == Granted ==>
              GrantedAlone(reg.n, State(old(reg.books), old(reg.pending)), State(reg.books, reg.pending), request)
    ensures TakesOwnership(request) && verdict != Granted ==>
              State(reg.books, reg.pending) == State(old(reg.books), old(reg.pending))
  {
    hide Owned, RootAdmissible, Grows, GrantedAlone, PinRequestFits, ValidObserved, Backfillable;
    hide AllAcceptable, CopyConflict, DerivedTarget;
    GrowsRefl(reg.books);
    ghost var s := State(reg.books, reg.pending);
    var row;
    match request
    case Prepare(root) =>
      verdict := reg.PrepareRoot(root);
      if verdict == Granted { PrepareIsAlone(reg.n, s, root); }
    case Commit => verdict, row := reg.CommitRoot();
    case Close => reg.CloseRoot(); verdict := Granted;
    case Reserve(id, observed, order) =>
      verdict := reg.ReserveClaims(id, observed, order);
      if verdict == Granted { ReserveIsAlone(reg.n, s, reg.books, id, observed, order); }
    case PinOp(id, target) =>
      verdict := reg.AuthorizePin(id, target);
      if verdict == Granted { FitsHasRow(reg.n, s.books, id, target); PinIsAlone(reg.n, s, reg.books, id, target); }
    case Initialize(id, observed) => verdict := reg.InitializeRoot(id, observed);
    case Enable(id, enabled) => verdict := reg.SetEnabled(id, enabled);
    case ChangeMode(id, mode) => verdict := reg.SetMode(id, mode);
    case DropRoot(id) => verdict := reg.DeleteRoot(id);
    case Create(id, isLocal, entryKind, src) => verdict, row := reg.CreateOperation(id, isLocal, entryKind, src);
    case Start(id) => verdict := reg.StartOperation(id);
    case Remove(id, completed) => verdict := reg.RemoveOperation(id, completed);
  }

  lemma FitsHasRow(n: Naming, b: Books, id: int, t: Target)
    requires PinRequestFits(n, b, id, t)
    ensures id in b.ops
  {
  }

  // ----- A followed pin that reaches further than its claim -----

  const OBSERVED: map<Rel, Claim> := map[["f"] := FILE_CLAIM]

  /** The claimed file clashes with nothing. */
  lemma FileIsAcceptable(b: Books, root: int)
    requires b.claims == map[] && root in b.roots && !b.roots[root].initialized
    requires forall i | i in b.roots && i != root :: b.roots[i] == SECOND
    ensures ValidObserved(PLAIN, OBSERVED) && Backfilled(b, root, OBSERVED) == b
    ensures AllAcceptable(PLAIN, b, root, OBSERVED, [["f"]])
  {
    hide Overlap, RootOverlapsClaim;
    ApartAtFirst();
    var order := [["f"]];
    assert order[..0] == [] && Recorded(b, root, OBSERVED, []) == b;
    assert Backfilled(b, root, OBSERVED).claims == b.claims;
  }

  const TARGET := Target(["t"], "id", Some(FollowPhysical), "", OBSERVED)

  lemma PinIsGranted(b: Books, root: int, id: int)
    requires b.claims == map[(root, ["f"]) := FILE_CLAIM] && root in b.roots
    requires forall i | i in b.roots && i != root :: b.roots[i] == SECOND
    requires id in b.ops && b.ops[id] == Op(root, true, KindDir, ["f"], true, 0, None)
    ensures NoLegacy(b) && PinRequestFits(PLAIN, b, id, TARGET)
    ensures BoundaryHolds(PLAIN, b, b.ops[id], ["f"], FILE_CLAIM) && TraversesAll(b, b.ops[id], TARGET)
  {
    hide Overlap, RootOverlapsClaim;
    ApartAtFirst();
    assert ["f"][..1] == ["f"] && ["f"][1..] == [] && ["t"] + [] == ["t"];
    assert DeepestFrom(OBSERVED, ["f"], 1) == Some(["f"]);
  }

  /** The store grants, one after the other, two roots, a claimed file and a pin
      of a directory operation at that file's path; the second root lies inside
      the pinned path. */
  method PinReachesInside() returns (reg: Registry, id: int, other: int)
    ensures reg.Valid() && Owned(reg.n, reg.books)
    ensures id in reg.books.ops && other in reg.books.roots && reg.books.ops[id].root != other
    ensures reg.books.ops[id].pin.Some? && reg.books.ops[id].pin.value.authority == FollowPhysical
    ensures var op := reg.books.ops[id];
            Overlap(reg.n, op.pin.value.path, PinKind(op), reg.books.roots[other].local, KindDir)
  {
    hide Owned, Overlap, RootsOverlap, RootOverlapsClaim, Grows, DerivedTarget;
    hide ValidObserved, AllAcceptable, Backfilled, NoLegacy, PinRequestFits, BoundaryHolds, TraversesAll;
    ApartAtFirst();
    reg := new Registry(PLAIN);
    var v := reg.PrepareRoot(FIRST);
    assert v == Granted;
    var first;
    v, first := reg.CommitRoot();
    assert v == Granted;
    v := reg.PrepareRoot(SECOND);
    assert v == Granted;
    v, other := reg.CommitRoot();
    assert v == Granted;
    assert first in reg.books.roots && first != other;
    FileIsAcceptable(reg.books, first);
    v := reg.ReserveClaims(first, OBSERVED, [["f"]]);
    assert v == Granted;
    v, id := reg.CreateOperation(first, true, KindDir, ["f"]);
    assert v == Granted;
    assert reg.books.claims == map[(first, ["f"]) := FILE_CLAIM];
    PinIsGranted(reg.books, first, id);
    v := reg.AuthorizePin(id, TARGET);
    assert v == Granted;
  }
}
