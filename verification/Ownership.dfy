/** Physical ownership: configured roots, followed symlink targets and pins of
    local mutations, and the one disjointness invariant across all of them. */
module Ownership {
  import opened Domain

  /** An absolute canonical path, and a path relative to a root, by segments. */
  type Path = seq<string>
  type Rel = seq<string>

  datatype Mode = Follow | Copy | Reject | Ignore
  datatype Authority = Lexical | FollowPhysical | CopyPhysical

  datatype Root = Root(local: Path, remote: Rel, enabled: bool, initialized: bool, mode: Mode)

  /** identity "" is an unavailable object; target None is a legacy row whose
      canonical target is unknown. */
  datatype Claim = Claim(kind: EntryKind, identity: string, target: Option<Path>)

  /** boundaries are the claims the pin was authorized under; the row itself does
      not keep them. */
  datatype Pin = Pin(path: Path, authority: Authority, symlinkTarget: string, boundaries: set<Rel>)

  /** What the registry knows of an operation. */
  datatype Op = Op(root: int, isLocal: bool, entryKind: EntryKind, src: Rel, planned: bool, attempts: nat,
      pin: Option<Pin>)

  /** How the platform compares and canonicalizes path names. */
  datatype Naming = Naming(fold: string -> string, rootPath: Path -> Path, mutationPath: Path -> Path)

  datatype Books = Books(roots: map<int, Root>, claims: map<(int, Rel), Claim>, ops: map<int, Op>)

  // ----- Overlap -----

  predicate Within<T(==)>(a: seq<T>, b: seq<T>) {
    |a| <= |b| && b[..|a|] == a
  }

  function Fold(n: Naming, p: Path): Path {
    seq(|p|, i requires 0 <= i < |p| => n.fold(p[i]))
  }

  /** Two physical objects overlap: the same path name, or one inside the other's
      directory. */
  predicate Overlap(n: Naming, a: Path, aKind: EntryKind, b: Path, bKind: EntryKind) {
    || Fold(n, a) == Fold(n, b)
    || (aKind == KindDir && Within(Fold(n, a), Fold(n, b)))
    || (bKind == KindDir && Within(Fold(n, b), Fold(n, a)))
  }

  predicate RootsOverlap(n: Naming, a: Root, b: Root) {
    Overlap(n, a.local, KindDir, b.local, KindDir) || Within(a.remote, b.remote) || Within(b.remote, a.remote)
  }

  predicate ClaimsOverlap(n: Naming, a: Claim, b: Claim) {
    || (a.identity != "" && a.identity == b.identity)
    || (a.target.Some? && b.target.Some? && Overlap(n, a.target.value, a.kind, b.target.value, b.kind))
  }

  predicate RootOverlapsClaim(n: Naming, r: Root, c: Claim) {
    c.target.Some? && Overlap(n, r.local, KindDir, c.target.value, c.kind)
  }

  /** A copied symlink is a lexical object even below a copied directory. */
  function PinKind(op: Op): EntryKind
    requires op.pin.Some?
  {
    if op.pin.value.symlinkTarget != "" then KindFile else op.entryKind
  }

  predicate RootOverlapsCopyPin(n: Naming, r: Root, op: Op) {
    && op.pin.Some? && op.pin.value.authority == CopyPhysical
    && Overlap(n, n.rootPath(r.local), KindDir, n.mutationPath(op.pin.value.path), PinKind(op))
  }

  lemma FoldLength(n: Naming, p: Path)
    ensures |Fold(n, p)| == |p|
    ensures forall i :: 0 <= i < |p| ==> Fold(n, p)[i] == n.fold(p[i])
  {
  }

  lemma FoldWithin(n: Naming, a: Path, b: Path)
    requires Within(a, b)
    ensures Within(Fold(n, a), Fold(n, b))
  {
    FoldLength(n, a);
    FoldLength(n, b);
    forall i | 0 <= i < |a|
      ensures Fold(n, b)[i] == Fold(n, a)[i]
    {
      assert b[..|a|][i] == b[i];
    }
  }

  lemma WithinTrans<T>(a: seq<T>, b: seq<T>, c: seq<T>)
    requires Within(a, b) && Within(b, c)
    ensures Within(a, c)
  {
    assert c[..|a|] == c[..|b|][..|a|];
  }

  lemma WithinComparable<T>(a: seq<T>, b: seq<T>, c: seq<T>)
    requires Within(a, c) && Within(b, c)
    ensures Within(a, b) || Within(b, a)
  {
    if |a| <= |b| {
      assert b[..|a|] == c[..|b|][..|a|] == c[..|a|];
    } else {
      assert a[..|b|] == c[..|a|][..|b|] == c[..|b|];
    }
  }

  /** What lies inside a claimed directory overlaps nothing that the directory
      does not overlap. */
  lemma InsideStaysDisjoint(n: Naming, dir: Path, inside: Path, kind: EntryKind, other: Path, otherKind: EntryKind)
    requires Within(dir, inside) && !Overlap(n, dir, KindDir, other, otherKind)
    ensures !Overlap(n, inside, kind, other, otherKind)
  {
    FoldWithin(n, dir, inside);
    var d, x, o := Fold(n, dir), Fold(n, inside), Fold(n, other);
    if Overlap(n, inside, kind, other, otherKind) {
      if Within(x, o) {
        WithinTrans(d, x, o);
      } else {
        assert Within(o, x);
        WithinComparable(d, o, x);
      }
    }
  }

  // ----- The invariant -----

  ghost predicate RootsDisjoint(n: Naming, b: Books) {
    forall i, j | i in b.roots && j in b.roots && i != j :: !RootsOverlap(n, b.roots[i], b.roots[j])
  }

  ghost predicate ClaimsDisjoint(n: Naming, b: Books) {
    forall k, l | k in b.claims && l in b.claims && k != l :: !ClaimsOverlap(n, b.claims[k], b.claims[l])
  }

  ghost predicate ClaimsOutsideRoots(n: Naming, b: Books) {
    forall k, i | k in b.claims && i in b.roots && i != k.0 :: !RootOverlapsClaim(n, b.roots[i], b.claims[k])
  }

  ghost predicate CopyPinsOutsideRoots(n: Naming, b: Books) {
    forall o, i | o in b.ops && i in b.roots && i != b.ops[o].root :: !RootOverlapsCopyPin(n, b.roots[i], b.ops[o])
  }

  ghost predicate RowsBelong(b: Books) {
    && (forall k | k in b.claims :: k.0 in b.roots && k.1 != [] && b.claims[k].identity != "")
    && (forall k | k in b.claims :: b.claims[k].kind == KindFile || b.claims[k].kind == KindDir)
    && (forall o | o in b.ops :: b.ops[o].root in b.roots && b.ops[o].src != [])
  }

  ghost predicate CopyPinsNeedCopyMode(b: Books) {
    forall o | o in b.ops && b.ops[o].pin.Some? && b.ops[o].root in b.roots ::
      b.ops[o].pin.value.authority == CopyPhysical || b.ops[o].pin.value.symlinkTarget != "" ==>
          b.roots[b.ops[o].root].mode == Copy
  }

  /** The claim leads from its path to the pinned path. */
  predicate LeadsTo(claims: map<(int, Rel), Claim>, op: Op, p: Rel) {
    && (op.root, p) in claims && op.pin.Some?
    && Within(p, op.src) && claims[(op.root, p)].target.Some?
    && (p != op.src ==> claims[(op.root, p)].kind == KindDir)
    && op.pin.value.path == claims[(op.root, p)].target.value + op.src[|p|..]
  }

  /** A followed pin lies where one of the root's claims on its way leads. */
  ghost predicate FollowPinsBacked(b: Books) {
    forall o | o in b.ops && b.ops[o].pin.Some? && b.ops[o].pin.value.boundaries != {} ::
      exists p | p in b.ops[o].pin.value.boundaries :: LeadsTo(b.claims, b.ops[o], p)
  }

  ghost predicate Owned(n: Naming, b: Books) {
    && RootsDisjoint(n, b) && ClaimsDisjoint(n, b) && ClaimsOutsideRoots(n, b) && CopyPinsOutsideRoots(n, b)
    && RowsBelong(b) && CopyPinsNeedCopyMode(b) && FollowPinsBacked(b)
  }

  /** Disjoint ownership, thing by thing: two roots are neither inside each other
      nor share a remote subtree; two claims have different identities and neither
      leads into the other; no root lies around another root's claim or copy pin,
      nor inside a claimed directory; and a claim belongs to a root. */
  lemma OwnedMeans(n: Naming, b: Books)
    requires Owned(n, b)
    ensures forall i, j | i in b.roots && j in b.roots && i != j ::
              && Fold(n, b.roots[i].local) != Fold(n, b.roots[j].local)
              && !Within(Fold(n, b.roots[i].local), Fold(n, b.roots[j].local))
              && !Within(b.roots[i].remote, b.roots[j].remote)
    ensures forall k, l | k in b.claims && l in b.claims && k != l ::
              && b.claims[k].identity != b.claims[l].identity
              && (b.claims[k].target.Some? && b.claims[l].target.Some? ==>
                    && Fold(n, b.claims[k].target.value) != Fold(n, b.claims[l].target.value)
                    && (b.claims[k].kind == KindDir ==>
                          !Within(Fold(n, b.claims[k].target.value), Fold(n, b.claims[l].target.value))))
    ensures forall k, i | k in b.claims && i in b.roots && i != k.0 && b.claims[k].target.Some? ::
              && !Within(Fold(n, b.roots[i].local), Fold(n, b.claims[k].target.value))
              && (b.claims[k].kind == KindDir ==> !Within(Fold(n, b.claims[k].target.value), Fold(n, b.roots[i].local)))
    ensures forall o, i | o in b.ops && i in b.roots && i != b.ops[o].root && b.ops[o].pin.Some? &&
                          b.ops[o].pin.value.authority == CopyPhysical ::
              !Within(Fold(n, n.rootPath(b.roots[i].local)), Fold(n, n.mutationPath(b.ops[o].pin.value.path)))
    ensures forall k | k in b.claims :: k.0 in b.roots && b.claims[k].identity != ""
  {
    hide Within, Fold;
    assert forall i, j | i in b.roots && j in b.roots && i != j :: !RootsOverlap(n, b.roots[i], b.roots[j]);
    assert forall k, l | k in b.claims && l in b.claims && k != l :: !ClaimsOverlap(n, b.claims[k], b.claims[l]);
    assert forall k, i | k in b.claims && i in b.roots && i != k.0 :: !RootOverlapsClaim(n, b.roots[i], b.claims[k]);
    assert forall o, i | o in b.ops && i in b.roots && i != b.ops[o].root ::
        !RootOverlapsCopyPin(n, b.roots[i], b.ops[o]);
  }

  // ----- Claims on the way of a mutation -----

  function ClaimsOf(claims: map<(int, Rel), Claim>, root: int): map<Rel, Claim> {
    map k | k in claims && k.0 == root :: k.1 := claims[k]
  }

  predicate Applies(path: Rel, kind: EntryKind, mutation: Rel) {
    path == mutation || (kind == KindDir && Within(path, mutation))
  }

  /** The longest prefix of the mutation path, from length len down, that carries
      an applicable claim. */
  function DeepestFrom(claims: map<Rel, Claim>, mutation: Rel, len: nat): (r: Option<Rel>)
    requires len <= |mutation|
    ensures r.Some? ==> r.value in claims && Applies(r.value, claims[r.value].kind, mutation) && |r.value| <= len
    ensures forall p | p in claims && Applies(p, claims[p].kind, mutation) && |p| <= len ::
              r.Some? && Within(p, r.value)
  {
    var p := mutation[..len];
    assert forall q: Rel, kind | Applies(q, kind, mutation) && |q| == len :: q == p;
    assert forall q: Rel | Within(q, mutation) && |q| <= len :: Within(q, p);
    if p in claims && Applies(p, claims[p].kind, mutation) then Some(p)
    else if len == 0 then
      None
    else DeepestFrom(claims, mutation, len - 1)
  }

  /** mutationTargetFromDeepestClaim: the claim's target plus what remains. */
  function DerivedTarget(claims: map<Rel, Claim>, mutation: Rel): Option<Path> {
    var d := DeepestFrom(claims, mutation, |mutation|);
    if d.None? || claims[d.value].target.None? then None
    else Some(claims[d.value].target.value + mutation[|d.value|..])
  }

  // ----- What each kind of change keeps -----

  /** checkSyncRootOwnershipAgainst, checkSyncRootAgainstFollowedClaims and
      checkSyncRootAgainstCopyMutationPins. */
  predicate RootAdmissible(n: Naming, b: Books, r: Root) {
    && (forall i | i in b.roots :: !RootsOverlap(n, b.roots[i], r))
    && (forall k | k in b.claims :: b.claims[k].target.Some? && !RootOverlapsClaim(n, r, b.claims[k]))
    && (forall o | o in b.ops :: !RootOverlapsCopyPin(n, r, b.ops[o]))
  }

  lemma OverlapSym(n: Naming, a: Root, b: Root)
    requires RootsOverlap(n, a, b)
    ensures RootsOverlap(n, b, a)
  {
  }

  lemma AddRootKeeps(n: Naming, b: Books, id: int, r: Root)
    requires Owned(n, b) && RootAdmissible(n, b, r) && id !in b.roots
    ensures Owned(n, b.(roots := b.roots[id := r]))
  {
    hide Overlap, Within, RootsOverlap, LeadsTo, ClaimsOverlap, RootOverlapsClaim, RootOverlapsCopyPin;
    var b' := b.(roots := b.roots[id := r]);
    forall i, j | i in b'.roots && j in b'.roots && i != j
      ensures !RootsOverlap(n, b'.roots[i], b'.roots[j])
    {
      if i == id && RootsOverlap(n, r, b'.roots[j]) { OverlapSym(n, r, b'.roots[j]); }
    }
  }

  /** followedOwnershipConflictTx. */
  predicate Conflict(n: Naming, b: Books, root: int, p: Rel, c: Claim, allowLegacy: bool) {
    || (exists k | k in b.claims && k != (root, p) ::
          || ClaimsOverlap(n, c, b.claims[k])
          || (b.claims[k].target.None? && !(allowLegacy && k.0 == root)))
    || (exists i | i in b.roots && i != root :: RootOverlapsClaim(n, b.roots[i], c))
  }

  predicate Continues(prior: Claim, c: Claim) {
    && prior.kind == c.kind
    && (prior.kind == KindDir ==> prior.identity == c.identity)
    && (prior.target.Some? ==> prior.target == c.target)
  }

  predicate Recordable(p: Rel, c: Claim) {
    p != [] && (c.kind == KindFile || c.kind == KindDir) && c.identity != "" && c.target.Some?
  }

  function SetClaim(b: Books, root: int, p: Rel, c: Claim): Books {
    b.(claims := b.claims[(root, p) := c])
  }

  lemma ClaimsOverlapSym(n: Naming, a: Claim, b: Claim)
    requires ClaimsOverlap(n, a, b)
    ensures ClaimsOverlap(n, b, a)
  {
  }

  lemma SetClaimKeeps(n: Naming, b: Books, root: int, p: Rel, c: Claim, allowLegacy: bool)
    requires Owned(n, b) && root in b.roots && Recordable(p, c) && !Conflict(n, b, root, p, c, allowLegacy)
    requires (root, p) in b.claims ==> Continues(b.claims[(root, p)], c)
    ensures Owned(n, SetClaim(b, root, p, c))
  {
    hide Overlap, Within, RootsOverlap, ClaimsOverlap, RootOverlapsClaim, RootOverlapsCopyPin, LeadsTo;
    var b' := SetClaim(b, root, p, c);
    forall k, l | k in b'.claims && l in b'.claims && k != l
      ensures !ClaimsOverlap(n, b'.claims[k], b'.claims[l])
    {
      if k != (root, p) && l == (root, p) && ClaimsOverlap(n, b'.claims[k], c) {
        ClaimsOverlapSym(n, b'.claims[k], c);
      }
    }
    forall o | o in b'.ops && b'.ops[o].pin.Some? && b'.ops[o].pin.value.boundaries != {}
      ensures exists q | q in b'.ops[o].pin.value.boundaries :: LeadsTo(b'.claims, b'.ops[o], q)
    {
      var q :| q in b.ops[o].pin.value.boundaries && LeadsTo(b.claims, b.ops[o], q);
      StillLeads(b, root, p, c, b.ops[o], q);
    }
  }

  lemma StillLeads(b: Books, root: int, p: Rel, c: Claim, op: Op, q: Rel)
    requires LeadsTo(b.claims, op, q) && ((root, p) in b.claims ==> Continues(b.claims[(root, p)], c))
    ensures LeadsTo(SetClaim(b, root, p, c).claims, op, q)
  {
  }

  // ----- What the invariant says -----

  /** The pin is on a directory, and what it was derived from is recorded as a
      file, so the claim's own checks did not look below it. */
  predicate WiderThanItsClaim(op: Op, c: Claim)
    requires op.pin.Some?
  {
    PinKind(op) == KindDir && c.kind != KindDir
  }

  /** A followed pin, for as long as its row lives, overlaps another configured
      root, or a claim other than the one it was derived from, exactly when the
      operation is on a directory where a file was claimed and the other lies
      inside the pinned path. */
  lemma FollowPinStaysOutside(n: Naming, b: Books, o: int) returns (p: Rel)
    requires Owned(n, b) && o in b.ops && b.ops[o].pin.Some? && b.ops[o].pin.value.boundaries != {}
    ensures p in b.ops[o].pin.value.boundaries && (b.ops[o].root, p) in b.claims
    ensures var op, c := b.ops[o], b.claims[(b.ops[o].root, p)];
            && (forall i | i in b.roots && i != op.root ::
                  Overlap(n, op.pin.value.path, PinKind(op), b.roots[i].local, KindDir) <==>
                  WiderThanItsClaim(op, c) && Within(Fold(n, op.pin.value.path), Fold(n, b.roots[i].local)))
            && (forall k | k in b.claims && k != (op.root, p) && b.claims[k].target.Some? ::
                  Overlap(n, op.pin.value.path, PinKind(op), b.claims[k].target.value, b.claims[k].kind) <==>
                  WiderThanItsClaim(op, c) && Within(Fold(n, op.pin.value.path), Fold(n, b.claims[k].target.value)))
  {
    hide Overlap, Within, WiderThanItsClaim, PinKind;
    var op := b.ops[o];
    p :| p in op.pin.value.boundaries && LeadsTo(b.claims, op, p);
    var c := b.claims[(op.root, p)];
    forall i | i in b.roots && i != op.root
      ensures Overlap(n, op.pin.value.path, PinKind(op), b.roots[i].local, KindDir) <==>
              WiderThanItsClaim(op, c) && Within(Fold(n, op.pin.value.path), Fold(n, b.roots[i].local))
    {
      assert !RootOverlapsClaim(n, b.roots[i], c);
      DerivedOverlapsOnlyInside(n, b.claims, op, p, b.roots[i].local, KindDir);
    }
    forall k | k in b.claims && k != (op.root, p) && b.claims[k].target.Some?
      ensures Overlap(n, op.pin.value.path, PinKind(op), b.claims[k].target.value, b.claims[k].kind) <==>
              WiderThanItsClaim(op, c) && Within(Fold(n, op.pin.value.path), Fold(n, b.claims[k].target.value))
    {
      assert !ClaimsOverlap(n, b.claims[(op.root, p)], b.claims[k]);
      DerivedOverlapsOnlyInside(n, b.claims, op, p, b.claims[k].target.value, b.claims[k].kind);
    }
  }

  lemma DerivedOverlapsOnlyInside(
    n: Naming, claims: map<(int, Rel), Claim>, op: Op, p: Rel, other: Path, otherKind: EntryKind)
    requires LeadsTo(claims, op, p)
    requires var c := claims[(op.root, p)];
             !Overlap(n, c.target.value, c.kind, other, otherKind) ||
                 !Overlap(n, other, otherKind, c.target.value, c.kind)
    ensures Overlap(n, op.pin.value.path, PinKind(op), other, otherKind) <==>
            WiderThanItsClaim(op, claims[(op.root, p)]) && Within(Fold(n, op.pin.value.path), Fold(n, other))
  {
    var c := claims[(op.root, p)];
    if c.kind == KindDir {
      InsideStaysDisjoint(n, c.target.value, op.pin.value.path, PinKind(op), other, otherKind);
    } else {
      assert op.src[|p|..] == [];
      assert op.pin.value.path == c.target.value;
    }
  }

  // ----- Where a followed pin reaches further than its claim -----

  const PLAIN := Naming(name => name, path => path, path => path)

  /** A file is claimed at t; another root lies inside t; and an operation on a
      directory is pinned at t. */
  const FIRST := Root(["r"], ["one"], true, false, Follow)
  const SECOND := Root(["t", "x"], ["two"], true, false, Follow)
  const FILE_CLAIM := Claim(KindFile, "id", Some(["t"]))

  const WIDER := Books(
    map[1 := FIRST, 2 := SECOND],
    map[(1, ["f"]) := FILE_CLAIM],
    map[3 := Op(1, true, KindDir, ["f"], true, 0, Some(Pin(["t"], FollowPhysical, "", {["f"]})))])

  /** Neither root is in the other's way, nor the claimed file in the second's;
      but the second root lies inside the claimed path. */
  lemma ApartAtFirst()
    ensures !RootsOverlap(PLAIN, FIRST, SECOND) && !RootsOverlap(PLAIN, SECOND, FIRST)
    ensures !RootOverlapsClaim(PLAIN, FIRST, FILE_CLAIM) && !RootOverlapsClaim(PLAIN, SECOND, FILE_CLAIM)
    ensures Overlap(PLAIN, ["t"], KindDir, SECOND.local, KindDir)
  {
    assert Fold(PLAIN, ["t"]) == ["t"] && Fold(PLAIN, ["t", "x"]) == ["t", "x"] && Fold(PLAIN, ["r"]) == ["r"];
    assert ["t", "x"][..1] == ["t"];
    assert "r"[0] != "t"[0] && "one"[0] != "two"[0];
    assert ["r"][0] != ["t"][0] && ["r"][0] != ["t", "x"][0] && ["one"][0] != ["two"][0];
  }

  /** Ownership is disjoint in all that the invariant says, and yet the pin
      overlaps a root that is not its own. */
  lemma FollowPinMayReachInside()
    ensures Owned(PLAIN, WIDER)
    ensures var op := WIDER.ops[3];
            && WiderThanItsClaim(op, WIDER.claims[(1, ["f"])])
            && Overlap(PLAIN, op.pin.value.path, PinKind(op), WIDER.roots[2].local, KindDir) && op.root != 2
  {
    var op := WIDER.ops[3];
    ApartAtFirst();
    assert LeadsTo(WIDER.claims, op, ["f"]);
  }
}
