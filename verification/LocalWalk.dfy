/** The executor's left-to-right walk from a logical path to the physical target
    of a mutation, in follow mode and in copy mode. */
module LocalWalk {
  import opened Domain
  import opened Ownership

  /** What a symbolic link leads to, once its whole chain is resolved. */
  datatype Referent = Gone | DirAt(identity: string) | FileAt(identity: string) | SpecialAt

  datatype Node = Missing | PlainDir | PlainFile | Special | Link(text: string, resolved: Path, referent: Referent)
      | BrokenLink

  datatype Resolved = Resolved(path: Path, authority: Authority, linkText: string, claims: map<Rel, Claim>)

  // ----- The meaning of the walk -----

  /** The physical directory in which component i of the path is looked up. */
  function DirBefore(fs: Path -> Node, root: Path, rel: Rel, i: nat): Path
    requires i <= |rel|
  {
    if i == 0 then root
    else
      var candidate := DirBefore(fs, root, rel, i - 1) + [rel[i - 1]];
      if fs(candidate).Link? then fs(candidate).resolved else candidate
  }

  function CandidateAt(fs: Path -> Node, root: Path, rel: Rel, i: nat): Path
    requires i < |rel|
  {
    DirBefore(fs, root, rel, i) + [rel[i]]
  }

  /** The walk meets a symbolic link at component i. */
  predicate LinkAt(fs: Path -> Node, root: Path, rel: Rel, i: nat)
    requires i < |rel|
  {
    fs(CandidateAt(fs, root, rel, i)).Link?
  }

  function LinkTarget(fs: Path -> Node, root: Path, rel: Rel, i: nat): Path
    requires i < |rel| && LinkAt(fs, root, rel, i)
  {
    fs(CandidateAt(fs, root, rel, i)).resolved
  }

  predicate IsLinkPrefix(fs: Path -> Node, root: Path, rel: Rel, i: nat, p: Rel) {
    0 < |p| <= i && Within(p, rel) && LinkAt(fs, root, rel, |p| - 1)
  }

  /** The claims are exactly the links met before component i, each with where
      it leads. */
  ghost predicate ClaimsAreLinks(fs: Path -> Node, root: Path, rel: Rel, i: nat, claims: map<Rel, Claim>)
    requires i <= |rel|
  {
    && (forall p :: p in claims <==> IsLinkPrefix(fs, root, rel, i, p))
    && (forall p | p in claims :: claims[p].target == Some(fs(CandidateAt(fs, root, rel, |p| - 1)).resolved))
  }

  lemma OneMoreComponent(
    fs: Path -> Node, root: Path, rel: Rel, i: nat, claims: map<Rel, Claim>, claims': map<Rel, Claim>)
    requires i < |rel| && ClaimsAreLinks(fs, root, rel, i, claims)
    requires if LinkAt(fs, root, rel, i) then
               rel[..i + 1] in claims' && claims' == claims[rel[..i + 1] := claims'[rel[..i + 1]]] &&
               claims'[rel[..i + 1]].target == Some(fs(CandidateAt(fs, root, rel, i)).resolved)
             else claims' == claims
    ensures ClaimsAreLinks(fs, root, rel, i + 1, claims')
  {
    hide CandidateAt;
    assert |rel[..i + 1]| == i + 1;
    forall p
      ensures p in claims' <==> IsLinkPrefix(fs, root, rel, i + 1, p)
    {
      if |p| == i + 1 && Within(p, rel) { assert p == rel[..i + 1]; }
    }
  }

  /** Where the deepest claim leads, plus the remaining components. */
  ghost predicate AtDeepest(root: Path, rel: Rel, i: nat, claims: map<Rel, Claim>, deepest: Option<Rel>, dir: Path)
    requires i <= |rel|
  {
    && (forall p | p in claims :: 0 < |p| <= i && Within(p, rel) && claims[p].target.Some?)
    && (forall p | p in claims && p != rel :: claims[p].kind == KindDir)
    && match deepest
       case None => claims.Keys == {} && dir == root + rel[..i]
       case Some(d) =>
         d in claims && (forall p | p in claims :: |p| <= |d|) && dir == claims[d].target.value + rel[|d|..i]
  }

  /** mutationTargetFromDeepestClaim computes the same path from the claims
      alone. */
  lemma DeepestIsDerived(root: Path, rel: Rel, claims: map<Rel, Claim>, deepest: Option<Rel>, path: Path)
    requires AtDeepest(root, rel, |rel|, claims, deepest, path)
    ensures forall p | p in claims :: Applies(p, claims[p].kind, rel)
    ensures if claims.Keys == {} then path == root + rel else DerivedTarget(claims, rel) == Some(path)
  {
    if deepest.Some? {
      var d := DeepestFrom(claims, rel, |rel|);
      assert Applies(deepest.value, claims[deepest.value].kind, rel);
      assert Within(deepest.value, d.value) && |d.value| <= |deepest.value|;
      assert d.value == deepest.value;
      assert rel[..|rel|] == rel;
    } else {
      assert rel[..|rel|] == rel;
    }
  }

  // ----- Follow mode -----

  /** The walk gets past component i: a directory or a link to one anywhere; a
      file, a special file, or a link to a file at the end; and at the end of an
      expected absence also nothing, or a link that leads nowhere. */
  predicate FollowPasses(fs: Path -> Node, root: Path, rel: Rel, i: nat, present: bool, entryKind: EntryKind)
    requires i < |rel|
  {
    var last := i == |rel| - 1;
    match fs(CandidateAt(fs, root, rel, i))
    case PlainDir => true
    case PlainFile => last
    case Special => last
    case Missing => last && !present
    case BrokenLink => false
    case Link(_, _, referent) =>
      || referent.DirAt?
      || (referent.FileAt? && last)
      || (referent.Gone? && last && !present && entryKind != NoKind)
  }

  /** The claim for a link: the path, kind and identity of what it leads to; if
      that is gone, the kind the operation is about and no identity. */
  predicate ClaimFits(node: Node, c: Claim, entryKind: EntryKind) {
    && node.Link? && c.target == Some(node.resolved)
    && match node.referent
       case DirAt(identity) => c.kind == KindDir && c.identity == identity
       case FileAt(identity) => c.kind == KindFile && c.identity == identity
       case Gone => c.kind == entryKind && c.identity == ""
       case SpecialAt => false
  }

  lemma LinkFits(node: Node, c: Claim, entryKind: EntryKind)
    requires node.Link?
    requires match node.referent
             case DirAt(identity) => c == Claim(KindDir, identity, Some(node.resolved))
             case FileAt(identity) => c == Claim(KindFile, identity, Some(node.resolved))
             case Gone => c == Claim(entryKind, "", Some(node.resolved))
             case SpecialAt => false
    ensures ClaimFits(node, c, entryKind)
  {
  }

  lemma RootComesFirst(fs: Path -> Node, root: Path, rel: Rel)
    ensures DirBefore(fs, root, rel, 0) == root
  {
  }

  /** resolveLocalMutationAuthority. On success the target is the deepest
      traversed claim's target plus the remaining suffix, and the claims are the
      links that were met. */
  method ResolveFollow(fs: Path -> Node, root: Path, rel: Rel, present: bool, entryKind: EntryKind)
    returns (r: Outcome<Resolved>)
    requires rel != []
    ensures r.Ok? <==> forall i :: 0 <= i < |rel| ==> FollowPasses(fs, root, rel, i, present, entryKind)
    ensures r.Ok? ==>
              forall p | p in r.value.claims ::
                0 < |p| <= |rel| && ClaimFits(fs(CandidateAt(fs, root, rel, |p| - 1)), r.value.claims[p], entryKind)
    ensures r.Ok? ==>
              && var t := r.value;
              && t.linkText == ""
              && (if t.claims.Keys == {} then t.path == root + rel && t.authority == Lexical
                  else DerivedTarget(t.claims, rel) == Some(t.path) && t.authority == FollowPhysical)
              && (forall p | p in t.claims :: Applies(p, t.claims[p].kind, rel))
              && ClaimsAreLinks(fs, root, rel, |rel|, t.claims)
              && t.path == DirBefore(fs, root, rel, |rel|)
  {
    hide ClaimsAreLinks, AtDeepest, DerivedTarget, ClaimFits, DirBefore;
    var dir := root;
    var claims: map<Rel, Claim> := map[];
    RootComesFirst(fs, root, rel);
    ghost var deepest := None;
    StartOfWalk(fs, root, rel);
    for i := 0 to |rel|
      invariant dir == DirBefore(fs, root, rel, i)
      invariant ClaimsAreLinks(fs, root, rel, i, claims)
      invariant AtDeepest(root, rel, i, claims, deepest, dir)
      invariant forall j :: 0 <= j < i ==> FollowPasses(fs, root, rel, j, present, entryKind)
      invariant forall p | p in claims ::
                  0 < |p| <= |rel| && ClaimFits(fs(CandidateAt(fs, root, rel, |p| - 1)), claims[p], entryKind)
    {
      var candidate := dir + [rel[i]];
      var last := i == |rel| - 1;
      CandidateIs(fs, root, rel, i);
      ghost var passes := FollowPasses(fs, root, rel, i, present, entryKind);
      match fs(candidate)
      case Missing =>
        if !last || present { return Err; }
        PassPlain(fs, root, rel, i, claims, deepest, dir);
        dir := candidate;
      case BrokenLink =>
        return Err;
      case Special =>
        if !last { return Err; }
        PassPlain(fs, root, rel, i, claims, deepest, dir);
        dir := candidate;
      case PlainFile =>
        if !last { return Err; }
        PassPlain(fs, root, rel, i, claims, deepest, dir);
        dir := candidate;
      case PlainDir =>
        PassPlain(fs, root, rel, i, claims, deepest, dir);
        dir := candidate;
      case Link(_, resolved, referent) =>
        var claim := Claim(KindDir, "", Some(resolved));
        match referent {
          case Gone =>
            if !last || present || entryKind == NoKind { return Err; }
            claim := claim.(kind := entryKind);
          case SpecialAt =>
            return Err;
          case DirAt(identity) =>
            claim := claim.(identity := identity);
          case FileAt(identity) =>
            if !last { return Err; }
            claim := Claim(KindFile, identity, Some(resolved));
        }
        PassLink(fs, root, rel, i, claims, deepest, dir, claim);
        LinkFits(fs(candidate), claim, entryKind);
        assert |rel[..i + 1]| == i + 1;
        claims := claims[rel[..i + 1] := claim];
        deepest := Some(rel[..i + 1]);
        dir := resolved;
    }
    DeepestIsDerived(root, rel, claims, deepest, dir);
    r := Ok(Resolved(dir, if claims.Keys == {} then Lexical else FollowPhysical, "", claims));
  }

  lemma StartOfWalk(fs: Path -> Node, root: Path, rel: Rel)
    ensures ClaimsAreLinks(fs, root, rel, 0, map[]) && AtDeepest(root, rel, 0, map[], None, root)
  {
  }

  lemma PassPlain(
    fs: Path -> Node, root: Path, rel: Rel, i: nat, claims: map<Rel, Claim>, deepest: Option<Rel>, dir: Path)
    requires i < |rel| && !LinkAt(fs, root, rel, i) && ClaimsAreLinks(fs, root, rel, i, claims)
    requires AtDeepest(root, rel, i, claims, deepest, dir)
    ensures ClaimsAreLinks(fs, root, rel, i + 1, claims) && AtDeepest(root, rel, i + 1, claims, deepest, dir + [rel[i]])
  {
    hide ClaimsAreLinks, LinkAt;
    OneMoreComponent(fs, root, rel, i, claims, claims);
    assert rel[..i + 1] == rel[..i] + [rel[i]];
    if deepest.Some? {
      assert rel[|deepest.value|..i + 1] == rel[|deepest.value|..i] + [rel[i]];
    }
  }

  lemma PassLink(
    fs: Path -> Node, root: Path, rel: Rel, i: nat, claims: map<Rel, Claim>, deepest: Option<Rel>, dir: Path, c: Claim)
    requires i < |rel| && LinkAt(fs, root, rel, i) && ClaimsAreLinks(fs, root, rel, i, claims)
    requires AtDeepest(root, rel, i, claims, deepest, dir)
    requires c.target == Some(fs(CandidateAt(fs, root, rel, i)).resolved) && (i < |rel| - 1 ==> c.kind == KindDir)
    ensures ClaimsAreLinks(fs, root, rel, i + 1, claims[rel[..i + 1] := c])
    ensures AtDeepest(root, rel, i + 1, claims[rel[..i + 1] := c], Some(rel[..i + 1]), c.target.value)
  {
    hide ClaimsAreLinks, LinkAt, CandidateAt;
    OneMoreComponent(fs, root, rel, i, claims, claims[rel[..i + 1] := c]);
    assert |rel[..i + 1]| == i + 1;
    assert rel[i + 1..i + 1] == [];
    assert i == |rel| - 1 ==> rel[..i + 1] == rel;
  }

  // ----- Copy mode -----

  /** The walk gets past component i: a directory, or a link to one, that need not
      be refused; at the end any object, a link to a directory or a file, or, if
      absence is expected, nothing. */
  predicate CopyPasses(fs: Path -> Node, root: Path, rel: Rel, i: nat, present: bool, rejected: Path -> bool)
    requires i < |rel|
  {
    var last := i == |rel| - 1;
    match fs(CandidateAt(fs, root, rel, i))
    case PlainDir => true
    case PlainFile => last
    case Special => last
    case Missing => last && !present
    case BrokenLink => false
    case Link(_, resolved, referent) => (referent.DirAt? || (referent.FileAt? && last)) && !rejected(resolved)
  }

  /** resolveCopyLocalMutationAuthority: a final symlink is the object itself;
      directory symlinks before it are followed, and only they make the authority
      physical. rejected stands for the peer roots, foreign roots and cycles that
      a followed target must avoid. The evidence that goes with the answer names
      every link on the way, the final one included, and what it led to. */
  method ResolveCopy(fs: Path -> Node, root: Path, rel: Rel, present: bool, rejected: Path -> bool)
    returns (r: Outcome<Resolved>, evidence: map<Rel, Claim>)
    requires rel != []
    ensures r.Ok? <==> forall i :: 0 <= i < |rel| ==> CopyPasses(fs, root, rel, i, present, rejected)
    ensures r.Ok? ==> ClaimsAreLinks(fs, root, rel, |rel|, evidence)
    ensures r.Ok? ==> forall p | p in evidence :: Evidences(fs(CandidateAt(fs, root, rel, |p| - 1)), evidence[p])
    ensures r.Ok? ==>
              && var t := r.value;
              && t.path == CandidateAt(fs, root, rel, |rel| - 1)
              && (t.authority == CopyPhysical <==> exists j: nat | j < |rel| - 1 :: LinkAt(fs, root, rel, j))
              && (t.authority == CopyPhysical || t.authority == Lexical)
              && t.linkText == (if fs(t.path).Link? then fs(t.path).text else "")
              && (forall j: nat | j < |rel| && LinkAt(fs, root, rel, j) :: !rejected(LinkTarget(fs, root, rel, j)))
  {
    hide CandidateAt, LinkAt, LinkTarget, ClaimsAreLinks, Evidences;
    var dir := root;
    var through := false;
    evidence := map[];
    StartOfWalk(fs, root, rel);
    for i := 0 to |rel|
      invariant i < |rel|
      invariant ClaimsAreLinks(fs, root, rel, i, evidence)
      invariant forall j :: 0 <= j < i ==> CopyPasses(fs, root, rel, j, present, rejected)
      invariant forall p | p in evidence ::
                  0 < |p| <= |rel| && Evidences(fs(CandidateAt(fs, root, rel, |p| - 1)), evidence[p])
      invariant dir == DirBefore(fs, root, rel, i)
      invariant through <==> exists j: nat | j < i :: LinkAt(fs, root, rel, j)
      invariant forall j: nat | j < i && LinkAt(fs, root, rel, j) :: !rejected(LinkTarget(fs, root, rel, j))
    {
      var candidate := dir + [rel[i]];
      CandidateIs(fs, root, rel, i);
      var last := i == |rel| - 1;
      var node := fs(candidate);
      ghost var passes := CopyPasses(fs, root, rel, i, present, rejected);
      if node.BrokenLink? || (node.Missing? && (!last || present)) { return Err, evidence; }
      if node.Link? &&
          (node.referent.Gone? || node.referent.SpecialAt? || rejected(node.resolved) ||
          (!last && !node.referent.DirAt?)) {
        return Err, evidence;
      }
      var before := evidence;
      if node.Link? {
        var kind := if node.referent.DirAt? then KindDir else KindFile;
        var claim := Claim(kind, node.referent.identity, Some(node.resolved));
        LinkIsEvidence(node, claim);
        evidence := evidence[rel[..i + 1] := claim];
        assert |rel[..i + 1]| == i + 1;
      }
      OneMoreComponent(fs, root, rel, i, before, evidence);
      if last {
        var linkText := if node.Link? then node.text else "";
        return Ok(Resolved(candidate, if through then CopyPhysical else Lexical, linkText, map[])), evidence;
      }
      if !node.Link? && !node.PlainDir? { return Err, evidence; }
      through := through || node.Link?;
      dir := if node.Link? then node.resolved else candidate;
    }
  }

  /** The evidence for one link: the kind, the identity and the path of what it
      leads to. */
  predicate Evidences(node: Node, c: Claim) {
    && node.Link? && c.target == Some(node.resolved)
    && (c.kind == KindDir ==> node.referent == DirAt(c.identity)) &&
         (c.kind != KindDir ==> node.referent == FileAt(c.identity))
  }

  lemma LinkIsEvidence(node: Node, c: Claim)
    requires node.Link? && (node.referent.DirAt? || node.referent.FileAt?)
    requires c == Claim(if node.referent.DirAt? then KindDir else KindFile, node.referent.identity, Some(node.resolved))
    ensures Evidences(node, c)
  {
  }

  lemma CandidateIs(fs: Path -> Node, root: Path, rel: Rel, i: nat)
    requires i < |rel|
    ensures CandidateAt(fs, root, rel, i) == DirBefore(fs, root, rel, i) + [rel[i]]
    ensures LinkAt(fs, root, rel, i) <==> fs(CandidateAt(fs, root, rel, i)).Link?
    ensures LinkAt(fs, root, rel, i) ==> LinkTarget(fs, root, rel, i) == fs(CandidateAt(fs, root, rel, i)).resolved
    ensures DirBefore(fs, root, rel, i + 1) == if LinkAt(fs, root, rel, i) then
              fs(CandidateAt(fs, root, rel, i)).resolved else CandidateAt(fs, root, rel, i)
  {
  }

  // ----- Dangling link chains -----

  /** What Lstat and EvalSymlinks see at one path name while a dangling chain is
      resolved: a link with its absolute, clean target; an object; or nothing,
      in a parent directory that resolves or not. */
  datatype Name = LinkTo(target: Path) | Present(resolved: Outcome<Path>) | Absent(parent: Outcome<Path>)

  datatype Leaf = Found(path: Path) | MissingLeaf(path: Path) | Cycle | Unresolvable

  /** The n-th name of the chain, or its end. */
  function ChainAt(links: map<Path, Path>, name: Path, n: nat): Path
    decreases n
  {
    if n == 0 || name !in links then name else ChainAt(links, links[name], n - 1)
  }

  ghost predicate NeverEnds(links: map<Path, Path>, name: Path) {
    forall n: nat :: ChainAt(links, name, n) in links
  }

  lemma {:induction false} ChainStep(links: map<Path, Path>, name: Path, n: nat)
    ensures var here := ChainAt(links, name, n);
            ChainAt(links, name, n + 1) == if here in links then links[here] else here
    decreases n
  {
    if n > 0 && name in links { ChainStep(links, links[name], n - 1); }
  }

  lemma {:induction false} ChainFrom(links: map<Path, Path>, name: Path, k: nat, n: nat)
    ensures ChainAt(links, ChainAt(links, name, k), n) == ChainAt(links, name, k + n)
  {
    if n > 0 {
      ChainFrom(links, name, k, n - 1);
      ChainStep(links, ChainAt(links, name, k), n - 1);
      ChainStep(links, name, k + n - 1);
    }
  }

  /** A chain that comes back to a name never ends. */
  lemma {:induction false} RepeatNeverEnds(links: map<Path, Path>, start: Path, i: nat, k: nat, n: nat)
    requires i < k && ChainAt(links, start, k) == ChainAt(links, start, i)
    requires forall j: nat | j < k :: ChainAt(links, start, j) in links
    ensures ChainAt(links, start, n) in links
  {
    if n >= k {
      var back := n - (k - i);
      RepeatNeverEnds(links, start, i, k, back);
      ChainFrom(links, start, k, n - k);
      ChainFrom(links, start, i, n - k);
      assert i + (n - k) == back;
    }
  }

  ghost predicate Earlier(links: map<Path, Path>, start: Path, k: nat, p: Path) {
    exists j: nat | j < k :: ChainAt(links, start, j) == p
  }

  /** The names seen so far are the chain up to the current name. */
  ghost predicate OnChain(links: map<Path, Path>, start: Path, seen: set<Path>, k: nat, name: Path) {
    && name == ChainAt(links, start, k)
    && (forall j: nat | j < k :: ChainAt(links, start, j) in links)
    && (forall p :: p in seen <==> Earlier(links, start, k, p))
  }

  /** resolveMissingLocalLeaf: terminates on every chain, and reports a cycle
      exactly when the chain never ends; otherwise it stops at the chain's end. */
  method ResolveMissingLeaf(
    links: map<Path, Path>, stat: Path -> Name, name: Path, seen: set<Path>, ghost start: Path, ghost k: nat)
    returns (r: Leaf)
    requires forall p :: p in links <==> stat(p).LinkTo?
    requires forall p | p in links :: stat(p).target == links[p]
    requires OnChain(links, start, seen, k, name) && seen <= links.Keys
    ensures r == Cycle <==> NeverEnds(links, start)
    ensures r.Found? ==> exists n: nat :: stat(ChainAt(links, start, n)) == Present(Ok(r.path))
    ensures r.MissingLeaf? ==> exists n: nat :: var last := ChainAt(links, start, n);
              last != [] && stat(last).Absent? && stat(last).parent.Ok? &&
                  r.path == stat(last).parent.value + [last[|last| - 1]]
    decreases |links.Keys - seen|
  {
    hide ChainAt, NeverEnds, OnChain;
    match stat(name)
    case Present(resolved) =>
      EndsHere(links, start, seen, k, name);
      r := if resolved.Ok? then Found(resolved.value) else Unresolvable;
    case Absent(parent) =>
      EndsHere(links, start, seen, k, name);
      r := if parent.Ok? && name != [] then MissingLeaf(parent.value + [name[|name| - 1]]) else Unresolvable;
    case LinkTo(target) =>
      if name in seen {
        SeenNeverEnds(links, start, seen, k, name);
        return Cycle;
      }
      OneFewer(links.Keys, seen, name);
      OnChainStep(links, start, seen, k, name);
      r := ResolveMissingLeaf(links, stat, target, seen + {name}, start, k + 1);
  }

  lemma EndsHere(links: map<Path, Path>, start: Path, seen: set<Path>, k: nat, name: Path)
    requires OnChain(links, start, seen, k, name) && name !in links
    ensures !NeverEnds(links, start) && name == ChainAt(links, start, k)
  {
  }

  lemma SeenNeverEnds(links: map<Path, Path>, start: Path, seen: set<Path>, k: nat, name: Path)
    requires OnChain(links, start, seen, k, name) && name in seen
    ensures NeverEnds(links, start)
  {
    var i: nat :| i < k && ChainAt(links, start, i) == name;
    forall n: nat
      ensures ChainAt(links, start, n) in links
    {
      RepeatNeverEnds(links, start, i, k, n);
    }
  }

  lemma OnChainStep(links: map<Path, Path>, start: Path, seen: set<Path>, k: nat, name: Path)
    requires OnChain(links, start, seen, k, name) && name in links
    ensures OnChain(links, start, seen + {name}, k + 1, links[name])
  {
    ChainStep(links, start, k);
    forall p
      ensures Earlier(links, start, k + 1, p) <==> Earlier(links, start, k, p) || p == name
    {
      EarlierStep(links, start, k, p);
    }
  }

  lemma EarlierStep(links: map<Path, Path>, start: Path, k: nat, p: Path)
    ensures Earlier(links, start, k + 1, p) <==> Earlier(links, start, k, p) || p == ChainAt(links, start, k)
  {
    hide ChainAt;
    if Earlier(links, start, k, p) {
      var j: nat :| j < k && ChainAt(links, start, j) == p;
      assert j < k + 1;
    }
    assert k < k + 1;
  }

  lemma OneFewer(all: set<Path>, seen: set<Path>, x: Path)
    requires x in all && x !in seen
    ensures |all - (seen + {x})| < |all - seen|
  {
    assert all - seen == (all - (seen + {x})) + {x};
  }

  // ----- Copy projection continuity -----

  /** The evidence that applies to the path; it has the form of a claim. */
  function Applicable(rel: Rel, scanned: map<Rel, Claim>): map<Rel, Claim> {
    map b | b in scanned && Applies(b, scanned[b].kind, rel) :: scanned[b]
  }

  /** copyProjectionContinuityHolds: the boundaries met at the pin are exactly
      those of the complete scan that apply to the path, unchanged. */
  method ContinuityHolds(rel: Rel, scanned: map<Rel, Claim>, current: map<Rel, Claim>) returns (ok: bool)
    ensures ok <==> current == Applicable(rel, scanned)
  {
    hide Applies;
    var rest := scanned.Keys;
    while rest != {}
      invariant rest <= scanned.Keys
      invariant forall b | b in scanned && b !in rest && Applies(b, scanned[b].kind, rel) ::
                  b in current && current[b] == scanned[b]
      decreases |rest|
    {
      var b :| b in rest;
      if Applies(b, scanned[b].kind, rel) && (b !in current || current[b] != scanned[b]) {
        assert b in Applicable(rel, scanned);
        return false;
      }
      rest := rest - {b};
    }
    rest := current.Keys;
    while rest != {}
      invariant rest <= current.Keys
      invariant forall b | b in current && b !in rest ::
                  Applies(b, current[b].kind, rel) && b in scanned && scanned[b] == current[b]
      decreases |rest|
    {
      var b :| b in rest;
      if !Applies(b, current[b].kind, rel) || b !in scanned || scanned[b] != current[b] {
        assert b in current;
        return false;
      }
      rest := rest - {b};
    }
    assert current.Keys == Applicable(rel, scanned).Keys;
    ok := true;
  }
}
