/** The local scan: a recursion over a directory graph that symbolic links may
    close into cycles. */
module Scan {
  import opened Domain
  import opened Ownership

  // ----- The filesystem as the scan meets it -----

  datatype NameClass = Ordinary | Marker | OperationArtifact | InternalTemp

  datatype Entry =
    | DirEntry(id: nat)
    | FileEntry(id: nat, fp: LocalFingerprint)
    | SpecialEntry
    | LinkEntry(leads: LinkTarget)

  /** What a link resolves to, with its canonical path; Forbidden is a peer root
      or another root's marker. */
  datatype LinkTarget =
    | Unavailable | Forbidden | ToSpecial
    | ToDir(id: nat, at: Path)
    | ToFile(id: nat, fp: LocalFingerprint, at: Path)

  datatype Child = Child(name: string, valid: bool, nameClass: NameClass, entry: Entry)

  /** dirs gives each directory's children by the directory's identity; above
      holds the pairs whose first canonical path strictly contains the second. */
  datatype Graph = Graph(dirs: map<nat, set<Child>>, above: set<(nat, nat)>, owned: set<(nat, string)>) {
    ghost predicate Valid() {
      forall d, a, b | d in dirs && a in dirs[d] && b in dirs[d] && a.name == b.name :: a == b
    }
  }

  // ----- One child -----

  datatype Sort = ADir | AFile | ALinkedDir | ALinkedFile | ACopiedDir | ACopiedFile | Omitted | Fatal

  /** A boundary that the scan crossed by a link: a followed claim in follow mode,
      evidence of a projection in copy mode. */
  datatype Boundary = Boundary(kind: EntryKind, id: nat, target: Path)

  /** via is the canonical path of what a link at rel led to. */
  datatype Visit = Visit(rel: Rel, sort: Sort, id: nat, fp: LocalFingerprint, via: Option<Path>) {
    predicate Shown() { sort != Omitted && sort != Fatal }
    predicate IsDir() { sort == ADir || sort == ALinkedDir || sort == ACopiedDir }
    /** The directory's identity is claimed for this path. */
    predicate ClaimsDir() { sort == ADir || sort == ALinkedDir }
    function Crossed(): Boundary
      requires via.Some?
    {
      Boundary(if IsDir() then KindDir else KindFile, id, via.value)
    }
  }

  datatype Step = Skip | Leaf(visit: Visit) | Enter(visit: Visit, inside: bool)

  function Out(rel: Rel, sort: Sort): Step { Leaf(Visit(rel, sort, 0, LOCAL_ABSENT, None)) }

  function EnterDir(g: Graph, rel: Rel, sort: Sort, id: nat, inside: bool, via: Option<Path>): Step {
    if id in g.dirs then Enter(Visit(rel, sort, id, LOCAL_DIR, via), inside) else Out(rel, Fatal)
  }

  /** The branches of scanLocalDir for one listed entry of directory d. */
  function Classify(g: Graph, mode: Mode, d: nat, dir: Rel, ancestors: set<nat>, inside: bool, c: Child): Step {
    var rel := dir + [c.name];
    if !c.valid then Out(rel, Fatal)
    else
      match c.nameClass
      case Marker => if dir == [] && !c.entry.DirEntry? then Skip else Out(rel, Fatal)
      case OperationArtifact => if (d, c.name) in g.owned then Skip else Out(rel, Fatal)
      case InternalTemp => Out(rel, Fatal)
      case Ordinary =>
        match c.entry
        case DirEntry(id) =>
          if id in ancestors then Out(rel, Omitted)
          else EnterDir(g, rel, if inside then ACopiedDir else ADir, id, inside, None)
        case FileEntry(id, fp) => Leaf(Visit(rel, if inside then ACopiedFile else AFile, id, fp, None))
        case SpecialEntry => Out(rel, Fatal)
        case LinkEntry(leads) =>
          if mode == Reject then Out(rel, Fatal)
          else if mode == Ignore then Out(rel, Omitted)
          else
            match leads
            case Unavailable => Out(rel, Omitted)
            case Forbidden => Out(rel, Fatal)
            case ToDir(id, at) =>
              if id in ancestors || (id, d) in g.above then Out(rel, Omitted)
              else EnterDir(g, rel, if mode == Copy then ACopiedDir else ALinkedDir, id, mode == Copy, Some(at))
            case ToFile(id, fp,
                at) => Leaf(Visit(rel, if mode == Copy then ACopiedFile else ALinkedFile, id, fp, Some(at)))
            case ToSpecial => Out(rel, Omitted)
  }

  // ----- The whole scan, without an order -----

  /** All visits at and below one child. */
  function ChildVisits(g: Graph, mode: Mode, d: nat, dir: Rel, ancestors: set<nat>, inside: bool, c: Child): set<Visit>
    requires d in ancestors
    decreases |g.dirs.Keys - ancestors|, 0
  {
    match Classify(g, mode, d, dir, ancestors, inside, c)
    case Skip => {}
    case Leaf(v) => {v}
    case Enter(v, inside') =>
      EnteredIsNew(g, mode, d, dir, ancestors, inside, c);
      {v} + Visits(g, mode, v.id, v.rel, ancestors + {v.id}, inside')
  }

  /** All visits below a directory; ancestors are the identities on the way. */
  function Visits(g: Graph, mode: Mode, d: nat, dir: Rel, ancestors: set<nat>, inside: bool): set<Visit>
    requires d in g.dirs && d in ancestors
    decreases |g.dirs.Keys - ancestors|, 1
  {
    set c, v | c in g.dirs[d] && v in ChildVisits(g, mode, d, dir, ancestors, inside, c) :: v
  }

  /** A directory that is entered is not on the way already: this is why the
      recursion ends on every graph. */
  lemma EnteredIsNew(g: Graph, mode: Mode, d: nat, dir: Rel, ancestors: set<nat>, inside: bool, c: Child)
    requires Classify(g, mode, d, dir, ancestors, inside, c).Enter?
    ensures var v := Classify(g, mode, d, dir, ancestors, inside, c).visit;
            && v.id in g.dirs && v.id !in ancestors
            && |g.dirs.Keys - (ancestors + {v.id})| < |g.dirs.Keys - ancestors|
            && v.rel == dir + [c.name] && v.IsDir()
  {
    EnteredIsKnown(g, mode, d, dir, ancestors, inside, c);
    hide Classify;
    OneLess(g.dirs.Keys, ancestors, Classify(g, mode, d, dir, ancestors, inside, c).visit.id);
  }

  lemma EnteredIsKnown(g: Graph, mode: Mode, d: nat, dir: Rel, ancestors: set<nat>, inside: bool, c: Child)
    requires Classify(g, mode, d, dir, ancestors, inside, c).Enter?
    ensures var v := Classify(g, mode, d, dir, ancestors, inside, c).visit;
            v.id in g.dirs && v.id !in ancestors && v.rel == dir + [c.name] && v.IsDir()
  {
  }

  lemma OneLess<T>(all: set<T>, gone: set<T>, x: T)
    requires x in all && x !in gone
    ensures |all - (gone + {x})| < |all - gone|
  {
    assert (all - (gone + {x})) + {x} <= all - gone;
    SubsetSize((all - (gone + {x})) + {x}, all - gone);
  }

  lemma SubsetSize<T>(a: set<T>, b: set<T>)
    requires a <= b
    ensures |a| <= |b|
  {
    assert b == a + (b - a);
  }

  /** Two visits that cannot both be part of one namespace. */
  predicate Clash(v: Visit, w: Visit) {
    && v.id == w.id
    && (|| (v.ClaimsDir() && w.ClaimsDir())
        || (v.sort == ALinkedFile && (w.sort == ALinkedFile || w.sort == AFile))
        || (w.sort == ALinkedFile && v.sort == AFile))
  }

  /** Nothing fatal was met, every claimed directory is at one path, and no
      followed file is at a second one. */
  ghost predicate Coherent(s: set<Visit>) {
    && (forall v | v in s :: v.sort != Fatal)
    && (forall v, w | v in s && w in s && v.rel != w.rel :: !Clash(v, w))
  }

  // ----- Shape of the visited namespace -----

  lemma {:induction false} ChildVisitsAreBelow(
    g: Graph, mode: Mode, d: nat, dir: Rel, ancestors: set<nat>, inside: bool, c: Child, v: Visit)
    requires d in ancestors && v in ChildVisits(g, mode, d, dir, ancestors, inside, c)
    ensures Within(dir + [c.name], v.rel)
    decreases |g.dirs.Keys - ancestors|, 0
  {
    var step := Classify(g, mode, d, dir, ancestors, inside, c);
    if step.Enter? {
      EnteredIsNew(g, mode, d, dir, ancestors, inside, c);
      if v != step.visit {
        VisitsAreBelow(g, mode, step.visit.id, step.visit.rel, ancestors + {step.visit.id}, step.inside, v);
        WithinTrans(dir + [c.name], step.visit.rel, v.rel);
      }
    }
  }

  lemma {:induction false} VisitsAreBelow(
    g: Graph, mode: Mode, d: nat, dir: Rel, ancestors: set<nat>, inside: bool, v: Visit)
    requires d in g.dirs && d in ancestors && v in Visits(g, mode, d, dir, ancestors, inside)
    ensures Within(dir, v.rel) && |dir| < |v.rel|
    decreases |g.dirs.Keys - ancestors|, 1
  {
    var c :| c in g.dirs[d] && v in ChildVisits(g, mode, d, dir, ancestors, inside, c);
    ChildVisitsAreBelow(g, mode, d, dir, ancestors, inside, c, v);
    assert (dir + [c.name])[..|dir|] == dir;
    WithinTrans(dir, dir + [c.name], v.rel);
  }

  /** A visited path is visited once. */
  lemma {:induction false} OneVisitPerPath(
    g: Graph, mode: Mode, d: nat, dir: Rel, ancestors: set<nat>, inside: bool, v: Visit, w: Visit)
    requires g.Valid() && d in g.dirs && d in ancestors
    requires v in Visits(g, mode, d, dir, ancestors, inside) && w in Visits(g, mode, d, dir, ancestors, inside) &&
               v.rel == w.rel
    ensures v == w
    decreases |g.dirs.Keys - ancestors|
  {
    var c :| c in g.dirs[d] && v in ChildVisits(g, mode, d, dir, ancestors, inside, c);
    var e :| e in g.dirs[d] && w in ChildVisits(g, mode, d, dir, ancestors, inside, e);
    ChildVisitsAreBelow(g, mode, d, dir, ancestors, inside, c, v);
    ChildVisitsAreBelow(g, mode, d, dir, ancestors, inside, e, w);
    SameChild(g, d, dir, c, e, v.rel);
    var step := Classify(g, mode, d, dir, ancestors, inside, c);
    if step.Enter? {
      EnteredIsNew(g, mode, d, dir, ancestors, inside, c);
      var u := step.visit;
      HeadOrBelow(g, mode, u, ancestors, step.inside, v);
      HeadOrBelow(g, mode, u, ancestors, step.inside, w);
      if v != u && w != u {
        OneVisitPerPath(g, mode, u.id, u.rel, ancestors + {u.id}, step.inside, v, w);
      }
    }
  }

  lemma HeadOrBelow(g: Graph, mode: Mode, u: Visit, ancestors: set<nat>, inside: bool, v: Visit)
    requires u.id in g.dirs && v in {u} + Visits(g, mode, u.id, u.rel, ancestors + {u.id}, inside)
    ensures v == u ||
              (|u.rel| < |v.rel| && Within(u.rel, v.rel) &&
              v in Visits(g, mode, u.id, u.rel, ancestors + {u.id}, inside))
  {
    if v != u {
      VisitsAreBelow(g, mode, u.id, u.rel, ancestors + {u.id}, inside, v);
    }
  }

  lemma SameChild(g: Graph, d: nat, dir: Rel, c: Child, e: Child, rel: Rel)
    requires g.Valid() && d in g.dirs && c in g.dirs[d] && e in g.dirs[d]
    requires Within(dir + [c.name], rel) && Within(dir + [e.name], rel)
    ensures c == e
  {
    assert rel[|dir|] == rel[..|dir| + 1][|dir|] == c.name;
    assert rel[|dir|] == e.name;
  }

  /** Every visited path below the scanned directory has its parent directory
      visited and shown. */
  lemma {:induction false} ParentIsShown(
    g: Graph, mode: Mode, d: nat, dir: Rel, ancestors: set<nat>, inside: bool, v: Visit) returns (p: Option<Visit>)
    requires d in g.dirs && d in ancestors && v in Visits(g, mode, d, dir, ancestors, inside)
    ensures |v.rel| > |dir|
    ensures p.None? ==> v.rel[..|v.rel| - 1] == dir
    ensures p.Some? ==>
              p.value in Visits(g, mode, d, dir, ancestors, inside) && p.value.rel == v.rel[..|v.rel| - 1] &&
              p.value.IsDir()
    decreases |g.dirs.Keys - ancestors|
  {
    var c :| c in g.dirs[d] && v in ChildVisits(g, mode, d, dir, ancestors, inside, c);
    var step := Classify(g, mode, d, dir, ancestors, inside, c);
    if step.Enter? && v != step.visit {
      EnteredIsNew(g, mode, d, dir, ancestors, inside, c);
      var u := step.visit;
      p := ParentIsShown(g, mode, u.id, u.rel, ancestors + {u.id}, step.inside, v);
      assert |u.rel| == |dir| + 1;
      if p.None? { p := Some(u); }
      assert p.value in ChildVisits(g, mode, d, dir, ancestors, inside, c);
    } else {
      p := None;
      HeadRel(g, mode, d, dir, ancestors, inside, c);
      assert (dir + [c.name])[..|dir|] == dir;
    }
  }

  lemma HeadRel(g: Graph, mode: Mode, d: nat, dir: Rel, ancestors: set<nat>, inside: bool, c: Child)
    ensures var step := Classify(g, mode, d, dir, ancestors, inside, c);
            !step.Skip? ==> step.visit.rel == dir + [c.name]
  {
  }

  /** Nothing is visited below an omitted path. */
  lemma {:induction false} OmittedIsLeaf(
    g: Graph, mode: Mode, d: nat, dir: Rel, ancestors: set<nat>, inside: bool, v: Visit, w: Visit)
    requires g.Valid() && d in g.dirs && d in ancestors && v.sort == Omitted && Within(v.rel, w.rel)
    requires v in Visits(g, mode, d, dir, ancestors, inside) && w in Visits(g, mode, d, dir, ancestors, inside)
    ensures v == w
    decreases |g.dirs.Keys - ancestors|
  {
    var c :| c in g.dirs[d] && v in ChildVisits(g, mode, d, dir, ancestors, inside, c);
    var e :| e in g.dirs[d] && w in ChildVisits(g, mode, d, dir, ancestors, inside, e);
    ChildVisitsAreBelow(g, mode, d, dir, ancestors, inside, c, v);
    ChildVisitsAreBelow(g, mode, d, dir, ancestors, inside, e, w);
    WithinTrans(dir + [c.name], v.rel, w.rel);
    SameChild(g, d, dir, c, e, w.rel);
    var step := Classify(g, mode, d, dir, ancestors, inside, c);
    if step.Enter? {
      EnteredIsNew(g, mode, d, dir, ancestors, inside, c);
      var u := step.visit;
      HeadOrBelow(g, mode, u, ancestors, step.inside, v);
      HeadOrBelow(g, mode, u, ancestors, step.inside, w);
      OmittedIsLeaf(g, mode, u.id, u.rel, ancestors + {u.id}, step.inside, v, w);
    }
  }

  // ----- The imperative scan -----

  ghost function DirIds(s: set<Visit>): set<nat> { set v | v in s && v.ClaimsDir() :: v.id }
  ghost function LexicalIds(s: set<Visit>): set<nat> { set v | v in s && v.sort == AFile :: v.id }
  ghost function FollowedIds(s: set<Visit>): set<nat> { set v | v in s && v.sort == ALinkedFile :: v.id }
  ghost function ShownPaths(s: set<Visit>): set<Rel> { set v | v in s && v.Shown() :: v.rel }
  ghost function OmittedPaths(s: set<Visit>): set<Rel> { set v | v in s && v.sort == Omitted :: v.rel }

  ghost function CrossedPaths(s: set<Visit>): set<Rel> { set v | v in s && v.via.Some? :: v.rel }

  predicate Distinct(rels: seq<Rel>) {
    forall i, j :: 0 <= i < j < |rels| ==> rels[i] != rels[j]
  }

  ghost predicate NewPath(s: set<Visit>, v: Visit) {
    forall w | w in s :: w.rel != v.rel
  }

  lemma GrowsByOne(s: set<Visit>, v: Visit)
    ensures DirIds(s + {v}) == DirIds(s) + (if v.ClaimsDir() then {v.id} else {})
    ensures LexicalIds(s + {v}) == LexicalIds(s) + (if v.sort == AFile then {v.id} else {})
    ensures FollowedIds(s + {v}) == FollowedIds(s) + (if v.sort == ALinkedFile then {v.id} else {})
    ensures ShownPaths(s + {v}) == ShownPaths(s) + (if v.Shown() then {v.rel} else {})
    ensures OmittedPaths(s + {v}) == OmittedPaths(s) + (if v.sort == Omitted then {v.rel} else {})
    ensures CrossedPaths(s + {v}) == CrossedPaths(s) + (if v.via.Some? then {v.rel} else {})
  {
    CrossedPathsGrow(s, v);
    DirIdsGrow(s, v);
    LexicalIdsGrow(s, v);
    FollowedIdsGrow(s, v);
    ShownPathsGrow(s, v);
    OmittedPathsGrow(s, v);
  }

  lemma CrossedPathsGrow(s: set<Visit>, v: Visit)
    ensures CrossedPaths(s + {v}) == CrossedPaths(s) + (if v.via.Some? then {v.rel} else {})
  {
  }

  lemma DirIdsGrow(s: set<Visit>, v: Visit)
    ensures DirIds(s + {v}) == DirIds(s) + (if v.ClaimsDir() then {v.id} else {})
  {
  }

  lemma LexicalIdsGrow(s: set<Visit>, v: Visit)
    ensures LexicalIds(s + {v}) == LexicalIds(s) + (if v.sort == AFile then {v.id} else {})
  {
  }

  lemma FollowedIdsGrow(s: set<Visit>, v: Visit)
    ensures FollowedIds(s + {v}) == FollowedIds(s) + (if v.sort == ALinkedFile then {v.id} else {})
  {
  }

  lemma ShownPathsGrow(s: set<Visit>, v: Visit)
    ensures ShownPaths(s + {v}) == ShownPaths(s) + (if v.Shown() then {v.rel} else {})
  {
  }

  lemma OmittedPathsGrow(s: set<Visit>, v: Visit)
    ensures OmittedPaths(s + {v}) == OmittedPaths(s) + (if v.sort == Omitted then {v.rel} else {})
  {
  }

  /** One more visit fits exactly when it is not fatal and its identity is not
      taken by a clashing path. */
  lemma FitsIff(s: set<Visit>, v: Visit)
    requires Coherent(s) && NewPath(s, v)
    ensures Coherent(s + {v}) <==>
              && v.sort != Fatal
              && (v.ClaimsDir() ==> v.id !in DirIds(s))
              && (v.sort == AFile ==> v.id !in FollowedIds(s))
              && (v.sort == ALinkedFile ==> v.id !in FollowedIds(s) && v.id !in LexicalIds(s))
  {
    if v.ClaimsDir() && v.id in DirIds(s) {
      var w :| w in s && w.ClaimsDir() && w.id == v.id;
      assert Clash(v, w) && v in s + {v} && w in s + {v};
    }
    if (v.sort == AFile || v.sort == ALinkedFile) && v.id in FollowedIds(s) {
      var w :| w in s && w.sort == ALinkedFile && w.id == v.id;
      assert Clash(v, w) && v in s + {v} && w in s + {v};
    }
    if v.sort == ALinkedFile && v.id in LexicalIds(s) {
      var w :| w in s && w.sort == AFile && w.id == v.id;
      assert Clash(v, w) && v in s + {v} && w in s + {v};
    }
    if v.sort == Fatal { assert v in s + {v}; }
    ClashSym(s, v);
  }

  lemma ClashSym(s: set<Visit>, v: Visit)
    ensures forall w | w in s :: Clash(v, w) <==> Clash(w, v)
  {
  }

  lemma CoherentSubset(s: set<Visit>, t: set<Visit>)
    requires s <= t && Coherent(t)
    ensures Coherent(s)
  {
  }

  class LocalScan {
    const root: nat
    var out: map<Rel, LocalFingerprint>
    var excluded: seq<Rel>
    var boundaries: map<Rel, Boundary>
    var claims: map<nat, Rel>
    var lexical: map<nat, Rel>
    var followed: map<nat, Rel>
    ghost var seen: set<Visit>

    /** The claim maps hold exactly the identities of the visits s. */
    ghost predicate IdsRecorded(s: set<Visit>)
      reads this`claims, this`lexical, this`followed
    {
      && claims.Keys == {root} + DirIds(s) && lexical.Keys == LexicalIds(s) && followed.Keys == FollowedIds(s)
      && (forall i | i in claims && i != root :: exists v | v in s :: v.rel == claims[i])
      && (forall i | i in followed :: exists v | v in s :: v.rel == followed[i])
      && root in claims && claims[root] == []
    }

    /** The result holds exactly the paths of the visits s. */
    ghost predicate PathsRecorded(s: set<Visit>)
      reads this`out, this`excluded, this`boundaries
    {
      ShownRecorded(s) && CrossedRecorded(s)
    }

    ghost predicate CrossedRecorded(s: set<Visit>)
      reads this`boundaries
    {
      boundaries.Keys == CrossedPaths(s) &&
          (forall v | v in s && v.via.Some? :: v.rel in boundaries && boundaries[v.rel] == v.Crossed())
    }

    ghost predicate ShownRecorded(s: set<Visit>)
      reads this`out, this`excluded
    {
      && out.Keys == ShownPaths(s) && (forall v | v in s && v.Shown() :: v.rel in out && out[v.rel] == v.fp)
      && Distinct(excluded) && (forall r :: r in excluded <==> r in OmittedPaths(s))
    }

    ghost predicate Records()
      reads this
    {
      IdsRecorded(seen) && PathsRecorded(seen)
    }

    constructor (root: nat)
      ensures this.root == root && seen == {} && Records() && excluded == []
    {
      this.root := root;
      out, excluded, boundaries, lexical, followed, seen := map[], [], map[], map[], map[], {};
      claims := map[root := []];
    }

    /** claim, claimLexicalFile and claimFollowedFile. */
    method Claim(v: Visit) returns (ok: bool)
      requires IdsRecorded(seen) && Coherent(seen) && NewPath(seen, v) && v.rel != [] && v.sort != Fatal
      requires v.ClaimsDir() ==> v.id != root
      modifies this`claims, this`lexical, this`followed
      ensures ok <==> Coherent(seen + {v})
      ensures ok ==> IdsRecorded(seen + {v})
    {
      hide DirIds, LexicalIds, FollowedIds, ShownPaths, OmittedPaths, Coherent, Clash;
      FitsIff(seen, v);
      GrowsByOne(seen, v);
      assert v in seen + {v};
      if v.ClaimsDir() {
        if v.id in claims && claims[v.id] != v.rel { return false; }
        claims := claims[v.id := v.rel];
      } else if v.sort == AFile {
        if v.id in followed { return false; }
        if v.id !in lexical { lexical := lexical[v.id := v.rel]; }
      } else if v.sort == ALinkedFile {
        if v.id in followed && followed[v.id] != v.rel { return false; }
        if v.id in lexical { return false; }
        followed := followed[v.id := v.rel];
      }
      ok := true;
    }

    method Expose(v: Visit)
      requires PathsRecorded(seen) && NewPath(seen, v) && v.sort != Fatal
      modifies this`out, this`excluded, this`boundaries
      ensures PathsRecorded(seen + {v})
    {
      hide CrossedRecorded, ShownRecorded;
      Cross(v);
      Show(v);
    }

    method Cross(v: Visit)
      requires CrossedRecorded(seen) && NewPath(seen, v)
      modifies this`boundaries
      ensures CrossedRecorded(seen + {v})
    {
      hide CrossedPaths;
      CrossedPathsGrow(seen, v);
      if v.via.Some? { boundaries := boundaries[v.rel := v.Crossed()]; }
    }

    method Show(v: Visit)
      requires ShownRecorded(seen) && NewPath(seen, v) && v.sort != Fatal
      modifies this`out, this`excluded
      ensures ShownRecorded(seen + {v})
    {
      hide ShownPaths;
      ShownPathsGrow(seen, v);
      OmittedPathsGrow(seen, v);
      if v.sort == Omitted {
        excluded := excluded + [v.rel];
      } else {
        out := out[v.rel := v.fp];
      }
    }

    /** One visit: refused exactly when it does not fit what was seen before. */
    method Admit(v: Visit) returns (ok: bool)
      requires Records() && Coherent(seen) && NewPath(seen, v) && v.rel != [] && v.sort != Fatal
      requires v.ClaimsDir() ==> v.id != root
      modifies this
      ensures ok <==> Coherent(old(seen) + {v})
      ensures ok ==> Records() && seen == old(seen) + {v}
    {
      hide Coherent, IdsRecorded, PathsRecorded;
      ok := Claim(v);
      if ok {
        Expose(v);
        seen := seen + {v};
      }
    }

    /** One listed entry and everything below it. */
    method ScanChild(
      g: Graph, mode: Mode, listing: map<nat, seq<Child>>, d: nat, dir: Rel, ancestors: set<nat>, inside: bool,
      c: Child)
      returns (ok: bool)
      requires g.Valid() && Lists(g, listing) && d in g.dirs && d in ancestors && root in ancestors && c in g.dirs[d]
      requires Records() && Coherent(seen) && (forall w | w in seen :: !Within(dir + [c.name], w.rel))
      modifies this
      ensures ok <==> Coherent(old(seen) + ChildVisits(g, mode, d, dir, ancestors, inside, c))
      ensures ok ==> Records() && seen == old(seen) + ChildVisits(g, mode, d, dir, ancestors, inside, c)
      decreases |g.dirs.Keys - ancestors|, 0, 0
    {
      hide Records, Coherent, Visits, Classify;
      var step := Classify(g, mode, d, dir, ancestors, inside, c);
      if step.Skip? { return true; }
      var v := step.visit;
      HeadRel(g, mode, d, dir, ancestors, inside, c);
      var all := ChildVisits(g, mode, d, dir, ancestors, inside, c);
      assert v in all;
      if v.sort == Fatal {
        FatalSpoils(seen + all, v);
        return false;
      }
      HeadIsNew(g, mode, d, dir, ancestors, inside, c, seen);
      ghost var before := seen;
      ok := Admit(v);
      if !ok {
        if Coherent(before + all) { CoherentSubset(before + {v}, before + all); }
        return;
      }
      if step.Enter? {
        EnteredIsNew(g, mode, d, dir, ancestors, inside, c);
        NothingBelowYet(before, v);
        ok := ScanDir(g, mode, listing, v.id, v.rel, ancestors + {v.id}, step.inside);
        assert before + {v} + Visits(g, mode, v.id, v.rel, ancestors + {v.id}, step.inside) == before + all;
      }
    }

    /** scanLocalDir: success means that the visits so far and those of this
        directory fit together, in whatever order the directory is listed. */
    method ScanDir(
      g: Graph, mode: Mode, listing: map<nat, seq<Child>>, d: nat, dir: Rel, ancestors: set<nat>, inside: bool)
      returns (ok: bool)
      requires g.Valid() && Lists(g, listing) && d in g.dirs && d in ancestors && root in ancestors
      requires Records() && Coherent(seen) && (forall w | w in seen :: !(Within(dir, w.rel) && |dir| < |w.rel|))
      modifies this
      ensures ok <==> Coherent(old(seen) + Visits(g, mode, d, dir, ancestors, inside))
      ensures ok ==> Records() && seen == old(seen) + Visits(g, mode, d, dir, ancestors, inside)
      decreases |g.dirs.Keys - ancestors|, 1, 0
    {
      hide Records, Coherent, ChildVisits;
      ghost var before := seen;
      ghost var part: set<Visit> := {};
      for i := 0 to |listing[d]|
        invariant Records() && Coherent(seen) && seen == before + part
        invariant part == Listed(g, mode, d, dir, ancestors, inside, listing[d][..i])
      {
        var c := listing[d][i];
        NoneOfThisChild(g, mode, d, dir, ancestors, inside, listing[d], i, before);
        ok := ScanChild(g, mode, listing, d, dir, ancestors, inside, c);
        ListedGrows(g, mode, d, dir, ancestors, inside, listing[d], i);
        if !ok {
          assert before + part + ChildVisits(g, mode, d, dir, ancestors, inside, c) <= before + Visits(g, mode, d, dir,
              ancestors, inside);
          if Coherent(before + Visits(g, mode, d, dir, ancestors, inside)) {
            CoherentSubset(before + part + ChildVisits(g, mode, d, dir, ancestors, inside, c),
                before + Visits(g, mode, d, dir, ancestors, inside));
          }
          return;
        }
        part := part + ChildVisits(g, mode, d, dir, ancestors, inside, c);
      }
      AllListed(g, mode, d, dir, ancestors, inside, listing[d]);
      ok := true;
    }
  }

  /** listing gives each directory's children once each, in some order. */
  ghost predicate Lists(g: Graph, listing: map<nat, seq<Child>>) {
    && listing.Keys == g.dirs.Keys
    && (forall d | d in g.dirs :: Enumerated(listing[d], g.dirs[d]))
  }

  ghost predicate Enumerated(s: seq<Child>, children: set<Child>) {
    && (forall c :: c in s <==> c in children)
    && (forall i, j :: 0 <= i < j < |s| ==> s[i] != s[j])
  }

  lemma FatalSpoils(s: set<Visit>, v: Visit)
    requires v in s && v.sort == Fatal
    ensures !Coherent(s)
  {
  }

  lemma HeadIsNew(g: Graph, mode: Mode, d: nat, dir: Rel, ancestors: set<nat>, inside: bool, c: Child, s: set<Visit>)
    requires !Classify(g, mode, d, dir, ancestors, inside, c).Skip?
    requires forall w | w in s :: !Within(dir + [c.name], w.rel)
    ensures var v := Classify(g, mode, d, dir, ancestors, inside, c).visit;
            NewPath(s, v) && v.rel != [] && (v.ClaimsDir() ==> v.id !in ancestors)
  {
    hide Within;
    var v := Classify(g, mode, d, dir, ancestors, inside, c).visit;
    HeadRel(g, mode, d, dir, ancestors, inside, c);
    assert Within(v.rel, v.rel) by { WithinRefl(v.rel); }
  }

  lemma WithinRefl<T>(a: seq<T>)
    ensures Within(a, a)
  {
  }

  lemma NothingBelowYet(s: set<Visit>, v: Visit)
    requires forall w | w in s :: !Within(v.rel, w.rel)
    ensures forall w | w in s + {v} :: !(Within(v.rel, w.rel) && |v.rel| < |w.rel|)
  {
  }

  /** The visits of a listed part of a directory. */
  ghost function Listed(
    g: Graph, mode: Mode, d: nat, dir: Rel, ancestors: set<nat>, inside: bool, part: seq<Child>): set<Visit>
    requires d in ancestors
  {
    set c, v | c in part && v in ChildVisits(g, mode, d, dir, ancestors, inside, c) :: v
  }

  lemma ListedGrows(g: Graph, mode: Mode, d: nat, dir: Rel, ancestors: set<nat>, inside: bool, s: seq<Child>, i: nat)
    requires d in ancestors && d in g.dirs && i < |s| && Enumerated(s, g.dirs[d])
    ensures Listed(g, mode, d, dir, ancestors, inside, s[..i + 1])
         == Listed(g, mode, d, dir, ancestors, inside, s[..i]) + ChildVisits(g, mode, d, dir, ancestors, inside, s[i])
    ensures Listed(g, mode, d, dir, ancestors, inside, s[..i + 1]) <= Visits(g, mode, d, dir, ancestors, inside)
  {
    hide ChildVisits;
    assert s[..i + 1] == s[..i] + [s[i]];
  }

  lemma AllListed(g: Graph, mode: Mode, d: nat, dir: Rel, ancestors: set<nat>, inside: bool, s: seq<Child>)
    requires d in ancestors && d in g.dirs && Enumerated(s, g.dirs[d])
    ensures Listed(g, mode, d, dir, ancestors, inside, s[..|s|]) == Visits(g, mode, d, dir, ancestors, inside)
  {
    hide ChildVisits;
    assert s[..|s|] == s;
  }

  /** Earlier siblings and everything outside the directory are at other paths. */
  lemma NoneOfThisChild(
    g: Graph, mode: Mode, d: nat, dir: Rel, ancestors: set<nat>, inside: bool, s: seq<Child>, i: nat,
    before: set<Visit>)
    requires g.Valid() && d in ancestors && d in g.dirs && i < |s| && Enumerated(s, g.dirs[d])
    requires forall w | w in before :: !(Within(dir, w.rel) && |dir| < |w.rel|)
    ensures forall w | w in before + Listed(g, mode, d, dir, ancestors, inside, s[..i]) ::
              !Within(dir + [s[i].name], w.rel)
  {
    hide ChildVisits;
    var c := s[i];
    forall w | w in before + Listed(g, mode, d, dir, ancestors, inside, s[..i])
      ensures !Within(dir + [c.name], w.rel)
    {
      if Within(dir + [c.name], w.rel) {
        if w in before {
          assert (dir + [c.name])[..|dir|] == dir;
          WithinTrans(dir, dir + [c.name], w.rel);
        } else {
          var e :| e in s[..i] && w in ChildVisits(g, mode, d, dir, ancestors, inside, e);
          assert e in s && c in s;
          ChildVisitsAreBelow(g, mode, d, dir, ancestors, inside, e, w);
          SameChild(g, d, dir, c, e, w.rel);
        }
      }
    }
  }

  // ----- The scan of a root -----

  /** Everything a scan of the root visits: a function of the graph alone. */
  function RootVisits(g: Graph, mode: Mode, root: nat): set<Visit>
    requires root in g.dirs
  {
    Visits(g, mode, root, [], {root}, false)
  }

  // ----- What a scan must find, on the graph alone -----

  /** A directory that the scan gets to: its identity, the identities on the way,
      and whether a copied link was passed. */
  datatype Place = Place(d: nat, way: set<nat>, inside: bool)

  predicate Named(c: Child) { c.valid && c.nameClass == Ordinary }

  predicate PassesLinks(mode: Mode) { mode == Follow || mode == Copy }

  /** Where an entry of the directory leads: into a plain directory, or through a
      link to a directory, that is not on the way already. */
  function Leads(g: Graph, mode: Mode, at: Place, c: Child): Option<Place> {
    if !Named(c) then None
    else if c.entry.DirEntry? && c.entry.id !in at.way then
      Some(Place(c.entry.id, at.way + {c.entry.id}, at.inside))
    else if c.entry.LinkEntry? && c.entry.leads.ToDir? && PassesLinks(mode) &&
        !ClosesCycle(g, at, c.entry.leads.id) then
      Some(Place(c.entry.leads.id, at.way + {c.entry.leads.id}, mode == Copy))
    else None
  }

  /** A link to a directory on the way, or to one above the link. */
  predicate ClosesCycle(g: Graph, at: Place, id: nat) { id in at.way || (id, at.d) in g.above }

  /** The place that a path leads to, by the names of its components. */
  ghost function WalkTo(g: Graph, mode: Mode, at: Place, names: Rel): Option<Place>
    decreases |names|
  {
    if names == [] then Some(at)
    else if at.d in g.dirs && exists c :: c in g.dirs[at.d] && c.name == names[0] && Leads(g, mode, at, c).Some? then
      var c :| c in g.dirs[at.d] && c.name == names[0] && Leads(g, mode, at, c).Some?;
      WalkTo(g, mode, Leads(g, mode, at, c).value, names[1..])
    else None
  }

  /** c is the entry of path rel, in the directory at. */
  ghost predicate EntryAt(g: Graph, mode: Mode, root: nat, rel: Rel, at: Place, c: Child) {
    && rel != [] && WalkTo(g, mode, Place(root, {root}, false), rel[..|rel| - 1]) == Some(at)
    && at.d in g.dirs && c in g.dirs[at.d] && c.name == rel[|rel| - 1]
  }

  /** The entry is part of the result, with this fingerprint: a directory that is
      entered, a regular file, or a regular file behind a link. */
  function ShownAs(g: Graph, mode: Mode, at: Place, c: Child): Option<LocalFingerprint> {
    if Leads(g, mode, at, c).Some? && Leads(g, mode, at, c).value.d in g.dirs then Some(LOCAL_DIR)
    else if Named(c) && c.entry.FileEntry? then Some(c.entry.fp)
    else if Named(c) && c.entry.LinkEntry? && c.entry.leads.ToFile? && PassesLinks(mode) then Some(c.entry.leads.fp)
    else None
  }

  /** The entry is excluded: a directory that is on the way already, any link if
      links are ignored, and otherwise a link that leads nowhere, to a special
      file, or back. */
  predicate IsLeftOut(g: Graph, mode: Mode, at: Place, c: Child) {
    && Named(c)
    && match c.entry
       case DirEntry(id) => id in at.way
       case LinkEntry(leads) =>
         || mode == Ignore
         || (PassesLinks(mode) &&
              (leads.Unavailable? || leads.ToSpecial? || (leads.ToDir? && ClosesCycle(g, at, leads.id))))
       case _ => false
  }

  /** The entry makes the scan fail: a name that cannot be represented, a reserved
      name that nothing accounts for, a special file, a link if links are rejected
      or if it leads to another root, or a directory that cannot be read. */
  predicate IsFatal(g: Graph, mode: Mode, top: bool, at: Place, c: Child) {
    || !c.valid
    || (c.nameClass == Marker && !(top && !c.entry.DirEntry?))
    || (c.nameClass == OperationArtifact && (at.d, c.name) !in g.owned)
    || c.nameClass == InternalTemp
    || (Named(c) && c.entry.SpecialEntry?)
    || (Named(c) && c.entry.LinkEntry? && (mode == Reject || (PassesLinks(mode) && c.entry.leads.Forbidden?)))
    || (Leads(g, mode, at, c).Some? && Leads(g, mode, at, c).value.d !in g.dirs)
  }

  /** What an entry claims for its path: a directory's identity, unless it is a
      projection; a plain file's; or that of a file behind a followed link. */
  datatype Role = NoRole | OwnsDir(id: nat) | PlainFile(id: nat) | FollowedFile(id: nat)

  function RoleOf(g: Graph, mode: Mode, at: Place, c: Child): Role {
    if ShownAs(g, mode, at, c).None? then NoRole
    else
      match c.entry
      case DirEntry(id) => if at.inside then NoRole else OwnsDir(id)
      case FileEntry(id, _) => if at.inside then NoRole else PlainFile(id)
      case LinkEntry(ToDir(id, _)) => if mode == Copy then NoRole else OwnsDir(id)
      case LinkEntry(ToFile(id, _, _)) => if mode == Copy then NoRole else FollowedFile(id)
      case _ => NoRole
  }

  /** Two paths may not own one directory, and a followed file may have no second
      path. */
  predicate RolesClash(a: Role, b: Role) {
    || (a.OwnsDir? && b.OwnsDir? && a.id == b.id)
    || (a.FollowedFile? && (b.FollowedFile? || b.PlainFile?) && a.id == b.id)
    || (b.FollowedFile? && a.PlainFile? && a.id == b.id)
  }

  /** The boundary that the path crosses by its own link. */
  function CrossedAs(g: Graph, mode: Mode, at: Place, c: Child): Option<Boundary> {
    if ShownAs(g, mode, at, c).None? then None
    else
      match c.entry
      case LinkEntry(ToDir(id, to)) => Some(Boundary(KindDir, id, to))
      case LinkEntry(ToFile(id, _, to)) => Some(Boundary(KindFile, id, to))
      case _ => None
  }

  // ----- The visits are what must be found -----

  /** The visit of an entry says what the entry is. */
  predicate Describes(g: Graph, mode: Mode, top: bool, at: Place, c: Child, v: Visit) {
    && (v.sort == Omitted <==> IsLeftOut(g, mode, at, c))
    && (v.sort == Fatal <==> IsFatal(g, mode, top, at, c))
    && (v.Shown() <==> ShownAs(g, mode, at, c).Some?)
    && (v.Shown() ==> ShownAs(g, mode, at, c) == Some(v.fp))
    && (if v.via.Some? then CrossedAs(g, mode, at, c) == Some(v.Crossed()) else CrossedAs(g, mode, at, c) == None)
    && RoleOf(g, mode, at, c) ==
         if v.ClaimsDir() then OwnsDir(v.id) else if v.sort == AFile then PlainFile(v.id)
         else if v.sort == ALinkedFile then FollowedFile(v.id) else NoRole
  }

  lemma StepDescribes(g: Graph, mode: Mode, at: Place, dir: Rel, c: Child)
    ensures var step := Classify(g, mode, at.d, dir, at.way, at.inside, c);
            && (step.Skip? ==>
                  && !IsLeftOut(g, mode, at, c) && !IsFatal(g, mode, dir == [], at, c)
                  && ShownAs(g, mode, at, c).None?)
            && (!step.Skip? ==> step.visit.rel == dir + [c.name] && Describes(g, mode, dir == [], at, c, step.visit))
            && (step.Enter? <==> Leads(g, mode, at, c).Some? && Leads(g, mode, at, c).value.d in g.dirs)
            && (step.Enter? ==>
                 Leads(g, mode, at, c) == Some(Place(step.visit.id, at.way + {step.visit.id}, step.inside)))
  {
  }

  lemma OneStep(g: Graph, mode: Mode, at: Place, c: Child, names: Rel)
    requires g.Valid() && at.d in g.dirs && c in g.dirs[at.d] && names != [] && names[0] == c.name
    ensures WalkTo(g, mode, at, names) ==
            if Leads(g, mode, at, c).Some? then WalkTo(g, mode, Leads(g, mode, at, c).value, names[1..]) else None
  {
    hide Leads;
  }

  /** The visits below a place, from the place. */
  function VisitsAt(g: Graph, mode: Mode, at: Place, dir: Rel): set<Visit>
    requires at.d in g.dirs && at.d in at.way
  {
    Visits(g, mode, at.d, dir, at.way, at.inside)
  }

  /** Every entry that a path leads to is visited as what it is. */
  lemma {:induction false} EntryIsVisited(g: Graph, mode: Mode, at: Place, dir: Rel, names: Rel, to: Place, c: Child)
    requires g.Valid() && at.d in g.dirs && at.d in at.way
    requires WalkTo(g, mode, at, names) == Some(to) && to.d in g.dirs && c in g.dirs[to.d]
    ensures to.d in to.way
    ensures var step := Classify(g, mode, to.d, dir + names, to.way, to.inside, c);
            !step.Skip? ==> step.visit in VisitsAt(g, mode, at, dir)
    decreases |names|
  {
    hide Classify, Leads;
    if names == [] {
      assert dir + names == dir;
      HeadIsVisited(g, mode, at, dir, c);
    } else {
      var first :| first in g.dirs[at.d] && first.name == names[0] && Leads(g, mode, at, first).Some?;
      OneStep(g, mode, at, first, names);
      var next := Leads(g, mode, at, first).value;
      LeadsIn(g, mode, at, first);
      if next.d in g.dirs {
        StepDescribes(g, mode, at, dir, first);
        EntryIsVisited(g, mode, next, dir + [first.name], names[1..], to, c);
        assert dir + [first.name] + names[1..] == dir + names;
        BelowIsVisited(g, mode, at, dir, first, next);
      } else {
        NowhereFrom(g, mode, next, names[1..]);
      }
    }
  }

  lemma LeadsIn(g: Graph, mode: Mode, at: Place, c: Child)
    requires Leads(g, mode, at, c).Some?
    ensures Leads(g, mode, at, c).value.d in Leads(g, mode, at, c).value.way
  {
  }

  lemma NowhereFrom(g: Graph, mode: Mode, at: Place, names: Rel)
    requires at.d !in g.dirs
    ensures WalkTo(g, mode, at, names) == if names == [] then Some(at) else None
  {
  }

  lemma HeadIsVisited(g: Graph, mode: Mode, at: Place, dir: Rel, c: Child)
    requires at.d in g.dirs && at.d in at.way && c in g.dirs[at.d]
    ensures var step := Classify(g, mode, at.d, dir, at.way, at.inside, c);
            !step.Skip? ==> step.visit in VisitsAt(g, mode, at, dir)
  {
    hide Classify;
    var step := Classify(g, mode, at.d, dir, at.way, at.inside, c);
    if !step.Skip? {
      assert step.visit in ChildVisits(g, mode, at.d, dir, at.way, at.inside, c);
    }
  }

  lemma BelowIsVisited(g: Graph, mode: Mode, at: Place, dir: Rel, c: Child, next: Place)
    requires at.d in g.dirs && at.d in at.way && c in g.dirs[at.d] && next.d in g.dirs
    requires var step := Classify(g, mode, at.d, dir, at.way, at.inside, c);
             && step.Enter? && step.visit.rel == dir + [c.name]
             && next == Place(step.visit.id, at.way + {step.visit.id}, step.inside)
    ensures VisitsAt(g, mode, next, dir + [c.name]) <= VisitsAt(g, mode, at, dir)
  {
    hide Classify;
    forall v | v in VisitsAt(g, mode, next, dir + [c.name])
      ensures v in VisitsAt(g, mode, at, dir)
    {
      assert v in ChildVisits(g, mode, at.d, dir, at.way, at.inside, c);
    }
  }

  /** Every visit is that of an entry that a path leads to. */
  lemma {:induction false} VisitHasEntry(g: Graph, mode: Mode, at: Place, dir: Rel, v: Visit)
    returns (names: Rel, to: Place, c: Child)
    requires g.Valid() && at.d in g.dirs && at.d in at.way && v in VisitsAt(g, mode, at, dir)
    ensures WalkTo(g, mode, at, names) == Some(to) && to.d in g.dirs && c in g.dirs[to.d]
    ensures var step := Classify(g, mode, to.d, dir + names, to.way, to.inside, c); !step.Skip? && step.visit == v
    decreases |g.dirs.Keys - at.way|
  {
    hide Classify, Leads, Visits, WalkTo, Describes;
    var next;
    c, next := HeadOrBelowPlace(g, mode, at, dir, v);
    if next.None? {
      names, to := [], at;
      assert dir + names == dir;
      EmptyWalk(g, mode, at);
    } else {
      var first, rest := c, [];
      rest, to, c := VisitHasEntry(g, mode, next.value, dir + [first.name], v);
      names := [first.name] + rest;
      OneStep(g, mode, at, first, names);
      assert names[1..] == rest;
      assert dir + [first.name] + rest == dir + names;
    }
  }

  lemma EmptyWalk(g: Graph, mode: Mode, at: Place)
    ensures WalkTo(g, mode, at, []) == Some(at)
  {
  }

  /** A visit is that of a child, or lies below the place that a child leads to. */
  lemma HeadOrBelowPlace(g: Graph, mode: Mode, at: Place, dir: Rel, v: Visit) returns (c: Child, next: Option<Place>)
    requires at.d in g.dirs && at.d in at.way && v in VisitsAt(g, mode, at, dir)
    ensures c in g.dirs[at.d]
    ensures next.None? ==>
              var step := Classify(g, mode, at.d, dir, at.way, at.inside, c); !step.Skip? && step.visit == v
    ensures next.Some? ==>
              && Leads(g, mode, at, c) == next && next.value.d in g.dirs && next.value.d in next.value.way
              && |g.dirs.Keys - next.value.way| < |g.dirs.Keys - at.way|
              && v in VisitsAt(g, mode, next.value, dir + [c.name])
  {
    hide Classify, Leads, Describes;
    c :| c in g.dirs[at.d] && v in ChildVisits(g, mode, at.d, dir, at.way, at.inside, c);
    var step := Classify(g, mode, at.d, dir, at.way, at.inside, c);
    next := None;
    if step.Enter? && v != step.visit {
      EnteredIsNew(g, mode, at.d, dir, at.way, at.inside, c);
      StepDescribes(g, mode, at, dir, c);
      next := Some(Place(step.visit.id, at.way + {step.visit.id}, step.inside));
    }
  }

  // ----- The visits of a root -----

  /** The visit of the entry at path rel, and what it says. */
  lemma EntryVisit(g: Graph, mode: Mode, root: nat, rel: Rel, at: Place, c: Child)
    requires g.Valid() && root in g.dirs && EntryAt(g, mode, root, rel, at, c)
    ensures (ShownAs(g, mode, at, c).Some? || IsLeftOut(g, mode, at, c) || IsFatal(g, mode, |rel| == 1, at, c)) ==>
              exists v :: v in RootVisits(g, mode, root) && v.rel == rel && Describes(g, mode, |rel| == 1, at, c, v)
  {
    hide Classify, Leads, Visits, WalkTo, Describes, ShownAs, IsLeftOut, IsFatal;
    var names := rel[..|rel| - 1];
    EntryIsVisited(g, mode, Place(root, {root}, false), [], names, at, c);
    assert [] + names == names;
    StepDescribes(g, mode, at, names, c);
    assert names + [c.name] == rel;
    assert names == [] <==> |rel| == 1;
  }

  lemma VisitEntry(g: Graph, mode: Mode, root: nat, v: Visit) returns (at: Place, c: Child)
    requires g.Valid() && root in g.dirs && v in RootVisits(g, mode, root)
    ensures EntryAt(g, mode, root, v.rel, at, c) && Describes(g, mode, |v.rel| == 1, at, c, v)
  {
    hide Classify, Leads, Visits, WalkTo, Describes;
    var names;
    names, at, c := VisitHasEntry(g, mode, Place(root, {root}, false), [], v);
    assert [] + names == names;
    StepDescribes(g, mode, at, names, c);
    assert (names + [c.name])[..|names|] == names;
    assert names == [] <==> |v.rel| == 1;
  }

  /** Nothing that the paths lead to makes the scan fail, and no two of them
      claim one identity against each other. */
  ghost predicate Scannable(g: Graph, mode: Mode, root: nat) {
    && root in g.dirs
    && (forall rel, at, c | EntryAt(g, mode, root, rel, at, c) :: !IsFatal(g, mode, |rel| == 1, at, c))
    && (forall rel, at, c, rel', at', c' |
          EntryAt(g, mode, root, rel, at, c) && EntryAt(g, mode, root, rel', at', c') && rel != rel' ::
          !RolesClash(RoleOf(g, mode, at, c), RoleOf(g, mode, at', c')))
  }

  lemma CoherentIsScannable(g: Graph, mode: Mode, root: nat)
    requires g.Valid() && root in g.dirs
    ensures Coherent(RootVisits(g, mode, root)) <==> Scannable(g, mode, root)
  {
    hide RootVisits, EntryAt, IsFatal, RoleOf, Describes, ShownAs, IsLeftOut;
    var s := RootVisits(g, mode, root);
    if Coherent(s) {
      forall rel, at, c | EntryAt(g, mode, root, rel, at, c)
        ensures !IsFatal(g, mode, |rel| == 1, at, c)
      {
        EntryVisit(g, mode, root, rel, at, c);
        if v :| v in s && v.rel == rel && Describes(g, mode, |rel| == 1, at, c, v) {
          DescribedFatal(g, mode, |rel| == 1, at, c, v);
        }
      }
      forall rel, at, c, rel', at', c' |
        EntryAt(g, mode, root, rel, at, c) && EntryAt(g, mode, root, rel', at', c') && rel != rel'
        ensures !RolesClash(RoleOf(g, mode, at, c), RoleOf(g, mode, at', c'))
      {
        if RolesClash(RoleOf(g, mode, at, c), RoleOf(g, mode, at', c')) {
          RoleIsShown(g, mode, at, c);
          RoleIsShown(g, mode, at', c');
          EntryVisit(g, mode, root, rel, at, c);
          EntryVisit(g, mode, root, rel', at', c');
          var v :| v in s && v.rel == rel && Describes(g, mode, |rel| == 1, at, c, v);
          var w :| w in s && w.rel == rel' && Describes(g, mode, |rel'| == 1, at', c', w);
          RolesAreClashes(g, mode, |rel| == 1, at, c, v, |rel'| == 1, at', c', w);
        }
      }
    }
    if Scannable(g, mode, root) {
      forall v | v in s
        ensures v.sort != Fatal
      {
        var at, c := VisitEntry(g, mode, root, v);
        DescribedFatal(g, mode, |v.rel| == 1, at, c, v);
      }
      forall v, w | v in s && w in s && v.rel != w.rel
        ensures !Clash(v, w)
      {
        var at, c := VisitEntry(g, mode, root, v);
        var at', c' := VisitEntry(g, mode, root, w);
        RolesAreClashes(g, mode, |v.rel| == 1, at, c, v, |w.rel| == 1, at', c', w);
      }
    }
  }

  lemma DescribedFatal(g: Graph, mode: Mode, top: bool, at: Place, c: Child, v: Visit)
    requires Describes(g, mode, top, at, c, v)
    ensures v.sort == Fatal <==> IsFatal(g, mode, top, at, c)
  {
  }

  lemma RoleIsShown(g: Graph, mode: Mode, at: Place, c: Child)
    requires RoleOf(g, mode, at, c) != NoRole
    ensures ShownAs(g, mode, at, c).Some?
  {
  }

  lemma RolesAreClashes(
    g: Graph, mode: Mode, top: bool, at: Place, c: Child, v: Visit, top': bool, at': Place, c': Child, w: Visit)
    requires Describes(g, mode, top, at, c, v) && Describes(g, mode, top', at', c', w)
    ensures Clash(v, w) <==> RolesClash(RoleOf(g, mode, at, c), RoleOf(g, mode, at', c'))
  {
    hide IsFatal, IsLeftOut, ShownAs, RoleOf, CrossedAs;
  }

  /** A result that says of every path what the graph says. */
  ghost predicate SaysWhatIsThere(
    g: Graph, mode: Mode, root: nat, out: map<Rel, LocalFingerprint>, excluded: seq<Rel>,
    boundaries: map<Rel, Boundary>)
  {
    && (forall rel, at, c | EntryAt(g, mode, root, rel, at, c) ::
          && (ShownAs(g, mode, at, c).Some? ==> rel in out && out[rel] == ShownAs(g, mode, at, c).value)
          && (IsLeftOut(g, mode, at, c) ==> rel in excluded)
          && (CrossedAs(g, mode, at, c).Some? ==>
               rel in boundaries && boundaries[rel] == CrossedAs(g, mode, at, c).value))
    && (forall rel | rel in out :: exists at, c :: EntryAt(g, mode, root, rel, at, c) && ShownAs(g, mode, at, c).Some?)
    && (forall rel | rel in excluded :: exists at, c :: EntryAt(g, mode, root, rel, at, c) && IsLeftOut(g, mode, at, c))
    && (forall rel | rel in boundaries ::
          exists at, c :: EntryAt(g, mode, root, rel, at, c) && CrossedAs(g, mode, at, c).Some?)
  }

  lemma VisitsSayWhatIsThere(
    g: Graph, mode: Mode, root: nat, out: map<Rel, LocalFingerprint>, excluded: seq<Rel>,
    boundaries: map<Rel, Boundary>)
    requires g.Valid() && root in g.dirs
    requires var s := RootVisits(g, mode, root);
             && out.Keys == ShownPaths(s) && (forall v | v in s && v.Shown() :: out[v.rel] == v.fp)
             && (forall r :: r in excluded <==> r in OmittedPaths(s))
             && boundaries.Keys == CrossedPaths(s) &&
                  (forall v | v in s && v.via.Some? :: boundaries[v.rel] == v.Crossed())
    ensures SaysWhatIsThere(g, mode, root, out, excluded, boundaries)
  {
    hide RootVisits, EntryAt, IsFatal, RoleOf, ShownAs, IsLeftOut, CrossedAs;
    var s := RootVisits(g, mode, root);
    forall rel, at, c | EntryAt(g, mode, root, rel, at, c)
      ensures ShownAs(g, mode, at, c).Some? ==> rel in out && out[rel] == ShownAs(g, mode, at, c).value
      ensures IsLeftOut(g, mode, at, c) ==> rel in excluded
      ensures CrossedAs(g, mode, at, c).Some? ==>
                rel in boundaries && boundaries[rel] == CrossedAs(g, mode, at, c).value
    {
      EntryVisit(g, mode, root, rel, at, c);
      CrossedIsShown(g, mode, at, c);
      if v :| v in s && v.rel == rel && Describes(g, mode, |rel| == 1, at, c, v) { }
    }
    forall rel | rel in out
      ensures exists at, c :: EntryAt(g, mode, root, rel, at, c) && ShownAs(g, mode, at, c).Some?
    {
      var v :| v in s && v.Shown() && v.rel == rel;
      var at, c := VisitEntry(g, mode, root, v);
    }
    forall rel | rel in excluded
      ensures exists at, c :: EntryAt(g, mode, root, rel, at, c) && IsLeftOut(g, mode, at, c)
    {
      var v :| v in s && v.sort == Omitted && v.rel == rel;
      var at, c := VisitEntry(g, mode, root, v);
    }
    forall rel | rel in boundaries
      ensures exists at, c :: EntryAt(g, mode, root, rel, at, c) && CrossedAs(g, mode, at, c).Some?
    {
      var v :| v in s && v.via.Some? && v.rel == rel;
      var at, c := VisitEntry(g, mode, root, v);
    }
  }

  lemma CrossedIsShown(g: Graph, mode: Mode, at: Place, c: Child)
    ensures CrossedAs(g, mode, at, c).Some? ==> ShownAs(g, mode, at, c).Some?
  {
  }

  /** ScanLocal: terminates on every graph. It succeeds exactly when no path leads
      to something that it must refuse and no two paths claim one identity; then
      it says of every path what is there, whatever order directories are listed
      in. */
  method ScanLocal(g: Graph, mode: Mode, listing: map<nat, seq<Child>>, root: nat) returns (ok: bool, scan: LocalScan)
    requires g.Valid() && Lists(g, listing)
    ensures ok <==> Scannable(g, mode, root)
    ensures ok ==> SaysWhatIsThere(g, mode, root, scan.out, scan.excluded, scan.boundaries) && Distinct(scan.excluded)
  {
    hide Coherent, Visits, Scannable, SaysWhatIsThere, ShownPaths, OmittedPaths, CrossedPaths;
    scan := new LocalScan(root);
    if root !in g.dirs {
      UnreadableRoot(g, mode, root);
      return false, scan;
    }
    NothingIsCoherent();
    ok := scan.ScanDir(g, mode, listing, root, [], {root}, false);
    assert {} + Visits(g, mode, root, [], {root}, false) == RootVisits(g, mode, root);
    CoherentIsScannable(g, mode, root);
    if ok { VisitsSayWhatIsThere(g, mode, root, scan.out, scan.excluded, scan.boundaries); }
  }

  lemma UnreadableRoot(g: Graph, mode: Mode, root: nat)
    requires root !in g.dirs
    ensures !Scannable(g, mode, root)
  {
  }

  lemma NothingIsCoherent()
    ensures Coherent({})
  {
  }

  /** The result is closed under parents, and nothing in it is at or below an
      excluded path. */
  lemma ResultIsPrefixClosed(g: Graph, mode: Mode, root: nat, r: Rel)
    requires g.Valid() && root in g.dirs && r in ShownPaths(RootVisits(g, mode, root))
    ensures r != [] && (|r| > 1 ==> r[..|r| - 1] in ShownPaths(RootVisits(g, mode, root)))
    ensures forall x | x in OmittedPaths(RootVisits(g, mode, root)) :: !Within(x, r)
  {
    hide Visits;
    var s := RootVisits(g, mode, root);
    var v :| v in s && v.Shown() && v.rel == r;
    var p := ParentIsShown(g, mode, root, [], {root}, false, v);
    if p.Some? { assert p.value in s && p.value.Shown(); }
    forall x | x in OmittedPaths(s)
      ensures !Within(x, r)
    {
      var o :| o in s && o.sort == Omitted && o.rel == x;
      if Within(x, r) { OmittedIsLeaf(g, mode, root, [], {root}, false, o, v); }
    }
  }

  lemma NoCopyStep(g: Graph, mode: Mode, d: nat, dir: Rel, ancestors: set<nat>, c: Child)
    requires mode != Copy
    ensures var step := Classify(g, mode, d, dir, ancestors, false, c);
            && (!step.Skip? ==> step.visit.sort != ACopiedDir && step.visit.sort != ACopiedFile)
            && (step.Enter? ==> !step.inside)
  {
  }

  lemma {:induction false} NoCopiesOutsideCopyMode(
    g: Graph, mode: Mode, d: nat, dir: Rel, ancestors: set<nat>, v: Visit)
    requires mode != Copy && d in g.dirs && d in ancestors && v in Visits(g, mode, d, dir, ancestors, false)
    ensures v.sort != ACopiedDir && v.sort != ACopiedFile
    decreases |g.dirs.Keys - ancestors|
  {
    hide Classify;
    var c :| c in g.dirs[d] && v in ChildVisits(g, mode, d, dir, ancestors, false, c);
    var step := Classify(g, mode, d, dir, ancestors, false, c);
    NoCopyStep(g, mode, d, dir, ancestors, c);
    if step.Enter? && v != step.visit {
      EnteredIsNew(g, mode, d, dir, ancestors, false, c);
      NoCopiesOutsideCopyMode(g, mode, step.visit.id, step.visit.rel, ancestors + {step.visit.id}, v);
    }
  }

  /** A successful scan outside copy mode exposes every directory identity at one
      logical path, and no followed file identity at a second one. */
  lemma IdentitiesAreExposedOnce(g: Graph, mode: Mode, root: nat, v: Visit, w: Visit)
    requires g.Valid() && root in g.dirs && mode != Copy && Coherent(RootVisits(g, mode, root))
    requires v in RootVisits(g, mode, root) && w in RootVisits(g, mode, root) && v.id == w.id
    ensures v.IsDir() && w.IsDir() ==> v == w
    ensures v.sort == ALinkedFile && (w.sort == ALinkedFile || w.sort == AFile) ==> v == w
  {
    hide Visits;
    NoCopiesOutsideCopyMode(g, mode, root, [], {root}, v);
    NoCopiesOutsideCopyMode(g, mode, root, [], {root}, w);
    if v.rel == w.rel { OneVisitPerPath(g, mode, root, [], {root}, false, v, w); }
  }
}
