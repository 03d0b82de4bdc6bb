/** Relative paths: slash-separated strings, their canonical form, the
    "at or below" relation, depth, and the total order used for sorting. */
module Paths {

  /** The components of a path, split at every '/'. */
  function Split(rel: string): (parts: seq<string>)
    ensures |parts| >= 1
  {
    if rel == "" then [""]
    else
      var rest := Split(rel[1..]);
      if rel[0] == '/' then [""] + rest else [[rel[0]] + rest[0]] + rest[1..]
  }

  /** path.Clean(rel) == rel for a path that does not start with '/'. */
  predicate IsClean(rel: string) {
    var parts := Split(rel);
    rel == "." ||
    ((forall i | 0 <= i < |parts| :: parts[i] != "" && parts[i] != ".") &&
     (forall i | 0 < i < |parts| :: parts[i] == ".." ==> parts[i - 1] == ".."))
  }

  predicate ValidRelPath(rel: string) {
    && rel != ""
    && '\\' !in rel
    && rel[0] != '/'
    && IsClean(rel)
    && rel != "."
    && !("../" <= rel)
  }

  /** What the path format promises: every component is an ordinary name. */
  predicate Descends(rel: string) {
    var parts := Split(rel);
    forall i | 0 <= i < |parts| :: parts[i] != "" && parts[i] != "." && parts[i] != ".."
  }

  lemma SplitHead(rel: string)
    ensures Split(rel)[0] == (if rel == "" || rel[0] == '/' then "" else [rel[0]] + Split(rel[1..])[0])
  {
  }

  /** A leading component ".." followed by more components starts with "../". */
  lemma SplitStartsWithDotDot(rel: string)
    requires Split(rel)[0] == ".."
    ensures rel == ".." || "../" <= rel
  {
    SplitHead(rel);
    assert Split(rel)[0][0] == rel[0] && Split(rel)[0][1..] == Split(rel[1..])[0];
    SplitHead(rel[1..]);
    assert Split(rel[1..])[0][0] == rel[1] && Split(rel[1..])[0][1..] == Split(rel[1..][1..])[0];
    SplitHead(rel[1..][1..]);
    assert rel == [rel[0], rel[1]] + rel[1..][1..];
  }

  /** The validator accepts a non-descending path in exactly one case: "..". */
  lemma ValidRelPathDescends(rel: string)
    requires ValidRelPath(rel)
    ensures Descends(rel) <==> rel != ".."
  {
    var parts := Split(rel);
    if rel == ".." {
      assert Split("..")[0] == "..";
    } else if exists i :: 0 <= i < |parts| && parts[i] == ".." {
      var i :| 0 <= i < |parts| && parts[i] == "..";
      DotDotRunStartsFirst(parts, i);
      SplitStartsWithDotDot(rel);
    }
  }

  lemma DotDotRunStartsFirst(parts: seq<string>, i: nat)
    requires i < |parts| && parts[i] == ".."
    requires forall j | 0 < j < |parts| :: parts[j] == ".." ==> parts[j - 1] == ".."
    ensures parts[0] == ".."
  {
    if i > 0 { DotDotRunStartsFirst(parts, i - 1); }
  }

  lemma DotDotIsAccepted()
    ensures ValidRelPath("..") && !Descends("..")
  {
    assert ".."[1..] == "." && "."[1..] == "";
    SplitHead(".");
    SplitHead("..");
    assert |Split("..")| == 1;
  }

  /** p is prefix itself or lies below it. */
  predicate AtOrBelow(prefix: string, p: string) {
    p == prefix || prefix + "/" <= p
  }

  predicate Excluded(prefixes: seq<string>, p: string) {
    exists i | 0 <= i < |prefixes| :: AtOrBelow(prefixes[i], p)
  }

  lemma AtOrBelowTransitive(a: string, b: string, c: string)
    requires AtOrBelow(a, b) && AtOrBelow(b, c)
    ensures AtOrBelow(a, c)
  {
    if b != a && c != b {
      assert (a + "/") <= b && b <= b + "/" && (b + "/") <= c;
      assert c[..|b|] == b;
      assert b[..|a| + 1] == a + "/";
      assert c[..|a| + 1] == a + "/";
    }
  }

  function CountSlashes(p: string): nat {
    if p == "" then 0 else (if p[0] == '/' then 1 else 0) + CountSlashes(p[1..])
  }

  function Depth(p: string): nat { CountSlashes(p) + 1 }

  lemma {:induction false} CountSlashesConcat(a: string, b: string)
    ensures CountSlashes(a + b) == CountSlashes(a) + CountSlashes(b)
  {
    if a == "" {
      assert a + b == b;
    } else {
      assert (a + b)[1..] == a[1..] + b;
      CountSlashesConcat(a[1..], b);
    }
  }

  /** Everything strictly below a path is deeper than the path. */
  lemma BelowIsDeeper(a: string, b: string)
    requires AtOrBelow(a, b) && a != b
    ensures Depth(a) < Depth(b)
  {
    var rest := b[|a| + 1..];
    assert b == a + "/" + rest;
    CountSlashesConcat(a, "/");
    CountSlashesConcat(a + "/", rest);
    assert CountSlashes("/") == 1 + CountSlashes("");
  }

  /** Byte-wise string order. */
  predicate Less(a: string, b: string) {
    b != "" && (a == "" || a[0] < b[0] || (a[0] == b[0] && Less(a[1..], b[1..])))
  }

  lemma {:induction false} LessIrreflexive(a: string)
    ensures !Less(a, a)
  {
    if a != "" { LessIrreflexive(a[1..]); }
  }

  lemma {:induction false} LessTransitive(a: string, b: string, c: string)
    requires Less(a, b) && Less(b, c)
    ensures Less(a, c)
  {
    if a != "" && a[0] == b[0] == c[0] { LessTransitive(a[1..], b[1..], c[1..]); }
  }

  lemma {:induction false} LessTotal(a: string, b: string)
    ensures a == b || Less(a, b) || Less(b, a)
  {
    if a != "" && b != "" && a[0] == b[0] {
      LessTotal(a[1..], b[1..]);
      assert a == [a[0]] + a[1..] && b == [b[0]] + b[1..];
    }
  }

  predicate StrictlySorted(s: seq<string>) {
    forall i, j | 0 <= i < j < |s| :: Less(s[i], s[j])
  }

  /** Places p into a sorted list that does not hold it. */
  function Insert(p: string, s: seq<string>): (r: seq<string>)
    requires StrictlySorted(s) && p !in s
    ensures StrictlySorted(r)
    ensures forall q :: q in r <==> q == p || q in s
  {
    if s == [] then [p]
    else if Less(p, s[0]) then
      assert forall i | 0 < i < |s| :: Less(p, s[i]) by {
        forall i | 0 < i < |s| ensures Less(p, s[i]) { LessTransitive(p, s[0], s[i]); }
      }
      [p] + s
    else
      LessTotal(p, s[0]);
      var rest := Insert(p, s[1..]);
      assert forall q | q in rest :: Less(s[0], q) by {
        forall q | q in rest ensures Less(s[0], q) {
          if q != p { var i :| 0 <= i < |s[1..]| && s[1..][i] == q; }
        }
      }
      assert s == [s[0]] + s[1..];
      [s[0]] + rest
  }

  /** The strictly increasing list of a set of paths. */
  ghost function Sorted(paths: set<string>): (r: seq<string>)
    ensures StrictlySorted(r)
    ensures forall q :: q in r <==> q in paths
  {
    if paths == {} then []
    else
      var p :| p in paths;
      Insert(p, Sorted(paths - {p}))
  }

  /** A strictly increasing list is determined by its elements. */
  lemma {:induction false} SortedUnique(a: seq<string>, b: seq<string>)
    requires StrictlySorted(a) && StrictlySorted(b)
    requires forall q :: q in a <==> q in b
    ensures a == b
  {
    assert a != [] ==> a[0] in a;
    assert b != [] ==> b[0] in b;
    if a != [] && b != [] {
      assert a[0] in b && b[0] in a;
      var i :| 0 <= i < |b| && b[i] == a[0];
      var j :| 0 <= j < |a| && a[j] == b[0];
      if a[0] != b[0] {
        assert Less(b[0], a[0]) && Less(a[0], b[0]);
        LessTransitive(a[0], b[0], a[0]);
        LessIrreflexive(a[0]);
      }
      forall q ensures q in a[1..] <==> q in b[1..] {
        TailMembers(a, q);
        TailMembers(b, q);
      }
      SortedUnique(a[1..], b[1..]);
      assert a == [a[0]] + a[1..] && b == [b[0]] + b[1..];
    }
  }

  lemma TailMembers(a: seq<string>, q: string)
    requires StrictlySorted(a) && a != []
    ensures q in a[1..] <==> q in a && q != a[0]
  {
    LessIrreflexive(a[0]);
    if q in a && q != a[0] {
      var i :| 0 <= i < |a| && a[i] == q;
      assert a[1..][i - 1] == q;
    }
  }
}
