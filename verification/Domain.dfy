/** Values of the synchronization domain: fingerprints, expectations,
    baselines, decisions and the equivalences the planner and the
    compare-and-swap checks are built on. */
module Domain {
  import opened Paths

  datatype Outcome<+T> = Ok(value: T) | Err {
    predicate IsFailure() { Err? }
    function PropagateFailure<U>(): Outcome<U> requires Err? { Err }
    function Extract(): T requires Ok? { value }
  }

  datatype Option<+T> = None | Some(value: T)

  /** NoKind stands for the empty string and every unsupported kind. */
  datatype EntryKind = NoKind | KindFile | KindDir

  /** strings.TrimSpace(s) == "". */
  predicate Blank(s: string) {
    forall c | c in s :: c in {' ', '\t', '\n', '\r'}
  }

  datatype LocalFingerprint = LocalFingerprint(present: bool, kind: EntryKind, size: int, mtimeNS: int) {
    predicate Valid() {
      if !present then kind == NoKind && size == 0 && mtimeNS == 0
      else kind != NoKind && size >= 0 && (kind == KindDir ==> size == 0)
    }
  }

  datatype RemoteFingerprint =
    RemoteFingerprint(present: bool, kind: EntryKind, id: string, rev: string, size: int, mtimeUS: int) {
    predicate Valid() {
      if !present then kind == NoKind && id == "" && rev == "" && size == 0 && mtimeUS == 0
      else
        && kind != NoKind
        && !Blank(id)
        && size >= 0
        && (kind == KindFile ==> !Blank(rev))
        && (kind == KindDir ==> rev == "" && size == 0)
    }
  }

  const LOCAL_ABSENT := LocalFingerprint(false, NoKind, 0, 0)
  const LOCAL_DIR := LocalFingerprint(true, KindDir, 0, 0)
  const REMOTE_ABSENT := RemoteFingerprint(false, NoKind, "", "", 0, 0)

  datatype RemoteExpectation = RemoteExpectation(absent: bool, id: string, rev: string) {
    predicate Valid() {
      if absent then id == "" && rev == "" else !Blank(id)
    }
  }

  datatype Baseline = Baseline(rootID: int, relPath: string, local: LocalFingerprint, remote: RemoteFingerprint) {
    predicate Valid() {
      && rootID > 0
      && ValidRelPath(relPath)
      && local.Valid()
      && remote.Valid()
      && (local.present && remote.present ==> local.kind == remote.kind)
    }
  }

  datatype ContentEvidence = ContentUnknown | ContentEqual | ContentDifferent | ContentInvalid

  datatype DecisionKind =
    | Noop | CommitBaseline | EnsureRemote | EnsureLocal | DeleteRemote | DeleteLocal
    | DropBaseline | CompareContent | ConflictFound

  datatype ConflictKind =
    | NoConflict | BothModified | LocalDeleteRemoteEdit | RemoteDeleteLocalEdit
    | SimultaneousCreate | KindMismatch

  datatype Decision = Decision(
    relPath: string, kind: DecisionKind, entryKind: EntryKind, conflict: ConflictKind,
    expectedLocal: LocalFingerprint, expectedRemote: RemoteExpectation)

  /** Unchanged local state; directory contents are compared through children. */
  predicate LocalEquivalent(a: LocalFingerprint, b: LocalFingerprint) {
    a.present == b.present &&
    (a.present ==>
      a.kind == b.kind && (a.kind != KindDir ==> a.size == b.size && a.mtimeNS == b.mtimeNS))
  }

  /** Unchanged remote state; a file's revision is its version token. */
  predicate RemoteEquivalent(a: RemoteFingerprint, b: RemoteFingerprint) {
    a.present == b.present &&
    (a.present ==>
      && a.kind == b.kind
      && a.id == b.id
      && (a.kind != KindDir ==> a.rev == b.rev && a.size == b.size))
  }

  function ExpectationOf(remote: RemoteFingerprint): RemoteExpectation {
    if !remote.present then RemoteExpectation(true, "", "")
    else RemoteExpectation(false, remote.id, remote.rev)
  }

  /** The syncer's form of the remote precondition check. */
  predicate RemoteMatches(remote: RemoteFingerprint, expected: RemoteExpectation, kind: EntryKind) {
    if expected.absent then !remote.present
    else
      && remote.present
      && remote.kind == kind
      && remote.id == expected.id
      && (if kind == KindFile then remote.rev == expected.rev else expected.rev == "")
  }

  function PresentKind(local: LocalFingerprint, remote: RemoteFingerprint): EntryKind {
    if local.present then local.kind else if remote.present then remote.kind else NoKind
  }

  predicate IsExternal(k: DecisionKind) {
    k == EnsureRemote || k == EnsureLocal || k == DeleteRemote || k == DeleteLocal
  }

  predicate IsDelete(k: DecisionKind) {
    k == DeleteRemote || k == DeleteLocal
  }
}
