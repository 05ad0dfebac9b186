/** `commitPatch` of extensions/builtin-tools/src/apply-patch.ts: applying planned changes with a journal,
    hard-link backups and a rollback. */
module PatchCommit {
  import opened Outcomes
  import opened Disk
  import opened PatchJournal

  /** What a commit keeps while it runs. */
  datatype Run = Run(current: map<Path, Snapshot>, journal: seq<Entry>, directories: seq<Path>, backups: seq<Path>)

  const ORIGINAL := Named("original")

  function BackupOf(dir: Path): Path { dir + [ORIGINAL] }

  predicate SafePath(v: Volume, p: Path) {
    p != [] && forall k | 0 <= k < |p| :: p[..k] !in v.names
  }

  lemma {:induction false} ParentIsSafe(v: Volume, p: Path, k: nat)
    requires Valid(v) && p != [] && Dirname(p) in v.dirs && k < |p|
    ensures p[..k] in v.dirs && p[..k] !in v.names
    decreases |p| - k
  {
    if k == |p| - 1 {
      assert p[..k] == Dirname(p);
    } else {
      ParentIsSafe(v, p, k + 1);
      assert Dirname(p[..k + 1]) == p[..k];
    }
  }

  // ----- What holds while a commit runs

  ghost predicate OwnedBy(owner: map<Ino, Path>, current: map<Path, Snapshot>, bound: Ino) {
    && (forall i | i in owner :: i < bound)
    && forall p | p in current && current[p].Present? :: current[p].ino in owner && owner[current[p].ino] == p
  }

  /** The journal leads back to `v0`, and each inode it holds belongs to one path. */
  ghost predicate Undoable(v0: Volume, v: Volume, run: Run, owner: map<Ino, Path>) {
    && Chain(v0, run.journal, v)
    && Owned(owner, run.journal, v.nextIno)
    && OwnedBy(owner, run.current, v.nextIno)
    && forall p | p in run.current :: Plain(p) && p != []
  }

  /** Where journaled paths lie, and the directories and temporary names the commit has made. */
  ghost predicate Layout(v0: Volume, v: Volume, run: Run) {
    && v.dirs == v0.dirs + Members(run.directories) + Members(run.backups)
    && (forall p | p in v.names && !Plain(p) :: exists d | d in run.backups :: p == BackupOf(d))
    && DirectoriesMade(v0, run.directories)
    && (forall d | d in run.backups :: !Plain(d) && d != [] && Plain(Dirname(d)))
    && NoRepeats(run.backups)
    && forall e | e in run.journal :: Plain(e.path) && e.path != [] && Dirname(e.path) in v.dirs && e.path !in v.dirs
  }

  function Members(s: seq<Path>): set<Path> { set p | p in s }

  predicate NoRepeats(s: seq<Path>) { forall i, j | 0 <= i < j < |s| :: s[i] != s[j] }

  /** New plain directories, each made after its parent. */
  ghost predicate DirectoriesMade(v0: Volume, directories: seq<Path>) {
    && (forall d | d in directories :: Plain(d) && d != [] && d !in v0.dirs)
    && NoRepeats(directories)
    && forall i, j | 0 <= i < j < |directories| :: Dirname(directories[i]) != directories[j]
  }

  /** Nothing but the claimed paths, and no old inode but theirs, is touched. */
  ghost predicate Framed(v0: Volume, v: Volume, claimed: set<Path>, inos: set<Ino>) {
    && (forall q: Path | Plain(q) && q !in claimed :: SameName(v0, v, q))
    && (forall i | i in v0.data && i !in inos :: i in v.data && v.data[i] == v0.data[i])
    && v0.nextIno <= v.nextIno
  }

  /** The inodes a commit may write: those of the originals and those it makes. */
  ghost predicate OwnInos(v0: Volume, run: Run, inos: set<Ino>) {
    && (forall p | p in run.current && run.current[p].Present? :: run.current[p].ino in inos || v0.nextIno <= run.current[p].ino)
    && forall e | e in run.journal :: e.owned in inos || v0.nextIno <= e.owned
  }

  /** The last planned content of a path among some changes, if any names it. */
  function LastAfter(changes: seq<Change>, p: Path): Option<Option<Bytes>> {
    if changes == [] then None
    else
      var last := changes[|changes| - 1];
      if last.path == p then Some(last.after) else LastAfter(changes[..|changes| - 1], p)
  }

  /** Each changed path shows its last planned content; the others are as planned from. */
  ghost predicate Done(v: Volume, current: map<Path, Snapshot>, originals: map<Path, Snapshot>, changes: seq<Change>)
    requires Valid(v)
  {
    && current.Keys == originals.Keys
    && forall p | p in originals ::
         match LastAfter(changes, p)
         case None => current[p] == originals[p]
         case Some(after) => Content(current[p]) == after && Peek(v, p) == current[p]
  }

  /** Everything that holds between two changes of a commit. */
  ghost predicate Going(v0: Volume, v: Volume, run: Run, owner: map<Ino, Path>, inos: set<Ino>)
  {
    && Undoable(v0, v, run, owner)
    && Layout(v0, v, run)
    && Framed(v0, v, run.current.Keys, inos)
    && OwnInos(v0, run, inos)
  }

  // ----- Idle effects: directories and backups

  lemma {:induction false} MkdirIsIdle(v: Volume, d: Path)
    requires Valid(v) && Valid(DirMade(v, d))
    ensures Idle(v, DirMade(v, d))
  {
  }

  lemma {:induction false} TempIsIdle(v: Volume, parent: Path)
    requires Valid(v) && Valid(TempMade(v, parent))
    ensures Idle(v, TempMade(v, parent))
  {
  }

  lemma {:induction false} BackupIsIdle(v: Volume, p: Path, q: Path)
    requires Valid(v) && p in v.names && q !in v.names && !Plain(q) && Valid(Linked(v, p, q))
    ensures Idle(v, Linked(v, p, q))
  {
  }

  lemma {:induction false} UndoableIdle(v0: Volume, v: Volume, u: Volume, run: Run, run': Run, owner: map<Ino, Path>)
    requires Undoable(v0, v, run, owner) && Idle(v, u) && run'.current == run.current && run'.journal == run.journal
    ensures Undoable(v0, u, run', owner)
  {
    ChainThenIdle(v0, run.journal, v, u);
  }

  lemma {:induction false} FramedIdle(v0: Volume, v: Volume, u: Volume, claimed: set<Path>, inos: set<Ino>)
    requires Framed(v0, v, claimed, inos) && Idle(v, u)
    ensures Framed(v0, u, claimed, inos)
  {
    forall q: Path | Plain(q) && q !in claimed ensures SameName(v0, u, q) {
      assert SameName(v0, v, q) && SameName(v, u, q);
    }
  }

  /** An idle effect that keeps the layout keeps everything. */
  lemma {:induction false} GoingIdle(v0: Volume, v: Volume, u: Volume, run: Run, run': Run, owner: map<Ino, Path>, inos: set<Ino>)
    requires Going(v0, v, run, owner, inos) && Idle(v, u) && Layout(v0, u, run')
    requires run'.current == run.current && run'.journal == run.journal
    ensures Going(v0, u, run', owner, inos)
  {
    UndoableIdle(v0, v, u, run, run', owner);
    FramedIdle(v0, v, u, run.current.Keys, inos);
  }

  lemma {:induction false} DirectoryGrows(v0: Volume, directories: seq<Path>, d: Path)
    requires DirectoriesMade(v0, directories) && Plain(d) && d != [] && d !in v0.dirs && d !in directories
    requires forall e | e in directories :: Dirname(e) != d
    ensures DirectoriesMade(v0, directories + [d])
    ensures Members(directories + [d]) == Members(directories) + {d}
  {
  }

  lemma {:induction false} ParentsOfMade(v0: Volume, v: Volume, run: Run, d: Path)
    requires Valid(v) && Layout(v0, v, run) && d !in v.dirs
    ensures d !in v0.dirs && d !in run.directories && forall e | e in run.directories :: Dirname(e) != d
  {
    forall e | e in run.directories ensures Dirname(e) != d {
      assert e in Members(run.directories) && e in v.dirs;
      assert Dirname(e) in v.dirs;
    }
    assert d in run.directories ==> d in Members(run.directories);
  }

  lemma {:induction false} LayoutMkdir(v0: Volume, v: Volume, run: Run, d: Path)
    requires Valid(v) && Layout(v0, v, run) && Vacant(v, d) && Plain(d) && forall e | e in run.journal :: e.path != d
    ensures Layout(v0, DirMade(v, d), run.(directories := run.directories + [d]))
  {
    assert d != [];
    ParentsOfMade(v0, v, run, d);
    DirectoryGrows(v0, run.directories, d);
  }

  lemma {:induction false} LayoutTemp(v0: Volume, v: Volume, run: Run, parent: Path)
    requires Valid(v) && Layout(v0, v, run) && Plain(parent) && TempDir(v, parent) !in v.dirs
    ensures Layout(v0, TempMade(v, parent), run.(backups := run.backups + [TempDir(v, parent)]))
  {
    var d := TempDir(v, parent);
    assert d[|d| - 1] == Temporary(v.nextTemp) && d[|d| - 1] in d;
    assert Dirname(d) == parent;
    assert forall e | e in run.backups :: e in Members(run.backups) && e in v.dirs;
    assert Members(run.backups + [d]) == Members(run.backups) + {d};
    forall p | p in v.names && !Plain(p) ensures exists e | e in run.backups + [d] :: p == BackupOf(e) {
      var e :| e in run.backups && p == BackupOf(e);
      assert e in run.backups + [d];
    }
  }

  lemma {:induction false} LayoutBackup(v0: Volume, v: Volume, run: Run, p: Path, d: Path)
    requires Layout(v0, v, run) && p in v.names && d in run.backups
    ensures Layout(v0, Linked(v, p, BackupOf(d)), run)
  {
  }
}
