/** `commitPatch` (extensions/builtin-tools/src/apply-patch.ts) as a whole: all changes are made, or none is left. */
module PatchTransaction {
  import opened Outcomes
  import opened Disk
  import opened PatchJournal
  import opened PatchCommit
  import opened PatchForward
  import opened PatchRollback

  // ----- Temporary backups

  /** Removing temporary names and some directories: nothing plain and no content changes. */
  ghost predicate Swept(v: Volume, u: Volume, gone: set<Path>) {
    && Valid(u) && u.data == v.data && u.nextIno == v.nextIno
    && (forall q: Path | Plain(q) :: SameName(v, u, q))
    && (forall p | p in u.names :: p in v.names)
    && v.dirs - gone <= u.dirs <= v.dirs
  }

  lemma {:induction false} SweepMore(v: Volume, u: Volume, u': Volume, gone: set<Path>)
    requires Swept(v, u, gone) && Swept(u, u', gone)
    ensures Swept(v, u', gone)
  {
    forall q: Path | Plain(q) ensures SameName(v, u', q) {
      assert SameName(v, u, q) && SameName(u, u', q);
    }
  }

  lemma {:induction false} SweptSelf(v: Volume, gone: set<Path>)
    requires Valid(v)
    ensures Swept(v, v, gone)
  {
  }

  lemma {:induction false} UnlinkSweeps(v: Volume, p: Path, gone: set<Path>)
    requires Valid(v) && !Plain(p)
    ensures Swept(v, Unlinked(v, p), gone)
  {
    EffectsKeepValid(v, p);
  }

  lemma {:induction false} RmdirSweeps(v: Volume, d: Path, gone: set<Path>)
    requires Valid(v) && EmptyDir(v, d) && d in gone
    ensures Swept(v, DirRemoved(v, d), gone)
  {
    EffectsKeepValid(v, d);
  }

  /** The temporary directories hold nothing but one link each. */
  ghost predicate TempsApart(v: Volume, backups: seq<Path>) {
    && (forall e | e in v.dirs :: Dirname(e) !in backups)
    && (forall p | p in v.names :: Dirname(p) in backups ==> p == BackupOf(Dirname(p)))
    && NoRepeats(backups)
    && forall d | d in backups :: d in v.dirs && d != [] && !Plain(d)
  }

  /** One backup: its link, if there, and its directory. */
  method CleanBackup(fs: FileSystem, d: Path, ghost gone: set<Path>) returns (ok: bool)
    requires Valid(fs.v) && !Plain(d) && d in gone
    modifies fs
    ensures fs.unlinked == old(fs.unlinked)
    ensures Valid(fs.v) && Swept(old(fs.v), fs.v, gone) && (old(fs.Quiet()) ==> fs.Quiet())
    ensures ok ==> BackupOf(d) !in fs.v.names && d !in fs.v.dirs
    ensures fs.v.dirs == old(fs.v).dirs || fs.v.dirs == old(fs.v).dirs - {d}
    ensures old(fs.Quiet()) && EmptyDir(Unlinked(old(fs.v), BackupOf(d)), d) ==> ok
  {
    ghost var v := fs.v;
    SweptSelf(v, gone);
    var original := BackupOf(d);
    assert !Plain(original) by {
      var c :| c in d && !c.Named?;
      assert c in original;
    }
    if original in fs.v.names {
      ok := fs.Unlink(original);
      UnlinkSweeps(v, original, gone);
    } else {
      ok := fs.Reads();
      assert Unlinked(v, original).names == v.names;
    }
    ghost var u := fs.v;
    hide Swept;
    if ok {
      ok := fs.Rmdir(d);
      if fs.v != u {
        RmdirSweeps(u, d, gone);
        SweepMore(v, u, fs.v, gone);
      }
    }
  }

  lemma {:induction false} BackupIsEmpty(v: Volume, u: Volume, backups: seq<Path>, d: Path)
    requires TempsApart(v, backups) && Swept(v, u, Members(backups)) && d in backups && d in u.dirs
    ensures EmptyDir(Unlinked(u, BackupOf(d)), d)
  {
  }

  /** `cleanBackups`: removes them from the last to the first, counting those that stay. */
  method CleanBackups(fs: FileSystem, backups: seq<Path>) returns (failures: nat)
    requires Valid(fs.v) && forall d | d in backups :: !Plain(d)
    modifies fs
    ensures fs.unlinked == old(fs.unlinked)
    ensures Swept(old(fs.v), fs.v, Members(backups)) && (old(fs.Quiet()) ==> fs.Quiet())
    ensures failures == 0 ==> forall d | d in backups :: BackupOf(d) !in fs.v.names && d !in fs.v.dirs
    ensures old(fs.Quiet()) && TempsApart(old(fs.v), backups) ==> failures == 0
  {
    failures := 0;
    var k := |backups|;
    ghost var v, gone := fs.v, Members(backups);
    SweptSelf(v, gone);
    while k > 0
      invariant 0 <= k <= |backups| && Valid(fs.v) && Swept(v, fs.v, gone) && fs.unlinked == old(fs.unlinked)
      invariant old(fs.Quiet()) ==> fs.Quiet() && (TempsApart(v, backups) ==> failures == 0)
      invariant TempsApart(v, backups) ==> ThereBelow(fs.v.dirs, backups, k)
      invariant failures == 0 ==> Cleaned(fs.v, backups, k)
    {
      hide *;
      k := k - 1;
      var d := backups[k];
      ghost var u := fs.v;
      if TempsApart(v, backups) && ThereBelow(u.dirs, backups, k + 1) {
        NextBackup(v, u, backups, k, gone);
      }
      InMembers(backups, k);
      var ok := CleanBackup(fs, d, gone);
      SweepMore(v, u, fs.v, gone);
      OneCleaned(v, u, fs.v, backups, k, gone);
      if !ok {
        failures := failures + 1;
      }
    }
  }

  /** The backups from `k` on are gone. */
  ghost predicate Cleaned(v: Volume, backups: seq<Path>, k: nat) {
    forall j | k <= j < |backups| :: BackupOf(backups[j]) !in v.names && backups[j] !in v.dirs
  }

  lemma {:induction false} InMembers(backups: seq<Path>, k: nat)
    requires k < |backups|
    ensures backups[k] in Members(backups)
  {
  }

  lemma {:induction false} NextBackup(v: Volume, u: Volume, backups: seq<Path>, k: nat, gone: set<Path>)
    requires TempsApart(v, backups) && gone == Members(backups) && Swept(v, u, gone) && k < |backups| && ThereBelow(u.dirs, backups, k + 1)
    ensures EmptyDir(Unlinked(u, BackupOf(backups[k])), backups[k])
  {
    BackupIsEmpty(v, u, backups, backups[k]);
  }

  lemma {:induction false} OneCleaned(v: Volume, u: Volume, u': Volume, backups: seq<Path>, k: nat, gone: set<Path>)
    requires k < |backups| && Swept(u, u', gone) && (u'.dirs == u.dirs || u'.dirs == u.dirs - {backups[k]})
    ensures TempsApart(v, backups) && ThereBelow(u.dirs, backups, k + 1) ==> ThereBelow(u'.dirs, backups, k)
    ensures Cleaned(u, backups, k + 1) && BackupOf(backups[k]) !in u'.names && backups[k] !in u'.dirs ==> Cleaned(u', backups, k)
  {
    hide BackupOf;
  }

  lemma {:induction false} TempsAreApart(v0: Volume, f: Volume, r: Volume, run: Run)
    requires Layout(v0, f, run) && AllPlain(v0) && Valid(r) && r.dirs == f.dirs
    requires forall p | p in r.names && !Plain(p) :: p in f.names
    ensures TempsApart(r, run.backups)
  {
    forall e | e in r.dirs ensures Dirname(e) !in run.backups {
      assert e in Members(run.backups) ==> e in run.backups;
      assert e in Members(run.directories) ==> e in run.directories && Plain(e);
      assert Plain(Dirname(e));
    }
    forall p | p in r.names && Dirname(p) in run.backups ensures p == BackupOf(Dirname(p)) {
      assert Plain(p) ==> Plain(Dirname(p));
      var d :| d in run.backups && p == BackupOf(d);
      assert Dirname(p) == d;
    }
    forall d | d in run.backups ensures d in r.dirs {
      assert d in Members(run.backups);
    }
  }

  // ----- Directories made

  /** Only directories made later lie in the directories made, and no file does. */
  ghost predicate Removable(v: Volume, directories: seq<Path>) {
    && (forall p | p in v.names :: Dirname(p) !in directories)
    && (forall e | e in v.dirs && Dirname(e) in directories :: e in directories)
    && (forall d | d in directories :: d in v.dirs && d != [])
    && NoRepeats(directories)
    && forall i, j | 0 <= i < j < |directories| :: Dirname(directories[i]) != directories[j]
  }

  lemma {:induction false} DirectoryIsEmpty(v: Volume, dirs: set<Path>, directories: seq<Path>, k: nat)
    requires Removable(v, directories) && k < |directories| && dirs <= v.dirs && directories[k] in dirs
    requires forall j | k < j < |directories| :: directories[j] !in dirs
    ensures EmptyDir(v.(dirs := dirs), directories[k])
  {
    var d := directories[k];
    forall e | e in dirs && e != [] ensures Dirname(e) != d {
      if e in directories {
        var j :| 0 <= j < |directories| && directories[j] == e;
        assert |Dirname(e)| < |e|;
      }
    }
  }

  /** The first `k` directories are there. */
  predicate ThereBelow(dirs: set<Path>, directories: seq<Path>, k: nat) { forall j | 0 <= j < k <= |directories| :: directories[j] in dirs }

  /** The directories from `k` on are gone. */
  predicate GoneFrom(dirs: set<Path>, directories: seq<Path>, k: nat) { forall j | k <= j < |directories| :: directories[j] !in dirs }

  lemma {:induction false} RemovableAtStart(v: Volume, directories: seq<Path>)
    requires Removable(v, directories)
    ensures ThereBelow(v.dirs, directories, |directories|)
  {
  }

  lemma {:induction false} OneGone(v: Volume, dirs: set<Path>, dirs': set<Path>, directories: seq<Path>, k: nat)
    requires k < |directories| && dirs - {directories[k]} <= dirs' <= dirs
    ensures GoneFrom(dirs, directories, k + 1) && directories[k] !in dirs' ==> GoneFrom(dirs', directories, k)
    ensures Removable(v, directories) && ThereBelow(dirs, directories, k + 1) ==> ThereBelow(dirs', directories, k)
  {
  }

  lemma {:induction false} NextIsEmpty(v: Volume, u: Volume, directories: seq<Path>, k: nat)
    requires Removable(v, directories) && k < |directories| && u == v.(dirs := u.dirs) && u.dirs <= v.dirs
    requires ThereBelow(u.dirs, directories, k + 1) && GoneFrom(u.dirs, directories, k + 1)
    ensures EmptyDir(u, directories[k])
  {
    DirectoryIsEmpty(v, u.dirs, directories, k);
  }

  method RemoveDirectory(fs: FileSystem, d: Path, ghost gone: set<Path>) returns (ok: bool)
    requires Valid(fs.v) && d in gone
    modifies fs
    ensures fs.unlinked == old(fs.unlinked)
    ensures Valid(fs.v) && Swept(old(fs.v), fs.v, gone) && (old(fs.Quiet()) ==> fs.Quiet())
    ensures fs.v == old(fs.v).(dirs := fs.v.dirs) && old(fs.v).dirs - {d} <= fs.v.dirs <= old(fs.v).dirs
    ensures (ok ==> d !in fs.v.dirs) && (old(fs.Quiet()) && EmptyDir(old(fs.v), d) ==> ok)
  {
    ghost var v := fs.v;
    SweptSelf(v, gone);
    ok := fs.Rmdir(d);
    if fs.v != v {
      RmdirSweeps(v, d, gone);
    }
  }

  /** Removes the directories made, the last first, counting those that stay. */
  method RemoveDirectories(fs: FileSystem, directories: seq<Path>) returns (failures: nat)
    requires Valid(fs.v)
    modifies fs
    ensures fs.unlinked == old(fs.unlinked)
    ensures Valid(fs.v) && Swept(old(fs.v), fs.v, Members(directories)) && (old(fs.Quiet()) ==> fs.Quiet())
    ensures failures == 0 ==> GoneFrom(fs.v.dirs, directories, 0)
    ensures old(fs.Quiet()) && Removable(old(fs.v), directories) ==> failures == 0
  {
    failures := 0;
    var k := |directories|;
    ghost var v, gone := fs.v, Members(directories);
    SweptSelf(v, gone);
    if Removable(v, directories) {
      RemovableAtStart(v, directories);
    }
    hide Swept, EmptyDir, Valid, Removable, ThereBelow;
    while k > 0
      invariant 0 <= k <= |directories| && Valid(fs.v) && Swept(v, fs.v, gone) && fs.unlinked == old(fs.unlinked)
      invariant fs.v == v.(dirs := fs.v.dirs) && fs.v.dirs <= v.dirs
      invariant old(fs.Quiet()) ==> fs.Quiet() && (Removable(v, directories) ==> failures == 0)
      invariant Removable(v, directories) ==> ThereBelow(fs.v.dirs, directories, k)
      invariant failures == 0 ==> GoneFrom(fs.v.dirs, directories, k)
    {
      hide GoneFrom;
      ghost var u := fs.v;
      if failures == 0 && Removable(v, directories) {
        NextIsEmpty(v, u, directories, k - 1);
      }
      k := k - 1;
      assert directories[k] in gone;
      var ok := RemoveDirectory(fs, directories[k], gone);
      SweepMore(v, u, fs.v, gone);
      OneGone(v, u.dirs, fs.v.dirs, directories, k);
      if !ok {
        failures := failures + 1;
      }
    }
  }

  // ----- The commit

  datatype Outcome = Applied | AppliedUncleaned | RolledBack | RollbackIncomplete

  /** Every path has its original existence and bytes, and nothing made on the way is left. Paths in
      `rewritten` may have new inodes. */
  ghost predicate AsBefore(v0: Volume, v: Volume, rewritten: set<Path>)
    requires Valid(v0)
  {
    Valid(v) && v.dirs == v0.dirs && v.names.Keys == v0.names.Keys && ShownAgain(v0, v, rewritten)
  }

  /** With every deletion backed by a hard link, even the inodes are those from before, with their bytes. */
  lemma {:induction false} AsBeforeIsSame(v0: Volume, v: Volume)
    requires Valid(v0) && AllPlain(v0) && AsBefore(v0, v, {})
    ensures v.names == v0.names && forall i | i in v0.data :: i in v.data && v.data[i] == v0.data[i]
  {
    forall p | p in v0.names ensures v.names[p] == v0.names[p] {
      assert Plain(p) && SameName(v0, v, p);
    }
  }

  lemma {:induction false} FramedSweep(v0: Volume, v: Volume, u: Volume, claimed: set<Path>, inos: set<Ino>, gone: set<Path>)
    requires Framed(v0, v, claimed, inos) && Swept(v, u, gone)
    ensures Framed(v0, u, claimed, inos)
  {
    forall q: Path | Plain(q) && q !in claimed ensures SameName(v0, u, q) {
      assert SameName(v0, v, q) && SameName(v, u, q);
    }
  }

  lemma {:induction false} ShownSweep(v0: Volume, v: Volume, u: Volume, rewritten: set<Path>, gone: set<Path>)
    requires Valid(v0) && Valid(v) && Valid(u) && ShownAgain(v0, v, rewritten) && Swept(v, u, gone)
    ensures ShownAgain(v0, u, rewritten)
  {
    forall p: Path | Plain(p)
      ensures Content(Peek(u, p)) == Content(Peek(v0, p)) && (p !in rewritten ==> SameName(v0, u, p))
    {
      assert SameName(v, u, p);
    }
  }

  lemma {:induction false} DoneSweep(v: Volume, u: Volume, current: map<Path, Snapshot>, originals: map<Path, Snapshot>, changes: seq<Change>, gone: set<Path>)
    requires Valid(v) && Valid(u) && Swept(v, u, gone) && Done(v, current, originals, changes) && forall p | p in originals :: Plain(p)
    ensures Done(u, current, originals, changes)
  {
    forall p | p in originals && LastAfter(changes, p).Some? ensures Peek(u, p) == current[p] {
      assert SameName(v, u, p);
    }
  }

  /** No temporary name or directory outlives a cleanup without failures. */
  lemma {:induction false} SweptClean(v0: Volume, f: Volume, r: Volume, u: Volume, run: Run)
    requires Layout(v0, f, run) && AllPlain(v0) && r.dirs == f.dirs && Swept(r, u, Members(run.backups))
    requires forall p | p in r.names && !Plain(p) :: p in f.names
    requires forall d | d in run.backups :: BackupOf(d) !in u.names && d !in u.dirs
    ensures AllPlain(u) && u.dirs == v0.dirs + Members(run.directories)
  {
    forall p | p in u.names ensures Plain(p) {
      assert p in r.names;
    }
    assert forall d | d in run.backups :: !Plain(d);
    forall d | d in u.dirs ensures d in v0.dirs + Members(run.directories) && Plain(d) {
      assert d in Members(run.backups) ==> d in run.backups;
      assert d in Members(run.directories) ==> d in run.directories;
    }
    forall d | d in v0.dirs + Members(run.directories) ensures d in u.dirs {
      assert d in Members(run.directories) ==> d in run.directories && Plain(d);
      assert d in Members(run.backups) ==> d in run.backups;
    }
  }

  /** What a volume whose changed paths are all as planned looks like. */
  ghost predicate MadeAsPlanned(v: Volume, originals: map<Path, Snapshot>, changes: seq<Change>)
    requires Valid(v)
  {
    forall p | p in originals ::
      match LastAfter(changes, p)
      case None => true
      case Some(after) => Content(Peek(v, p)) == after
  }

  /** Only directories above claimed paths were added, and no temporary name is left. */
  ghost predicate OnlyParentsAdded(v0: Volume, v: Volume, claimed: set<Path>) {
    AllPlain(v) && v0.dirs <= v.dirs && forall d | d in v.dirs && d !in v0.dirs :: Above(claimed, d)
  }

  /** After the undos and the cleanup, the directories made hold nothing else. */
  lemma {:induction false} MadeAreRemovable(v0: Volume, u: Volume, run: Run, rewritten: set<Path>)
    requires Valid(v0) && Valid(u) && DirectoriesMade(v0, run.directories) && AllPlain(u) && u.dirs == v0.dirs + Members(run.directories)
    requires ShownAgain(v0, u, rewritten)
    ensures Removable(u, run.directories)
  {
    forall p | p in u.names ensures Dirname(p) !in run.directories {
      assert Content(Peek(u, p)) == Content(Peek(v0, p));
      assert p in v0.names && Dirname(p) in v0.dirs;
    }
    forall d | d in run.directories ensures d in u.dirs {
      assert d in Members(run.directories);
    }
    forall e | e in u.dirs && Dirname(e) in run.directories ensures e in run.directories {
      assert e in v0.dirs ==> Dirname(e) in v0.dirs;
    }
  }

  lemma {:induction false} RemovedIsBefore(v0: Volume, u: Volume, w: Volume, run: Run, rewritten: set<Path>)
    requires Valid(v0) && AllPlain(v0) && Valid(u) && Valid(w) && DirectoriesMade(v0, run.directories) && AllPlain(u)
    requires u.dirs == v0.dirs + Members(run.directories) && ShownAgain(v0, u, rewritten)
    requires Swept(u, w, Members(run.directories)) && GoneFrom(w.dirs, run.directories, 0)
    ensures AsBefore(v0, w, rewritten)
  {
    ShownSweep(v0, u, w, rewritten, Members(run.directories));
    forall p | p in w.names || p in v0.names ensures p in w.names && p in v0.names {
      assert Plain(p);
      assert Content(Peek(w, p)) == Content(Peek(v0, p));
    }
    forall d | d in w.dirs ensures d in v0.dirs {
      assert d in Members(run.directories) ==> d in run.directories;
    }
    forall d | d in v0.dirs ensures d in w.dirs {
      assert d in Members(run.directories) ==> d in run.directories;
    }
  }

  lemma {:induction false} ShownMore(v0: Volume, r: Volume, w: set<Path>, w': set<Path>)
    requires Valid(v0) && Valid(r) && ShownAgain(v0, r, w) && w <= w'
    ensures ShownAgain(v0, r, w')
  {
  }

  lemma {:induction false} ReadyParts(v0: Volume, v: Volume, run: Run, owner: map<Ino, Path>, inos: set<Ino>)
    requires Ready(v0, v, run, owner, inos)
    ensures Valid(v) && Layout(v0, v, run) && DirectoriesMade(v0, run.directories) && Framed(v0, v, run.current.Keys, inos)
    ensures forall d | d in run.backups :: !Plain(d)
    ensures forall d | d in run.directories :: Above(run.current.Keys, d)
  {
    hide Undoable, PrefixFree, Above, Valid, Framed, DirectoriesMade;
  }

  lemma {:induction false} KeptParts(v0: Volume, f: Volume, r: Volume, claimed: set<Path>, inos: set<Ino>)
    requires Kept(v0, f, r, claimed, inos)
    ensures Valid(r) && Framed(v0, r, claimed, inos) && r.dirs == f.dirs && forall p | p in r.names && !Plain(p) :: p in f.names
  {
    hide Valid, Framed;
  }

  /** The catch block. Once calls stop failing, it puts everything back exactly when no file that was changed before was
      deleted without a hard link. */
  method RollBack(fs: FileSystem, run: Run, ghost v0: Volume, ghost owner: map<Ino, Path>, ghost inos: set<Ino>)
    returns (outcome: Outcome)
    requires Valid(v0) && AllPlain(v0) && Ready(v0, fs.v, run, owner, inos)
    modifies fs
    ensures old(fs.unlinked) <= fs.unlinked
    ensures Valid(fs.v) && Framed(v0, fs.v, run.current.Keys, inos)
    ensures outcome.RolledBack? || outcome.RollbackIncomplete?
    ensures outcome.RolledBack? ==> AsBefore(v0, fs.v, UnlinkedDeletes(run.journal))
    ensures old(fs.Quiet()) ==> (outcome.RolledBack? <==> !Strands(run.journal, old(fs.v)))
  {
    ghost var f, claimed, gone := fs.v, run.current.Keys, Members(run.backups);
    ReadyParts(v0, f, run, owner, inos);
    hide Ready, Valid, Kept, Unwound, Strands, UnlinkedDeletes, Layout, Framed, Swept, TempsApart, Removable, ShownAgain, AsBefore, GoneFrom,
      DirectoriesMade, Members, AllPlain;
    var undos;
    ghost var rewritten, all := {}, UnlinkedDeletes(run.journal);
    undos, rewritten := UndoAll(fs, run, v0, owner, inos);
    ghost var r := fs.v;
    KeptParts(v0, f, r, claimed, inos);
    if undos == 0 {
      UndoneIsShownAgain(v0, run.journal, f, r, rewritten, owner);
      ShownMore(v0, r, rewritten, all);
    }
    TempsAreApart(v0, f, r, run);
    var backups := CleanBackups(fs, run.backups);
    ghost var u := fs.v;
    FramedSweep(v0, r, u, claimed, inos, gone);
    if undos == 0 {
      ShownSweep(v0, r, u, all, gone);
    }
    if backups == 0 {
      SweptClean(v0, f, r, u, run);
      if undos == 0 {
        MadeAreRemovable(v0, u, run, all);
      }
    }
    var directories := RemoveDirectories(fs, run.directories);
    FramedSweep(v0, u, fs.v, claimed, inos, Members(run.directories));
    if undos == 0 && backups == 0 && directories == 0 {
      RemovedIsBefore(v0, u, fs.v, run, all);
      outcome := RolledBack;
    } else {
      outcome := RollbackIncomplete;
    }
  }

  lemma {:induction false} CommittedState(v0: Volume, f: Volume, u: Volume, run: Run, originals: map<Path, Snapshot>, changes: seq<Change>, clean: bool)
    requires Valid(f) && Valid(u) && Layout(v0, f, run) && AllPlain(v0) && Done(f, run.current, originals, changes)
    requires Swept(f, u, Members(run.backups)) && forall p | p in originals :: Plain(p)
    requires forall d | d in run.directories :: Above(run.current.Keys, d)
    requires clean ==> forall d | d in run.backups :: BackupOf(d) !in u.names && d !in u.dirs
    ensures MadeAsPlanned(u, originals, changes)
    ensures clean ==> OnlyParentsAdded(v0, u, originals.Keys)
  {
    DoneSweep(f, u, run.current, originals, changes, Members(run.backups));
    hide Valid, Above;
    if clean {
      SweptClean(v0, f, f, u, run);
      forall d | d in u.dirs && d !in v0.dirs ensures Above(originals.Keys, d) {
        assert d in Members(run.directories);
      }
    }
  }

  /** All or nothing: whatever calls fail, either every claimed path holds its last planned content, or
      (unless the rollback reports failures of its own) every path is as it was; other paths and inodes are
      never touched. Without failing calls, a plan that fits the volume is carried out. `failed` is the state when the
      changes stopped, and `calm` says that no call fails from then on. `unlinked` counts the calls until then that would
      have kept a deleted file's inode and failed: as many deletions have no hard link, and if there are none, every old
      file comes back as it was. */
  method CommitPatch(fs: FileSystem, changes: seq<Change>, originals: map<Path, Snapshot>)
    returns (outcome: Outcome, run: Run, ghost failed: Volume, ghost calm: bool, ghost unlinked: nat)
    requires Valid(fs.v) && AllPlain(fs.v) && Planned(fs.v, originals, changes)
    modifies fs
    ensures Valid(fs.v) && Framed(old(fs.v), fs.v, originals.Keys, InosOf(originals))
    ensures outcome.Applied? || outcome.AppliedUncleaned? ==> MadeAsPlanned(fs.v, originals, changes)
    ensures outcome.Applied? ==> OnlyParentsAdded(old(fs.v), fs.v, originals.Keys)
    ensures outcome.RolledBack? ==> AsBefore(old(fs.v), fs.v, UnlinkedDeletes(run.journal))
    ensures old(fs.Quiet()) && Fits(old(fs.v), originals) ==> outcome.Applied?
    ensures Unbacked(run.journal) == unlinked && old(fs.unlinked) + unlinked <= fs.unlinked
    ensures unlinked == 0 ==> UnlinkedDeletes(run.journal) == {} && (calm ==> !outcome.RollbackIncomplete?)
    ensures calm ==> (outcome.RollbackIncomplete? ==> Strands(run.journal, failed)) && (outcome.RolledBack? ==> !Strands(run.journal, failed))
  {
    ghost var v0, inos := fs.v, InosOf(originals);
    assert forall p | p in originals :: Plain(p);
    var ok;
    ghost var owner;
    ok, run, owner := Forward(fs, changes, originals);
    ghost var f, gone := fs.v, Members(run.backups);
    failed, calm, unlinked := fs.v, fs.Quiet(), fs.unlinked - old(fs.unlinked);
    if unlinked == 0 {
      AllBacked(run.journal, failed);
    }
    ReadyParts(v0, f, run, owner, inos);
    hide Ready, Valid, Planned, Done, Layout, Framed, Swept, TempsApart, AsBefore, Members, AllPlain, MadeAsPlanned, OnlyParentsAdded, Above,
      UnlinkedDeletes, Strands, Fits, DirectoriesMade, InosOf;
    if !ok {
      outcome := RollBack(fs, run, v0, owner, inos);
      return;
    }
    TempsAreApart(v0, f, f, run);
    var failures := CleanBackups(fs, run.backups);
    FramedSweep(v0, f, fs.v, run.current.Keys, inos, gone);
    CommittedState(v0, f, fs.v, run, originals, changes, failures == 0);
    outcome := if failures == 0 then Applied else AppliedUncleaned;
  }
}
