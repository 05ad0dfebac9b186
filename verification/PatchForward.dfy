/** The try block of `commitPatch` (extensions/builtin-tools/src/apply-patch.ts): making the planned changes. */
module PatchForward {
  import opened Outcomes
  import opened Disk
  import opened PatchJournal
  import opened PatchCommit

  /** No claimed path is a directory on the way to another. */
  predicate PrefixFree(claimed: set<Path>) {
    forall p, q | p in claimed && q in claimed :: !(p < q)
  }

  /** Some claimed path lies below `d`. */
  predicate Above(claimed: set<Path>, d: Path) { exists p | p in claimed :: d < p }

  /** Journaled paths are claimed, and directories are only made above claimed paths. */
  predicate JournalClaimed(run: Run) {
    && (forall e | e in run.journal :: e.path in run.current)
    && forall d | d in run.directories :: Above(run.current.Keys, d)
  }

  ghost predicate Ready(v0: Volume, v: Volume, run: Run, owner: map<Ino, Path>, inos: set<Ino>) {
    Valid(v) && Going(v0, v, run, owner, inos) && JournalClaimed(run) && PrefixFree(run.current.Keys)
  }

  // ----- Effects on a claimed path

  function Journaled(run: Run, e: Entry): Run { run.(journal := run.journal + [e]) }

  function Moved(run: Run, p: Path, s: Snapshot): Run { run.(current := run.current[p := s]) }

  /** How many deletions of a journal have no hard link. */
  function Unbacked(journal: seq<Entry>): nat {
    if journal == [] then 0
    else Unbacked(journal[..|journal| - 1]) + if journal[|journal| - 1].after.None? && journal[|journal| - 1].backup.None? then 1 else 0
  }

  lemma {:induction false} OneMoreEntry(journal: seq<Entry>, e: Entry)
    ensures Unbacked(journal + [e]) == Unbacked(journal) + if e.after.None? && e.backup.None? then 1 else 0
  {
    assert (journal + [e])[..|journal|] == journal;
  }

  lemma {:induction false} OwnedGrows(owner: map<Ino, Path>, owner': map<Ino, Path>, journal: seq<Entry>, e: Entry, bound: Ino, bound': Ino)
    requires Owned(owner, journal, bound) && bound <= bound' && e.owned < bound'
    requires forall i | i in owner :: i in owner' && owner'[i] == owner[i]
    requires e.before.Present? ==> e.before.ino in owner' && owner'[e.before.ino] == e.path
    ensures Owned(owner', journal + [e], bound')
  {
  }

  lemma {:induction false} LayoutJournal(v0: Volume, v: Volume, v': Volume, run: Run, e: Entry)
    requires Layout(v0, v, run) && v'.dirs == v.dirs && forall p | p in v'.names && !Plain(p) :: p in v.names
    requires Plain(e.path) && e.path != [] && Dirname(e.path) in v.dirs && e.path !in v.dirs
    ensures Layout(v0, v', Journaled(run, e))
  {
  }

  lemma {:induction false} FramedWrite(v0: Volume, v: Volume, v': Volume, claimed: set<Path>, inos: set<Ino>, p: Path, ino: Ino)
    requires Framed(v0, v, claimed, inos) && p in claimed && SameNamesBut(v, v', p) && v.nextIno <= v'.nextIno
    requires DataKeptBut(v, v', ino) && (ino in inos || v0.nextIno <= ino) && forall i | i in v0.data :: i < v0.nextIno
    ensures Framed(v0, v', claimed, inos)
  {
    forall q: Path | Plain(q) && q !in claimed ensures SameName(v0, v', q) {
      assert SameName(v0, v, q) && SameName(v, v', q);
    }
  }

  lemma {:induction false} UndoableStep(v0: Volume, v: Volume, v': Volume, run: Run, e: Entry, owner: map<Ino, Path>, owner': map<Ino, Path>)
    requires Undoable(v0, v, run, owner) && Step(v, e, v') && e.owned < v'.nextIno
    requires forall i | i in owner :: i in owner' && owner'[i] == owner[i]
    requires forall i | i in owner' :: i < v'.nextIno
    requires e.before.Present? ==> e.before.ino in owner' && owner'[e.before.ino] == e.path
    ensures Undoable(v0, v', Journaled(run, e), owner')
  {
    ChainGrows(v0, run.journal, v, e, v');
    OwnedGrows(owner, owner', run.journal, e, v.nextIno, v'.nextIno);
  }

  lemma {:induction false} OwnInosStep(v0: Volume, run: Run, e: Entry, inos: set<Ino>)
    requires OwnInos(v0, run, inos) && (e.owned in inos || v0.nextIno <= e.owned)
    ensures OwnInos(v0, Journaled(run, e), inos)
  {
  }

  /** A journaled change, however far it got, keeps everything. */
  lemma {:induction false} ReadyStep(v0: Volume, v: Volume, v': Volume, run: Run, e: Entry, owner: map<Ino, Path>, owner': map<Ino, Path>, inos: set<Ino>)
    requires Ready(v0, v, run, owner, inos) && Step(v, e, v') && e.path in run.current && e.owned < v'.nextIno
    requires forall i | i in owner :: i in owner' && owner'[i] == owner[i]
    requires forall i | i in owner' :: i < v'.nextIno
    requires e.before.Present? ==> e.before.ino in owner' && owner'[e.before.ino] == e.path
    requires v'.dirs == v.dirs && (forall p | p in v'.names && !Plain(p) :: p in v.names)
    requires Dirname(e.path) in v.dirs && e.path !in v.dirs
    requires DataKeptBut(v, v', e.owned) && (e.owned in inos || v0.nextIno <= e.owned) && forall i | i in v0.data :: i < v0.nextIno
    ensures Ready(v0, v', Journaled(run, e), owner', inos)
  {
    UndoableStep(v0, v, v', run, e, owner, owner');
    LayoutJournal(v0, v, v', run, e);
    FramedWrite(v0, v, v', run.current.Keys, inos, e.path, e.owned);
    OwnInosStep(v0, run, e, inos);
  }

  /** Recording what a path now shows keeps everything. */
  lemma {:induction false} ReadyMoved(v0: Volume, v: Volume, run: Run, owner: map<Ino, Path>, inos: set<Ino>, p: Path, s: Snapshot)
    requires Ready(v0, v, run, owner, inos) && p in run.current
    requires s.Present? ==> s.ino in owner && owner[s.ino] == p && (s.ino in inos || v0.nextIno <= s.ino)
    ensures Ready(v0, v, Moved(run, p, s), owner, inos)
  {
    assert Moved(run, p, s).current.Keys == run.current.Keys;
    MovedUndoable(v0, v, run, owner, p, s);
    MovedOwnInos(v0, run, inos, p, s);
  }

  lemma {:induction false} MovedUndoable(v0: Volume, v: Volume, run: Run, owner: map<Ino, Path>, p: Path, s: Snapshot)
    requires Undoable(v0, v, run, owner) && p in run.current && (s.Present? ==> s.ino in owner && owner[s.ino] == p)
    ensures Undoable(v0, v, Moved(run, p, s), owner)
  {
  }

  lemma {:induction false} MovedOwnInos(v0: Volume, run: Run, inos: set<Ino>, p: Path, s: Snapshot)
    requires OwnInos(v0, run, inos) && p in run.current && (s.Present? ==> s.ino in inos || v0.nextIno <= s.ino)
    ensures OwnInos(v0, Moved(run, p, s), inos)
  {
  }

  lemma {:induction false} UpdateStep(v: Volume, p: Path, bytes: Bytes, after: Bytes, ino: Ino, left: Bytes)
    requires Valid(v) && Peek(v, p) == Present(bytes, ino) && Plain(p)
    ensures Step(v, Entry(p, Present(bytes, ino), Some(after), ino, None), Written(v, ino, left))
    ensures DataKeptBut(v, Written(v, ino, left), ino)
  {
    EffectsKeepValid(v, p);
  }

  lemma {:induction false} CreateStep(v: Volume, p: Path, after: Bytes, left: Bytes)
    requires Valid(v) && Vacant(v, p) && Plain(p)
    ensures Step(v, Entry(p, Absent, Some(after), v.nextIno, None), Written(Created(v, p), v.nextIno, left))
    ensures DataKeptBut(v, Written(Created(v, p), v.nextIno, left), v.nextIno)
  {
    EffectsKeepValid(v, p);
    EffectsKeepValid(Created(v, p), p);
  }

  lemma {:induction false} DeleteStep(v: Volume, p: Path, bytes: Bytes, ino: Ino, backup: Option<Path>, t: Volume)
    requires Valid(v) && Peek(v, p) == Present(bytes, ino) && Plain(p) && (t == v || t == Unlinked(v, p))
    requires backup.Some? ==> !Plain(backup.value) && backup.value in v.names && v.names[backup.value] == ino
    ensures Step(v, Entry(p, Present(bytes, ino), None, ino, backup), t)
    ensures DataKeptBut(v, t, ino)
  {
    EffectsKeepValid(v, p);
  }

  // ----- What is already done

  /** A change to one path leaves what the others show. */
  lemma {:induction false} DoneGrows(v: Volume, v': Volume, current: map<Path, Snapshot>, originals: map<Path, Snapshot>, changes: seq<Change>,
                                     owner: map<Ino, Path>, bound: Ino, c: Change, ino: Ino, s: Snapshot)
    requires Valid(v) && Valid(v') && Done(v, current, originals, changes) && OwnedBy(owner, current, bound)
    requires c.path in originals && forall p | p in originals :: Plain(p)
    requires SameNamesBut(v, v', c.path) && DataKeptBut(v, v', ino) && (ino in owner ==> owner[ino] == c.path)
    requires Content(s) == c.after && Peek(v', c.path) == s
    ensures Done(v', current[c.path := s], originals, changes + [c])
  {
    hide LastAfter, Valid, SameNamesBut, DataKeptBut, OwnedBy, Peek;
    forall p | p in originals ensures LastAfter(changes + [c], p) == if p == c.path then Some(c.after) else LastAfter(changes, p) {
      LastOfMore(changes, c, p);
    }
    forall p | p in originals && p != c.path && LastAfter(changes, p).Some? ensures Peek(v', p) == current[p] {
      StaysShown(v, v', current, owner, bound, c, ino, p);
    }
  }

  lemma {:induction false} LastOfMore(changes: seq<Change>, c: Change, p: Path)
    ensures LastAfter(changes + [c], p) == if p == c.path then Some(c.after) else LastAfter(changes, p)
  {
    assert (changes + [c])[..|changes|] == changes;
  }

  lemma {:induction false} StaysShown(v: Volume, v': Volume, current: map<Path, Snapshot>, owner: map<Ino, Path>, bound: Ino, c: Change, ino: Ino, p: Path)
    requires Valid(v) && Valid(v') && OwnedBy(owner, current, bound) && p in current && Peek(v, p) == current[p] && Plain(p) && p != c.path
    requires SameNamesBut(v, v', c.path) && DataKeptBut(v, v', ino) && (ino in owner ==> owner[ino] == c.path)
    ensures Peek(v', p) == current[p]
  {
    assert SameName(v, v', p);
    hide SameNamesBut;
  }

  lemma {:induction false} DoneIdle(v: Volume, u: Volume, current: map<Path, Snapshot>, originals: map<Path, Snapshot>, changes: seq<Change>)
    requires Idle(v, u) && Done(v, current, originals, changes) && forall p | p in originals :: Plain(p)
    ensures Done(u, current, originals, changes)
  {
    forall p | p in originals && LastAfter(changes, p).Some? ensures Peek(u, p) == current[p] {
      assert SameName(v, u, p);
    }
  }

  // ----- What still fits

  /** Every claimed path lies where a file may, and shows what is recorded for it. */
  ghost predicate Fits(v: Volume, current: map<Path, Snapshot>) {
    Valid(v) && forall p | p in current :: SafePath(v, p) && p !in v.dirs && Peek(v, p) == current[p]
  }

  lemma {:induction false} SafeStays(v: Volume, v': Volume, p: Path, q: Path)
    requires SafePath(v, q) && SameNamesBut(v, v', p) && Plain(q) && !(p < q)
    ensures SafePath(v', q)
  {
    forall k | 0 <= k < |q| ensures q[..k] !in v'.names {
      assert Plain(q[..k]) && q[..k] < q;
      assert SameName(v, v', q[..k]);
    }
  }

  lemma {:induction false} FitsGrows(v: Volume, v': Volume, current: map<Path, Snapshot>, owner: map<Ino, Path>, bound: Ino,
                                     p: Path, ino: Ino, s: Snapshot)
    requires Fits(v, current) && Valid(v') && OwnedBy(owner, current, bound) && PrefixFree(current.Keys)
    requires p in current && forall q | q in current :: Plain(q)
    requires SameNamesBut(v, v', p) && DataKeptBut(v, v', ino) && (ino in owner ==> owner[ino] == p)
    requires v'.dirs == v.dirs && Peek(v', p) == s
    ensures Fits(v', current[p := s])
  {
    forall q | q in current ensures SafePath(v', q) && q !in v'.dirs && Peek(v', q) == current[p := s][q] {
      SafeStays(v, v', p, q);
      if q != p {
        assert SameName(v, v', q);
      }
    }
  }

  lemma {:induction false} FitsIdle(v: Volume, u: Volume, current: map<Path, Snapshot>)
    requires Fits(v, current) && Idle(v, u) && (forall p | p in current :: Plain(p) && p !in u.dirs)
    ensures Fits(u, current)
  {
    forall p | p in current ensures SafePath(u, p) && Peek(u, p) == current[p] {
      assert SameName(v, u, p);
      forall k | 0 <= k < |p| ensures p[..k] !in u.names {
        assert Plain(p[..k]);
        assert SameName(v, u, p[..k]);
      }
    }
  }

  lemma {:induction false} FitsBelow(v: Volume, u: Volume, current: map<Path, Snapshot>, q: Path)
    requires Fits(v, current) && Idle(v, u) && q in current && PrefixFree(current.Keys) && forall p | p in current :: Plain(p)
    requires GrownAbove(v.dirs, u.dirs, q)
    ensures Fits(u, current)
  {
    FitsIdle(v, u, current);
  }

  // ----- Calls

  /** `unchanged`: the path still shows what was recorded for it. */
  method Unchanged(fs: FileSystem, p: Path, before: Snapshot) returns (ok: bool)
    requires Valid(fs.v)
    modifies fs`faults
    ensures ok ==> SafePath(fs.v, p) && p !in fs.v.dirs && Peek(fs.v, p) == before
    ensures old(fs.Quiet()) ==> fs.Quiet() && (SafePath(fs.v, p) && p !in fs.v.dirs && Peek(fs.v, p) == before ==> ok)
  {
    var safe := fs.Reads();
    if !safe || p == [] || exists k | 0 <= k < |p| :: p[..k] in fs.v.names {
      return false;
    }
    var read := fs.Reads();
    if !read || p in fs.v.dirs {
      return false;
    }
    ok := before == if p in fs.v.names then Present(fs.v.data[fs.v.names[p]], fs.v.names[p]) else Absent;
  }

  /** The directories above `p` are there down to depth `k`, and none is below. */
  predicate Climbed(v: Volume, p: Path, k: nat) {
    SafePath(v, p) && k < |p| && p[..k] in v.dirs && forall j | k < j < |p| :: p[..j] !in v.dirs
  }

  lemma {:induction false} ClimbOne(v: Volume, p: Path, k: nat)
    requires Climbed(v, p, k) && k + 1 < |p|
    ensures Vacant(v, p[..k + 1]) && Climbed(DirMade(v, p[..k + 1]), p, k + 1)
  {
    assert Dirname(p[..k + 1]) == p[..k];
    assert forall j | k + 1 < j < |p| :: |p[..j]| != |p[..k + 1]|;
  }

  lemma {:induction false} ClimbedToTop(v: Volume, p: Path, k: nat)
    requires Climbed(v, p, k) && k + 1 == |p|
    ensures Dirname(p) in v.dirs
  {
  }

  /** The directories missing on the way to `p`, deepest first. */
  method MissingParents(fs: FileSystem, p: Path) returns (ok: bool, missing: seq<Path>)
    requires Valid(fs.v) && p != []
    modifies fs`faults
    ensures |missing| < |p| && forall j | 0 <= j < |missing| :: missing[j] == p[..|p| - 1 - j]
    ensures old(fs.Quiet()) ==> ok && fs.Quiet() && (SafePath(fs.v, p) ==> Climbed(fs.v, p, |p| - 1 - |missing|))
  {
    missing := [];
    var k := |p| - 1;
    while true
      invariant 0 <= k < |p| && |missing| == |p| - 1 - k
      invariant forall j | 0 <= j < |missing| :: missing[j] == p[..|p| - 1 - j]
      invariant forall j | k < j < |p| :: p[..j] !in fs.v.dirs
      invariant old(fs.Quiet()) ==> fs.Quiet()
      decreases k
    {
      ok := fs.Reads();
      if !ok || p[..k] in fs.v.names || p[..k] in fs.v.dirs {
        return;
      }
      missing := missing + [p[..k]];
      k := k - 1;
    }
  }

  /** Makes one missing directory on the way to `p` and records it. */
  method MakeDirectory(fs: FileSystem, p: Path, k: nat, run0: Run, ghost v0: Volume, ghost owner: map<Ino, Path>, ghost inos: set<Ino>)
    returns (ok: bool, run: Run)
    requires Ready(v0, fs.v, run0, owner, inos) && p in run0.current && Plain(p) && k + 1 < |p|
    modifies fs
    ensures fs.unlinked == old(fs.unlinked)
    ensures Ready(v0, fs.v, run, owner, inos) && Idle(old(fs.v), fs.v)
    ensures run.current == run0.current && run.journal == run0.journal
    ensures fs.v.dirs <= old(fs.v).dirs + {p[..k + 1]} && (old(fs.Quiet()) ==> fs.Quiet())
    ensures old(fs.Quiet()) && Climbed(old(fs.v), p, k) ==> ok && Climbed(fs.v, p, k + 1)
  {
    var d := p[..k + 1];
    ghost var v := fs.v;
    if Climbed(v, p, k) {
      ClimbOne(v, p, k);
    }
    ok := fs.Mkdir(d);
    if ok {
      MkdirIsIdle(v, d);
      MkdirReady(v0, v, run0, owner, inos, p, k + 1);
      run := run0.(directories := run0.directories + [d]);
    } else {
      run := run0;
      IdleSelf(v);
    }
  }

  lemma {:induction false} IdleSelf(v: Volume)
    requires Valid(v)
    ensures Idle(v, v)
  {
  }

  lemma {:induction false} MkdirReady(v0: Volume, v: Volume, run: Run, owner: map<Ino, Path>, inos: set<Ino>, p: Path, k: nat)
    requires Valid(v) && Ready(v0, v, run, owner, inos) && p in run.current && k < |p| && Vacant(v, p[..k]) && Plain(p[..k])
    requires Valid(DirMade(v, p[..k]))
    ensures Ready(v0, DirMade(v, p[..k]), run.(directories := run.directories + [p[..k]]), owner, inos)
  {
    var d := p[..k];
    assert d < p;
    MkdirIsIdle(v, d);
    LayoutMkdir(v0, v, run, d);
    GoingIdle(v0, v, DirMade(v, d), run, run.(directories := run.directories + [d]), owner, inos);
  }

  /** New directories lie above `p`. */
  predicate GrownAbove(dirs: set<Path>, dirs': set<Path>, p: Path) { forall d | d in dirs' :: d in dirs || d < p }

  lemma {:induction false} GrowAbove(dirs: set<Path>, dirs': set<Path>, dirs'': set<Path>, p: Path, k: nat)
    requires GrownAbove(dirs, dirs', p) && k < |p| && dirs'' <= dirs' + {p[..k]}
    ensures GrownAbove(dirs, dirs'', p)
  {
    assert p[..k] < p;
  }

  method MakeParents(fs: FileSystem, p: Path, run0: Run, ghost v0: Volume, ghost owner: map<Ino, Path>, ghost inos: set<Ino>)
    returns (ok: bool, run: Run)
    requires Ready(v0, fs.v, run0, owner, inos) && p in run0.current && Plain(p) && p != []
    modifies fs
    ensures fs.unlinked == old(fs.unlinked)
    ensures Ready(v0, fs.v, run, owner, inos) && Idle(old(fs.v), fs.v)
    ensures run.current == run0.current && run.journal == run0.journal
    ensures GrownAbove(old(fs.v).dirs, fs.v.dirs, p)
    ensures old(fs.Quiet()) ==> fs.Quiet() && (SafePath(old(fs.v), p) ==> ok && Dirname(p) in fs.v.dirs)
  {
    hide Going, PrefixFree, JournalClaimed, Idle;
    run := run0;
    IdleSelf(fs.v);
    var missing;
    ok, missing := MissingParents(fs, p);
    ghost var calm := old(fs.Quiet() && SafePath(fs.v, p));
    var k := |p| - 1 - |missing|;
    while ok && k + 1 < |p|
      invariant |p| - 1 - |missing| <= k < |p|
      invariant Idle(old(fs.v), fs.v) && Ready(v0, fs.v, run, owner, inos) && fs.unlinked == old(fs.unlinked)
      invariant GrownAbove(old(fs.v).dirs, fs.v.dirs, p)
      invariant run.current == run0.current && run.journal == run0.journal
      invariant old(fs.Quiet()) ==> fs.Quiet()
      invariant calm ==> ok && Climbed(fs.v, p, k)
      decreases |p| - k, ok
    {
      ghost var before := fs.v;
      ok, run := MakeDirectory(fs, p, k, run, v0, owner, inos);
      IdleTrans(old(fs.v), before, fs.v);
      GrowAbove(old(fs.v).dirs, before.dirs, fs.v.dirs, p, k + 1);
      k := k + 1;
    }
    if calm {
      ClimbedToTop(fs.v, p, k);
    }
  }

  /** Keeps a deleted file's inode reachable through a hard link, where links work. */
  method MakeBackup(fs: FileSystem, p: Path, run0: Run, ghost v0: Volume, ghost owner: map<Ino, Path>, ghost inos: set<Ino>)
    returns (run: Run, backup: Option<Path>)
    requires Ready(v0, fs.v, run0, owner, inos) && p in run0.current && p in fs.v.names
    modifies fs
    ensures fs.unlinked == old(fs.unlinked) + if backup.Some? then 0 else 1
    ensures Ready(v0, fs.v, run, owner, inos) && Idle(old(fs.v), fs.v)
    ensures run.current == run0.current && run.journal == run0.journal
    ensures backup.Some? ==> !Plain(backup.value) && backup.value in fs.v.names && p in fs.v.names
                             && fs.v.names[backup.value] == fs.v.names[p]
    ensures (forall d | d in fs.v.dirs :: d in old(fs.v).dirs || !Plain(d)) && (old(fs.Quiet()) ==> fs.Quiet() && backup.Some?)
  {
    run, backup := run0, None;
    var parent := Dirname(p);
    assert Plain(parent);
    var dir := fs.Mkdtemp(parent);
    if dir.None? {
      return;
    }
    var d := dir.value;
    ghost var made := fs.v;
    TempReady(v0, old(fs.v), run, owner, inos, parent);
    run := run.(backups := run.backups + [d]);
    BackupIsTemporary(made, d);
    NewDirectoryIsEmpty(old(fs.v), parent);
    var linked := fs.Link(p, BackupOf(d));
    if fs.v != made {
      LinkReady(v0, made, run, owner, inos, p, d);
      IdleTrans(old(fs.v), made, fs.v);
    }
    if linked {
      backup := Some(BackupOf(d));
    }
  }

  lemma {:induction false} TempReady(v0: Volume, v: Volume, run: Run, owner: map<Ino, Path>, inos: set<Ino>, parent: Path)
    requires Valid(v) && Ready(v0, v, run, owner, inos) && Plain(parent) && TempDir(v, parent) !in v.dirs && Valid(TempMade(v, parent))
    ensures Ready(v0, TempMade(v, parent), run.(backups := run.backups + [TempDir(v, parent)]), owner, inos)
    ensures Idle(v, TempMade(v, parent)) && !Plain(TempDir(v, parent))
  {
    TempIsIdle(v, parent);
    LayoutTemp(v0, v, run, parent);
    GoingIdle(v0, v, TempMade(v, parent), run, run.(backups := run.backups + [TempDir(v, parent)]), owner, inos);
    var d := TempDir(v, parent);
    assert d[|d| - 1] == Temporary(v.nextTemp) && d[|d| - 1] in d;
  }

  lemma {:induction false} LinkReady(v0: Volume, v: Volume, run: Run, owner: map<Ino, Path>, inos: set<Ino>, p: Path, d: Path)
    requires Valid(v) && Ready(v0, v, run, owner, inos) && p in v.names && Vacant(v, BackupOf(d)) && d in run.backups
    requires Valid(Linked(v, p, BackupOf(d))) && !Plain(BackupOf(d))
    ensures Ready(v0, Linked(v, p, BackupOf(d)), run, owner, inos) && Idle(v, Linked(v, p, BackupOf(d)))
  {
    BackupIsIdle(v, p, BackupOf(d));
    LayoutBackup(v0, v, run, p, d);
    GoingIdle(v0, v, Linked(v, p, BackupOf(d)), run, run, owner, inos);
  }

  lemma {:induction false} NewDirectoryIsEmpty(v: Volume, parent: Path)
    requires Valid(v) && Plain(parent) && parent in v.dirs
    ensures Vacant(TempMade(v, parent), BackupOf(TempDir(v, parent)))
  {
    TempKeepsValid(v, parent);
    var p := BackupOf(TempDir(v, parent));
    assert Dirname(p) == TempDir(v, parent);
  }

  lemma {:induction false} BackupIsTemporary(v: Volume, d: Path)
    requires Valid(v) && d in v.dirs && !Plain(d)
    ensures !Plain(BackupOf(d)) && TempsBelow(BackupOf(d), v.nextTemp)
  {
    var c :| c in d && !c.Named?;
    assert c in BackupOf(d);
  }

  /** What the state before a change has to offer it. */
  ghost predicate Offers(v: Volume, run: Run, originals: map<Path, Snapshot>, done: seq<Change>, c: Change, v0: Volume) {
    && Valid(v) && Valid(v0)
    && c.path in run.current && Peek(v, c.path) == run.current[c.path] && c.path !in v.dirs
    && Done(v, run.current, originals, done) && forall p | p in originals :: Plain(p)
  }

  lemma {:induction false} OffersIdle(v: Volume, u: Volume, run: Run, run': Run, originals: map<Path, Snapshot>, done: seq<Change>, c: Change, v0: Volume)
    requires Offers(v, run, originals, done, c, v0) && Idle(v, u) && run'.current == run.current && c.path !in u.dirs
    ensures Offers(u, run', originals, done, c, v0)
  {
    assert SameName(v, u, c.path);
    DoneIdle(v, u, run.current, originals, done);
  }

  lemma {:induction false} CreateReady(v0: Volume, v: Volume, left: Bytes, run: Run, c: Change, owner: map<Ino, Path>, inos: set<Ino>)
    requires Ready(v0, v, run, owner, inos) && Valid(v) && Valid(v0) && Vacant(v, c.path) && c.path in run.current && c.after.Some?
    ensures Ready(v0, Written(Created(v, c.path), v.nextIno, left), Journaled(run, Entry(c.path, Absent, c.after, v.nextIno, None)),
                  owner[v.nextIno := c.path], inos)
  {
    CreateStep(v, c.path, c.after.value, left);
    ReadyStep(v0, v, Written(Created(v, c.path), v.nextIno, left), run, Entry(c.path, Absent, c.after, v.nextIno, None),
              owner, owner[v.nextIno := c.path], inos);
  }

  lemma {:induction false} CreateDone(v0: Volume, v: Volume, run: Run, run': Run, originals: map<Path, Snapshot>, done: seq<Change>, c: Change,
                                      owner: map<Ino, Path>, inos: set<Ino>)
    requires Offers(v, run, originals, done, c, v0) && Ready(v0, v, run, owner, inos) && Vacant(v, c.path) && c.after.Some?
    requires run'.current == run.current
    requires Ready(v0, Written(Created(v, c.path), v.nextIno, c.after.value), run', owner[v.nextIno := c.path], inos)
    ensures var v', s := Written(Created(v, c.path), v.nextIno, c.after.value), Present(c.after.value, v.nextIno);
            && Valid(v') && Done(v', Moved(run', c.path, s).current, originals, done + [c])
            && Ready(v0, v', Moved(run', c.path, s), owner[v.nextIno := c.path], inos)
            && (Fits(v, run.current) ==> Fits(v', Moved(run', c.path, s).current))
  {
    var v', s := Written(Created(v, c.path), v.nextIno, c.after.value), Present(c.after.value, v.nextIno);
    CreateStep(v, c.path, c.after.value, c.after.value);
    if Fits(v, run.current) {
      FitsGrows(v, v', run.current, owner, v.nextIno, c.path, v.nextIno, s);
    }
    DoneGrows(v, v', run.current, originals, done, owner, v.nextIno, c, v.nextIno, s);
    ReadyMoved(v0, v', run', owner[v.nextIno := c.path], inos, c.path, s);
  }

  /** A change fully made: the path is recorded as showing `s`. */
  lemma {:induction false} ChangeDone(v0: Volume, v: Volume, v': Volume, run: Run, run': Run, originals: map<Path, Snapshot>, done: seq<Change>,
                                      c: Change, owner: map<Ino, Path>, inos: set<Ino>, ino: Ino, s: Snapshot)
    requires Offers(v, run, originals, done, c, v0) && Ready(v0, v, run, owner, inos) && run'.current == run.current
    requires Ready(v0, v', run', owner, inos) && Valid(v') && ino in owner && owner[ino] == c.path && c.path in originals
    requires SameNamesBut(v, v', c.path) && DataKeptBut(v, v', ino) && v'.dirs == v.dirs
    requires Content(s) == c.after && Peek(v', c.path) == s && (s.Present? ==> s.ino == ino) && (ino in inos || v0.nextIno <= ino)
    ensures Done(v', Moved(run', c.path, s).current, originals, done + [c])
    ensures Ready(v0, v', Moved(run', c.path, s), owner, inos)
    ensures Fits(v, run.current) ==> Fits(v', Moved(run', c.path, s).current)
  {
    DoneGrows(v, v', run.current, originals, done, owner, v.nextIno, c, ino, s);
    ReadyMoved(v0, v', run', owner, inos, c.path, s);
    if Fits(v, run.current) {
      FitsGrows(v, v', run.current, owner, v.nextIno, c.path, ino, s);
    }
  }

  /** Overwrites a file in place through its handle. */
  method UpdateInPlace(fs: FileSystem, c: Change, run0: Run, originals: map<Path, Snapshot>, ghost done: seq<Change>,
                       ghost v0: Volume, ghost owner: map<Ino, Path>, ghost inos: set<Ino>)
    returns (ok: bool, run: Run)
    requires Offers(fs.v, run0, originals, done, c, v0) && Ready(v0, fs.v, run0, owner, inos)
    requires c.after.Some? && run0.current[c.path].Present?
    modifies fs
    ensures Unbacked(run.journal) - fs.unlinked == Unbacked(run0.journal) - old(fs.unlinked)
    ensures Ready(v0, fs.v, run, owner, inos)
    ensures run.current.Keys == run0.current.Keys && (ok ==> Done(fs.v, run.current, originals, done + [c]))
    ensures old(fs.Quiet()) ==> fs.Quiet() && (Fits(old(fs.v), run0.current) ==> ok && Fits(fs.v, run.current))
  {
    hide Fits;
    run := run0;
    var before, p := run.current[c.path], c.path;
    ok := fs.Reads();
    if !ok || p !in fs.v.names || Present(fs.v.data[fs.v.names[p]], fs.v.names[p]) != before {
      return false, run;
    }
    var ino := before.ino;
    var e := Entry(p, before, c.after, ino, None);
    ghost var v := fs.v;
    var wrote := fs.Write(ino, c.after.value);
    ghost var left :| fs.v == Written(v, ino, left);
    UpdateStep(v, p, before.bytes, c.after.value, ino, left);
    ReadyStep(v0, v, fs.v, run, e, owner, owner, inos);
    OneMoreEntry(run.journal, e);
    run := Journaled(run, e);
    if !wrote {
      return false, run;
    }
    var s := Present(c.after.value, ino);
    ChangeDone(v0, v, fs.v, run0, run, originals, done, c, owner, inos, ino, s);
    run := Moved(run, p, s);
    ok := fs.Reads();
  }

  /** Creates a file that must not exist and fills it. */
  method CreateAndFill(fs: FileSystem, c: Change, run0: Run, originals: map<Path, Snapshot>, ghost done: seq<Change>,
                       ghost v0: Volume, ghost owner0: map<Ino, Path>, ghost inos: set<Ino>)
    returns (ok: bool, run: Run, ghost owner: map<Ino, Path>)
    requires Offers(fs.v, run0, originals, done, c, v0) && Ready(v0, fs.v, run0, owner0, inos)
    requires c.after.Some? && run0.current[c.path].Absent?
    modifies fs
    ensures Unbacked(run.journal) - fs.unlinked == Unbacked(run0.journal) - old(fs.unlinked)
    ensures Ready(v0, fs.v, run, owner, inos)
    ensures run.current.Keys == run0.current.Keys && (ok ==> Done(fs.v, run.current, originals, done + [c]))
    ensures old(fs.Quiet()) ==> fs.Quiet()
    ensures old(fs.Quiet()) && Dirname(c.path) in old(fs.v).dirs && Fits(old(fs.v), run0.current) ==>
              ok && Fits(fs.v, run.current)
  {
    run, owner := run0, owner0;
    var p := c.path;
    ghost var v := fs.v;
    var created := fs.CreateExclusive(p);
    if created.None? {
      return false, run, owner;
    }
    var ino := created.value;
    owner := owner0[ino := p];
    ok, run := Fill(fs, c, run0, originals, done, v0, v, owner0, inos);
  }

  /** The write into a file just created. */
  method Fill(fs: FileSystem, c: Change, run0: Run, originals: map<Path, Snapshot>, ghost done: seq<Change>,
              ghost v0: Volume, ghost v: Volume, ghost owner0: map<Ino, Path>, ghost inos: set<Ino>)
    returns (ok: bool, run: Run)
    requires Offers(v, run0, originals, done, c, v0) && Ready(v0, v, run0, owner0, inos)
    requires c.after.Some? && Vacant(v, c.path) && fs.v == Created(v, c.path) && Valid(fs.v)
    modifies fs
    ensures Unbacked(run.journal) - fs.unlinked == Unbacked(run0.journal) - old(fs.unlinked)
    ensures Ready(v0, fs.v, run, owner0[v.nextIno := c.path], inos)
    ensures run.current.Keys == run0.current.Keys && (ok ==> Done(fs.v, run.current, originals, done + [c]))
    ensures old(fs.Quiet()) ==> ok && fs.Quiet()
    ensures ok && Fits(v, run0.current) ==> Fits(fs.v, run.current)
  {
    hide Going, PrefixFree, JournalClaimed, Fits, Done;
    var ino := fs.v.names[c.path];
    var wrote := fs.Write(ino, c.after.value);
    ghost var left :| fs.v == Written(Created(v, c.path), ino, left);
    CreateReady(v0, v, left, run0, c, owner0, inos);
    OneMoreEntry(run0.journal, Entry(c.path, Absent, c.after, ino, None));
    run := Journaled(run0, Entry(c.path, Absent, c.after, ino, None));
    ok := wrote;
    if wrote {
      CreateDone(v0, v, run0, run, originals, done, c, owner0, inos);
      run := Moved(run, c.path, Present(c.after.value, ino));
      ok := fs.Reads();
    }
  }

  /** Deletes a file, keeping its inode alive for a rollback. */
  method DeleteFile(fs: FileSystem, c: Change, run0: Run, originals: map<Path, Snapshot>, ghost done: seq<Change>,
                    ghost v0: Volume, ghost owner: map<Ino, Path>, ghost inos: set<Ino>)
    returns (ok: bool, run: Run)
    requires Offers(fs.v, run0, originals, done, c, v0) && Ready(v0, fs.v, run0, owner, inos)
    requires c.after.None? && run0.current[c.path].Present?
    modifies fs
    ensures Unbacked(run.journal) - fs.unlinked == Unbacked(run0.journal) - old(fs.unlinked)
    ensures Ready(v0, fs.v, run, owner, inos)
    ensures run.current.Keys == run0.current.Keys && (ok ==> Done(fs.v, run.current, originals, done + [c]))
    ensures old(fs.Quiet()) ==> fs.Quiet() && (Fits(old(fs.v), run0.current) ==> ok && Fits(fs.v, run.current))
  {
    var before, p := run0.current[c.path], c.path;
    var backup;
    run, backup := MakeBackup(fs, p, run0, v0, owner, inos);
    OffersIdle(old(fs.v), fs.v, run0, run, originals, done, c, v0);
    if Fits(old(fs.v), run0.current) {
      FitsIdle(old(fs.v), fs.v, run0.current);
    }
    ghost var run1, v := run, fs.v;
    var e := Entry(p, before, None, before.ino, backup);
    ok := fs.Unlink(p);
    DeleteStep(v, p, before.bytes, before.ino, backup, fs.v);
    ReadyStep(v0, v, fs.v, run, e, owner, owner, inos);
    OneMoreEntry(run.journal, e);
    run := Journaled(run, e);
    if ok {
      ChangeDone(v0, v, fs.v, run1, run, originals, done, c, owner, inos, before.ino, Absent);
      run := Moved(run, p, Absent);
    }
  }

  // ----- The whole forward pass

  /** What planning promises: claimed paths are plain and apart, no two share an inode, and only files are deleted. */
  ghost predicate Planned(v: Volume, originals: map<Path, Snapshot>, changes: seq<Change>) {
    && (forall p | p in originals :: Plain(p) && p != [])
    && PrefixFree(originals.Keys)
    && (forall p | p in originals && originals[p].Present? :: originals[p].ino < v.nextIno)
    && (forall p, q | p in originals && q in originals && p != q && originals[p].Present? && originals[q].Present? ::
          originals[p].ino != originals[q].ino)
    && forall i | 0 <= i < |changes| ::
         && changes[i].path in originals
         && (changes[i].after.None? ==> ContentAfter(originals, changes[..i], changes[i].path).Some?)
  }

  /** What a path holds after some changes, as planned. */
  function ContentAfter(originals: map<Path, Snapshot>, changes: seq<Change>, p: Path): Option<Bytes>
    requires p in originals
  {
    match LastAfter(changes, p)
    case Some(after) => after
    case None => Content(originals[p])
  }

  /** No name of the volume lies in a temporary directory yet. */
  predicate AllPlain(v: Volume) { (forall p | p in v.names :: Plain(p)) && forall d | d in v.dirs :: Plain(d) }

  function InosOf(originals: map<Path, Snapshot>): set<Ino> {
    set p | p in originals && originals[p].Present? :: originals[p].ino
  }

  ghost function OwnersOf(originals: map<Path, Snapshot>): (owner: map<Ino, Path>)
    ensures owner.Keys == InosOf(originals)
  {
    map i | i in InosOf(originals) :: HolderOf(originals, i)
  }

  ghost function HolderOf(originals: map<Path, Snapshot>, i: Ino): (p: Path)
    requires i in InosOf(originals)
    ensures p in originals && originals[p].Present? && originals[p].ino == i
  {
    var p :| p in originals && originals[p].Present? && originals[p].ino == i;
    p
  }

  lemma {:induction false} ReadyAtStart(v: Volume, originals: map<Path, Snapshot>, changes: seq<Change>)
    requires Valid(v) && AllPlain(v) && Planned(v, originals, changes)
    ensures Ready(v, v, Run(originals, [], [], []), OwnersOf(originals), InosOf(originals))
    ensures Done(v, originals, originals, [])
  {
    var owner := OwnersOf(originals);
    forall p | p in originals && originals[p].Present? ensures originals[p].ino in owner && owner[originals[p].ino] == p {
      assert originals[p].ino in InosOf(originals);
    }
    assert Members([]) == {};
  }

  /** One change: checks that its path is as expected, then makes it. */
  method MakeChange(fs: FileSystem, c: Change, run0: Run, originals: map<Path, Snapshot>, ghost done: seq<Change>,
                    ghost v0: Volume, ghost owner0: map<Ino, Path>, ghost inos: set<Ino>)
    returns (ok: bool, run: Run, ghost owner: map<Ino, Path>)
    requires Valid(v0) && Ready(v0, fs.v, run0, owner0, inos) && Done(fs.v, run0.current, originals, done)
    requires c.path in originals && (c.after.None? ==> ContentAfter(originals, done, c.path).Some?)
    requires forall p | p in originals :: Plain(p)
    modifies fs
    ensures Unbacked(run.journal) - fs.unlinked == Unbacked(run0.journal) - old(fs.unlinked)
    ensures Ready(v0, fs.v, run, owner, inos)
    ensures run.current.Keys == run0.current.Keys && (ok ==> Done(fs.v, run.current, originals, done + [c]))
    ensures old(fs.Quiet()) ==> fs.Quiet() && (Fits(old(fs.v), run0.current) ==> ok && Fits(fs.v, run.current))
  {
    run, owner := run0, owner0;
    ok := Unchanged(fs, c.path, run.current[c.path]);
    if !ok {
      return;
    }
    if c.after.None? {
      ok, run := DeleteFile(fs, c, run, originals, done, v0, owner, inos);
      return;
    }
    ghost var v := fs.v;
    ok, run := MakeParents(fs, c.path, run, v0, owner, inos);
    if !ok {
      return;
    }
    OffersIdle(v, fs.v, run0, run, originals, done, c, v0);
    if Fits(v, run0.current) {
      FitsBelow(v, fs.v, run0.current, c.path);
    }
    if run.current[c.path].Present? {
      ok, run := UpdateInPlace(fs, c, run, originals, done, v0, owner, inos);
    } else {
      ok, run, owner := CreateAndFill(fs, c, run, originals, done, v0, owner, inos);
    }
  }

  /** Makes the changes one by one, stopping at the first call that fails. Without failures all are made. */
  method Forward(fs: FileSystem, changes: seq<Change>, originals: map<Path, Snapshot>)
    returns (ok: bool, run: Run, ghost owner: map<Ino, Path>)
    requires Valid(fs.v) && AllPlain(fs.v) && Planned(fs.v, originals, changes)
    modifies fs
    ensures Unbacked(run.journal) == fs.unlinked - old(fs.unlinked)
    ensures Ready(old(fs.v), fs.v, run, owner, InosOf(originals))
    ensures run.current.Keys == originals.Keys && (ok ==> Done(fs.v, run.current, originals, changes))
    ensures old(fs.Quiet()) ==> fs.Quiet() && (Fits(old(fs.v), originals) ==> ok)
  {
    ghost var v0 := fs.v;
    ghost var inos := InosOf(originals);
    run, owner := Run(originals, [], [], []), OwnersOf(originals);
    ReadyAtStart(v0, originals, changes);
    for n := 0 to |changes|
      invariant Ready(v0, fs.v, run, owner, inos) && Unbacked(run.journal) == fs.unlinked - old(fs.unlinked)
      invariant run.current.Keys == originals.Keys && Done(fs.v, run.current, originals, changes[..n])
      invariant old(fs.Quiet()) ==> fs.Quiet() && (Fits(v0, originals) ==> Fits(fs.v, run.current))
    {
      ok := fs.Reads();
      if !ok {
        return;
      }
      ok, run, owner := MakeChange(fs, changes[n], run, originals, changes[..n], v0, owner, inos);
      if !ok {
        return;
      }
      OneMore(changes, n);
    }
    assert changes[..|changes|] == changes;
    ok := true;
  }

  lemma {:induction false} OneMore(changes: seq<Change>, n: nat)
    requires n < |changes|
    ensures changes[..n] + [changes[n]] == changes[..n + 1]
  {
  }
}
