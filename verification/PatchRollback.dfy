/** The catch block of `commitPatch` (extensions/builtin-tools/src/apply-patch.ts): undoing the journal from
    its end, then removing temporary backups and the directories made. */
module PatchRollback {
  import opened Outcomes
  import opened Disk
  import opened PatchJournal
  import opened PatchCommit
  import opened PatchForward

  // ----- Undoing one entry

  /** What one undo may change, even when it fails: its own path and its own inode. */
  ghost predicate Touches(v: Volume, u: Volume, e: Entry) {
    && Valid(u) && SameNamesBut(v, u, e.path) && DataKeptBut(v, u, e.owned) && Grows(v, u) && u.dirs == v.dirs
    && forall p | p in u.names && !Plain(p) :: p in v.names
  }

  /** The entry's link, where it is still there, leads to the entry's inode. */
  predicate Linkable(v: Volume, e: Entry) {
    && Plain(e.path) && e.path != []
    && (e.backup.Some? ==> e.before.Present? && (e.backup.value in v.names ==> v.names[e.backup.value] == e.owned))
  }

  /** `writeFile`: rewrites the inode a path has, or makes a new one. */
  method WriteFile(fs: FileSystem, p: Path, bytes: Bytes) returns (ok: bool)
    requires Valid(fs.v) && Plain(p)
    modifies fs
    ensures fs.unlinked == old(fs.unlinked)
    ensures Valid(fs.v) && (old(fs.Quiet()) ==> fs.Quiet())
    ensures p in old(fs.v).names ==> exists left :: fs.v == Written(old(fs.v), old(fs.v).names[p], left)
    ensures p !in old(fs.v).names ==>
              fs.v == old(fs.v) || (Vacant(old(fs.v), p) && exists left :: fs.v == Written(Created(old(fs.v), p), old(fs.v).nextIno, left))
    ensures ok ==> fs.v == if p in old(fs.v).names then Written(old(fs.v), old(fs.v).names[p], bytes)
                           else Written(Created(old(fs.v), p), old(fs.v).nextIno, bytes)
    ensures old(fs.Quiet()) && (p in old(fs.v).names || Vacant(old(fs.v), p)) ==> ok
  {
    var ino;
    if p in fs.v.names {
      ino := fs.v.names[p];
    } else {
      var created := fs.CreateExclusive(p);
      if created.None? {
        return false;
      }
      ino := created.value;
    }
    ok := fs.Write(ino, bytes);
  }

  lemma {:induction false} WriteTouches(v: Volume, e: Entry, left: Bytes)
    requires Valid(v) && Plain(e.path) && e.path in v.names && v.names[e.path] == e.owned
    ensures Touches(v, Written(v, e.owned, left), e)
  {
    EffectsKeepValid(v, e.path);
  }

  lemma {:induction false} CreateTouches(v: Volume, e: Entry, left: Bytes)
    requires Valid(v) && Plain(e.path) && Vacant(v, e.path)
    ensures Touches(v, Written(Created(v, e.path), v.nextIno, left), e)
  {
    EffectsKeepValid(v, e.path);
    EffectsKeepValid(Created(v, e.path), e.path);
  }

  lemma {:induction false} UnlinkTouches(v: Volume, e: Entry)
    requires Valid(v) && Plain(e.path)
    ensures Touches(v, Unlinked(v, e.path), e) && Touches(v, v, e)
  {
    EffectsKeepValid(v, e.path);
  }

  lemma {:induction false} RelinkTouches(v: Volume, e: Entry, left: Bytes)
    requires Valid(v) && Linkable(v, e) && e.backup.Some? && e.backup.value in v.names && Vacant(v, e.path)
    ensures Touches(v, Linked(v, e.backup.value, e.path), e)
    ensures Touches(v, Written(Linked(v, e.backup.value, e.path), e.owned, left), e)
  {
    LinkKeepsValid(v, e.backup.value, e.path);
    EffectsKeepValid(Linked(v, e.backup.value, e.path), e.path);
  }

  /** One turn of the undo loop. */
  method UndoOne(fs: FileSystem, e: Entry) returns (ok: bool)
    requires Valid(fs.v) && Linkable(fs.v, e)
    modifies fs
    ensures old(fs.unlinked) <= fs.unlinked
    ensures Touches(old(fs.v), fs.v, e) && (old(fs.Quiet()) ==> fs.Quiet())
    ensures ok ==> Undo(old(fs.v), e) == Some(fs.v)
    ensures old(fs.Quiet()) && Dirname(e.path) in old(fs.v).dirs && e.path !in old(fs.v).dirs && Undo(old(fs.v), e).Some? ==> ok
  {
    var p := e.path;
    ghost var v := fs.v;
    UnlinkTouches(v, e);
    if Dirname(p) in v.dirs {
      forall k | 0 <= k < |p| ensures p[..k] !in v.names {
        ParentIsSafe(v, p, k);
      }
    }
    hide Touches;
    var safe := fs.Reads();
    if !safe || exists k | 0 <= k < |p| :: p[..k] in fs.v.names {
      return false;
    }
    var read := fs.Reads();
    if !read || p in fs.v.dirs {
      return false;
    }
    if p in fs.v.names {
      if fs.v.names[p] != e.owned {
        return false;
      }
      if e.before.Present? {
        ok := WriteFile(fs, p, e.before.bytes);
        ghost var left :| fs.v == Written(v, e.owned, left);
        WriteTouches(v, e, left);
      } else {
        ok := fs.Unlink(p);
      }
      return;
    }
    if e.after.Some? && e.before.Present? {
      return false;
    }
    if e.backup.Some? {
      ok := UndoLinked(fs, e);
    } else if e.before.Present? {
      ok := WriteFile(fs, p, e.before.bytes);
      if fs.v != v {
        ghost var left :| fs.v == Written(Created(v, p), v.nextIno, left);
        CreateTouches(v, e, left);
      }
    } else {
      ok := true;
    }
  }

  /** Puts a deleted file back through its hard link. */
  method UndoLinked(fs: FileSystem, e: Entry) returns (ok: bool)
    requires Valid(fs.v) && Linkable(fs.v, e) && e.backup.Some? && e.path !in fs.v.names
    modifies fs
    ensures old(fs.unlinked) <= fs.unlinked
    ensures Touches(old(fs.v), fs.v, e) && (old(fs.Quiet()) ==> fs.Quiet())
    ensures ok ==> e.backup.value in old(fs.v).names
                   && fs.v == Written(Linked(old(fs.v), e.backup.value, e.path), e.owned, e.before.bytes)
    ensures old(fs.Quiet()) && e.backup.value in old(fs.v).names && Vacant(old(fs.v), e.path) ==> ok
  {
    ghost var v := fs.v;
    UnlinkTouches(v, e);
    ok := fs.Link(e.backup.value, e.path);
    if fs.v != v {
      RelinkTouches(v, e, []);
    }
    hide Touches;
    if ok {
      ok := WriteFile(fs, e.path, e.before.bytes);
      ghost var left :| fs.v == Written(Linked(v, e.backup.value, e.path), e.owned, left);
      RelinkTouches(v, e, left);
    }
  }

  // ----- Undoing the whole journal

  /** What the undo loop keeps even when some undos fail. */
  ghost predicate Kept(v0: Volume, f: Volume, r: Volume, claimed: set<Path>, inos: set<Ino>) {
    && Valid(r) && Framed(v0, r, claimed, inos) && Grows(f, r) && r.dirs == f.dirs
    && forall p | p in r.names && !Plain(p) :: p in f.names
  }

  lemma {:induction false} KeptThenTouched(v0: Volume, f: Volume, r: Volume, r': Volume, claimed: set<Path>, inos: set<Ino>, e: Entry)
    requires Kept(v0, f, r, claimed, inos) && Touches(r, r', e) && e.path in claimed && (e.owned in inos || v0.nextIno <= e.owned)
    requires forall i | i in v0.data :: i < v0.nextIno
    ensures Kept(v0, f, r', claimed, inos)
  {
    FramedWrite(v0, r, r', claimed, inos, e.path, e.owned);
  }

  lemma {:induction false} GrowsTrans(s: Volume, t: Volume, u: Volume)
    requires Grows(s, t) && Grows(t, u)
    ensures Grows(s, u)
  {
  }

  /** Every hard link the journal names is there. */
  ghost predicate LinksThere(journal: seq<Entry>, v: Volume) {
    forall e | e in journal && e.backup.Some? ::
      e.before.Present? && !Plain(e.backup.value) && e.backup.value in v.names && v.names[e.backup.value] == e.owned
  }

  lemma {:induction false} ChainLinks(v0: Volume, journal: seq<Entry>, v: Volume)
    requires Chain(v0, journal, v)
    ensures LinksThere(journal, v)
  {
    if journal != [] {
      var n := |journal| - 1;
      var s: Volume :| Chain(v0, journal[..n], s) && Step(s, journal[n], v);
      ChainLinks(v0, journal[..n], s);
      forall e | e in journal && e.backup.Some?
        ensures e.before.Present? && !Plain(e.backup.value) && e.backup.value in v.names && v.names[e.backup.value] == e.owned
      {
        assert e == journal[n] || e in journal[..n];
      }
    }
  }

  lemma {:induction false} LinkStays(journal: seq<Entry>, f: Volume, r: Volume, e: Entry)
    requires LinksThere(journal, f) && Grows(f, r) && e in journal && Plain(e.path) && e.path != []
    ensures Linkable(r, e) && (e.backup.Some? ==> e.backup.value in r.names)
  {
  }

  /** The first `k` entries are left to undo: what the volume shows is what they led to. */
  ghost predicate Unwound(v0: Volume, journal: seq<Entry>, k: nat, f: Volume, r: Volume, rewritten: set<Path>, owner: map<Ino, Path>) {
    k <= |journal| && exists t: Volume :: Chain(v0, journal[..k], t) && Restored(f, r, t, rewritten, owner) && Grows(t, f)
  }

  lemma {:induction false} UnwoundStart(v0: Volume, journal: seq<Entry>, v: Volume, owner: map<Ino, Path>)
    requires Chain(v0, journal, v)
    ensures Unwound(v0, journal, |journal|, v, v, {}, owner)
  {
    assert journal[..|journal|] == journal;
    assert Restored(v, v, v, {}, owner);
  }

  /** The state before the last entry left, and the one after it. */
  lemma {:induction false} LastStep(v0: Volume, journal: seq<Entry>, k: nat, t: Volume) returns (s: Volume)
    requires 0 < k <= |journal| && Chain(v0, journal[..k], t)
    ensures Chain(v0, journal[..k - 1], s) && Step(s, journal[k - 1], t)
  {
    hide Step;
    var left := journal[..k];
    var n := |left| - 1;
    s :| Chain(v0, left[..n], s) && Step(s, left[n], t);
    assert left[..n] == journal[..k - 1] && left[n] == journal[k - 1];
  }

  lemma {:induction false} UnwoundStep(v0: Volume, journal: seq<Entry>, k: nat, f: Volume, r: Volume, w: set<Path>, owner: map<Ino, Path>, r': Volume)
    requires 0 < k && Unwound(v0, journal, k, f, r, w, owner) && Valid(r) && Owned(owner, journal, f.nextIno)
    requires Undo(r, journal[k - 1]) == Some(r')
    ensures Unwound(v0, journal, k - 1, f, r', w + Rewrites(r, journal[k - 1]), owner)
  {
    var t: Volume :| Chain(v0, journal[..k], t) && Restored(f, r, t, w, owner) && Grows(t, f);
    var e := journal[k - 1];
    var s := LastStep(v0, journal, k, t);
    assert e in journal;
    hide Chain, Restored;
    UndoRestores(f, r, s, e, t, w, owner, r');
    GrowsTrans(s, t, f);
  }

  /** A path not rewritten so far can be undone. */
  lemma {:induction false} CanUndoStep(f: Volume, r: Volume, s: Volume, e: Entry, t: Volume, w: set<Path>)
    requires Step(s, e, t) && NamesRestored(r, t, w) && Valid(r) && e.path !in w
    requires e.backup.Some? ==> e.backup.value in r.names
    ensures Undo(r, e).Some?
  {
    hide SameNamesBut, Grows, DataKept, DataKeptBut, SameName;
  }

  lemma {:induction false} CanUndo(v0: Volume, journal: seq<Entry>, k: nat, f: Volume, r: Volume, w: set<Path>, owner: map<Ino, Path>)
    requires 0 < k && Unwound(v0, journal, k, f, r, w, owner) && Valid(r) && journal[k - 1].path !in w
    requires journal[k - 1].backup.Some? ==> journal[k - 1].backup.value in r.names
    ensures Undo(r, journal[k - 1]).Some?
  {
    hide Chain, Step, NamesRestored, Undo, Grows, Valid, DataKept;
    var t: Volume :| Chain(v0, journal[..k], t) && Restored(f, r, t, w, owner) && Grows(t, f);
    var s := LastStep(v0, journal, k, t);
    CanUndoStep(f, r, s, journal[k - 1], t, w);
  }

  /** The paths among some entries whose deletion had no hard link. */
  function UnlinkedDeletes(journal: seq<Entry>): set<Path> {
    set e | e in journal && e.after.None? && e.backup.None? :: e.path
  }

  /** With a hard link for every deletion nothing is rewritten, and nothing is stranded. */
  lemma {:induction false} AllBacked(journal: seq<Entry>, f: Volume)
    requires Unbacked(journal) == 0
    ensures UnlinkedDeletes(journal) == {} && !Strands(journal, f)
  {
    forall j | 0 <= j < |journal| ensures !(journal[j].after.None? && journal[j].backup.None?) {
      BackedAt(journal, j);
    }
  }

  lemma {:induction false} BackedAt(journal: seq<Entry>, j: nat)
    requires j < |journal| && Unbacked(journal) == 0
    ensures !(journal[j].after.None? && journal[j].backup.None?)
    decreases |journal|
  {
    if j < |journal| - 1 {
      BackedAt(journal[..|journal| - 1], j);
    }
  }

  /** Whether a path has a file once the entries from `k` on are undone from the state `f`. */
  predicate ThereAt(journal: seq<Entry>, k: nat, f: Volume, p: Path)
    decreases |journal| - k
  {
    if k >= |journal| then p in f.names
    else if journal[k].path == p then journal[k].before.Present?
    else ThereAt(journal, k + 1, f, p)
  }

  /** A deletion without a hard link that went through: undoing it makes a new inode. */
  predicate LostAt(journal: seq<Entry>, j: nat, f: Volume)
    requires j < |journal|
  {
    journal[j].after.None? && journal[j].backup.None? && journal[j].before.Present? && !ThereAt(journal, j + 1, f, journal[j].path)
  }

  /** A file that was changed before was deleted without a hard link: the earlier change no longer finds its inode. */
  ghost predicate Strands(journal: seq<Entry>, f: Volume) {
    exists i, j | 0 <= i < j < |journal| :: journal[i].path == journal[j].path && LostAt(journal, j, f)
  }

  /** ... among the entries from `k` on. */
  ghost predicate StrandsFrom(journal: seq<Entry>, k: nat, f: Volume) {
    exists i, j | k <= i < j < |journal| :: journal[i].path == journal[j].path && LostAt(journal, j, f)
  }

  /** What undoing the entries from `k` on has led to: which paths are there, and which have new inodes. */
  ghost predicate UndoneTo(journal: seq<Entry>, k: nat, f: Volume, r: Volume, w: set<Path>) {
    && k <= |journal| && !StrandsFrom(journal, k, f)
    && (forall p: Path | Plain(p) :: p in r.names <==> ThereAt(journal, k, f, p))
    && (forall p | p in w :: exists j | k <= j < |journal| :: journal[j].path == p && LostAt(journal, j, f))
    && (forall j | k <= j < |journal| && LostAt(journal, j, f) :: journal[j].path in w)
  }

  lemma {:induction false} NothingUndone(journal: seq<Entry>, f: Volume)
    ensures UndoneTo(journal, |journal|, f, f, {})
  {
  }

  lemma {:induction false} NowStrands(journal: seq<Entry>, k: nat, f: Volume)
    requires 0 < k <= |journal|
    ensures StrandsFrom(journal, k - 1, f) <==>
              StrandsFrom(journal, k, f) || exists j | k <= j < |journal| :: journal[j].path == journal[k - 1].path && LostAt(journal, j, f)
  {
    hide LostAt;
    if j :| k <= j < |journal| && journal[j].path == journal[k - 1].path && LostAt(journal, j, f) {
      assert k - 1 <= k - 1 < j < |journal| && journal[k - 1].path == journal[j].path;
    }
  }

  /** The entry can be undone just when its path has no new inode. */
  lemma {:induction false} CanUndoUnlessRewritten(v0: Volume, journal: seq<Entry>, k: nat, f: Volume, r: Volume, w: set<Path>, owner: map<Ino, Path>)
    requires 0 < k && Unwound(v0, journal, k, f, r, w, owner) && Valid(r) && Owned(owner, journal, f.nextIno)
    requires journal[k - 1].backup.Some? ==> journal[k - 1].backup.value in r.names
    ensures Undo(r, journal[k - 1]).Some? <==> journal[k - 1].path !in w
    ensures journal[k - 1].after.None? || journal[k - 1].backup.Some? ==> journal[k - 1].before.Present?
  {
    var e := journal[k - 1];
    if e.path !in w {
      CanUndo(v0, journal, k, f, r, w, owner);
    }
    hide Chain, Step, Restored, Undo, Grows, Valid;
    var t: Volume :| Chain(v0, journal[..k], t) && Restored(f, r, t, w, owner) && Grows(t, f);
    var s := LastStep(v0, journal, k, t);
    DeletesFile(s, e, t);
    if e.path in w {
      assert e in journal;
      NewInode(f, r, t, w, owner, e);
    }
  }

  lemma {:induction false} DeletesFile(s: Volume, e: Entry, t: Volume)
    requires Step(s, e, t)
    ensures e.after.None? || e.backup.Some? ==> e.before.Present?
  {
    hide Valid, Grows, SameNamesBut, DataKept, DataKeptBut;
  }

  lemma {:induction false} NewInode(f: Volume, r: Volume, t: Volume, w: set<Path>, owner: map<Ino, Path>, e: Entry)
    requires Restored(f, r, t, w, owner) && e.path in w && e.owned < f.nextIno
    ensures e.path in r.names && Undo(r, e).None?
  {
    assert Rewritten(f, r, t, e.path, owner);
    OtherInode(r, e);
  }

  lemma {:induction false} OtherInode(r: Volume, e: Entry)
    requires e.path in r.names && r.names[e.path] in r.data && r.names[e.path] != e.owned
    ensures Undo(r, e).None?
  {
  }

  lemma {:induction false} UndoOthers(r: Volume, e: Entry, r': Volume)
    requires (e.path in r.names ==> r.names[e.path] in r.data) && Undo(r, e) == Some(r')
    requires e.after.None? || e.backup.Some? ==> e.before.Present?
    ensures e.path in r'.names <==> e.before.Present?
    ensures forall p | p != e.path :: p in r'.names <==> p in r.names
    ensures Rewrites(r, e) == if e.path !in r.names && e.before.Present? && e.backup.None? then {e.path} else {}
  {
  }

  lemma {:induction false} OneMoreUndone(journal: seq<Entry>, k: nat, f: Volume, r: Volume, w: set<Path>, r': Volume)
    requires 0 < k && UndoneTo(journal, k, f, r, w) && Plain(journal[k - 1].path) && journal[k - 1].path !in w
    requires (journal[k - 1].path in r.names ==> r.names[journal[k - 1].path] in r.data) && Undo(r, journal[k - 1]) == Some(r')
    requires journal[k - 1].after.None? || journal[k - 1].backup.Some? ==> journal[k - 1].before.Present?
    ensures UndoneTo(journal, k - 1, f, r', w + Rewrites(r, journal[k - 1]))
  {
    hide StrandsFrom;
    var e := journal[k - 1];
    UndoOthers(r, e, r');
    NowStrands(journal, k, f);
    assert LostAt(journal, k - 1, f) <==> Rewrites(r, e) == {e.path} by {
      assert e.path in r.names <==> ThereAt(journal, k, f, e.path);
    }
    hide Undo, Rewrites, LostAt;
    var w' := w + Rewrites(r, e);
    forall p | p in w' ensures exists j | k - 1 <= j < |journal| :: journal[j].path == p && LostAt(journal, j, f) {
      if p in w {
        var j :| k <= j < |journal| && journal[j].path == p && LostAt(journal, j, f);
      } else {
        assert journal[k - 1].path == p && LostAt(journal, k - 1, f);
      }
    }
  }

  lemma {:induction false} UnlinkedGrows(journal: seq<Entry>, k: nat, w: set<Path>, r: Volume)
    requires 0 < k <= |journal| && w <= UnlinkedDeletes(journal[k..]) && Valid(r) && Undo(r, journal[k - 1]).Some?
    ensures w + Rewrites(r, journal[k - 1]) <= UnlinkedDeletes(journal[k - 1..])
  {
    assert journal[k - 1..] == [journal[k - 1]] + journal[k..];
  }

  lemma {:induction false} EntryFacts(v0: Volume, v: Volume, run: Run, owner: map<Ino, Path>, inos: set<Ino>, e: Entry)
    requires Ready(v0, v, run, owner, inos) && e in run.journal
    ensures e.path in run.current && (e.owned in inos || v0.nextIno <= e.owned)
    ensures Plain(e.path) && e.path != [] && Dirname(e.path) in v.dirs && e.path !in v.dirs
  {
    hide Undoable, Framed, PrefixFree;
  }

  lemma {:induction false} RollbackStart(v0: Volume, v: Volume, run: Run, owner: map<Ino, Path>, inos: set<Ino>)
    requires Ready(v0, v, run, owner, inos)
    ensures Kept(v0, v, v, run.current.Keys, inos) && LinksThere(run.journal, v) && Owned(owner, run.journal, v.nextIno)
    ensures Unwound(v0, run.journal, |run.journal|, v, v, {}, owner)
  {
    hide PrefixFree, JournalClaimed, Layout, OwnInos;
    ChainLinks(v0, run.journal, v);
    UnwoundStart(v0, run.journal, v, owner);
  }

  /** Undoes the journal from its last entry to its first, counting the undos that fail. */
  method UndoAll(fs: FileSystem, run: Run, ghost v0: Volume, ghost owner: map<Ino, Path>, ghost inos: set<Ino>)
    returns (failures: nat, ghost rewritten: set<Path>)
    requires Valid(v0) && Ready(v0, fs.v, run, owner, inos)
    modifies fs
    ensures old(fs.unlinked) <= fs.unlinked
    ensures Kept(v0, old(fs.v), fs.v, run.current.Keys, inos)
    ensures failures == 0 ==> Unwound(v0, run.journal, 0, old(fs.v), fs.v, rewritten, owner)
                              && rewritten <= UnlinkedDeletes(run.journal)
    ensures old(fs.Quiet()) ==> fs.Quiet() && (failures == 0 <==> !Strands(run.journal, old(fs.v)))
  {
    RollbackStart(v0, fs.v, run, owner, inos);
    NothingUndone(run.journal, fs.v);
    hide Ready, Unwound, LinksThere, Owned, Undo, Touches, Linkable, UnlinkedDeletes, Rewrites, UndoneTo, StrandsFrom;
    failures, rewritten := 0, {};
    var journal, k := run.journal, |run.journal|;
    ghost var f := fs.v;
    assert rewritten <= UnlinkedDeletes(journal[k..]);
    while k > 0
      invariant 0 <= k <= |journal| && Kept(v0, f, fs.v, run.current.Keys, inos) && old(fs.unlinked) <= fs.unlinked
      invariant failures == 0 ==> Unwound(v0, journal, k, f, fs.v, rewritten, owner) && rewritten <= UnlinkedDeletes(journal[k..])
      invariant old(fs.Quiet()) ==> fs.Quiet()
      invariant failures == 0 ==> UndoneTo(journal, k, f, fs.v, rewritten)
      invariant old(fs.Quiet()) && failures > 0 ==> StrandsFrom(journal, k, f)
    {
      var e := journal[k - 1];
      ghost var r := fs.v;
      EntryFacts(v0, f, run, owner, inos, e);
      LinkStays(journal, f, r, e);
      NowStrands(journal, k, f);
      if failures == 0 {
        CanUndoUnlessRewritten(v0, journal, k, f, r, rewritten, owner);
        RewrittenStrands(journal, k, f, r, rewritten);
      }
      var ok := UndoOne(fs, e);
      KeptThenTouched(v0, f, r, fs.v, run.current.Keys, inos, e);
      if ok {
        if failures == 0 {
          UnwoundStep(v0, journal, k, f, r, rewritten, owner, fs.v);
          UnlinkedGrows(journal, k, rewritten, r);
          OneMoreUndone(journal, k, f, r, rewritten, fs.v);
          rewritten := rewritten + Rewrites(r, e);
        }
      } else {
        failures := failures + 1;
      }
      k := k - 1;
    }
    assert journal[0..] == journal;
    AllUndone(journal, f, fs.v, rewritten);
  }

  lemma {:induction false} RewrittenStrands(journal: seq<Entry>, k: nat, f: Volume, r: Volume, w: set<Path>)
    requires 0 < k && UndoneTo(journal, k, f, r, w)
    ensures journal[k - 1].path in w ==> StrandsFrom(journal, k - 1, f)
  {
    NowStrands(journal, k, f);
    hide LostAt, StrandsFrom;
  }

  lemma {:induction false} AllUndone(journal: seq<Entry>, f: Volume, r: Volume, w: set<Path>)
    ensures UndoneTo(journal, 0, f, r, w) ==> !Strands(journal, f)
    ensures StrandsFrom(journal, 0, f) <==> Strands(journal, f)
  {
    hide LostAt;
  }

  /** Every plain path shows what it showed, `rewritten` paths through new inodes, and no old bytes are lost. */
  ghost predicate ShownAgain(v0: Volume, r: Volume, rewritten: set<Path>)
    requires Valid(v0) && Valid(r)
  {
    && DataKept(v0, r)
    && forall p: Path | Plain(p) ::
         && Content(Peek(r, p)) == Content(Peek(v0, p))
         && (p !in rewritten ==> SameName(v0, r, p))
  }

  lemma {:induction false} UndoneIsShownAgain(v0: Volume, journal: seq<Entry>, f: Volume, r: Volume, w: set<Path>, owner: map<Ino, Path>)
    requires Valid(v0) && Valid(r) && Unwound(v0, journal, 0, f, r, w, owner)
    ensures ShownAgain(v0, r, w)
  {
    var t: Volume :| Chain(v0, journal[..0], t) && Restored(f, r, t, w, owner) && Grows(t, f);
    assert Idle(v0, t);
    forall p: Path | Plain(p)
      ensures Content(Peek(r, p)) == Content(Peek(v0, p)) && (p !in w ==> SameName(v0, r, p))
    {
      assert SameName(v0, t, p);
    }
  }

  /** The failing case is real: a file is updated and then deleted where links do not work. Undoing the deletion makes
      a new file with the updated bytes, and the update then refuses to touch it. */
  lemma {:induction false} UpdatedThenDeleted(v0: Volume, p: Path, ino: Ino, after: Bytes, update: Entry, deletion: Entry, f: Volume)
    returns (r: Volume)
    requires Valid(v0) && Plain(p) && p in v0.names && ino == v0.names[p] && ino in v0.data
    requires update == Entry(p, Present(v0.data[ino], ino), Some(after), ino, None) && deletion == Entry(p, Present(after, ino), None, ino, None)
    requires f == Unlinked(Written(v0, ino, after), p)
    ensures Chain(v0, [update, deletion], f) && Strands([update, deletion], f)
    ensures Undo(f, deletion) == Some(r) && p in r.names && r.names[p] in r.data && r.data[r.names[p]] == after && Undo(r, update).None?
  {
    hide *;
    UpdateThenDelete(v0, p, ino, after, update, deletion);
    OneEntry(v0, update, Written(v0, ino, after));
    ChainGrows(v0, [update], Written(v0, ino, after), deletion, f);
    assert [update] + [deletion] == [update, deletion];
    r := UndoneAnew(f, deletion);
    OtherInode(r, update);
    TwoEntriesStrand(update, deletion, f);
  }

  lemma {:induction false} TwoEntriesStrand(update: Entry, deletion: Entry, f: Volume)
    requires update.path == deletion.path && deletion.path !in f.names
    requires deletion.after.None? && deletion.backup.None? && deletion.before.Present?
    ensures Strands([update, deletion], f)
  {
    var journal := [update, deletion];
    assert journal[0].path == journal[1].path && LostAt(journal, 1, f);
  }

  lemma {:induction false} UpdateThenDelete(v0: Volume, p: Path, ino: Ino, after: Bytes, update: Entry, deletion: Entry)
    requires Valid(v0) && Plain(p) && p in v0.names && ino == v0.names[p] && ino in v0.data
    requires update == Entry(p, Present(v0.data[ino], ino), Some(after), ino, None) && deletion == Entry(p, Present(after, ino), None, ino, None)
    ensures Step(v0, update, Written(v0, ino, after))
    ensures Step(Written(v0, ino, after), deletion, Unlinked(Written(v0, ino, after), p))
    ensures p !in Unlinked(Written(v0, ino, after), p).names && ino < Unlinked(Written(v0, ino, after), p).nextIno
  {
    EffectsKeepValid(v0, p);
    EffectsKeepValid(Written(v0, v0.names[p], after), p);
  }

  /** Undoing a deletion without a hard link makes a new inode. */
  lemma {:induction false} UndoneAnew(f: Volume, e: Entry) returns (r: Volume)
    requires e.path !in f.names && e.after.None? && e.backup.None? && e.before.Present?
    ensures Undo(f, e) == Some(r)
    ensures e.path in r.names && r.names[e.path] == f.nextIno && f.nextIno in r.data && r.data[f.nextIno] == e.before.bytes
  {
    r := Undo(f, e).value;
  }

  lemma {:induction false} OneEntry(v0: Volume, e: Entry, t: Volume)
    requires Step(v0, e, t)
    ensures Chain(v0, [e], t)
  {
    assert [e][..0] == [] && [e][0] == e && Idle(v0, v0);
    assert Chain(v0, [e][..0], v0);
  }
}
