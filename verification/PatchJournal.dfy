/** What the journal of `commitPatch` (extensions/builtin-tools/src/apply-patch.ts) records, and why undoing
    it entry by entry restores the volume. */
module PatchJournal {
  import opened Outcomes
  import opened Disk

  datatype Change = Change(path: Path, after: Option<Bytes>)

  /** A change with the state it was made from, the inode it owns and, for a deletion, the hard link kept. */
  datatype Entry = Entry(path: Path, before: Snapshot, after: Option<Bytes>, owned: Ino, backup: Option<Path>)

  // ----- How one state follows another

  predicate SameName(s: Volume, t: Volume, p: Path) {
    (p in s.names <==> p in t.names) && (p in s.names ==> s.names[p] == t.names[p])
  }

  ghost predicate SameNamesBut(s: Volume, t: Volume, p: Path) {
    forall q: Path | Plain(q) && q != p :: SameName(s, t, q)
  }

  predicate DataKept(s: Volume, t: Volume) {
    forall i | i in s.data :: i in t.data && t.data[i] == s.data[i]
  }

  predicate DataKeptBut(s: Volume, t: Volume, ino: Ino) {
    forall i | i in s.data :: i in t.data && (i != ino ==> t.data[i] == s.data[i])
  }

  /** Inode numbers only grow, and what lies in a temporary directory stays. */
  predicate Grows(s: Volume, t: Volume) {
    s.nextIno <= t.nextIno && forall p | p in s.names && !Plain(p) :: p in t.names && t.names[p] == s.names[p]
  }

  /** No plain name and no content changed. */
  ghost predicate Idle(s: Volume, t: Volume) {
    Valid(s) && Valid(t) && Grows(s, t) && DataKept(s, t) && forall q: Path | Plain(q) :: SameName(s, t, q)
  }

  /** What an entry's change did, however far it got: `s` is the state it was journaled in. */
  ghost predicate Step(s: Volume, e: Entry, t: Volume) {
    && Valid(s) && Valid(t) && Grows(s, t) && Plain(e.path) && SameNamesBut(s, t, e.path) && (e.after.Some? ==> e.backup.None?)
    && match e.before
       case Absent =>
         && e.after.Some? && e.path !in s.names && DataKept(s, t)
         && s.nextIno <= e.owned < t.nextIno && e.path in t.names && t.names[e.path] == e.owned
       case Present(bytes, ino) =>
         && e.owned == ino && e.path in s.names && s.names[e.path] == ino && s.data[ino] == bytes
         && if e.after.Some? then
              e.path in t.names && t.names[e.path] == ino && DataKeptBut(s, t, ino)
            else
              && DataKept(s, t) && (e.path in t.names ==> t.names[e.path] == ino)
              && (e.backup.Some? ==> !Plain(e.backup.value) && e.backup.value in t.names && t.names[e.backup.value] == ino)
  }

  /** The journal leads from `v0` to `v`. */
  ghost predicate Chain(v0: Volume, journal: seq<Entry>, v: Volume) {
    if journal == [] then Idle(v0, v)
    else
      var n := |journal| - 1;
      exists s: Volume :: Chain(v0, journal[..n], s) && Step(s, journal[n], v)
  }

  lemma {:induction false} IdleTrans(s: Volume, t: Volume, u: Volume)
    requires Idle(s, t) && Idle(t, u)
    ensures Idle(s, u)
  {
    forall q: Path | Plain(q) ensures SameName(s, u, q) {
      assert SameName(s, t, q) && SameName(t, u, q);
    }
  }

  lemma {:induction false} StepThenIdle(s: Volume, e: Entry, t: Volume, u: Volume)
    requires Step(s, e, t) && Idle(t, u)
    ensures Step(s, e, u)
  {
    assert SameName(t, u, e.path);
    forall q: Path | Plain(q) && q != e.path ensures SameName(s, u, q) {
      assert SameName(s, t, q) && SameName(t, u, q);
    }
  }

  lemma {:induction false} ChainThenIdle(v0: Volume, journal: seq<Entry>, v: Volume, u: Volume)
    requires Chain(v0, journal, v) && Idle(v, u)
    ensures Chain(v0, journal, u)
  {
    if journal == [] {
      IdleTrans(v0, v, u);
    } else {
      var n := |journal| - 1;
      var s: Volume :| Chain(v0, journal[..n], s) && Step(s, journal[n], v);
      StepThenIdle(s, journal[n], v, u);
    }
  }

  lemma {:induction false} ChainGrows(v0: Volume, journal: seq<Entry>, s: Volume, e: Entry, t: Volume)
    requires Chain(v0, journal, s) && Step(s, e, t)
    ensures Chain(v0, journal + [e], t)
  {
    assert (journal + [e])[..|journal|] == journal;
  }

  // ----- Owners of inodes

  /** Every inode a journaled path had belongs to that path alone, and none is as new as `bound`. */
  ghost predicate Owned(owner: map<Ino, Path>, journal: seq<Entry>, bound: Ino) {
    forall e | e in journal ::
      e.owned < bound && (e.before.Present? ==> e.before.ino in owner && owner[e.before.ino] == e.path)
  }

  // ----- Undoing

  /** The plain names of `r` are those of `t`, and lead to the same inodes except for `rewritten` paths. */
  ghost predicate NamesRestored(r: Volume, t: Volume, rewritten: set<Path>) {
    forall p: Path | Plain(p) ::
      (p in r.names <==> p in t.names) && (p in t.names && p !in rewritten ==> r.names[p] == t.names[p])
  }

  /** Path `p` shows the bytes it shows in `t`, through an inode made after `f`. */
  ghost predicate Rewritten(f: Volume, r: Volume, t: Volume, p: Path, owner: map<Ino, Path>)
  {
    && Plain(p) && p in t.names && p in r.names && f.nextIno <= r.names[p]
    && r.names[p] in r.data && t.names[p] in t.data && r.data[r.names[p]] == t.data[t.names[p]]
    && t.names[p] in owner && owner[t.names[p]] == p
  }

  /** `r` shows what `t` shows, `rewritten` paths through new inodes; the temporary files of `f` are all there. */
  ghost predicate Restored(f: Volume, r: Volume, t: Volume, rewritten: set<Path>, owner: map<Ino, Path>) {
    && Grows(f, r) && t.nextIno <= f.nextIno && DataKept(t, r)
    && NamesRestored(r, t, rewritten)
    && forall p | p in rewritten :: Rewritten(f, r, t, p, owner)
  }

  /** What the undo loop does for one entry when no call fails: nothing stands for a refusal. */
  function Undo(r: Volume, e: Entry): Option<Volume>
    requires e.path in r.names ==> r.names[e.path] in r.data
  {
    if e.path in r.names then
      if r.names[e.path] != e.owned then None
      else if e.before.Present? then Some(Written(r, e.owned, e.before.bytes))
      else Some(Unlinked(r, e.path))
    else if e.after.Some? && e.before.Present? then None
    else if e.backup.Some? then
      if e.backup.value !in r.names then None
      else
        var linked := Linked(r, e.backup.value, e.path);
        Some(if e.before.Present? then Written(linked, linked.names[e.path], e.before.bytes) else linked)
    else if e.before.Present? then Some(Written(Created(r, e.path), r.nextIno, e.before.bytes))
    else Some(r)
  }

  /** The paths an undo gives a new inode. */
  function Rewrites(r: Volume, e: Entry): set<Path> {
    if e.path !in r.names && e.before.Present? && e.backup.None? then {e.path} else {}
  }

  /** Names other than the entry's are as restored for the state before it. */
  lemma {:induction false} NamesBefore(r: Volume, r': Volume, s: Volume, e: Entry, t: Volume, w: set<Path>, w': set<Path>)
    requires SameNamesBut(s, t, e.path) && NamesRestored(r, t, w) && SameNamesBut(r, r', e.path)
    requires w <= w' <= w + {e.path} && Plain(e.path)
    requires (e.path in r'.names <==> e.path in s.names) && (e.path in s.names && e.path !in w' ==> r'.names[e.path] == s.names[e.path])
    ensures NamesRestored(r', s, w')
  {
    forall p: Path | Plain(p)
      ensures (p in r'.names <==> p in s.names) && (p in s.names && p !in w' ==> r'.names[p] == s.names[p])
    {
      if p != e.path {
        assert SameName(s, t, p) && SameName(r, r', p);
      }
    }
  }

  /** A rewritten path other than the entry's stays rewritten for the state before it. */
  lemma {:induction false} RewrittenBefore(f: Volume, r: Volume, r': Volume, s: Volume, e: Entry, t: Volume, p: Path, owner: map<Ino, Path>)
    requires SameNamesBut(s, t, e.path) && SameNamesBut(r, r', e.path) && Rewritten(f, r, t, p, owner) && p != e.path
    requires Valid(s) && (if e.before.Present? then DataKeptBut(s, t, e.owned) && e.owned in owner && owner[e.owned] == e.path else DataKept(s, t))
    requires forall i | i in r.data && f.nextIno <= i :: i in r'.data && r'.data[i] == r.data[i]
    ensures Rewritten(f, r', s, p, owner)
  {
    assert SameName(s, t, p) && SameName(r, r', p);
  }

  /** Only the entry's own path has to be looked at to see that its undo restores the state before it. */
  lemma {:induction false} RestoredBefore(f: Volume, r: Volume, r': Volume, s: Volume, e: Entry, t: Volume,
                                          w: set<Path>, w': set<Path>, owner: map<Ino, Path>)
    requires Step(s, e, t) && Restored(f, r, t, w, owner) && (e.before.Present? ==> e.owned in owner && owner[e.owned] == e.path)
    requires SameNamesBut(r, r', e.path) && forall i | i in r.data && f.nextIno <= i :: i in r'.data && r'.data[i] == r.data[i]
    requires Grows(f, r') && DataKept(s, r')
    requires e.path !in w && w <= w' <= w + {e.path} && (e.path in w' ==> Rewritten(f, r', s, e.path, owner))
    requires (e.path in r'.names <==> e.path in s.names) && (e.path in s.names && e.path !in w' ==> r'.names[e.path] == s.names[e.path])
    ensures Restored(f, r', s, w', owner)
  {
    NamesBefore(r, r', s, e, t, w, w');
    forall p | p in w' ensures Rewritten(f, r', s, p, owner) {
      if p != e.path {
        RewrittenBefore(f, r, r', s, e, t, p, owner);
      }
    }
  }

  lemma {:induction false} UndoUpdate(f: Volume, r: Volume, s: Volume, e: Entry, t: Volume, w: set<Path>, owner: map<Ino, Path>)
    requires Step(s, e, t) && Restored(f, r, t, w, owner)
    requires e.owned < f.nextIno && e.before.Present? && e.owned in owner && owner[e.owned] == e.path
    requires e.path in r.names && r.names[e.path] == e.owned
    ensures Restored(f, Written(r, e.owned, e.before.bytes), s, w, owner)
  {
    assert e.path !in w;
    RestoredBefore(f, r, Written(r, e.owned, e.before.bytes), s, e, t, w, w, owner);
  }

  lemma {:induction false} UndoCreate(f: Volume, r: Volume, s: Volume, e: Entry, t: Volume, w: set<Path>, owner: map<Ino, Path>)
    requires Step(s, e, t) && Restored(f, r, t, w, owner) && e.owned < f.nextIno && e.before.Absent?
    requires e.path in r.names && r.names[e.path] == e.owned
    ensures Restored(f, Unlinked(r, e.path), s, w, owner)
  {
    assert e.path !in w;
    RestoredBefore(f, r, Unlinked(r, e.path), s, e, t, w, w, owner);
  }

  /** A deletion that went through left nothing at its path, and its backup holds the inode. */
  lemma {:induction false} DeletedPath(f: Volume, r: Volume, s: Volume, e: Entry, t: Volume, w: set<Path>, owner: map<Ino, Path>)
    requires Step(s, e, t) && Restored(f, r, t, w, owner) && e.before.Present? && e.after.None? && e.path !in r.names && Grows(t, f)
    ensures e.path !in w && DataKept(s, r) && e.path in s.names && s.names[e.path] == e.owned && s.nextIno <= f.nextIno
    ensures e.owned in s.data && s.data[e.owned] == e.before.bytes && e.owned < s.nextIno
    ensures e.backup.Some? ==> e.backup.value in r.names && r.names[e.backup.value] == e.owned
  {
  }

  lemma {:induction false} UndoLinkedDelete(f: Volume, r: Volume, s: Volume, e: Entry, t: Volume, w: set<Path>, owner: map<Ino, Path>)
    requires Step(s, e, t) && Restored(f, r, t, w, owner) && Grows(t, f)
    requires e.before.Present? && e.owned in owner && owner[e.owned] == e.path && e.after.None? && e.path !in r.names
    requires e.backup.Some? && e.backup.value in r.names
    ensures Restored(f, Written(Linked(r, e.backup.value, e.path), r.names[e.backup.value], e.before.bytes), s, w, owner)
  {
    DeletedPath(f, r, s, e, t, w, owner);
    var r' := Written(Linked(r, e.backup.value, e.path), e.owned, e.before.bytes);
    RestoredBefore(f, r, r', s, e, t, w, w, owner);
  }

  lemma {:induction false} UndoUnlinkedDelete(f: Volume, r: Volume, s: Volume, e: Entry, t: Volume, w: set<Path>, owner: map<Ino, Path>)
    requires Step(s, e, t) && Restored(f, r, t, w, owner) && Grows(t, f) && Valid(r)
    requires e.before.Present? && e.owned in owner && owner[e.owned] == e.path && e.after.None? && e.path !in r.names
    ensures Restored(f, Written(Created(r, e.path), r.nextIno, e.before.bytes), s, w + {e.path}, owner)
  {
    DeletedPath(f, r, s, e, t, w, owner);
    MadeAnew(f, r, s, e, t, w, owner);
    hide *;
    RestoredBefore(f, r, Written(Created(r, e.path), r.nextIno, e.before.bytes), s, e, t, w, w + {e.path}, owner);
  }

  /** A new file with the deleted bytes, beside everything else. */
  lemma {:induction false} MadeAnew(f: Volume, r: Volume, s: Volume, e: Entry, t: Volume, w: set<Path>, owner: map<Ino, Path>)
    requires Step(s, e, t) && Grows(f, r) && Valid(r) && e.before.Present? && e.owned in owner && owner[e.owned] == e.path && e.path !in r.names
    requires DataKept(s, r) && e.path in s.names && s.names[e.path] == e.owned && e.owned in s.data && s.data[e.owned] == e.before.bytes
    ensures var r' := Written(Created(r, e.path), r.nextIno, e.before.bytes);
            && SameNamesBut(r, r', e.path) && (forall i | i in r.data && f.nextIno <= i :: i in r'.data && r'.data[i] == r.data[i])
            && Grows(f, r') && DataKept(s, r') && Rewritten(f, r', s, e.path, owner) && e.path in r'.names
  {
  }

  /** Undoing one entry takes a volume that shows the state after it to one that shows the state before it. */
  lemma {:induction false} UndoRestores(f: Volume, r: Volume, s: Volume, e: Entry, t: Volume, w: set<Path>, owner: map<Ino, Path>, r': Volume)
    requires Step(s, e, t) && Valid(r) && Restored(f, r, t, w, owner) && Grows(t, f)
    requires e.owned < f.nextIno && (e.before.Present? ==> e.owned in owner && owner[e.owned] == e.path)
    requires Undo(r, e) == Some(r')
    ensures Restored(f, r', s, w + Rewrites(r, e), owner)
  {
    if e.path in r.names {
      assert w + Rewrites(r, e) == w;
      if e.before.Present? {
        UndoUpdate(f, r, s, e, t, w, owner);
      } else {
        UndoCreate(f, r, s, e, t, w, owner);
      }
    } else if e.before.Present? {
      if e.backup.Some? {
        assert w + Rewrites(r, e) == w;
        UndoLinkedDelete(f, r, s, e, t, w, owner);
      } else {
        UndoUnlinkedDelete(f, r, s, e, t, w, owner);
      }
    }
  }
}
