/** The part of a file system a patch works on: names lead to inodes, inodes hold bytes. Every call may fail. Removing a
    name or a directory and linking may fail after taking effect, and writing may leave any bytes. Making a file, a
    directory or a temporary directory is assumed to fail without effect: what such a call made and then denied is in
    no record of its caller, and no rollback could find it. */
module Disk {
  import opened Outcomes

  newtype byte = x: int | 0 <= x < 256
  type Bytes = seq<byte>
  type Ino = nat

  /** A path component; those `mkdtemp` invents are told apart from all others. */
  datatype Component = Named(name: string) | Temporary(n: nat)
  type Path = seq<Component>

  function Dirname(p: Path): Path { if p == [] then [] else p[..|p| - 1] }

  /** A path no `mkdtemp` directory lies on. */
  predicate Plain(p: Path) { forall c | c in p :: c.Named? }

  /** Inode numbers are never given out twice. */
  datatype Volume = Volume(names: map<Path, Ino>, data: map<Ino, Bytes>, dirs: set<Path>, nextIno: Ino, nextTemp: nat)

  predicate TempsBelow(p: Path, n: nat) { forall c | c in p :: c.Temporary? ==> c.n < n }

  ghost predicate Valid(v: Volume) {
    && [] in v.dirs
    && (forall p | p in v.names :: p !in v.dirs && Dirname(p) in v.dirs && v.names[p] in v.data)
    && (forall d | d in v.dirs :: Dirname(d) in v.dirs)
    && (forall i | i in v.data :: i < v.nextIno)
    && (forall d | d in v.dirs :: TempsBelow(d, v.nextTemp))
    && (forall p | p in v.names :: TempsBelow(p, v.nextTemp))
  }

  /** What a path shows: nothing, or the bytes and inode of a file. */
  datatype Snapshot = Absent | Present(bytes: Bytes, ino: Ino)

  function Peek(v: Volume, p: Path): Snapshot
    requires Valid(v)
  {
    if p in v.names then Present(v.data[v.names[p]], v.names[p]) else Absent
  }

  function Content(s: Snapshot): Option<Bytes> {
    match s
    case Absent => None
    case Present(bytes, _) => Some(bytes)
  }

  // ----- Effects

  function Created(v: Volume, p: Path): Volume {
    v.(names := v.names[p := v.nextIno], data := v.data[v.nextIno := []], nextIno := v.nextIno + 1)
  }

  function Written(v: Volume, i: Ino, bytes: Bytes): Volume { v.(data := v.data[i := bytes]) }

  function Unlinked(v: Volume, p: Path): Volume { v.(names := v.names - {p}) }

  function Linked(v: Volume, p: Path, q: Path): Volume
    requires p in v.names
  {
    v.(names := v.names[q := v.names[p]])
  }

  function DirMade(v: Volume, d: Path): Volume { v.(dirs := v.dirs + {d}) }

  function DirRemoved(v: Volume, d: Path): Volume { v.(dirs := v.dirs - {d}) }

  function TempDir(v: Volume, parent: Path): Path { parent + [Temporary(v.nextTemp)] }

  function TempMade(v: Volume, parent: Path): Volume {
    v.(dirs := v.dirs + {TempDir(v, parent)}, nextTemp := v.nextTemp + 1)
  }

  predicate Vacant(v: Volume, p: Path) { p !in v.names && p !in v.dirs && Dirname(p) in v.dirs }

  predicate EmptyDir(v: Volume, d: Path) {
    && d in v.dirs && d != []
    && (forall p | p in v.names :: Dirname(p) != d)
    && (forall e | e in v.dirs && e != [] :: Dirname(e) != d)
  }

  lemma {:induction false} EffectsKeepValid(v: Volume, p: Path)
    requires Valid(v)
    ensures Vacant(v, p) && TempsBelow(p, v.nextTemp) ==> Valid(Created(v, p))
    ensures Valid(Unlinked(v, p))
    ensures forall i, bytes | i in v.data :: Valid(Written(v, i, bytes))
    ensures EmptyDir(v, p) ==> Valid(DirRemoved(v, p))
  {
  }

  lemma {:induction false} LinkKeepsValid(v: Volume, p: Path, q: Path)
    requires Valid(v) && p in v.names && Vacant(v, q) && TempsBelow(q, v.nextTemp)
    ensures Valid(Linked(v, p, q))
  {
  }

  lemma {:induction false} MkdirKeepsValid(v: Volume, d: Path)
    requires Valid(v) && Vacant(v, d) && Plain(d)
    ensures Valid(DirMade(v, d))
  {
  }

  lemma {:induction false} TempKeepsValid(v: Volume, parent: Path)
    requires Valid(v) && Plain(parent) && parent in v.dirs
    ensures TempDir(v, parent) !in v.dirs && TempDir(v, parent) !in v.names && Valid(TempMade(v, parent))
  {
    var d := TempDir(v, parent);
    assert d[|d| - 1] == Temporary(v.nextTemp) && d[|d| - 1] in d;
    assert Dirname(d) == parent;
  }

  // ----- Calls

  /** How a call goes: well, refused without effect, failing after its effect, or (a write) leaving other bytes. */
  datatype Fault = Fine | Refused | Late | Torn(bytes: Bytes)

  /** A volume and the failures its calls will meet, in order; after the last all calls go well. `unlinked` counts the
      calls of `link` and `mkdtemp` that failed. */
  class FileSystem {
    var v: Volume
    var faults: seq<Fault>
    ghost var unlinked: nat

    constructor (v: Volume, faults: seq<Fault>)
      ensures this.v == v && this.faults == faults && unlinked == 0
    {
      this.v := v;
      this.faults := faults;
      unlinked := 0;
    }

    predicate Quiet() reads this { forall f | f in faults :: f.Fine? }

    method Next() returns (f: Fault)
      modifies this`faults
      ensures old(Quiet()) ==> f.Fine? && Quiet()
    {
      if faults == [] {
        f := Fine;
      } else {
        f := faults[0];
        faults := faults[1..];
      }
    }

    /** A call that only reads, or a check for an abort. */
    method Reads() returns (ok: bool)
      modifies this`faults
      ensures old(Quiet()) ==> ok && Quiet()
    {
      var f := Next();
      ok := f.Fine?;
    }

    /** `open(path, "wx")` with the `stat` of its handle. */
    method CreateExclusive(p: Path) returns (ino: Option<Ino>)
      requires Valid(v) && Plain(p)
      modifies this
      ensures Valid(v) && (old(Quiet()) ==> Quiet())
      ensures unlinked == old(unlinked)
      ensures ino.None? ==> v == old(v)
      ensures ino.Some? ==> Vacant(old(v), p) && ino.value == old(v).nextIno && v == Created(old(v), p)
      ensures old(Quiet()) && Vacant(old(v), p) ==> ino.Some?
    {
      var f := Next();
      if !f.Fine? || p in v.names || p in v.dirs || Dirname(p) !in v.dirs {
        return None;
      }
      EffectsKeepValid(v, p);
      ino := Some(v.nextIno);
      v := Created(v, p);
    }

    /** Writes through a handle: all of it, none of it, or something else. */
    method Write(i: Ino, bytes: Bytes) returns (ok: bool)
      requires Valid(v) && i in v.data
      modifies this
      ensures Valid(v) && (old(Quiet()) ==> ok && Quiet())
      ensures unlinked == old(unlinked)
      ensures exists left :: v == Written(old(v), i, left)
      ensures ok ==> v == Written(old(v), i, bytes)
    {
      EffectsKeepValid(v, []);
      var f := Next();
      match f {
        case Fine => v := Written(v, i, bytes);
        case Late => v := Written(v, i, bytes);
        case Torn(other) => v := Written(v, i, other);
        case Refused =>
          assert v == Written(v, i, v.data[i]);
      }
      ok := f.Fine?;
    }

    method Unlink(p: Path) returns (ok: bool)
      requires Valid(v)
      modifies this
      ensures Valid(v) && (old(Quiet()) ==> Quiet())
      ensures unlinked == old(unlinked)
      ensures v == old(v) || (p in old(v).names && v == Unlinked(old(v), p))
      ensures ok ==> p in old(v).names && v == Unlinked(old(v), p)
      ensures old(Quiet()) && p in old(v).names ==> ok
    {
      var f := Next();
      ok := f.Fine? && p in v.names;
      if p in v.names && (f.Fine? || f.Late?) {
        EffectsKeepValid(v, p);
        v := Unlinked(v, p);
      }
    }

    method Link(p: Path, q: Path) returns (ok: bool)
      requires Valid(v) && TempsBelow(q, v.nextTemp)
      modifies this
      ensures Valid(v) && (old(Quiet()) ==> Quiet())
      ensures unlinked == old(unlinked) + if ok then 0 else 1
      ensures v == old(v) || (p in old(v).names && Vacant(old(v), q) && v == Linked(old(v), p, q))
      ensures ok ==> p in old(v).names && Vacant(old(v), q) && v == Linked(old(v), p, q)
      ensures old(Quiet()) && p in old(v).names && Vacant(old(v), q) ==> ok
    {
      var f := Next();
      var possible := p in v.names && q !in v.names && q !in v.dirs && Dirname(q) in v.dirs;
      ok := f.Fine? && possible;
      unlinked := unlinked + if ok then 0 else 1;
      if possible && (f.Fine? || f.Late?) {
        LinkKeepsValid(v, p, q);
        v := Linked(v, p, q);
      }
    }

    method Mkdir(d: Path) returns (ok: bool)
      requires Valid(v) && Plain(d)
      modifies this
      ensures Valid(v) && (old(Quiet()) ==> Quiet())
      ensures unlinked == old(unlinked)
      ensures !ok ==> v == old(v)
      ensures ok ==> Vacant(old(v), d) && v == DirMade(old(v), d)
      ensures old(Quiet()) && Vacant(old(v), d) ==> ok
    {
      var f := Next();
      ok := f.Fine? && d !in v.names && d !in v.dirs && Dirname(d) in v.dirs;
      if ok {
        MkdirKeepsValid(v, d);
        v := DirMade(v, d);
      }
    }

    method Rmdir(d: Path) returns (ok: bool)
      requires Valid(v)
      modifies this
      ensures Valid(v) && (old(Quiet()) ==> Quiet())
      ensures unlinked == old(unlinked)
      ensures v == old(v) || (EmptyDir(old(v), d) && v == DirRemoved(old(v), d))
      ensures ok ==> EmptyDir(old(v), d) && v == DirRemoved(old(v), d)
      ensures old(Quiet()) && EmptyDir(old(v), d) ==> ok
    {
      var f := Next();
      var possible := EmptyDir(v, d);
      ok := f.Fine? && possible;
      if possible && (f.Fine? || f.Late?) {
        EffectsKeepValid(v, d);
        v := DirRemoved(v, d);
      }
    }

    /** `mkdtemp`: a directory nothing else names. */
    method Mkdtemp(parent: Path) returns (d: Option<Path>)
      requires Valid(v) && Plain(parent)
      modifies this
      ensures Valid(v) && (old(Quiet()) ==> Quiet())
      ensures unlinked == old(unlinked) + if d.Some? then 0 else 1
      ensures d.None? ==> v == old(v)
      ensures d.Some? ==> parent in old(v).dirs && d.value == TempDir(old(v), parent) && d.value !in old(v).dirs
                          && v == TempMade(old(v), parent)
      ensures old(Quiet()) && parent in old(v).dirs ==> d.Some?
    {
      var f := Next();
      if !f.Fine? || parent !in v.dirs {
        unlinked := unlinked + 1;
        return None;
      }
      TempKeepsValid(v, parent);
      d := Some(TempDir(v, parent));
      v := TempMade(v, parent);
    }
  }

}
