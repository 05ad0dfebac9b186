/** `applyPatch` of extensions/builtin-tools/src/apply-patch.ts: planning every operation against the results
    of the earlier ones, then committing all of them at once. */
module PatchPlan {
  import opened Outcomes
  import opened Disk
  import opened PatchApply
  import Replacements
  import opened PatchJournal
  import opened PatchCommit
  import opened PatchForward
  import opened PatchRollback
  import opened PatchTransaction

  datatype Operation =
    | Add(path: Path, content: string)
    | Delete(path: Path)
    | Update(path: Path, moveTo: Option<Path>, hunks: seq<UpdateHunk>)

  /** Text codecs: `decode` refuses what is not text, `encode` writes a text the way given bytes are written. */
  datatype Codec = Codec(decode: Bytes -> Option<string>, encode: (Bytes, string) -> Bytes, utf8: string -> Bytes)

  // ----- The meaning of a patch: operations one after another

  type Files = map<Path, Bytes>

  function Look(s: Files, p: Path): Option<Bytes> { if p in s then Some(s[p]) else None }

  function Contents(v: Volume): Files
    requires Valid(v)
  {
    map p | p in v.names :: v.data[v.names[p]]
  }

  ghost predicate RewritesTo(codec: Codec, bytes: Bytes, hunks: seq<UpdateHunk>, after: Bytes) {
    var text := codec.decode(bytes);
    text.Some? && exists updated: string, placed: seq<Placement>, r: seq<Replacements.Replacement> ::
      IsUpdate(text.value, hunks, Success(updated), placed, r) && after == codec.encode(bytes, updated)
  }

  ghost predicate OpStep(codec: Codec, s: Files, op: Operation, t: Files) {
    match op
    case Add(p, content) => p !in s && t == s[p := codec.utf8(content)]
    case Delete(p) => p in s && t == s - {p}
    case Update(p, None, hunks) => p in s && p in t && RewritesTo(codec, s[p], hunks, t[p]) && t == s[p := t[p]]
    case Update(p, Some(dest), hunks) =>
      p in s && dest !in s && dest in t && RewritesTo(codec, s[p], hunks, t[dest]) && t == (s - {p})[dest := t[dest]]
  }

  /** `t` is what the files are after running the operations one by one on `s`. */
  ghost predicate Runs(codec: Codec, ops: seq<Operation>, s: Files, t: Files) {
    if ops == [] then s == t
    else
      var n := |ops| - 1;
      exists mid: Files :: Runs(codec, ops[..n], s, mid) && OpStep(codec, mid, ops[n], t)
  }

  /** The paths an operation claims. */
  function PathsOf(op: Operation): set<Path> {
    {op.path} + if op.Update? && op.moveTo.Some? then {op.moveTo.value} else {}
  }

  function Claimed(ops: seq<Operation>): set<Path> {
    if ops == [] then {} else Claimed(ops[..|ops| - 1]) + PathsOf(ops[|ops| - 1])
  }

  lemma {:induction false} RewritesToOnce(codec: Codec, bytes: Bytes, hunks: seq<UpdateHunk>, a: Bytes, b: Bytes)
    requires RewritesTo(codec, bytes, hunks, a) && RewritesTo(codec, bytes, hunks, b)
    ensures a == b
  {
    hide IsUpdate;
    var text := codec.decode(bytes).value;
    var x: string, p: seq<Placement>, r: seq<Replacements.Replacement> :|
      IsUpdate(text, hunks, Success(x), p, r) && a == codec.encode(bytes, x);
    var y: string, q: seq<Placement>, r': seq<Replacements.Replacement> :|
      IsUpdate(text, hunks, Success(y), q, r') && b == codec.encode(bytes, y);
    UpdateOnce(text, hunks, Success(x), p, r, Success(y), q, r');
  }

  lemma {:induction false} OpStepOnce(codec: Codec, s: Files, op: Operation, t: Files, t': Files)
    requires OpStep(codec, s, op, t) && OpStep(codec, s, op, t')
    ensures t == t'
  {
    hide RewritesTo;
    match op
    case Add(_, _) =>
    case Delete(_) =>
    case Update(p, None, hunks) => RewritesToOnce(codec, s[p], hunks, t[p], t'[p]);
    case Update(p, Some(dest), hunks) => RewritesToOnce(codec, s[p], hunks, t[dest], t'[dest]);
  }

  lemma {:induction false} RunsSplit(codec: Codec, ops: seq<Operation>, s: Files, t: Files) returns (mid: Files)
    requires ops != [] && Runs(codec, ops, s, t)
    ensures Runs(codec, ops[..|ops| - 1], s, mid) && OpStep(codec, mid, ops[|ops| - 1], t)
  {
    hide OpStep;
    var n := |ops| - 1;
    mid :| Runs(codec, ops[..n], s, mid) && OpStep(codec, mid, ops[n], t);
  }

  /** Operations have one result. */
  lemma {:induction false} RunsOnce(codec: Codec, ops: seq<Operation>, s: Files, t: Files, t': Files)
    requires Runs(codec, ops, s, t) && Runs(codec, ops, s, t')
    ensures t == t'
  {
    if ops != [] {
      var mid := RunsSplit(codec, ops, s, t);
      var mid' := RunsSplit(codec, ops, s, t');
      hide OpStep;
      RunsOnce(codec, ops[..|ops| - 1], s, mid, mid');
      OpStepOnce(codec, mid, ops[|ops| - 1], t, t');
    }
  }

  /** Running further operations starts by running the first ones. */
  lemma {:induction false} RunsPrefix(codec: Codec, ops: seq<Operation>, n: nat, s: Files, t: Files) returns (mid: Files)
    requires n <= |ops| && Runs(codec, ops, s, t)
    ensures Runs(codec, ops[..n], s, mid)
    decreases |ops|
  {
    hide OpStep;
    if n == |ops| {
      assert ops[..n] == ops;
      mid := t;
    } else {
      var last := RunsSplit(codec, ops, s, t);
      mid := RunsPrefix(codec, ops[..|ops| - 1], n, s, last);
      assert ops[..|ops| - 1][..n] == ops[..n];
    }
  }

  // ----- What a patch may claim

  /** A path a patch may claim beside others. */
  ghost predicate Claimable(v: Volume, claimed: set<Path>, p: Path)
    requires Valid(v)
  {
    && SafePath(v, p) && p !in v.dirs
    && forall q | q in claimed :: !(p < q) && !(q < p) && (p in v.names && q in v.names ==> v.names[p] != v.names[q])
  }

  /** Claimed paths may hold files, are apart, and share no inode. */
  ghost predicate Claims(v: Volume, claimed: set<Path>)
    requires Valid(v)
  {
    forall p | p in claimed :: Claimable(v, claimed - {p}, p)
  }

  lemma {:induction false} ClaimableBeside(v: Volume, claimed: set<Path>, p: Path, q: Path)
    requires Valid(v) && Claimable(v, claimed, p) && q in claimed && Claimable(v, claimed - {q}, q)
    ensures Claimable(v, claimed + {p} - {q}, q)
  {
    forall r | r in claimed + {p} - {q}
      ensures !(q < r) && !(r < q) && (q in v.names && r in v.names ==> v.names[q] != v.names[r])
    {
      assert r == p || r in claimed - {q};
    }
  }

  lemma {:induction false} ClaimsGrow(v: Volume, claimed: set<Path>, p: Path)
    requires Valid(v) && Claims(v, claimed) && p !in claimed
    ensures Claims(v, claimed + {p}) ==> Claimable(v, claimed, p)
    ensures Claimable(v, claimed, p) ==> Claims(v, claimed + {p})
  {
    hide Claimable;
    var more := claimed + {p};
    assert more - {p} == claimed && p in more;
    if Claimable(v, claimed, p) {
      forall q | q in more ensures Claimable(v, more - {q}, q) {
        if q != p {
          assert q in claimed;
          assert Claimable(v, claimed - {q}, q);
          ClaimableBeside(v, claimed, p, q);
        }
      }
    }
  }

  lemma {:induction false} ClaimsShrink(v: Volume, claimed: set<Path>, fewer: set<Path>)
    requires Valid(v) && Claims(v, claimed) && fewer <= claimed
    ensures Claims(v, fewer)
  {
    forall p | p in fewer ensures Claimable(v, fewer - {p}, p) {
      assert Claimable(v, claimed - {p}, p);
    }
  }

  lemma {:induction false} ClaimedGrows(ops: seq<Operation>, n: nat)
    requires n < |ops|
    ensures Claimed(ops[..n + 1]) == Claimed(ops[..n]) + PathsOf(ops[n])
  {
    assert ops[..n + 1][..n] == ops[..n];
  }

  lemma {:induction false} ClaimedPrefix(ops: seq<Operation>, n: nat)
    requires n <= |ops|
    ensures Claimed(ops[..n]) <= Claimed(ops)
    decreases |ops| - n
  {
    if n < |ops| {
      ClaimedPrefix(ops, n + 1);
      ClaimedGrows(ops, n);
    } else {
      assert ops[..n] == ops;
    }
  }

  // ----- Plans

  /** What planning keeps: the changes so far, each claimed path's state before the patch and after the
      changes, and the order of the claims. */
  datatype Plan = Plan(changes: seq<Change>, originals: map<Path, Snapshot>, staged: map<Path, Option<Bytes>>, order: seq<Path>)

  function Opened(plan: Plan, p: Path, s: Snapshot): Plan {
    Plan(plan.changes, plan.originals[p := s], plan.staged[p := Content(s)], plan.order + [p])
  }

  function Staged(plan: Plan, p: Path, after: Option<Bytes>): Plan {
    plan.(changes := plan.changes + [Change(p, after)], staged := plan.staged[p := after])
  }

  /** Claimed paths were taken from `v` and may be patched together. */
  ghost predicate Open(v: Volume, plan: Plan) {
    && Valid(v) && Claims(v, plan.originals.Keys) && plan.staged.Keys == plan.originals.Keys
    && NoRepeats(plan.order) && Members(plan.order) == plan.originals.Keys
    && forall p | p in plan.originals :: Plain(p) && plan.originals[p] == Peek(v, p)
  }

  /** The staged states are what the changes lead to, and what `files` shows; other paths are as in `v`. */
  ghost predicate Tracks(v: Volume, plan: Plan, files: Files)
    requires Valid(v)
  {
    && plan.staged.Keys == plan.originals.Keys
    && (forall p | p in plan.originals :: plan.staged[p] == ContentAfter(plan.originals, plan.changes, p) && plan.staged[p] == Look(files, p))
    && forall p: Path | p !in plan.originals :: Look(files, p) == Look(Contents(v), p)
  }

  /** Every change is to a claimed path, and only files there at that point are deleted. */
  ghost predicate Sensible(plan: Plan) {
    forall i | 0 <= i < |plan.changes| ::
      && plan.changes[i].path in plan.originals
      && (plan.changes[i].after.None? ==> ContentAfter(plan.originals, plan.changes[..i], plan.changes[i].path).Some?)
  }

  ghost predicate Follows(v: Volume, plan: Plan, files: Files) {
    Open(v, plan) && Tracks(v, plan, files) && Sensible(plan)
  }

  /** The plan once path `p` is claimed. */
  function WithClaim(v: Volume, plan: Plan, p: Path): Plan
    requires Valid(v)
  {
    if p in plan.originals then plan else Opened(plan, p, Peek(v, p))
  }

  ghost predicate MayClaim(v: Volume, plan: Plan, p: Path)
    requires Valid(v)
  {
    p in plan.originals || Claimable(v, plan.originals.Keys, p)
  }

  lemma {:induction false} OpenIsPlanned(v: Volume, plan: Plan)
    requires Open(v, plan) && Sensible(plan)
    ensures Planned(v, plan.originals, plan.changes) && Fits(v, plan.originals)
  {
    forall p | p in plan.originals ensures Claimable(v, plan.originals.Keys - {p}, p) {
    }
  }

  lemma {:induction false} LastAfterGrows(changes: seq<Change>, c: Change, p: Path)
    ensures LastAfter(changes + [c], p) == if c.path == p then Some(c.after) else LastAfter(changes, p)
  {
    assert (changes + [c])[..|changes|] == changes;
  }

  lemma {:induction false} NotChanged(changes: seq<Change>, p: Path)
    requires forall c | c in changes :: c.path != p
    ensures LastAfter(changes, p) == None
  {
    if changes != [] {
      NotChanged(changes[..|changes| - 1], p);
    }
  }

  lemma {:induction false} OpenedIsOpen(v: Volume, plan: Plan, p: Path)
    requires Open(v, plan) && p !in plan.originals && Plain(p) && Claimable(v, plan.originals.Keys, p)
    ensures Open(v, Opened(plan, p, Peek(v, p)))
  {
    hide Claimable;
    var next := Opened(plan, p, Peek(v, p));
    assert next.originals.Keys == plan.originals.Keys + {p} && next.staged.Keys == plan.staged.Keys + {p};
    ClaimsGrow(v, plan.originals.Keys, p);
    hide Claims, Valid;
    assert p !in plan.order by {
      assert p in plan.order ==> p in Members(plan.order);
    }
    assert Members(plan.order + [p]) == Members(plan.order) + {p};
  }

  lemma {:induction false} OpenedTracks(v: Volume, plan: Plan, files: Files, p: Path)
    requires Valid(v) && Tracks(v, plan, files) && Sensible(plan) && p !in plan.originals
    ensures Tracks(v, Opened(plan, p, Peek(v, p)), files) && Sensible(Opened(plan, p, Peek(v, p)))
  {
    var next := Opened(plan, p, Peek(v, p));
    NotChanged(plan.changes, p);
    hide LastAfter;
    assert Look(files, p) == Content(Peek(v, p));
  }

  lemma {:induction false} StagedTracks(v: Volume, plan: Plan, files: Files, p: Path, after: Option<Bytes>, files': Files)
    requires Valid(v) && Tracks(v, plan, files) && Sensible(plan) && p in plan.originals && (after.None? ==> plan.staged[p].Some?)
    requires files' == if after.Some? then files[p := after.value] else files - {p}
    ensures Tracks(v, Staged(plan, p, after), files') && Sensible(Staged(plan, p, after))
  {
    var next := Staged(plan, p, after);
    forall q | q in plan.originals
      ensures ContentAfter(plan.originals, next.changes, q) == if q == p then after else ContentAfter(plan.originals, plan.changes, q)
    {
      LastAfterGrows(plan.changes, Change(p, after), q);
    }
    StagedSensible(plan, p, after);
  }

  lemma {:induction false} StagedSensible(plan: Plan, p: Path, after: Option<Bytes>)
    requires Sensible(plan) && p in plan.originals && (after.None? ==> ContentAfter(plan.originals, plan.changes, p).Some?)
    ensures Sensible(Staged(plan, p, after))
  {
    var next := Staged(plan, p, after);
    forall i | 0 <= i < |next.changes|
      ensures next.changes[i].path in next.originals
      ensures next.changes[i].after.None? ==> ContentAfter(next.originals, next.changes[..i], next.changes[i].path).Some?
    {
      assert next.changes[..i] == plan.changes[..i];
      hide ContentAfter, LastAfter;
      if i == |plan.changes| {
        assert plan.changes[..i] == plan.changes;
      }
    }
  }

  lemma {:induction false} ClaimFollows(v: Volume, plan: Plan, files: Files, p: Path)
    requires Follows(v, plan, files) && Plain(p) && MayClaim(v, plan, p)
    ensures Follows(v, WithClaim(v, plan, p), files) && WithClaim(v, plan, p).originals.Keys == plan.originals.Keys + {p}
    ensures p in WithClaim(v, plan, p).staged && WithClaim(v, plan, p).staged[p] == Look(files, p)
    ensures WithClaim(v, plan, p).changes == plan.changes
  {
    hide Open, Sensible, Claimable, Tracks;
    FollowsIsOpen(v, plan, files);
    if p !in plan.originals {
      OpenedIsOpen(v, plan, p);
      OpenedTracks(v, plan, files, p);
    }
    assert WithClaim(v, plan, p).originals.Keys == plan.originals.Keys + {p};
    ClaimedShows(v, WithClaim(v, plan, p), files, p);
  }

  lemma {:induction false} ClaimedShows(v: Volume, plan: Plan, files: Files, p: Path)
    requires Valid(v) && Tracks(v, plan, files) && p in plan.originals
    ensures p in plan.staged && plan.staged[p] == Look(files, p)
  {
    hide ContentAfter, Valid;
  }

  lemma {:induction false} StageFollows(v: Volume, plan: Plan, files: Files, p: Path, after: Option<Bytes>, files': Files)
    requires Follows(v, plan, files) && p in plan.originals && (after.None? ==> plan.staged[p].Some?)
    requires files' == if after.Some? then files[p := after.value] else files - {p}
    ensures Follows(v, Staged(plan, p, after), files')
  {
    StagedTracks(v, plan, files, p, after, files');
    assert Staged(plan, p, after).staged.Keys == plan.staged.Keys;
    hide Tracks, Sensible, Claims, Valid;
  }

  lemma {:induction false} WriteFollows(v: Volume, plan: Plan, files: Files, p: Path, bytes: Bytes)
    requires Follows(v, plan, files) && p in plan.originals
    ensures Follows(v, Staged(plan, p, Some(bytes)), files[p := bytes])
  {
    StageFollows(v, plan, files, p, Some(bytes), files[p := bytes]);
  }

  lemma {:induction false} RemoveFollows(v: Volume, plan: Plan, files: Files, p: Path)
    requires Follows(v, plan, files) && p in plan.originals && p in files
    ensures Follows(v, Staged(plan, p, None), files - {p})
  {
    StageFollows(v, plan, files, p, None, files - {p});
  }

  lemma {:induction false} MoveFollows(v: Volume, plan: Plan, files: Files, p: Path, dest: Path, bytes: Bytes)
    requires Follows(v, plan, files) && p in plan.originals && dest in plan.originals && p in files && dest !in files
    ensures Follows(v, Staged(Staged(plan, dest, Some(bytes)), p, None), (files - {p})[dest := bytes])
  {
    hide Follows;
    WriteFollows(v, plan, files, dest, bytes);
    RemoveFollows(v, Staged(plan, dest, Some(bytes)), files[dest := bytes], p);
    assert files[dest := bytes] - {p} == (files - {p})[dest := bytes];
  }

  lemma {:induction false} MayClaimNext(v: Volume, plan: Plan, more: set<Path>, p: Path)
    requires Valid(v) && Claims(v, more) && plan.originals.Keys <= more && p in more
    ensures MayClaim(v, plan, p)
  {
    if p !in plan.originals {
      assert Claimable(v, more - {p}, p);
      assert plan.originals.Keys <= more - {p};
    }
  }

  lemma {:induction false} FollowsIsOpen(v: Volume, plan: Plan, files: Files)
    requires Follows(v, plan, files)
    ensures Open(v, plan) && Valid(v) && plan.originals.Keys == plan.staged.Keys
    ensures forall p | p in plan.originals :: plan.staged[p] == Look(files, p)
  {
    hide Claims, Valid, ContentAfter;
  }

  ghost predicate CanStep(codec: Codec, files: Files, op: Operation) { exists t: Files :: OpStep(codec, files, op, t) }

  /** The changes `later` name what `earlier` name, and all of `paths`. */
  ghost predicate ChangesAll(earlier: seq<Change>, later: seq<Change>, paths: set<Path>) {
    forall p: Path | LastAfter(earlier, p).Some? || p in paths :: LastAfter(later, p).Some?
  }

  lemma {:induction false} ChangeOne(changes: seq<Change>, p: Path, after: Option<Bytes>)
    ensures ChangesAll(changes, changes + [Change(p, after)], {p})
  {
    forall q: Path | LastAfter(changes, q).Some? || q == p ensures LastAfter(changes + [Change(p, after)], q).Some? {
      LastAfterGrows(changes, Change(p, after), q);
    }
  }

  /** `next` plans `op` after what `plan` plans. */
  ghost predicate OpPlanned(v: Volume, codec: Codec, plan: Plan, files: Files, op: Operation, next: Plan, files': Files) {
    && Follows(v, next, files') && next.originals.Keys == plan.originals.Keys + PathsOf(op) && OpStep(codec, files, op, files')
    && ChangesAll(plan.changes, next.changes, PathsOf(op))
  }

  /** `op` has a meaning after what `plan` plans, and may claim its paths. */
  ghost predicate Plannable(v: Volume, codec: Codec, plan: Plan, files: Files, op: Operation) {
    Valid(v) && Claims(v, plan.originals.Keys + PathsOf(op)) && CanStep(codec, files, op)
  }

  lemma {:induction false} PlannableClaims(v: Volume, codec: Codec, plan: Plan, files: Files, op: Operation, p: Path)
    requires Plannable(v, codec, plan, files, op) && p in PathsOf(op)
    ensures MayClaim(v, plan, p)
  {
    MayClaimNext(v, plan, plan.originals.Keys + PathsOf(op), p);
  }

  lemma {:induction false} AddIsPlanned(v: Volume, codec: Codec, plan: Plan, files: Files, op: Operation)
    requires Follows(v, plan, files) && op.Add? && op.path in plan.originals
    ensures CanStep(codec, files, op) ==> Look(files, op.path) == None
    ensures Look(files, op.path) == None ==>
              OpPlanned(v, codec, plan, files, op, Staged(plan, op.path, Some(codec.utf8(op.content))), files[op.path := codec.utf8(op.content)])
  {
    hide Follows, ChangesAll;
    WriteFollows(v, plan, files, op.path, codec.utf8(op.content));
    ChangeOne(plan.changes, op.path, Some(codec.utf8(op.content)));
    assert PathsOf(op) == {op.path};
  }

  lemma {:induction false} DeleteIsPlanned(v: Volume, codec: Codec, plan: Plan, files: Files, op: Operation)
    requires Follows(v, plan, files) && op.Delete? && op.path in plan.originals
    ensures CanStep(codec, files, op) ==> Look(files, op.path) != None
    ensures Look(files, op.path) != None ==> OpPlanned(v, codec, plan, files, op, Staged(plan, op.path, None), files - {op.path})
  {
    hide Follows, ChangesAll;
    if Look(files, op.path) != None {
      RemoveFollows(v, plan, files, op.path);
      ChangeOne(plan.changes, op.path, None);
      assert PathsOf(op) == {op.path};
    }
  }

  lemma {:induction false} PlannableCan(v: Volume, codec: Codec, plan: Plan, files: Files, op: Operation)
    requires Plannable(v, codec, plan, files, op)
    ensures CanStep(codec, files, op)
  {
  }

  lemma {:induction false} UpdateNeeds(codec: Codec, files: Files, op: Operation)
    requires op.Update? && CanStep(codec, files, op)
    ensures Look(files, op.path).Some? && exists b: Bytes :: RewritesTo(codec, Look(files, op.path).value, op.hunks, b)
    ensures op.moveTo.Some? ==> Look(files, op.moveTo.value) == None
  {
    hide RewritesTo;
    var t: Files :| OpStep(codec, files, op, t);
    match op.moveTo
    case None => assert RewritesTo(codec, files[op.path], op.hunks, t[op.path]);
    case Some(dest) => assert RewritesTo(codec, files[op.path], op.hunks, t[dest]);
  }

  lemma {:induction false} UpdateIsPlanned(v: Volume, codec: Codec, plan: Plan, files: Files, op: Operation, after: Bytes)
    requires Follows(v, plan, files) && op.Update? && op.moveTo.None? && op.path in plan.originals
    requires Look(files, op.path).Some? && RewritesTo(codec, Look(files, op.path).value, op.hunks, after)
    ensures OpPlanned(v, codec, plan, files, op, Staged(plan, op.path, Some(after)), files[op.path := after])
  {
    hide Follows, RewritesTo, ChangesAll;
    WriteFollows(v, plan, files, op.path, after);
    ChangeOne(plan.changes, op.path, Some(after));
    assert PathsOf(op) == {op.path};
  }

  lemma {:induction false} MoveSteps(codec: Codec, files: Files, op: Operation, after: Bytes)
    requires op.Update? && op.moveTo.Some? && Look(files, op.path).Some? && Look(files, op.moveTo.value).None?
    requires RewritesTo(codec, Look(files, op.path).value, op.hunks, after)
    ensures OpStep(codec, files, op, (files - {op.path})[op.moveTo.value := after])
  {
    hide RewritesTo;
  }

  lemma {:induction false} MoveIsPlanned(v: Volume, codec: Codec, plan: Plan, files: Files, op: Operation, after: Bytes)
    requires Follows(v, plan, files) && op.Update? && op.moveTo.Some? && op.path in plan.originals && op.moveTo.value in plan.originals
    requires Look(files, op.path).Some? && RewritesTo(codec, Look(files, op.path).value, op.hunks, after) && Look(files, op.moveTo.value).None?
    ensures OpPlanned(v, codec, plan, files, op, Staged(Staged(plan, op.moveTo.value, Some(after)), op.path, None),
                      (files - {op.path})[op.moveTo.value := after])
  {
    hide Follows, RewritesTo, LastAfter, OpStep, ChangesAll;
    MoveSteps(codec, files, op, after);
    TwoChanges(plan.changes, op.moveTo.value, Some(after), op.path, None);
    MoveFollows(v, plan, files, op.path, op.moveTo.value, after);
    assert PathsOf(op) == {op.path, op.moveTo.value};
    assert plan.originals.Keys + PathsOf(op) == plan.originals.Keys;
  }

  lemma {:induction false} TwoChanges(changes: seq<Change>, p: Path, a: Option<Bytes>, q: Path, b: Option<Bytes>)
    ensures ChangesAll(changes, changes + [Change(p, a)] + [Change(q, b)], {q, p})
  {
    ChangeOne(changes, p, a);
    ChangeOne(changes + [Change(p, a)], q, b);
    hide LastAfter;
  }

  /** Planning an operation once one of its paths is claimed is planning it. */
  lemma {:induction false} ClaimedFirst(v: Volume, codec: Codec, plan: Plan, claimed: Plan, files: Files, op: Operation, next: Plan, files': Files)
    requires OpPlanned(v, codec, claimed, files, op, next, files')
    requires plan.originals.Keys <= claimed.originals.Keys <= plan.originals.Keys + PathsOf(op) && claimed.changes == plan.changes
    ensures OpPlanned(v, codec, plan, files, op, next, files')
  {
    hide Follows, OpStep, ChangesAll;
    assert claimed.originals.Keys + PathsOf(op) == plan.originals.Keys + PathsOf(op);
  }

  lemma {:induction false} SamePlannable(v: Volume, codec: Codec, plan: Plan, claimed: Plan, files: Files, op: Operation)
    requires plan.originals.Keys <= claimed.originals.Keys <= plan.originals.Keys + PathsOf(op)
    ensures Plannable(v, codec, claimed, files, op) == Plannable(v, codec, plan, files, op)
  {
    hide Valid, Claims, CanStep;
    assert claimed.originals.Keys + PathsOf(op) == plan.originals.Keys + PathsOf(op);
  }

  // ----- Planning

  lemma {:induction false} OpenIsClaimed(v: Volume, plan: Plan, p: Path)
    requires Open(v, plan) && p in plan.originals
    ensures SafePath(v, p) && p in plan.staged && WithClaim(v, plan, p) == plan && MayClaim(v, plan, p) && plan.staged.Keys == plan.originals.Keys
  {
    assert Claimable(v, plan.originals.Keys - {p}, p);
    hide NoRepeats, Members;
  }

  lemma {:induction false} MayOpen(v: Volume, plan: Plan, p: Path)
    requires Open(v, plan) && p !in plan.originals
    ensures (p in v.names ==> v.names[p] in v.data) && p !in plan.staged && WithClaim(v, plan, p) == Opened(plan, p, Peek(v, p))
    ensures MayClaim(v, plan, p) <==>
              && SafePath(v, p) && p !in v.dirs && (forall q | q in plan.originals.Keys :: !(p < q) && !(q < p))
              && (p in v.names ==> forall q | q in plan.originals.Keys :: !(plan.originals[q].Present? && plan.originals[q].ino == v.names[p]))
  {
    hide NoRepeats, Members, Claims;
  }

  /** What a rewritten text is for some bytes, if it can be rewritten. */
  method Rewrite(codec: Codec, bytes: Bytes, hunks: seq<UpdateHunk>) returns (after: Option<Bytes>)
    ensures after.Some? ==> RewritesTo(codec, bytes, hunks, after.value)
    ensures after.None? ==> forall b: Bytes :: !RewritesTo(codec, bytes, hunks, b)
  {
    var text := codec.decode(bytes);
    if text.None? {
      return None;
    }
    ghost var placed, replacements;
    var updated;
    updated, placed, replacements := ApplyUpdate(text.value, hunks);
    hide IsUpdate;
    if updated.Failure? {
      forall b: Bytes ensures !RewritesTo(codec, bytes, hunks, b) {
        if RewritesTo(codec, bytes, hunks, b) {
          var x: string, p: seq<Placement>, r: seq<Replacements.Replacement> :|
            IsUpdate(text.value, hunks, Success(x), p, r) && b == codec.encode(bytes, x);
          UpdateOnce(text.value, hunks, Success(x), p, r, updated, placed, replacements);
        }
      }
      return None;
    }
    after := Some(codec.encode(bytes, updated.value));
  }

  /** The closures of `applyPatch` over its maps. */
  class Planner {
    var changes: seq<Change>
    var originals: map<Path, Snapshot>
    var staged: map<Path, Option<Bytes>>
    var order: seq<Path>

    function Now(): Plan reads this { Plan(changes, originals, staged, order) }

    constructor ()
      ensures Now() == Plan([], map[], map[], [])
    {
      changes, originals, staged, order := [], map[], map[], [];
    }

    /** `claim`: what a path holds at this point of the patch, or nothing when the patch may not touch it. */
    method Claim(fs: FileSystem, p: Path) returns (found: Option<Option<Bytes>>)
      requires Open(fs.v, Now()) && Plain(p)
      modifies this, fs`faults
      ensures found.Some? ==> MayClaim(fs.v, old(Now()), p) && Now() == WithClaim(fs.v, old(Now()), p)
      ensures found.Some? ==> p in staged && found.value == staged[p]
      ensures old(fs.Quiet()) ==> fs.Quiet() && (MayClaim(fs.v, old(Now()), p) ==> found.Some?)
    {
      hide Open, Claims, Claimable, MayClaim, Valid;
      ghost var v, plan := fs.v, Now();
      if p in plan.originals {
        OpenIsClaimed(v, plan, p);
      } else {
        MayOpen(v, plan, p);
      }
      var safe := fs.Reads();
      if !safe || p == [] || exists k | 0 <= k < |p| :: p[..k] in fs.v.names {
        return None;
      }
      if p in staged {
        return Some(staged[p]);
      }
      if exists q | q in originals.Keys :: p < q || q < p {
        return None;
      }
      var read := fs.Reads();
      if !read || p in fs.v.dirs {
        return None;
      }
      var before := if p in fs.v.names then Present(fs.v.data[fs.v.names[p]], fs.v.names[p]) else Absent;
      if before.Present? && exists q | q in originals.Keys :: originals[q].Present? && originals[q].ino == before.ino {
        return None;
      }
      originals, staged, order := originals[p := before], staged[p := Content(before)], order + [p];
      found := Some(staged[p]);
    }

    method Stage(p: Path, after: Option<Bytes>)
      modifies this
      ensures Now() == Staged(old(Now()), p, after)
    {
      changes, staged := changes + [Change(p, after)], staged[p := after];
    }
  
    /** One operation, planned against what the earlier ones lead to. It is refused only when it has no
        meaning there, may not claim its paths, or a call fails. */
    method PlanOne(fs: FileSystem, codec: Codec, op: Operation, ghost files: Files) returns (ok: bool, ghost files': Files)
      requires Follows(fs.v, Now(), files) && forall p | p in PathsOf(op) :: Plain(p)
      modifies this, fs`faults
      ensures ok ==> OpPlanned(fs.v, codec, old(Now()), files, op, Now(), files')
      ensures old(fs.Quiet()) ==> fs.Quiet() && (Plannable(fs.v, codec, old(Now()), files, op) ==> ok)
    {
      hide Follows, MayClaim, Claims, Open, Valid, OpStep, CanStep, WithClaim, OpPlanned;
      ghost var v, plan := fs.v, Now();
      var p := op.path;
      ok, files' := false, files;
      FollowsIsOpen(v, plan, files);
      if Plannable(v, codec, plan, files, op) {
        PlannableClaims(v, codec, plan, files, op, p);
      }
      var found := Claim(fs, p);
      if found.None? {
        return;
      }
      ClaimFollows(v, plan, files, p);
      ghost var claimed := Now();
      match op {
        case Add(_, content) =>
          AddIsPlanned(v, codec, claimed, files, op);
          if found.value.None? {
            Stage(p, Some(codec.utf8(content)));
            ok, files' := true, files[p := codec.utf8(content)];
          }
        case Delete(_) =>
          DeleteIsPlanned(v, codec, claimed, files, op);
          if found.value.Some? {
            Stage(p, None);
            ok, files' := true, files - {p};
          }
        case Update(_, _, _) =>
          SamePlannable(v, codec, plan, claimed, files, op);
          ok, files' := PlanUpdate(fs, codec, op, found.value, files);
      }
      if ok {
        ClaimedFirst(v, codec, plan, claimed, files, op, Now(), files');
      }
    }

    /** An update whose path is claimed. */
    method PlanUpdate(fs: FileSystem, codec: Codec, op: Operation, before: Option<Bytes>, ghost files: Files)
      returns (ok: bool, ghost files': Files)
      requires Follows(fs.v, Now(), files) && op.Update? && op.path in originals && before == Look(files, op.path)
      requires forall p | p in PathsOf(op) :: Plain(p)
      modifies this, fs`faults
      ensures ok ==> OpPlanned(fs.v, codec, old(Now()), files, op, Now(), files')
      ensures old(fs.Quiet()) ==> fs.Quiet() && (Plannable(fs.v, codec, old(Now()), files, op) ==> ok)
    {
      hide Follows, RewritesTo, Plannable, OpStep, CanStep, OpPlanned;
      ghost var v, plan := fs.v, Now();
      ok, files' := false, files;
      if Plannable(v, codec, plan, files, op) {
        PlannableCan(v, codec, plan, files, op);
        UpdateNeeds(codec, files, op);
      }
      if before.None? {
        return;
      }
      var after := Rewrite(codec, before.value, op.hunks);
      if after.None? {
        return;
      }
      if op.moveTo.Some? {
        ok, files' := PlanMove(fs, codec, op, after.value, files);
      } else {
        UpdateIsPlanned(v, codec, plan, files, op, after.value);
        Stage(op.path, after);
        ok, files' := true, files[op.path := after.value];
      }
    }

    /** A move of a rewritten file. */
    method PlanMove(fs: FileSystem, codec: Codec, op: Operation, after: Bytes, ghost files: Files) returns (ok: bool, ghost files': Files)
      requires Follows(fs.v, Now(), files) && op.Update? && op.path in originals && op.moveTo.Some?
      requires Look(files, op.path).Some? && RewritesTo(codec, Look(files, op.path).value, op.hunks, after)
      requires forall p | p in PathsOf(op) :: Plain(p)
      modifies this, fs`faults
      ensures ok ==> OpPlanned(fs.v, codec, old(Now()), files, op, Now(), files')
      ensures old(fs.Quiet()) ==> fs.Quiet() && (Plannable(fs.v, codec, old(Now()), files, op) ==> ok)
    {
      ghost var v, plan, dest := fs.v, Now(), op.moveTo.value;
      ok, files' := false, files;
      FollowsIsOpen(v, plan, files);
      if Plannable(v, codec, plan, files, op) {
        PlannableClaims(v, codec, plan, files, op, dest);
        UpdateNeeds(codec, files, op);
      }
      hide Follows, MayClaim, Open, Valid, RewritesTo, Plannable, WithClaim;
      var found := Claim(fs, op.moveTo.value);
      if found.None? {
        return;
      }
      ClaimFollows(v, plan, files, dest);
      if found.value.None? {
        ghost var claimed := Now();
        MoveIsPlanned(v, codec, claimed, files, op, after);
        Stage(op.moveTo.value, Some(after));
        Stage(op.path, None);
        ok, files' := true, (files - {op.path})[dest := after];
        ClaimedFirst(v, codec, plan, claimed, files, op, Now(), files');
      }
    }
  }

  // ----- The whole tool

  /** What the capture hook sees of one path. */
  datatype FileMutation = FileMutation(path: Path, before: Option<Bytes>, after: Option<Bytes>)

  datatype PatchResult = NotPlanned | Committed(outcome: Outcome)

  /** The operations make sense one after another, and their paths may be patched together. */
  ghost predicate Applicable(v: Volume, codec: Codec, ops: seq<Operation>) {
    Valid(v) && Claims(v, Claimed(ops)) && exists files: Files :: Runs(codec, ops, Contents(v), files)
  }

  lemma {:induction false} RunsMore(codec: Codec, done: seq<Operation>, s: Files, files: Files, op: Operation, files': Files)
    requires Runs(codec, done, s, files) && OpStep(codec, files, op, files')
    ensures Runs(codec, done + [op], s, files')
  {
    hide OpStep;
    assert (done + [op])[..|done|] == done;
  }

  /** What an applicable patch asks of each of its operations. */
  lemma {:induction false} ApplicableStep(v: Volume, codec: Codec, ops: seq<Operation>, n: nat, plan: Plan, files: Files)
    requires Applicable(v, codec, ops) && n < |ops| && Runs(codec, ops[..n], Contents(v), files)
    requires plan.originals.Keys == Claimed(ops[..n])
    ensures Plannable(v, codec, plan, files, ops[n])
  {
    hide Claims, OpStep, Claimed, Valid, Runs;
    ClaimedGrows(ops, n);
    ClaimedPrefix(ops, n + 1);
    ClaimsShrink(v, Claimed(ops), Claimed(ops[..n + 1]));
    var last: Files :| Runs(codec, ops, Contents(v), last);
    var after := RunsPrefix(codec, ops, n + 1, Contents(v), last);
    var before := RunsSplit(codec, ops[..n + 1], Contents(v), after);
    assert ops[..n + 1][..n] == ops[..n];
    RunsOnce(codec, ops[..n], Contents(v), before, files);
  }

  lemma {:induction false} PlainPaths(ops: seq<Operation>, n: nat)
    requires n < |ops| && forall p | p in Claimed(ops) :: Plain(p)
    ensures forall p | p in PathsOf(ops[n]) :: Plain(p)
  {
    ClaimedGrows(ops, n);
    ClaimedPrefix(ops, n + 1);
  }

  lemma {:induction false} NothingPlanned(v: Volume)
    requires Valid(v)
    ensures Follows(v, Plan([], map[], map[], []), Contents(v))
  {
  }

  /** Plans all operations in order; `files` is what they lead to. */
  method PlanAll(fs: FileSystem, codec: Codec, ops: seq<Operation>) returns (ok: bool, planner: Planner, ghost files: Files)
    requires Valid(fs.v) && forall p | p in Claimed(ops) :: Plain(p)
    modifies fs`faults
    ensures fresh(planner)
    ensures ok ==> Follows(fs.v, planner.Now(), files) && planner.originals.Keys == Claimed(ops)
    ensures ok ==> Runs(codec, ops, Contents(fs.v), files) && ChangesAll([], planner.changes, Claimed(ops))
    ensures old(fs.Quiet()) ==> fs.Quiet() && (Applicable(fs.v, codec, ops) ==> ok)
  {
    planner := new Planner();
    ghost var v := fs.v;
    files := Contents(v);
    NothingPlanned(v);
    assert ops[..0] == [];
    hide Follows, Applicable, Claims, Valid, Plannable;
    for n := 0 to |ops|
      invariant fresh(planner) && Follows(v, planner.Now(), files) && planner.originals.Keys == Claimed(ops[..n])
      invariant Runs(codec, ops[..n], Contents(v), files) && ChangesAll([], planner.changes, Claimed(ops[..n]))
      invariant old(fs.Quiet()) ==> fs.Quiet()
    {
      hide Runs;
      if Applicable(v, codec, ops) {
        ApplicableStep(v, codec, ops, n, planner.Now(), files);
      }
      PlainPaths(ops, n);
      ghost var before, plan := files, planner.Now();
      ok, files := planner.PlanOne(fs, codec, ops[n], files);
      if !ok {
        return;
      }
      StepRuns(v, codec, ops, n, plan, before, planner.Now(), files);
    }
    assert ops[..|ops|] == ops;
    ok := true;
  }

  lemma {:induction false} StepRuns(v: Volume, codec: Codec, ops: seq<Operation>, n: nat, plan: Plan, files: Files, next: Plan, files': Files)
    requires n < |ops| && OpPlanned(v, codec, plan, files, ops[n], next, files') && plan.originals.Keys == Claimed(ops[..n])
    requires Valid(v) && Runs(codec, ops[..n], Contents(v), files) && ChangesAll([], plan.changes, Claimed(ops[..n]))
    ensures Follows(v, next, files') && next.originals.Keys == Claimed(ops[..n + 1]) && Runs(codec, ops[..n + 1], Contents(v), files')
    ensures ChangesAll([], next.changes, Claimed(ops[..n + 1]))
  {
    hide Follows, OpStep;
    ClaimedGrows(ops, n);
    RunsMore(codec, ops[..n], Contents(v), files, ops[n], files');
    assert ops[..n] + [ops[n]] == ops[..n + 1];
  }

  /** Checks every claimed path once more before anything is written. */
  method Revalidate(fs: FileSystem, order: seq<Path>, originals: map<Path, Snapshot>) returns (ok: bool)
    requires Valid(fs.v) && forall p | p in order :: p in originals
    modifies fs`faults
    ensures ok ==> forall p | p in order :: SafePath(fs.v, p) && p !in fs.v.dirs && Peek(fs.v, p) == originals[p]
    ensures old(fs.Quiet()) ==> fs.Quiet() && (Fits(fs.v, originals) ==> ok)
  {
    for n := 0 to |order|
      invariant old(fs.Quiet()) ==> fs.Quiet()
      invariant forall k | 0 <= k < n :: SafePath(fs.v, order[k]) && order[k] !in fs.v.dirs && Peek(fs.v, order[k]) == originals[order[k]]
    {
      assert order[n] in originals;
      ok := Unchanged(fs, order[n], originals[order[n]]);
      if !ok {
        return;
      }
    }
    ok := true;
  }

  /** What the capture hook is given: each path once, with its bytes before and after the whole patch. */
  ghost predicate Captures(mutations: seq<FileMutation>, claimed: set<Path>, s: Files, t: Files) {
    && (forall m | m in mutations :: m.path in claimed && m.before == Look(s, m.path) && m.after == Look(t, m.path))
    && (forall p | p in claimed :: exists i | 0 <= i < |mutations| :: mutations[i].path == p)
    && forall i, j | 0 <= i < j < |mutations| :: mutations[i].path != mutations[j].path
  }

  predicate IsMutation(plan: Plan, p: Path, m: FileMutation) {
    p in plan.originals && p in plan.staged && m == FileMutation(p, Content(plan.originals[p]), plan.staged[p])
  }

  method MutationsOf(planner: Planner) returns (mutations: seq<FileMutation>)
    requires planner.originals.Keys == planner.staged.Keys && forall p | p in planner.order :: p in planner.originals
    ensures |mutations| == |planner.order|
    ensures forall i | 0 <= i < |mutations| :: IsMutation(planner.Now(), planner.order[i], mutations[i])
  {
    mutations := [];
    for n := 0 to |planner.order|
      invariant |mutations| == n
      invariant forall i | 0 <= i < n :: IsMutation(planner.Now(), planner.order[i], mutations[i])
    {
      var p := planner.order[n];
      assert p in planner.originals;
      mutations := mutations + [FileMutation(p, Content(planner.originals[p]), planner.staged[p])];
    }
  }

  lemma {:induction false} MutationShows(v: Volume, plan: Plan, files: Files, p: Path, m: FileMutation)
    requires Open(v, plan) && IsMutation(plan, p, m) && forall q | q in plan.originals && q in plan.staged :: plan.staged[q] == Look(files, q)
    ensures m.path == p && p in plan.originals && m.before == Look(Contents(v), p) && m.after == Look(files, p)
  {
    hide Claims, NoRepeats, Members;
  }

  lemma {:induction false} PlanCaptures(v: Volume, plan: Plan, files: Files, mutations: seq<FileMutation>)
    requires Valid(v) && Follows(v, plan, files) && |mutations| == |plan.order|
    requires forall i | 0 <= i < |mutations| :: IsMutation(plan, plan.order[i], mutations[i])
    ensures Captures(mutations, plan.originals.Keys, Contents(v), files)
  {
    hide Claims, Sensible, Tracks, Valid, Follows, Content, Look, IsMutation, Contents;
    FollowsIsOpen(v, plan, files);
    forall i | 0 <= i < |mutations|
      ensures mutations[i].path == plan.order[i] && mutations[i].path in plan.originals
      ensures mutations[i].before == Look(Contents(v), mutations[i].path) && mutations[i].after == Look(files, mutations[i].path)
    {
      MutationShows(v, plan, files, plan.order[i], mutations[i]);
    }
    forall p | p in plan.originals ensures exists i | 0 <= i < |mutations| :: mutations[i].path == p {
      assert p in Members(plan.order);
      var i :| 0 <= i < |plan.order| && plan.order[i] == p;
      assert mutations[i].path == p;
    }
  }

  /** Every claimed path shows what running the operations one by one leads to. */
  ghost predicate LeavesResult(v: Volume, claimed: set<Path>, files: Files)
    requires Valid(v)
  {
    forall p | p in claimed :: Content(Peek(v, p)) == Look(files, p)
  }

  /** When each claimed path is changed at least once, carrying out the plan leaves its result. */
  lemma {:induction false} PlanLeavesResult(v0: Volume, plan: Plan, files: Files, v: Volume)
    requires Follows(v0, plan, files) && Valid(v) && MadeAsPlanned(v, plan.originals, plan.changes)
    requires ChangesAll([], plan.changes, plan.originals.Keys)
    ensures LeavesResult(v, plan.originals.Keys, files)
  {
    FollowsIsOpen(v0, plan, files);
    hide Open, Sensible, LastAfter;
  }

  /** `applyPatch`: the patch is applied as if its operations had run one after another, or nothing is
      changed (short of a rollback that reports failures); without failing calls, exactly the applicable
      patches are applied. */
  method ApplyPatch(fs: FileSystem, codec: Codec, ops: seq<Operation>)
    returns (result: PatchResult, mutations: seq<FileMutation>, run: Run, ghost files: Files)
    requires Valid(fs.v) && AllPlain(fs.v) && forall p | p in Claimed(ops) :: Plain(p)
    modifies fs
    ensures Valid(fs.v)
    ensures result.NotPlanned? ==> fs.v == old(fs.v)
    ensures result.Committed? ==> Runs(codec, ops, Contents(old(fs.v)), files) && Claims(old(fs.v), Claimed(ops))
    ensures result.Committed? ==> Captures(mutations, Claimed(ops), Contents(old(fs.v)), files)
    ensures result.Committed? && (result.outcome.Applied? || result.outcome.AppliedUncleaned?) ==> LeavesResult(fs.v, Claimed(ops), files)
    ensures result == Committed(Applied) ==> OnlyParentsAdded(old(fs.v), fs.v, Claimed(ops))
    ensures result == Committed(RolledBack) ==> AsBefore(old(fs.v), fs.v, UnlinkedDeletes(run.journal))
    ensures result == Committed(RolledBack) && fs.unlinked == old(fs.unlinked) ==> AsBefore(old(fs.v), fs.v, {})
    ensures forall q: Path | Plain(q) && q !in Claimed(ops) :: SameName(old(fs.v), fs.v, q)
    ensures old(fs.Quiet()) ==> (result == Committed(Applied) <==> Applicable(old(fs.v), codec, ops))
  {
    hide AsBefore, UnlinkedDeletes, Unbacked, Strands, LeavesResult, Captures, OnlyParentsAdded, Runs, ChangesAll, Claims;
    ghost var v := fs.v;
    mutations, run := [], Run(map[], [], [], []);
    var ok, planner;
    ok, planner, files := PlanAll(fs, codec, ops);
    if !ok {
      return NotPlanned, mutations, run, files;
    }
    ghost var plan := planner.Now();
    FollowsIsOpen(v, plan, files);
    OpenIsPlanned(v, plan);
    ok := Revalidate(fs, planner.order, planner.originals);
    if ok {
      ok := fs.Reads();
    }
    if !ok {
      return NotPlanned, mutations, run, files;
    }
    mutations := MutationsOf(planner);
    PlanCaptures(v, plan, files, mutations);
    ok := fs.Reads();
    if !ok {
      return NotPlanned, mutations, run, files;
    }
    var outcome;
    ghost var failed, calm, unlinked;
    outcome, run, failed, calm, unlinked := CommitPatch(fs, planner.changes, planner.originals);
    if outcome.Applied? || outcome.AppliedUncleaned? {
      PlanLeavesResult(v, plan, files, fs.v);
    }
    result := Committed(outcome);
  }
}
