/** scripts/publish-update-channel.ts: publishers that share one branch of a remote repository. The remote's objects
    are immutable and shared, and a reference moves only forward, so reading and creating a commit is one step and
    moving the branch another; other publishers may act between the two. */
module Publishing {
  import opened Outcomes
  import opened Versions
  import SourceText

  /** A commit by its place among the commits created so far. */
  type Sha = nat

  datatype Entry = Entry(path: string, mode: string, kind: string, content: string)

  datatype Commit = Commit(tree: seq<Entry>, parents: seq<Sha>)

  datatype Remote = Remote(commits: seq<Commit>, head: Option<Sha>)

  /** What a publisher trusts: the marker of its repository, and the check of a manifest against a trimmed signature and
      the channel, which gives the version. */
  datatype Trust = Trust(ownership: string, verify: (string, string) -> Option<SemVer>)

  const OWNERSHIP := ".amira-update-channel.json"
  const DIRECTORY := "next"
  const MANIFEST := "next/manifest.json"
  const SIGNATURE := "next/manifest.json.sig"

  const MANIFEST_LIMIT := 1024 * 1024
  const SIGNATURE_LIMIT := 1024
  const OWNERSHIP_LIMIT := 2048

  function AllPaths(): set<string> { {OWNERSHIP, DIRECTORY, MANIFEST, SIGNATURE} }

  // ----- Trees

  function File(path: string, content: string): Entry { Entry(path, "100644", "blob", content) }

  /** The tree a bootstrap creates, and the tree a publication creates, as the remote lists them. */
  function MarkerTree(t: Trust): seq<Entry> { [File(OWNERSHIP, t.ownership)] }

  function FullTree(t: Trust, manifest: string, signature: string): seq<Entry> {
    MarkerTree(t) + [Entry(DIRECTORY, "040000", "tree", ""), File(MANIFEST, manifest), File(SIGNATURE, signature)]
  }

  predicate GoodEntry(e: Entry) {
    && e.path in AllPaths()
    && e.mode == (if e.path == DIRECTORY then "040000" else "100644")
    && e.kind == (if e.path == DIRECTORY then "tree" else "blob")
  }

  function PathsOf(tree: seq<Entry>): set<string> { set i | 0 <= i < |tree| :: tree[i].path }

  /** The branch has its reserved layout: the marker alone, or with a manifest and its signature. */
  predicate Layout(t: Trust, tree: seq<Entry>) {
    && (forall i | 0 <= i < |tree| :: GoodEntry(tree[i]))
    && (forall i, j | 0 <= i < j < |tree| :: tree[i].path != tree[j].path)
    && (PathsOf(tree) == {OWNERSHIP} || PathsOf(tree) == AllPaths())
    && Content(tree, OWNERSHIP) == Some(t.ownership)
  }

  function Content(tree: seq<Entry>, path: string): Option<string> {
    if tree == [] then None else if tree[0].path == path then Some(tree[0].content) else Content(tree[1..], path)
  }

  lemma {:induction false} ContentAt(tree: seq<Entry>, path: string)
    ensures Content(tree, path).Some? <==> path in PathsOf(tree)
    ensures forall i | 0 <= i < |tree| && tree[i].path == path && (forall j | 0 <= j < i :: tree[j].path != path) ::
              Content(tree, path) == Some(tree[i].content)
  {
    if tree != [] {
      ContentAt(tree[1..], path);
      forall i | 0 <= i < |tree| && tree[i].path == path && (forall j | 0 <= j < i :: tree[j].path != path)
        ensures Content(tree, path) == Some(tree[i].content)
      {
        if i > 0 {
          assert tree[1..][i - 1] == tree[i] && (forall j | 0 <= j < i - 1 :: tree[1..][j] == tree[j + 1]);
        }
      }
      assert forall i | 0 <= i < |tree| - 1 :: tree[1..][i] == tree[i + 1];
      assert PathsOf(tree) == {tree[0].path} + PathsOf(tree[1..]);
    }
  }

  /** The marker of this repository, as a plain file. */
  ghost predicate HasMarker(t: Trust, tree: seq<Entry>) { Entry(".amira-update-channel.json", "100644", "blob", t.ownership) in tree }

  ghost predicate HasFile(tree: seq<Entry>, path: string) { exists content :: Entry(path, "100644", "blob", content) in tree }

  ghost predicate HasDirectory(tree: seq<Entry>) { exists content :: Entry("next", "040000", "tree", content) in tree }

  /** The reserved layout is the marker alone, or with one directory, one manifest and one signature in it, and nothing else. */
  lemma {:induction false} LayoutIsReserved(t: Trust, tree: seq<Entry>)
    ensures Layout(t, tree) <==>
              && HasMarker(t, tree)
              && (|tree| == 1 || (|tree| == 4 && HasDirectory(tree) && HasFile(tree, "next/manifest.json") && HasFile(tree, "next/manifest.json.sig")))
  {
    hide GoodEntry;
    if Layout(t, tree) {
      AsManyPaths(tree);
      ReservedHas(t, tree);
    }
    if HasMarker(t, tree) && |tree| == 1 {
      AloneIsLayout(t, tree);
    }
    if HasMarker(t, tree) && |tree| == 4 && HasDirectory(tree) && HasFile(tree, MANIFEST) && HasFile(tree, SIGNATURE) {
      FourAreLayout(t, tree);
    }
    hide Layout, HasMarker, HasFile, HasDirectory;
  }

  lemma {:induction false} AsManyPaths(tree: seq<Entry>)
    requires forall i, j | 0 <= i < j < |tree| :: tree[i].path != tree[j].path
    ensures |PathsOf(tree)| == |tree|
  {
    if tree != [] {
      var n := |tree| - 1;
      AsManyPaths(tree[..n]);
      assert PathsOf(tree) == PathsOf(tree[..n]) + {tree[n].path};
    }
  }

  lemma {:induction false} FourPaths()
    ensures |AllPaths()| == 4 && OWNERSHIP != DIRECTORY && OWNERSHIP != MANIFEST && OWNERSHIP != SIGNATURE
    ensures DIRECTORY != MANIFEST && DIRECTORY != SIGNATURE && MANIFEST != SIGNATURE
  {
    assert |OWNERSHIP| == 26 && |DIRECTORY| == 4 && |MANIFEST| == 18 && |SIGNATURE| == 22;
  }

  lemma {:induction false} ReservedHas(t: Trust, tree: seq<Entry>)
    requires Layout(t, tree) && |PathsOf(tree)| == |tree|
    ensures HasMarker(t, tree)
    ensures |tree| == 1 || (|tree| == 4 && HasDirectory(tree) && HasFile(tree, MANIFEST) && HasFile(tree, SIGNATURE))
  {
    hide GoodEntry, Content, PathsOf, HasMarker, HasFile, HasDirectory;
    FourPaths();
    MarkerOf(t, tree);
    if PathsOf(tree) == AllPaths() {
      EntryOf(tree, DIRECTORY);
      EntryOf(tree, MANIFEST);
      EntryOf(tree, SIGNATURE);
    }
  }

  lemma {:induction false} MarkerOf(t: Trust, tree: seq<Entry>)
    requires (forall i | 0 <= i < |tree| :: GoodEntry(tree[i])) && (forall i, j | 0 <= i < j < |tree| :: tree[i].path != tree[j].path)
    requires OWNERSHIP in PathsOf(tree) && Content(tree, OWNERSHIP) == Some(t.ownership)
    ensures HasMarker(t, tree)
  {
    FourPaths();
    var i :| 0 <= i < |tree| && tree[i].path == OWNERSHIP;
    ContentAt(tree, OWNERSHIP);
    hide Content, PathsOf, AllPaths;
    assert tree[i] == Entry(OWNERSHIP, "100644", "blob", t.ownership);
  }

  lemma {:induction false} EntryOf(tree: seq<Entry>, path: string)
    requires (forall i | 0 <= i < |tree| :: GoodEntry(tree[i])) && path in PathsOf(tree)
    ensures path != DIRECTORY ==> HasFile(tree, path)
    ensures path == DIRECTORY ==> HasDirectory(tree)
  {
    var i :| 0 <= i < |tree| && tree[i].path == path;
    assert tree[i] == Entry(path, if path == DIRECTORY then "040000" else "100644", if path == DIRECTORY then "tree" else "blob", tree[i].content);
  }

  lemma {:induction false} AloneIsLayout(t: Trust, tree: seq<Entry>)
    requires |tree| == 1 && HasMarker(t, tree)
    ensures Layout(t, tree)
  {
    FourPaths();
    assert PathsOf(tree) == {OWNERSHIP};
  }

  lemma {:induction false} FourAreLayout(t: Trust, tree: seq<Entry>)
    requires |tree| == 4 && HasMarker(t, tree) && HasDirectory(tree) && HasFile(tree, MANIFEST) && HasFile(tree, SIGNATURE)
    ensures Layout(t, tree)
  {
    FourPaths();
    var a :| 0 <= a < 4 && tree[a] == Entry(OWNERSHIP, "100644", "blob", t.ownership);
    var b :| 0 <= b < 4 && tree[b].path == DIRECTORY && tree[b].mode == "040000" && tree[b].kind == "tree";
    var c :| 0 <= c < 4 && tree[c].path == MANIFEST && tree[c].mode == "100644" && tree[c].kind == "blob";
    var d :| 0 <= d < 4 && tree[d].path == SIGNATURE && tree[d].mode == "100644" && tree[d].kind == "blob";
    hide PathsOf, Content, HasMarker, HasFile, HasDirectory;
    FourPlaces(tree, a, b, c, d);
    FourGood(tree, a, b, c, d);
    FourNamed(tree, a, b, c, d);
    hide GoodEntry, AllPaths;
    ContentAt(tree, OWNERSHIP);
  }

  lemma {:induction false} FourPlaces(tree: seq<Entry>, a: nat, b: nat, c: nat, d: nat)
    requires |tree| == 4 && a < 4 && b < 4 && c < 4 && d < 4
    requires tree[a].path == OWNERSHIP && tree[b].path == DIRECTORY && tree[c].path == MANIFEST && tree[d].path == SIGNATURE
    ensures a != b && a != c && a != d && b != c && b != d && c != d
    ensures forall i, j | 0 <= i < j < 4 :: tree[i].path != tree[j].path
  {
    FourPaths();
  }

  lemma {:induction false} FourGood(tree: seq<Entry>, a: nat, b: nat, c: nat, d: nat)
    requires |tree| == 4 && a < 4 && b < 4 && c < 4 && d < 4 && a != b && a != c && a != d && b != c && b != d && c != d
    requires tree[a].path == OWNERSHIP && tree[a].mode == "100644" && tree[a].kind == "blob"
    requires tree[b].path == DIRECTORY && tree[b].mode == "040000" && tree[b].kind == "tree"
    requires tree[c].path == MANIFEST && tree[c].mode == "100644" && tree[c].kind == "blob"
    requires tree[d].path == SIGNATURE && tree[d].mode == "100644" && tree[d].kind == "blob"
    ensures forall i | 0 <= i < 4 :: GoodEntry(tree[i])
  {
    FourPaths();
    forall i | 0 <= i < 4 ensures GoodEntry(tree[i]) {
      assert i == a || i == b || i == c || i == d;
    }
  }

  lemma {:induction false} FourNamed(tree: seq<Entry>, a: nat, b: nat, c: nat, d: nat)
    requires |tree| == 4 && a < 4 && b < 4 && c < 4 && d < 4 && a != b && a != c && a != d && b != c && b != d && c != d
    requires tree[a].path == OWNERSHIP && tree[b].path == DIRECTORY && tree[c].path == MANIFEST && tree[d].path == SIGNATURE
    ensures PathsOf(tree) == AllPaths()
  {
    forall path | path in PathsOf(tree) ensures path in AllPaths() {
      var i :| 0 <= i < 4 && tree[i].path == path;
      assert i == a || i == b || i == c || i == d;
    }
    assert AllPaths() <= PathsOf(tree);
  }

  // ----- Bytes and padding

  function CharBytes(c: char): nat {
    if c < '\U{80}' then 1 else if c < '\U{800}' then 2 else if c < '\U{10000}' then 3 else 4
  }

  /** The bits of a character that fit a sequence of so many bytes (RFC 3629, section 3). */
  function Bits(bytes: nat): nat { if bytes == 1 then 7 else if bytes == 2 then 11 else if bytes == 3 then 16 else 21 }

  function TwoTo(n: nat): nat { if n == 0 then 1 else 2 * TwoTo(n - 1) }

  /** A character takes the fewest bytes that its bits fit. */
  lemma {:induction false} FewestBytes(c: char)
    ensures 1 <= CharBytes(c) <= 4 && c as int < TwoTo(Bits(CharBytes(c)))
    ensures forall n | 1 <= n < CharBytes(c) :: TwoTo(Bits(n)) <= c as int
  {
    assert TwoTo(7) == 128 && TwoTo(11) == 16 * TwoTo(7) && TwoTo(16) == 32 * TwoTo(11) && TwoTo(21) == 32 * TwoTo(16);
  }

  /** How many bytes UTF-8 takes for a text. */
  function ByteLength(s: string): nat { if s == "" then 0 else CharBytes(s[0]) + ByteLength(s[1..]) }

  lemma {:induction false} ByteLengthConcat(a: string, b: string)
    ensures ByteLength(a + b) == ByteLength(a) + ByteLength(b)
  {
    if a == "" {
      assert a + b == b;
    } else {
      assert (a + b)[1..] == a[1..] + b;
      ByteLengthConcat(a[1..], b);
    }
  }

  lemma {:induction false} UniformBytes(s: string, c: char)
    requires forall x | x in s :: x == c
    ensures ByteLength(s) == |s| * CharBytes(c)
  {
    if s != "" {
      assert forall x | x in s[1..] :: x in s;
      UniformBytes(s[1..], c);
      assert s[0] in s;
      assert |s| * CharBytes(c) == (|s| - 1) * CharBytes(c) + CharBytes(c);
    }
  }

  /** What a trimmed signature has to look like. */
  predicate Armored(s: string) {
    && |s| == 88 && s[86..] == "=="
    && forall i | 0 <= i < 86 :: 'A' <= s[i] <= 'Z' || 'a' <= s[i] <= 'z' || '0' <= s[i] <= '9' || s[i] == '+' || s[i] == '/'
  }

  /** `authenticatedMetadata`: the signature is trimmed before it is checked. */
  function Authenticated(t: Trust, manifest: string, signature: string): Option<SemVer> {
    var trimmed := SourceText.Trim(signature);
    if ByteLength(manifest) > MANIFEST_LIMIT || !Armored(trimmed) then None else t.verify(manifest, trimmed)
  }

  lemma {:induction false} PaddedIsAuthentic(t: Trust, manifest: string, signature: string, padding: string)
    requires SourceText.IsPadding(padding)
    ensures Authenticated(t, manifest, signature + padding) == Authenticated(t, manifest, signature)
  {
    SourceText.PaddingIsTrimmed(signature, padding);
  }

  predicate IsBase64(c: char) { 'A' <= c <= 'Z' || 'a' <= c <= 'z' || '0' <= c <= '9' || c == '+' || c == '/' }

  lemma {:induction false} ArmoredIsTight(core: string)
    requires |core| == 88 && core[86..] == "==" && forall c | c in core[..86] :: IsBase64(c)
    ensures Armored(core) && SourceText.Trim(core) == core
  {
    assert core[..86][0] == core[0] && core[86..][1] == core[87];
    forall i | 0 <= i < 86 ensures IsBase64(core[i]) {
      assert core[..86][i] == core[i];
    }
    hide Armored;
    EndsTight(core);
  }

  lemma {:induction false} EndsTight(s: string)
    requires s != "" && !SourceText.IsSpace(s[0]) && !SourceText.IsSpace(s[|s| - 1])
    ensures SourceText.Trim(s) == s
  {
  }

  /** Metadata are authentic exactly if the manifest has at most a megabyte and the signature, white space around it aside, is 86
      base64 characters and two equals signs that verify. */
  lemma {:induction false} AuthenticIfVerified(t: Trust, manifest: string, signature: string, v: SemVer)
    ensures Authenticated(t, manifest, signature) == Some(v) <==>
              && ByteLength(manifest) <= 1048576
              && exists before, core, after ::
                   && SourceText.IsPadding(before) && SourceText.IsPadding(after) && signature == before + core + after
                   && |core| == 88 && core[86..] == "==" && (forall c | c in core[..86] :: IsBase64(c))
                   && t.verify(manifest, core) == Some(v)
  {
    hide SourceText.IsPadding, SourceText.Trim, ByteLength, IsBase64;
    forall before, core, after |
      && SourceText.IsPadding(before) && SourceText.IsPadding(after) && signature == before + core + after
      && |core| == 88 && core[86..] == "==" && forall c | c in core[..86] :: IsBase64(c)
      ensures SourceText.Trim(signature) == core && Armored(core)
    {
      SourceText.BothTrimmed(before, core, after);
      ArmoredIsTight(core);
    }
    hide Armored;
    if Authenticated(t, manifest, signature) == Some(v) {
      var before, after := SourceText.TrimmedOffBoth(signature);
      ArmoredChars(SourceText.Trim(signature));
    }
  }

  lemma {:induction false} ArmoredChars(s: string)
    requires Armored(s)
    ensures |s| == 88 && s[86..] == "==" && forall c | c in s[..86] :: IsBase64(c)
  {
  }

  /** The version a commit carries. */
  function VersionOf(t: Trust, c: Commit): Option<SemVer> {
    match (Content(c.tree, MANIFEST), Content(c.tree, SIGNATURE))
    case (Some(manifest), Some(signature)) => Authenticated(t, manifest, signature)
    case _ => None
  }

  /** A map holds the first entries of a tree by their paths, which are all different. */
  ghost predicate Holds(entries: map<string, Entry>, tree: seq<Entry>, n: nat)
    requires n <= |tree|
  {
    && (forall k | 0 <= k < n :: GoodEntry(tree[k]) && tree[k].path in entries && entries[tree[k].path] == tree[k])
    && (forall j, k | 0 <= j < k < n :: tree[j].path != tree[k].path)
    && (forall path | path in entries :: exists k | 0 <= k < n :: tree[k].path == path)
  }

  ghost predicate Same(entries: map<string, Entry>, tree: seq<Entry>) { forall path :: SameAt(entries, tree, path) }

  predicate SameAt(entries: map<string, Entry>, tree: seq<Entry>, path: string) {
    && (path in entries <==> Content(tree, path).Some?)
    && (path in entries ==> Content(tree, path) == Some(entries[path].content))
  }

  /** `ownedBranch` on the tree of the head: its map of entries, if the layout is the reserved one. */
  method OwnedBranch(t: Trust, tree: seq<Entry>) returns (r: Option<map<string, Entry>>)
    ensures r.Some? <==> Layout(t, tree) && ByteLength(t.ownership) <= OWNERSHIP_LIMIT
    ensures r.Some? ==> Same(r.value, tree)
  {
    hide Layout, GoodEntry, Same, AllPaths, PathsOf, Content;
    var entries: map<string, Entry> := map[];
    for i := 0 to |tree|
      invariant Holds(entries, tree, i)
    {
      if tree[i].path in entries || !GoodEntry(tree[i]) {
        NoLayout(t, tree, i);
        return None;
      }
      HoldsOneMore(entries, tree, i);
      entries := entries[tree[i].path := tree[i]];
    }
    hide Holds;
    HoldsContents(entries, tree);
    if OWNERSHIP !in entries {
      NoMarker(t, tree, entries);
      return None;
    }
    if |entries| != 1 && (DIRECTORY !in entries || MANIFEST !in entries || SIGNATURE !in entries || |entries| != 4) {
      WrongFiles(t, tree, entries);
      return None;
    }
    RightFiles(t, tree, entries);
    if ByteLength(entries[OWNERSHIP].content) > OWNERSHIP_LIMIT || entries[OWNERSHIP].content != t.ownership {
      return None;
    }
    r := Some(entries);
  }

  lemma {:induction false} HoldsOneMore(entries: map<string, Entry>, tree: seq<Entry>, i: nat)
    requires i < |tree| && Holds(entries, tree, i) && tree[i].path !in entries && GoodEntry(tree[i])
    ensures Holds(entries[tree[i].path := tree[i]], tree, i + 1)
  {
    hide GoodEntry;
    var more := entries[tree[i].path := tree[i]];
    forall path | path in more
      ensures exists k | 0 <= k < i + 1 :: tree[k].path == path
    {
      if path == tree[i].path {
      } else {
        var k :| 0 <= k < i && tree[k].path == path;
      }
    }
  }

  lemma {:induction false} NoLayout(t: Trust, tree: seq<Entry>, i: nat)
    requires i < |tree| && (!GoodEntry(tree[i]) || exists k | 0 <= k < i :: tree[k].path == tree[i].path)
    ensures !Layout(t, tree)
  {
    hide GoodEntry, PathsOf, Content;
  }

  lemma {:induction false} HoldsContents(entries: map<string, Entry>, tree: seq<Entry>)
    requires Holds(entries, tree, |tree|)
    ensures Same(entries, tree) && entries.Keys == PathsOf(tree)
    ensures forall i | 0 <= i < |tree| :: GoodEntry(tree[i])
    ensures forall i, j | 0 <= i < j < |tree| :: tree[i].path != tree[j].path
  {
    hide GoodEntry, Content, SameAt;
    assert entries.Keys == PathsOf(tree);
    forall path
      ensures SameAt(entries, tree, path)
    {
      HoldsContent(entries, tree, path);
    }
  }

  lemma {:induction false} HoldsContent(entries: map<string, Entry>, tree: seq<Entry>, path: string)
    requires Holds(entries, tree, |tree|)
    ensures SameAt(entries, tree, path)
  {
    hide GoodEntry, Content;
    assert entries.Keys == PathsOf(tree);
    ContentAt(tree, path);
    if path in entries {
      var k :| 0 <= k < |tree| && tree[k].path == path;
    }
  }

  lemma {:induction false} NoMarker(t: Trust, tree: seq<Entry>, entries: map<string, Entry>)
    requires entries.Keys == PathsOf(tree) && OWNERSHIP !in entries
    ensures !Layout(t, tree)
  {
    hide GoodEntry, Content;
  }

  lemma {:induction false} WrongFiles(t: Trust, tree: seq<Entry>, entries: map<string, Entry>)
    requires entries.Keys == PathsOf(tree) && |entries| != 1
    requires DIRECTORY !in entries || MANIFEST !in entries || SIGNATURE !in entries || |entries| != 4
    ensures !Layout(t, tree)
  {
    hide GoodEntry, Content, PathsOf;
    assert |entries| == |entries.Keys|;
    FourKeys(entries.Keys);
  }

  lemma {:induction false} RightFiles(t: Trust, tree: seq<Entry>, entries: map<string, Entry>)
    requires entries.Keys == PathsOf(tree) && Same(entries, tree) && OWNERSHIP in entries
    requires |entries| == 1 || (DIRECTORY in entries && MANIFEST in entries && SIGNATURE in entries)
    requires forall i | 0 <= i < |tree| :: GoodEntry(tree[i])
    requires forall i, j | 0 <= i < j < |tree| :: tree[i].path != tree[j].path
    ensures Layout(t, tree) <==> entries[OWNERSHIP].content == t.ownership
  {
    hide Content, GoodEntry;
    assert |entries| == |entries.Keys|;
    assert SameAt(entries, tree, OWNERSHIP);
    PathsAreKnown(tree);
    if |entries| == 1 {
      OneKey(entries.Keys, OWNERSHIP);
    } else {
      assert PathsOf(tree) == AllPaths();
    }
  }

  lemma {:induction false} PathsAreKnown(tree: seq<Entry>)
    requires forall i | 0 <= i < |tree| :: GoodEntry(tree[i])
    ensures PathsOf(tree) <= AllPaths()
  {
    hide AllPaths;
  }

  lemma {:induction false} OneKey(keys: set<string>, key: string)
    requires key in keys && |keys| == 1
    ensures keys == {key}
  {
    assert |keys - {key}| == 0;
  }

  lemma {:induction false} FourKeys(keys: set<string>)
    requires |keys| != 1
    ensures keys != {OWNERSHIP}
    ensures keys == AllPaths() ==> |keys| == 4
  {
    assert OWNERSHIP != DIRECTORY && |MANIFEST| != |SIGNATURE| && |OWNERSHIP| != |MANIFEST| && |OWNERSHIP| != |SIGNATURE|;
  }

  // ----- What the remote holds

  /** Every commit has the reserved layout, and a version follows its one parent's, if that carries one. */
  predicate GoodCommit(t: Trust, commits: seq<Commit>, i: nat)
    requires i < |commits|
  {
    var c := commits[i];
    && Layout(t, c.tree)
    && if Content(c.tree, MANIFEST).None? then c.parents == []
       else
         && |c.parents| == 1 && c.parents[0] < i && VersionOf(t, c).Some?
         && Follows(t, commits[c.parents[0]], VersionOf(t, c).value)
  }

  /** A commit carries no manifest, or an older version. */
  predicate Follows(t: Trust, parent: Commit, v: SemVer) {
    Content(parent.tree, MANIFEST).Some? ==> VersionOf(t, parent).Some? && Order(VersionOf(t, parent).value, v) < 0
  }

  predicate Good(t: Trust, r: Remote) {
    && (forall i | 0 <= i < |r.commits| :: GoodCommit(t, r.commits, i))
    && (r.head.Some? ==> r.head.value < |r.commits|)
  }

  predicate Linear(commits: seq<Commit>) {
    forall i | 0 <= i < |commits| :: commits[i].parents == [] || (|commits[i].parents| == 1 && commits[i].parents[0] < i)
  }

  lemma {:induction false} GoodIsLinear(t: Trust, r: Remote)
    requires Good(t, r)
    ensures Linear(r.commits)
  {
    hide Layout, VersionOf, Content, Follows;
    var commits := r.commits;
    forall i | 0 <= i < |commits|
      ensures commits[i].parents == [] || (|commits[i].parents| == 1 && commits[i].parents[0] < i)
    {
      assert GoodCommit(t, commits, i);
    }
  }

  /** The commits that lead to one, the oldest first. */
  function History(commits: seq<Commit>, sha: Sha): seq<Sha>
    requires Linear(commits) && sha < |commits|
  {
    (if commits[sha].parents == [] then [] else History(commits, commits[sha].parents[0])) + [sha]
  }

  /** A commit is another one or reached from it through parents. */
  predicate Reaches(commits: seq<Commit>, sha: Sha, older: Sha)
    requires Linear(commits) && sha < |commits|
  {
    sha == older || exists p | p in commits[sha].parents :: Reaches(commits, p, older)
  }

  /** In a linear store reaching is having as a prefix of one's history. */
  lemma {:induction false} ReachesIsPrefix(commits: seq<Commit>, sha: Sha, older: Sha)
    requires Linear(commits) && sha < |commits| && older < |commits|
    ensures Reaches(commits, sha, older) <==> History(commits, older) <= History(commits, sha)
    decreases sha
  {
    var h, o := History(commits, sha), History(commits, older);
    assert o[|o| - 1] == older && h[|h| - 1] == sha;
    if commits[sha].parents != [] {
      var p := commits[sha].parents[0];
      ReachesIsPrefix(commits, p, older);
      assert h == History(commits, p) + [sha];
    }
  }

  /** The histories of a store with more commits are the same. */
  lemma {:induction false} HistoryStays(commits: seq<Commit>, more: seq<Commit>, sha: Sha)
    requires Linear(commits) && Linear(more) && commits <= more && sha < |commits|
    ensures History(more, sha) == History(commits, sha)
    decreases sha
  {
    if commits[sha].parents != [] {
      HistoryStays(commits, more, commits[sha].parents[0]);
    }
  }

  /** A branch is the marker alone and then versions that increase from each commit to every later one. */
  ghost predicate Increasing(t: Trust, commits: seq<Commit>, h: seq<Sha>) {
    && h != [] && (forall k | 0 <= k < |h| :: h[k] < |commits|)
    && Content(commits[h[0]].tree, MANIFEST).None?
    && (forall k | 0 < k < |h| :: VersionOf(t, commits[h[k]]).Some?)
    && (forall j, k | 0 < j < k < |h| :: Order(VersionOf(t, commits[h[j]]).value, VersionOf(t, commits[h[k]]).value) < 0)
  }

  lemma {:induction false} VersionsIncrease(t: Trust, r: Remote, sha: Sha)
    requires Good(t, r) && sha < |r.commits| && Linear(r.commits)
    ensures Increasing(t, r.commits, History(r.commits, sha))
    decreases sha
  {
    hide Layout, Content, Order;
    assert GoodCommit(t, r.commits, sha);
    if r.commits[sha].parents != [] {
      var p := r.commits[sha].parents[0];
      var h := History(r.commits, p);
      VersionsIncrease(t, r, p);
      assert h[|h| - 1] == p;
      forall j | 0 < j < |h|
        ensures Order(VersionOf(t, r.commits[h[j]]).value, VersionOf(t, r.commits[sha]).value) < 0
      {
        VersionNeedsManifest(t, r.commits[p]);
        if j < |h| - 1 {
          StrictlyBelow(VersionOf(t, r.commits[h[j]]).value, VersionOf(t, r.commits[p]).value, VersionOf(t, r.commits[sha]).value);
        }
      }
      assert History(r.commits, sha) == h + [sha];
    }
  }

  lemma {:induction false} VersionNeedsManifest(t: Trust, c: Commit)
    ensures VersionOf(t, c).Some? ==> Content(c.tree, MANIFEST).Some?
  {
  }

  // ----- Runs

  /** What one request of any publisher may change: a commit is added, or the branch is created or moved forward. */
  ghost predicate Next(t: Trust, a: Remote, b: Remote) {
    && Good(t, b) && a.commits <= b.commits
    && (b.head != a.head ==>
          && b.commits == a.commits && b.head.Some? && Linear(b.commits)
          && (a.head.Some? ==> a.head.value < |b.commits| && Reaches(b.commits, b.head.value, a.head.value)))
  }

  ghost predicate Run(t: Trust, states: seq<Remote>) {
    && states != [] && Good(t, states[0])
    && forall k | 0 <= k < |states| - 1 :: Next(t, states[k], states[k + 1])
  }

  /** What was published stays: the history of an earlier head begins that of every later one. */
  ghost predicate Kept(a: Remote, b: Remote) {
    && Linear(a.commits) && Linear(b.commits) && a.commits <= b.commits
    && (a.head.Some? ==>
          && a.head.value < |a.commits| && b.head.Some? && b.head.value < |b.commits|
          && History(a.commits, a.head.value) <= History(b.commits, b.head.value))
  }

  lemma {:induction false} NextKeeps(t: Trust, a: Remote, b: Remote)
    requires Good(t, a) && Next(t, a, b)
    ensures Kept(a, b)
  {
    GoodIsLinear(t, a);
    GoodIsLinear(t, b);
    hide GoodCommit;
    if a.head.Some? {
      HistoryStays(a.commits, b.commits, a.head.value);
      if b.head != a.head {
        ReachesIsPrefix(b.commits, b.head.value, a.head.value);
      }
    }
  }

  lemma {:induction false} RunKeeps(t: Trust, states: seq<Remote>)
    requires Run(t, states)
    ensures Good(t, states[|states| - 1]) && Kept(states[0], states[|states| - 1])
    decreases |states|
  {
    var n := |states|;
    if n == 1 {
      GoodIsLinear(t, states[0]);
    } else {
      var earlier := states[..n - 1];
      assert Run(t, earlier) by {
        forall k | 0 <= k < n - 2
          ensures Next(t, earlier[k], earlier[k + 1])
        {
          assert Next(t, states[k], states[k + 1]);
        }
      }
      RunKeeps(t, earlier);
      assert Next(t, states[n - 2], states[n - 2 + 1]);
      NextKeeps(t, states[n - 2], states[n - 1]);
    }
  }

  /** A commit made on a head moves the branch exactly when no other publisher moved it since. */
  lemma {:induction false} MovesOnlyUndisturbed(t: Trust, states: seq<Remote>, sha: Sha)
    requires Run(t, states) && states[0].head.Some?
    requires var last := states[|states| - 1]; sha < |last.commits| && last.commits[sha].parents == [states[0].head.value]
    ensures var last := states[|states| - 1];
            && Linear(last.commits) && last.head.Some? && last.head.value < |last.commits|
            && (Reaches(last.commits, sha, last.head.value) <==> last.head.value in {states[0].head.value, sha})
  {
    var first, last := states[0], states[|states| - 1];
    RunKeeps(t, states);
    var base, head := first.head.value, last.head.value;
    HistoryStays(first.commits, last.commits, base);
    ReachesIsPrefix(last.commits, sha, head);
    var h := History(last.commits, head);
    assert History(last.commits, sha) == History(last.commits, base) + [sha];
    if Reaches(last.commits, sha, head) {
      if |h| == |History(last.commits, base)| {
        assert h[|h| - 1] == History(last.commits, base)[|h| - 1];
      } else {
        assert h[|h| - 1] == History(last.commits, sha)[|h| - 1];
      }
    }
  }

  // ----- The publishers' requests

  datatype Preparation = Broken | Unchanged | Created(sha: Sha)

  /** The head's published metadata can be read within the limits of `readBlob`, and is authentic. */
  predicate Readable(t: Trust, tree: seq<Entry>) {
    match (Content(tree, MANIFEST), Content(tree, SIGNATURE))
    case (Some(manifest), Some(signature)) =>
      ByteLength(manifest) <= MANIFEST_LIMIT && ByteLength(signature) <= SIGNATURE_LIMIT && Authenticated(t, manifest, signature).Some?
    case _ => true
  }

  class Channel {
    const trust: Trust
    var commits: seq<Commit>
    var head: Option<Sha>

    function Now(): Remote
      reads this
    {
      Remote(commits, head)
    }

    constructor (trust: Trust)
      ensures this.trust == trust && Now() == Remote([], None) && Good(trust, Now())
    {
      this.trust, commits, head := trust, [], None;
    }

    /** `createCommit`. The same content may name a commit that is there already. */
    method CreateCommit(tree: seq<Entry>, parents: seq<Sha>, known: Option<Sha>) returns (sha: Sha)
      requires Good(trust, Now()) && GoodCommit(trust, commits + [Commit(tree, parents)], |commits|)
      modifies this
      ensures Good(trust, Now()) && Next(trust, old(Now()), Now()) && head == old(head)
      ensures sha < |commits| && commits[sha] == Commit(tree, parents)
    {
      if known.Some? && known.value < |commits| && commits[known.value] == Commit(tree, parents) {
        return known.value;
      }
      AddedIsGood(trust, Now(), Commit(tree, parents));
      sha := |commits|;
      commits := commits + [Commit(tree, parents)];
    }

    /** `bootstrapUpdateChannel` until it has its commit. */
    method Reserve(known: Option<Sha>) returns (r: Preparation)
      requires Good(trust, Now())
      modifies this
      ensures Good(trust, Now()) && Next(trust, old(Now()), Now()) && head == old(head)
      ensures r == Broken <==> head.Some?
      ensures r != Unchanged
      ensures r.Created? ==> r.sha < |commits| && commits[r.sha] == Commit(MarkerTree(trust), [])
    {
      if head.Some? {
        return Broken;
      }
      MarkerIsGood(trust, commits);
      var sha := CreateCommit(MarkerTree(trust), [], known);
      r := Created(sha);
    }

    /** Creating a reference, which the remote refuses when there is one. */
    method CreateRef(sha: Sha) returns (done: bool)
      requires Good(trust, Now()) && sha < |commits|
      modifies this
      ensures Good(trust, Now()) && Next(trust, old(Now()), Now())
      ensures done <==> old(head).None?
      ensures Now() == old(Now()).(head := if done then Some(sha) else old(head))
    {
      GoodIsLinear(trust, Now());
      done := head.None?;
      if done {
        head := Some(sha);
      }
    }

    /** `publishUpdateChannel` until it has its commit. */
    method Prepare(manifest: string, signature: string, known: Option<Sha>) returns (r: Preparation)
      requires Good(trust, Now())
      modifies this
      ensures Good(trust, Now()) && Next(trust, old(Now()), Now()) && head == old(head)
      ensures r == Broken <==>
                || head.None? || ByteLength(trust.ownership) > OWNERSHIP_LIMIT || Authenticated(trust, manifest, signature).None?
                || !Readable(trust, old(commits)[head.value].tree)
      ensures r != Broken ==>
                var next, base := Authenticated(trust, manifest, signature).value, old(commits)[head.value];
                r == Unchanged <==> VersionOf(trust, base).Some? && Order(next, VersionOf(trust, base).value) <= 0
      ensures r.Created? ==> r.sha < |commits| && commits[r.sha] == Commit(FullTree(trust, manifest, signature), [head.value])
    {
      hide Layout, Content, VersionOf, Good, GoodCommit, Follows, Authenticated, Order, FullTree, Next, AllPaths, Readable, Same, SameAt;
      NothingHappens(trust, Now());
      if head.None? {
        return Broken;
      }
      HeadIsThere(trust, Now());
      var base := commits[head.value];
      var owned := OwnedBranch(trust, base.tree);
      if owned.None? {
        HeadIsOwned(trust, Now());
        return Broken;
      }
      var entries := owned.value;
      var next := Authenticated(trust, manifest, signature);
      if next.None? {
        return Broken;
      }
      if MANIFEST in entries {
        CarriedVersion(trust, base, entries);
        if ByteLength(entries[MANIFEST].content) > MANIFEST_LIMIT || ByteLength(entries[SIGNATURE].content) > SIGNATURE_LIMIT {
          return Broken;
        }
        var current := Authenticated(trust, entries[MANIFEST].content, entries[SIGNATURE].content);
        if current.None? {
          return Broken;
        }
        var order := CompareVersions(next.value, current.value);
        if order <= 0 {
          return Unchanged;
        }
      } else {
        NoVersion(trust, base, entries);
      }
      NewerFollows(trust, base, next.value);
      FullIsGood(trust, commits, head.value, manifest, signature);
      var sha := CreateCommit(FullTree(trust, manifest, signature), [head.value], known);
      r := Created(sha);
    }

    /** Moving the branch without force, which the remote refuses unless it moves forward. */
    method MoveRef(sha: Sha) returns (done: bool)
      requires Good(trust, Now()) && sha < |commits|
      modifies this
      ensures Good(trust, Now()) && Next(trust, old(Now()), Now())
      ensures Linear(commits)
      ensures done <==> old(head).Some? && Reaches(commits, sha, old(head).value)
      ensures Now() == old(Now()).(head := if done then Some(sha) else old(head))
    {
      GoodIsLinear(trust, Now());
      done := head.Some? && Reaches(commits, sha, head.value);
      if done {
        head := Some(sha);
      }
    }
  }

  lemma {:induction false} AddedIsGood(t: Trust, r: Remote, c: Commit)
    requires Good(t, r) && GoodCommit(t, r.commits + [c], |r.commits|)
    ensures Good(t, r.(commits := r.commits + [c]))
  {
    hide Layout, Content, VersionOf, Follows;
    var more := r.commits + [c];
    forall i | 0 <= i < |more|
      ensures GoodCommit(t, more, i)
    {
      if i < |r.commits| {
        assert GoodCommit(t, r.commits, i);
      }
    }
  }

  lemma {:induction false} MarkerIsGood(t: Trust, commits: seq<Commit>)
    ensures GoodCommit(t, commits + [Commit(MarkerTree(t), [])], |commits|)
  {
    MarkerContents(t);
    hide Layout, Content;
  }

  lemma {:induction false} MarkerContents(t: Trust)
    ensures Layout(t, MarkerTree(t)) && Content(MarkerTree(t), MANIFEST).None?
  {
    var tree := MarkerTree(t);
    ContentAt(tree, MANIFEST);
    ContentAt(tree, OWNERSHIP);
    hide Content;
    assert tree[0].path in PathsOf(tree);
    assert PathsOf(tree) == {OWNERSHIP};
    assert |OWNERSHIP| != |MANIFEST| && OWNERSHIP[0] != DIRECTORY[0];
  }

  lemma {:induction false} FullContents(t: Trust, manifest: string, signature: string)
    ensures Layout(t, FullTree(t, manifest, signature))
    ensures Content(FullTree(t, manifest, signature), MANIFEST) == Some(manifest)
    ensures Content(FullTree(t, manifest, signature), SIGNATURE) == Some(signature)
  {
    var tree := FullTree(t, manifest, signature);
    hide Content;
    assert |tree| == 4 && tree[0] == File(OWNERSHIP, t.ownership) && tree[1].path == DIRECTORY;
    assert tree[2] == File(MANIFEST, manifest) && tree[3] == File(SIGNATURE, signature);
    assert |OWNERSHIP| != |MANIFEST| && |OWNERSHIP| != |SIGNATURE| && |MANIFEST| != |SIGNATURE| && OWNERSHIP[0] != DIRECTORY[0];
    assert |DIRECTORY| != |MANIFEST| && |DIRECTORY| != |SIGNATURE|;
    ContentAt(tree, OWNERSHIP);
    ContentAt(tree, MANIFEST);
    ContentAt(tree, SIGNATURE);
    assert {tree[0].path, tree[1].path, tree[2].path, tree[3].path} == AllPaths();
    assert tree[0].path in PathsOf(tree) && tree[1].path in PathsOf(tree) && tree[2].path in PathsOf(tree) && tree[3].path in PathsOf(tree);
    assert PathsOf(tree) == AllPaths();
  }

  /** A manifest of a good layout has its signature beside it. */
  lemma {:induction false} SignedToo(t: Trust, tree: seq<Entry>)
    requires Layout(t, tree) && Content(tree, MANIFEST).Some?
    ensures Content(tree, SIGNATURE).Some?
  {
    hide Content, GoodEntry;
    ContentAt(tree, MANIFEST);
    ContentAt(tree, SIGNATURE);
    assert |OWNERSHIP| != |MANIFEST|;
  }

  lemma {:induction false} CarriedVersion(t: Trust, c: Commit, entries: map<string, Entry>)
    requires Same(entries, c.tree) && MANIFEST in entries && Layout(t, c.tree)
    ensures SIGNATURE in entries && Content(c.tree, MANIFEST).Some?
    ensures VersionOf(t, c) == Authenticated(t, entries[MANIFEST].content, entries[SIGNATURE].content)
    ensures Readable(t, c.tree) <==>
              && ByteLength(entries[MANIFEST].content) <= MANIFEST_LIMIT && ByteLength(entries[SIGNATURE].content) <= SIGNATURE_LIMIT
              && VersionOf(t, c).Some?
  {
    hide Content, Authenticated, Layout;
    assert SameAt(entries, c.tree, MANIFEST) && SameAt(entries, c.tree, SIGNATURE);
    SignedToo(t, c.tree);
  }

  lemma {:induction false} NoVersion(t: Trust, c: Commit, entries: map<string, Entry>)
    requires Same(entries, c.tree) && MANIFEST !in entries
    ensures Content(c.tree, MANIFEST).None? && VersionOf(t, c).None? && Readable(t, c.tree)
  {
    hide Content, Authenticated;
    assert SameAt(entries, c.tree, MANIFEST);
  }

  lemma {:induction false} NewerFollows(t: Trust, base: Commit, next: SemVer)
    requires VersionOf(t, base).Some? ==> Order(next, VersionOf(t, base).value) > 0
    requires Content(base.tree, MANIFEST).Some? ==> VersionOf(t, base).Some?
    ensures Follows(t, base, next)
  {
    hide Order, Content, VersionOf;
    if VersionOf(t, base).Some? {
      OrderReverses(next, VersionOf(t, base).value);
    }
  }

  lemma {:induction false} NothingHappens(t: Trust, r: Remote)
    requires Good(t, r)
    ensures Next(t, r, r)
  {
    hide GoodCommit;
  }

  lemma {:induction false} HeadIsThere(t: Trust, r: Remote)
    requires Good(t, r) && r.head.Some?
    ensures r.head.value < |r.commits|
  {
  }

  /** The layout of the head is always good: only the marker's size can stop a publisher there. */
  lemma {:induction false} HeadIsOwned(t: Trust, r: Remote)
    requires Good(t, r) && r.head.Some? && r.head.value < |r.commits|
    ensures Layout(t, r.commits[r.head.value].tree)
  {
    hide Layout, Follows, VersionOf, Content;
    assert GoodCommit(t, r.commits, r.head.value);
  }

  lemma {:induction false} FullIsGood(t: Trust, commits: seq<Commit>, base: Sha, manifest: string, signature: string)
    requires base < |commits| && Authenticated(t, manifest, signature).Some?
    requires Follows(t, commits[base], Authenticated(t, manifest, signature).value)
    ensures GoodCommit(t, commits + [Commit(FullTree(t, manifest, signature), [base])], |commits|)
  {
    FullContents(t, manifest, signature);
    hide Layout, Content, Follows, FullTree, Authenticated;
  }

  /** What was published can be read by the next publisher just when its signature file, with any padding, is not longer
      than a reader accepts. */
  lemma {:induction false} PublishedIsReadable(t: Trust, manifest: string, signature: string)
    requires Authenticated(t, manifest, signature).Some?
    ensures Readable(t, FullTree(t, manifest, signature)) <==> ByteLength(signature) <= SIGNATURE_LIMIT
  {
    FullContents(t, manifest, signature);
    assert ByteLength(manifest) <= MANIFEST_LIMIT;
    hide Content, FullTree, ByteLength, Authenticated;
  }

  /** The failing case is real: padding that makes a valid signature too long does not keep it from being published, and
      no publisher gets past it, whatever it has to publish. */
  method PaddedSignatureStops(c: Channel, manifest: string, signature: string, padding: string, later: string, laterSignature: string)
    returns (first: Preparation, moved: bool, second: Preparation)
    requires Good(c.trust, c.Now()) && c.head.Some? && ByteLength(c.trust.ownership) <= OWNERSHIP_LIMIT
    requires Readable(c.trust, c.commits[c.head.value].tree) && Authenticated(c.trust, manifest, signature).Some?
    requires var base := VersionOf(c.trust, c.commits[c.head.value]);
             base.Some? ==> Order(Authenticated(c.trust, manifest, signature).value, base.value) > 0
    requires SourceText.IsPadding(padding) && ByteLength(signature) + ByteLength(padding) > SIGNATURE_LIMIT
    modifies c
    ensures first.Created? && moved && second == Broken
  {
    hide Good, Next, Readable, Authenticated, VersionOf, Order, FullTree, ByteLength, SourceText.IsPadding;
    PaddedIsAuthentic(c.trust, manifest, signature, padding);
    ByteLengthConcat(signature, padding);
    PublishedIsReadable(c.trust, manifest, signature + padding);
    first := c.Prepare(manifest, signature + padding, None);
    ParentIsReached(c.trust, c.Now(), first.sha);
    moved := c.MoveRef(first.sha);
    second := c.Prepare(later, laterSignature, None);
  }

  lemma {:induction false} ParentIsReached(t: Trust, r: Remote, sha: Sha)
    requires Good(t, r) && sha < |r.commits| && r.head.Some? && r.commits[sha].parents == [r.head.value]
    ensures Linear(r.commits) && Reaches(r.commits, sha, r.head.value)
  {
    GoodIsLinear(t, r);
    hide GoodCommit;
    assert Reaches(r.commits, r.head.value, r.head.value);
    assert r.head.value in r.commits[sha].parents;
  }

  /** Such a signature need not have many characters: its padding counts three bytes for each ideographic space. */
  lemma {:induction false} PaddingOutgrowsLimit(signature: string, padding: string)
    requires Armored(signature) && padding == seq(500, _ => '\U{3000}')
    ensures SourceText.IsPadding(padding) && |signature + padding| <= SIGNATURE_LIMIT && ByteLength(signature) + ByteLength(padding) > SIGNATURE_LIMIT
  {
    UniformBytes(padding, '\U{3000}');
  }
}
