/** The class `Bundle` of scripts/gen-protocol-schema.ts: naming schemas, splitting unions, and emitting `$defs`
    through a worklist. */
module SchemaBundle {
  import opened Outcomes
  import opened Schemas
  import opened SchemaSplit
  import opened SchemaDocs

  // ----- Growing names keep what documents stand for

  ghost predicate Grows(env: Env, env': Env) {
    && (forall s | s in env.names :: s in env'.names && env'.names[s] == env.names[s])
    && env.asked <= env'.asked
    && env.inlined <= env'.inlined && StaysClosed(env.names, env.inlined, env'.inlined)
  }

  /** A schema that has a name is never written out in place from then on. */
  ghost predicate StaysClosed(names: map<Schema, string>, inlined: set<Schema>, inlined': set<Schema>) {
    forall s | s in inlined' && s !in inlined :: !IsNamed(names, s)
  }

  /** The empty name counts as none where schemas are rendered. */
  predicate IsNamed(names: map<Schema, string>, s: Schema) { s in names && names[s] != "" }

  lemma {:induction false} DenotesGrows(env: Env, env': Env, d: Doc, s: Schema)
    requires Denotes(env, d, s) && Grows(env, env')
    ensures Denotes(env', d, s)
    decreases Weight(s), 3
  {
    if d.Body? {
      BodyGrows(env, env', d, s);
    }
  }

  lemma {:induction false} BodyGrows(env: Env, env': Env, d: Doc, s: Schema)
    requires BodyDenotes(env, d, s) && Grows(env, env')
    ensures BodyDenotes(env', d, s)
    decreases Weight(s), 2
  {
    PropertiesGrow(env, env', d.properties, s.properties, Weight(s));
    AdditionalGrows(env, env', d.additional, s.additional, Weight(s));
    ItemsGrow(env, env', d.items, s.items, Weight(s));
    UnionGrows(env, env', d.oneOf, s.oneOf, Weight(s));
    UnionGrows(env, env', d.anyOf, s.anyOf, Weight(s));
    hide PropertiesDenote, AdditionalDenotes, ItemsDenote, UnionDenotes, Weight, Grows;
  }

  lemma {:induction false} AdditionalGrows(env: Env, env': Env, d: DocAdditional, a: Additional, w: nat)
    requires AdditionalDenotes(env, d, a, w) && Grows(env, env')
    ensures AdditionalDenotes(env', d, a, w)
    decreases w, 0
  {
    if a.Each? {
      DenotesGrows(env, env', d.doc, a.schema);
    }
  }

  lemma {:induction false} ItemsGrow(env: Env, env': Env, d: Option<Doc>, items: Option<Schema>, w: nat)
    requires ItemsDenote(env, d, items, w) && Grows(env, env')
    ensures ItemsDenote(env', d, items, w)
    decreases w, 0
  {
    if items.Some? {
      DenotesGrows(env, env', d.value, items.value);
    }
  }

  lemma {:induction false} PropertiesGrow(env: Env, env': Env, docs: seq<DocProperty>, properties: seq<Property>, w: nat)
    requires PropertiesDenote(env, docs, properties, w) && Grows(env, env')
    ensures PropertiesDenote(env', docs, properties, w)
    decreases w, 0
  {
    forall i | 0 <= i < |properties| ensures Denotes(env', docs[i].doc, properties[i].schema) {
      DenotesGrows(env, env', docs[i].doc, properties[i].schema);
    }
  }

  lemma {:induction false} AllGrow(env: Env, env': Env, docs: seq<Doc>, parts: seq<Schema>, w: nat)
    requires AllDenote(env, docs, parts, w) && Grows(env, env')
    ensures AllDenote(env', docs, parts, w)
    decreases w, 0
  {
    forall i | 0 <= i < |parts| ensures Denotes(env', docs[i], parts[i]) {
      DenotesGrows(env, env', docs[i], parts[i]);
    }
  }

  lemma {:induction false} UnionGrows(env: Env, env': Env, docs: DocBranches, branches: Branches, w: nat)
    requires UnionDenotes(env, docs, branches, w) && Grows(env, env')
    ensures UnionDenotes(env', docs, branches, w)
    decreases w, 1
  {
    if branches.Branches? {
      var groups: seq<seq<Schema>> :| Grouped(branches.list, groups) && TakenApart(env.inlined, branches.list, groups) && AllDenote(env, docs.list, Flatten(groups), w);
      AllGrow(env, env', docs.list, Flatten(groups), w);
    }
  }

  // ----- All schemas that may ever be rendered

  function SchemasOf(properties: seq<Property>): (r: seq<Schema>)
    ensures |r| == |properties| && forall i | 0 <= i < |r| :: r[i] == properties[i].schema
  {
    seq(|properties|, i requires 0 <= i < |properties| => properties[i].schema)
  }

  function CopiesFor(s: Schema, properties: seq<Property>): seq<Schema> {
    if properties == [] then []
    else (if HasTag(s, properties[0].key) then Copies(s, properties[0].key) else []) + CopiesFor(s, properties[1..])
  }

  /** What rendering a schema may lead to directly. */
  function Parts(s: Schema): seq<Schema> {
    SchemasOf(s.properties) + (if s.additional.Each? then [s.additional.schema] else []) + (if s.items.Some? then [s.items.value] else [])
    + (if s.oneOf.Branches? then s.oneOf.list else []) + (if s.anyOf.Branches? then s.anyOf.list else []) + CopiesFor(s, s.properties)
  }

  lemma {:induction false} CopiesAreLighter(s: Schema, properties: seq<Property>)
    ensures forall c | c in CopiesFor(s, properties) :: Weight(c) < Weight(s)
  {
    if properties != [] {
      CopiesAreLighter(s, properties[1..]);
      forall c | c in CopiesFor(s, properties) ensures Weight(c) < Weight(s) {
        if HasTag(s, properties[0].key) && c in Copies(s, properties[0].key) {
          var i :| 0 <= i < |Copies(s, properties[0].key)| && Copies(s, properties[0].key)[i] == c;
          CopyIsLighter(s, properties[0].key, i);
        }
      }
    }
  }

  lemma {:induction false} PartIsLighter(s: Schema, c: Schema)
    requires c in Parts(s)
    ensures Weight(c) < Weight(s)
  {
    CopiesAreLighter(s, s.properties);
    if c !in CopiesFor(s, s.properties) {
      if c in SchemasOf(s.properties) {
        var i :| 0 <= i < |s.properties| && SchemasOf(s.properties)[i] == c;
        assert s.properties[i].schema == c;
      }
      InsideIsLighter(c, s);
    }
  }

  ghost function Reach(s: Schema): set<Schema>
    decreases Weight(s), 1
  {
    {s} + ReachAll(Parts(s), Weight(s))
  }

  ghost function ReachAll(schemas: seq<Schema>, w: nat): set<Schema>
    decreases w, 0, |schemas|
  {
    if schemas == [] then {}
    else (if Weight(schemas[0]) < w then Reach(schemas[0]) else {}) + ReachAll(schemas[1..], w)
  }

  /** Nothing rendered leads out of a closed set. */
  ghost predicate Closed(universe: set<Schema>) {
    forall s | s in universe :: forall c | c in Parts(s) :: c in universe
  }

  lemma {:induction false} ReachAllHas(schemas: seq<Schema>, w: nat, c: Schema)
    requires c in schemas && Weight(c) < w
    ensures Reach(c) <= ReachAll(schemas, w)
  {
    if schemas[0] != c {
      assert c in schemas[1..];
      ReachAllHas(schemas[1..], w, c);
    }
  }

  lemma {:induction false} ReachAllClosed(schemas: seq<Schema>, w: nat)
    ensures Closed(ReachAll(schemas, w))
    decreases w, 0, |schemas|
  {
    if schemas != [] {
      if Weight(schemas[0]) < w {
        ReachClosed(schemas[0]);
      }
      ReachAllClosed(schemas[1..], w);
    }
  }

  lemma {:induction false} ReachClosed(s: Schema)
    ensures Closed(Reach(s)) && s in Reach(s)
    decreases Weight(s), 1
  {
    ReachAllClosed(Parts(s), Weight(s));
    forall c | c in Parts(s) ensures c in Reach(s) {
      PartIsLighter(s, c);
      ReachAllHas(Parts(s), Weight(s), c);
      assert c in Reach(c);
    }
  }

  lemma {:induction false} CopyInParts(s: Schema, properties: seq<Property>, key: string, c: Schema)
    requires HasTag(s, key) && Has(properties, key) && c in Copies(s, key)
    ensures c in CopiesFor(s, properties)
  {
    if properties[0].key != key {
      assert Has(properties[1..], key);
      CopyInParts(s, properties[1..], key, c);
    }
  }

  lemma {:induction false} GroupInUniverse(universe: set<Schema>, branch: Schema, group: seq<Schema>)
    requires Closed(universe) && branch in universe && Group(branch, group)
    ensures forall c | c in group :: c in universe
  {
    if group != [branch] {
      var key: string :| Splits(branch, key) && group == Copies(branch, key);
      forall c | c in group ensures c in universe {
        CopyInParts(branch, branch.properties, key, c);
      }
    }
  }

  // ----- What the bundle keeps

  /** The bundle's tables; `asked` are the names some `$ref` uses, `inlined` the schemas written out in place. */
  datatype State = State(names: map<Schema, string>, used: set<string>, queue: seq<(string, Schema)>, defs: Defs,
                         splits: map<Schema, seq<Schema>>, asked: set<string>, inlined: set<Schema>)

  function EnvOf(st: State): Env { Env(st.names, st.asked, st.inlined) }

  function Queued(queue: seq<(string, Schema)>): set<string> { set q | q in queue :: q.0 }

  function NameOf(st: State, top: Option<Schema>): set<string> {
    if top.Some? && top.value in st.names then {st.names[top.value]} else {}
  }

  /** Names are given once. */
  ghost predicate NamesSound(st: State) {
    && (forall s | s in st.names :: st.names[s] in st.used)
    && (forall s, t | s in st.names && t in st.names && st.names[s] == st.names[t] :: s == t)
    && (forall n | n in st.used :: exists s | s in st.names :: st.names[s] == n)
  }

  /** Each name asked for is defined, queued once, or being defined. */
  ghost predicate QueueSound(st: State, universe: set<Schema>, top: Option<Schema>) {
    && (forall q | q in st.queue :: q.1 in st.names && st.names[q.1] == q.0 && q.1 in universe && q.0 !in st.defs && q.0 !in NameOf(st, top))
    && (forall i, j | 0 <= i < j < |st.queue| :: st.queue[i].0 != st.queue[j].0)
    && st.asked == st.defs.Keys + Queued(st.queue) + NameOf(st, top)
    && st.asked <= st.used
    && (top.Some? ==> top.value in st.names && st.names[top.value] !in st.defs && top.value in universe)
  }

  ghost predicate DefsSound(env: Env, defs: Defs) {
    forall s | s in env.names && env.names[s] in defs :: BodyDenotes(env, defs[env.names[s]], s)
  }

  ghost predicate SplitsSound(splits: map<Schema, seq<Schema>>) {
    forall b | b in splits :: exists key: string :: Splits(b, key) && splits[b] == Copies(b, key)
  }

  ghost predicate Sound(st: State, universe: set<Schema>, top: Option<Schema>) {
    && NamesSound(st) && QueueSound(st, universe, top) && DefsSound(EnvOf(st), st.defs) && SplitsSound(st.splits)
  }

  /** How the tables change while one schema is rendered. */
  ghost predicate Later(st: State, st': State) {
    Grows(EnvOf(st), EnvOf(st')) && st'.defs == st.defs
  }

  lemma {:induction false} LaterTrans(a: State, b: State, c: State)
    requires Later(a, b) && Later(b, c)
    ensures Later(a, c)
  {
  }

  lemma {:induction false} DefsGrow(env: Env, env': Env, defs: Defs)
    requires DefsSound(env, defs) && Grows(env, env')
    requires forall s | s in env'.names && env'.names[s] in defs :: s in env.names
    ensures DefsSound(env', defs)
  {
    forall s | s in env'.names && env'.names[s] in defs ensures BodyDenotes(env', defs[env'.names[s]], s) {
      BodyGrows(env, env', defs[env.names[s]], s);
    }
  }

  function WithName(st: State, s: Schema, name: string): State {
    st.(names := st.names[s := name], used := st.used + {name})
  }

  lemma {:induction false} NameSound(st: State, universe: set<Schema>, top: Option<Schema>, s: Schema, name: string)
    requires Sound(st, universe, top) && s !in st.names && name !in st.used
    ensures Sound(WithName(st, s, name), universe, top) && Later(st, WithName(st, s, name))
  {
    hide NamesSound, QueueSound, DefsSound, SplitsSound, Grows;
    AskedAreUsed(st, universe, top);
    NamesGrow(st, s, name);
    QueueStays(st, universe, top, s, name);
    NamedDefs(st, s, name);
  }

  lemma {:induction false} AskedAreUsed(st: State, universe: set<Schema>, top: Option<Schema>)
    requires QueueSound(st, universe, top)
    ensures st.asked <= st.used && st.defs.Keys <= st.asked
  {
    hide Queued, NameOf;
  }

  lemma {:induction false} NamesGrow(st: State, s: Schema, name: string)
    requires NamesSound(st) && s !in st.names && name !in st.used
    ensures NamesSound(WithName(st, s, name))
  {
    var st' := WithName(st, s, name);
    forall n | n in st'.used ensures exists t | t in st'.names :: st'.names[t] == n {
      if n == name {
        assert s in st'.names;
      } else {
        var t :| t in st.names && st.names[t] == n;
        assert t in st'.names;
      }
    }
  }

  lemma {:induction false} QueueStays(st: State, universe: set<Schema>, top: Option<Schema>, s: Schema, name: string)
    requires QueueSound(st, universe, top) && s !in st.names
    ensures QueueSound(WithName(st, s, name), universe, top)
  {
    assert NameOf(WithName(st, s, name), top) == NameOf(st, top);
    hide Queued, NameOf;
  }

  lemma {:induction false} NamedDefs(st: State, s: Schema, name: string)
    requires NamesSound(st) && DefsSound(EnvOf(st), st.defs) && s !in st.names && name !in st.used && st.asked <= st.used && st.defs.Keys <= st.asked
    ensures DefsSound(EnvOf(WithName(st, s, name)), st.defs) && Grows(EnvOf(st), EnvOf(WithName(st, s, name)))
  {
    DefsGrow(EnvOf(st), EnvOf(WithName(st, s, name)), st.defs);
    hide DefsSound, NamesSound;
  }

  function Pushed(st: State, s: Schema, name: string): State {
    st.(queue := st.queue + [(name, s)], asked := st.asked + {name})
  }

  lemma {:induction false} PushSound(st: State, universe: set<Schema>, top: Option<Schema>, s: Schema)
    requires Sound(st, universe, top) && s in st.names && s in universe && top != Some(s)
    requires st.names[s] !in st.defs && st.names[s] !in Queued(st.queue)
    ensures Sound(Pushed(st, s, st.names[s]), universe, top) && Later(st, Pushed(st, s, st.names[s]))
  {
    hide NamesSound, QueueSound, DefsSound, SplitsSound, Grows, Queued;
    PushedQueue(st, universe, top, s);
    PushedEnv(st, s);
  }

  lemma {:induction false} PushedEnv(st: State, s: Schema)
    requires s in st.names && DefsSound(EnvOf(st), st.defs) && NamesSound(st)
    ensures var st' := Pushed(st, s, st.names[s]);
            DefsSound(EnvOf(st'), st.defs) && Grows(EnvOf(st), EnvOf(st')) && NamesSound(st')
  {
    DefsGrow(EnvOf(st), EnvOf(Pushed(st, s, st.names[s])), st.defs);
    hide DefsSound;
  }

  lemma {:induction false} PushedQueue(st: State, universe: set<Schema>, top: Option<Schema>, s: Schema)
    requires QueueSound(st, universe, top) && NamesSound(st) && s in st.names && s in universe && top != Some(s)
    requires st.names[s] !in st.defs && st.names[s] !in Queued(st.queue)
    ensures QueueSound(Pushed(st, s, st.names[s]), universe, top)
  {
    QueuedMore(st.queue, (st.names[s], s));
    hide Queued;
  }

  lemma {:induction false} QueuedMore(queue: seq<(string, Schema)>, q: (string, Schema))
    ensures Queued(queue + [q]) == Queued(queue) + {q.0}
    ensures forall i | 0 <= i < |queue| :: queue[i].0 in Queued(queue)
  {
    assert forall p | p in queue + [q] :: p in queue || p == q;
    assert q in queue + [q] && forall p | p in queue :: p in queue + [q];
  }

  /** Taking the first schema off the queue to define it. */
  function Popped(st: State): State
    requires st.queue != []
  {
    st.(queue := st.queue[1..])
  }

  lemma {:induction false} PopSound(st: State, universe: set<Schema>)
    requires Sound(st, universe, None) && st.queue != []
    ensures var s := st.queue[0].1; Sound(Popped(st), universe, Some(s)) && s in universe && st.names[s] == st.queue[0].0
  {
    hide NamesSound, QueueSound, DefsSound, SplitsSound, Queued;
    PoppedQueue(st, universe);
    PoppedNames(st);
  }

  lemma {:induction false} PoppedNames(st: State)
    requires st.queue != [] && NamesSound(st)
    ensures NamesSound(Popped(st)) && EnvOf(Popped(st)) == EnvOf(st)
  {
  }

  lemma {:induction false} PoppedQueue(st: State, universe: set<Schema>)
    requires QueueSound(st, universe, None) && st.queue != []
    ensures var s := st.queue[0].1; QueueSound(Popped(st), universe, Some(s)) && s in universe && s in st.names && st.names[s] == st.queue[0].0
  {
    var q := st.queue[0];
    assert q in st.queue;
    QueuedFirst(st.queue);
    QueuedRest(st.queue);
    assert NameOf(st, None) == {} && NameOf(Popped(st), Some(q.1)) == {st.names[q.1]};
    hide Queued, NameOf;
  }

  lemma {:induction false} QueuedRest(queue: seq<(string, Schema)>)
    requires queue != []
    ensures forall p | p in queue[1..] :: p in queue && exists i | 0 < i < |queue| :: queue[i] == p
    ensures forall i | 0 <= i < |queue| - 1 :: queue[1..][i] == queue[i + 1]
  {
    forall p | p in queue[1..] ensures exists i | 0 < i < |queue| :: queue[i] == p {
      var i :| 0 <= i < |queue[1..]| && queue[1..][i] == p;
      assert queue[i + 1] == p;
    }
  }

  lemma {:induction false} QueuedFirst(queue: seq<(string, Schema)>)
    requires queue != []
    ensures Queued(queue) == {queue[0].0} + Queued(queue[1..])
  {
    assert queue == [queue[0]] + queue[1..];
    assert forall p | p in queue :: p == queue[0] || p in queue[1..];
  }

  function Defined(st: State, name: string, d: Doc): State { st.(defs := st.defs[name := d]) }

  lemma {:induction false} DefineSound(st: State, universe: set<Schema>, s: Schema, d: Doc)
    requires Sound(st, universe, Some(s)) && BodyDenotes(EnvOf(st), d, s)
    ensures Sound(Defined(st, st.names[s], d), universe, None)
  {
    hide SplitsSound, Queued, BodyDenotes;
    var st' := Defined(st, st.names[s], d);
    assert DefsSound(EnvOf(st'), st'.defs);
    hide DefsSound;
    assert st'.defs.Keys == st.defs.Keys + {st.names[s]};
    assert NameOf(st', None) == {} && NameOf(st, Some(s)) == {st.names[s]};
    hide NameOf;
  }

  function Inlined(st: State, s: Schema): State { st.(inlined := st.inlined + {s}) }

  /** Writing out a schema without a name. */
  lemma {:induction false} InlineSound(st: State, universe: set<Schema>, top: Option<Schema>, s: Schema)
    requires Sound(st, universe, top) && !IsNamed(st.names, s)
    ensures Sound(Inlined(st, s), universe, top) && Later(st, Inlined(st, s))
  {
    hide DefsSound, Queued, BodyDenotes;
    assert NameOf(Inlined(st, s), top) == NameOf(st, top);
    DefsGrow(EnvOf(st), EnvOf(Inlined(st, s)), st.defs);
  }

  lemma {:induction false} SplitSound(st: State, universe: set<Schema>, top: Option<Schema>, branch: Schema, key: string)
    requires Sound(st, universe, top) && Splits(branch, key)
    ensures Sound(st.(splits := st.splits[branch := Copies(branch, key)]), universe, top)
  {
    hide DefsSound, Queued, BodyDenotes, Copies;
    var st' := st.(splits := st.splits[branch := Copies(branch, key)]);
    assert NameOf(st', top) == NameOf(st, top) && EnvOf(st') == EnvOf(st);
  }

  lemma {:induction false} AllDenoteMore(env: Env, docs: seq<Doc>, parts: seq<Schema>, w: nat, d: Doc, n: nat)
    requires n < |parts| && AllDenote(env, docs, parts[..n], w) && Denotes(env, d, parts[n]) && Weight(parts[n]) < w
    ensures AllDenote(env, docs + [d], parts[..n + 1], w)
  {
    hide Denotes, Weight;
  }

  lemma {:induction false} ChildInUniverse(universe: set<Schema>, s: Schema, child: Schema)
    requires Closed(universe) && s in universe && Inside(child, s)
    ensures child in universe && Weight(child) < Weight(s)
  {
    InsideIsLighter(child, s);
    hide Weight;
    if i :| 0 <= i < |s.properties| && s.properties[i].schema == child {
      assert SchemasOf(s.properties)[i] == child;
    }
    assert child in Parts(s);
  }

  lemma {:induction false} PropertyDocs(env: Env, docs: seq<Doc>, properties: seq<Property>, out: seq<DocProperty>, w: nat)
    requires AllDenote(env, docs, SchemasOf(properties), w) && |out| == |properties|
    requires forall i | 0 <= i < |out| :: out[i] == DocProperty(properties[i].key, docs[i])
    ensures PropertiesDenote(env, out, properties, w)
  {
    hide Denotes, Weight;
    assert forall i | 0 <= i < |properties| :: SchemasOf(properties)[i] == properties[i].schema;
  }

  predicate IsShape(s: Schema) { s.kind.Some? || s.values.Some? || s.oneOf.Branches? || s.anyOf.Branches? }

  /** The one string a branch's tag can be, if it has properties. */
  function Single(s: Schema, key: string): Option<string> {
    if s.properties == [] then None
    else
      match Values(s, key)
      case None => None
      case Some(values) => if |values| == 1 && values[0].Str? then Some(values[0].s) else None
  }

  function Singles(branches: seq<Schema>, key: string): seq<string> {
    if branches == [] then []
    else
      var rest := Singles(branches[1..], key);
      match Single(branches[0], key)
      case None => rest
      case Some(value) => [value] + rest
  }

  /** A branch whose tag can be one string only has a name. */
  predicate Hoisted(names: map<Schema, string>, primitives: set<Schema>, key: Option<string>, b: Schema) {
    key.Some? && Single(b, key.value).Some? && Single(b, key.value).value != "" && IsShape(b) && b !in primitives ==> b in names
  }

  predicate AllDistinct(values: seq<string>) { forall i, j | 0 <= i < j < |values| :: values[i] != values[j] }

  function HoistKey(keys: seq<string>, branches: seq<Schema>): Option<string> {
    if keys == [] then None
    else if Singles(branches, keys[0]) != [] && AllDistinct(Singles(branches, keys[0])) then Some(keys[0])
    else HoistKey(keys[1..], branches)
  }

  // ----- Names for parts of unions

  /** The suffix for the parts of a definition's unions; the empty one stands for none. */
  function Suffix(suffixes: map<string, string>, defining: Option<string>): string {
    if defining.Some? && defining.value in suffixes then suffixes[defining.value] else ""
  }

  /** The name a part of a union gets after the one string its tag can be. */
  ghost predicate NamedAfter(pascal: string -> string, suffix: string, parts: seq<Schema>, b: Schema, name: string) {
    var key := HoistKey(DISCRIMINATORS, parts);
    && b in parts && key.Some? && Single(b, key.value).Some? && Single(b, key.value).value != ""
    && name == pascal(Single(b, key.value).value) + suffix
  }

  ghost predicate PartName(pascal: string -> string, suffix: string, branches: Branches, b: Schema, name: string) {
    suffix != "" && branches.Branches? && exists groups: seq<seq<Schema>> :: Grouped(branches.list, groups) && NamedAfter(pascal, suffix, Flatten(groups), b, name)
  }

  /** New names are those of parts of two unions. */
  ghost predicate OnlyPartNames(pascal: string -> string, suffix: string, u: Branches, v: Branches, before: map<Schema, string>, names: map<Schema, string>) {
    forall b | b in names && b !in before :: PartName(pascal, suffix, u, b, names[b]) || PartName(pascal, suffix, v, b, names[b])
  }

  ghost predicate Taken(names: map<Schema, string>, name: string) { exists s | s in names :: names[s] == name }

  /** A part that has no name would get one that is taken. */
  ghost predicate PartClash(pascal: string -> string, suffix: string, u: Branches, v: Branches, primitives: set<Schema>, names: map<Schema, string>) {
    exists b, name: string ::
      && (PartName(pascal, suffix, u, b, name) || PartName(pascal, suffix, v, b, name))
      && b !in names && IsShape(b) && b !in primitives && Taken(names, name)
  }

  /** Every part of a union whose tag can be one string only has a name. */
  ghost predicate PartsHoisted(names: map<Schema, string>, primitives: set<Schema>, suffix: string, branches: Branches) {
    suffix != "" && branches.Branches? ==>
      exists groups: seq<seq<Schema>> ::
        Grouped(branches.list, groups) && forall b | b in Flatten(groups) :: Hoisted(names, primitives, HoistKey(DISCRIMINATORS, Flatten(groups)), b)
  }

  /** What rendering a schema under a name does to the names. */
  ghost predicate Hoists(pascal: string -> string, suffixes: map<string, string>, primitives: set<Schema>, before: map<Schema, string>,
                         names: map<Schema, string>, defining: Option<string>, s: Schema, ok: bool) {
    var suffix := Suffix(suffixes, defining);
    && OnlyPartNames(pascal, suffix, s.oneOf, s.anyOf, before, names)
    && if ok then PartsHoisted(names, primitives, suffix, s.oneOf) && PartsHoisted(names, primitives, suffix, s.anyOf)
       else PartClash(pascal, suffix, s.oneOf, s.anyOf, primitives, names)
  }

  /** The name of a part of a union of a named schema. */
  ghost predicate HoistName(pascal: string -> string, suffixes: map<string, string>, names: map<Schema, string>, t: Schema, b: Schema, name: string) {
    && t in names && names[t] in suffixes
    && (PartName(pascal, suffixes[names[t]], t.oneOf, b, name) || PartName(pascal, suffixes[names[t]], t.anyOf, b, name))
  }

  /** Names are given, or made for parts of unions of named schemas. */
  ghost predicate NamesComeFrom(pascal: string -> string, suffixes: map<string, string>, given: map<Schema, string>, names: map<Schema, string>) {
    forall b | b in names :: (b in given && given[b] == names[b]) || exists t | t in names :: HoistName(pascal, suffixes, names, t, b, names[b])
  }

  ghost predicate Clash(pascal: string -> string, suffixes: map<string, string>, primitives: set<Schema>, names: map<Schema, string>) {
    exists t | t in names && names[t] in suffixes :: PartClash(pascal, suffixes[names[t]], t.oneOf, t.anyOf, primitives, names)
  }

  /** The parts of the unions of every definition have their names. */
  ghost predicate AllHoisted(suffixes: map<string, string>, primitives: set<Schema>, names: map<Schema, string>, defs: Defs) {
    forall t | t in names && names[t] in defs && names[t] in suffixes ::
      PartsHoisted(names, primitives, suffixes[names[t]], t.oneOf) && PartsHoisted(names, primitives, suffixes[names[t]], t.anyOf)
  }

  /** A branch is named after a string exactly if that is all the ends of its unions list for the tag. */
  lemma {:induction false} SingleIsAllListed(s: Schema, key: string, value: string)
    ensures Single(s, key) == Some(value) <==> s.properties != [] && (forall leaf | leaf in Leaves(s) :: Tagged(leaf, key)) && Listed(Leaves(s), key) == [Str(value)]
  {
    ValuesAreOfLeaves(s, key);
    ValuesAreListed(s, key);
    hide Values, Leaves, Tagged, Listed, Lists;
  }

  ghost predicate SinglesDiffer(branches: seq<Schema>, key: string) {
    forall i, j | 0 <= i < j < |branches| && Single(branches[i], key).Some? :: Single(branches[i], key) != Single(branches[j], key)
  }

  /** Some branch has one string only for the tag, and no two have the same. */
  ghost predicate NamesApart(branches: seq<Schema>, key: string) {
    (exists b | b in branches :: Single(b, key).Some?) && SinglesDiffer(branches, key)
  }

  lemma {:induction false} DifferFirst(branches: seq<Schema>, key: string)
    requires branches != []
    ensures SinglesDiffer(branches, key) <==>
              SinglesDiffer(branches[1..], key) && (Single(branches[0], key).Some? ==> forall b | b in branches[1..] :: Single(b, key) != Single(branches[0], key))
  {
    hide Single;
    var rest := branches[1..];
    assert forall i | 0 <= i < |rest| :: rest[i] == branches[i + 1];
    if SinglesDiffer(branches, key) && Single(branches[0], key).Some? {
      forall b | b in rest ensures Single(b, key) != Single(branches[0], key) {
        var j :| 0 <= j < |rest| && rest[j] == b;
      }
    }
    if SinglesDiffer(rest, key) {
      forall i, j | 1 <= i < j < |branches| && Single(branches[i], key).Some? ensures Single(branches[i], key) != Single(branches[j], key) {
        assert rest[i - 1] == branches[i] && rest[j - 1] == branches[j];
      }
    }
  }

  lemma {:induction false} DistinctFirst(value: string, rest: seq<string>)
    ensures AllDistinct([value] + rest) <==> AllDistinct(rest) && value !in rest
  {
    var all := [value] + rest;
    assert forall i | 0 <= i < |rest| :: all[i + 1] == rest[i];
    if AllDistinct(all) {
      forall i, j | 0 <= i < j < |rest| ensures rest[i] != rest[j] {
        assert all[i + 1] != all[j + 1];
      }
      assert value == all[0];
      forall i | 0 <= i < |rest| ensures rest[i] != value {
        assert all[0] != all[i + 1];
      }
    }
    if AllDistinct(rest) && value !in rest {
      forall i, j | 0 <= i < j < |all| ensures all[i] != all[j] {
        assert all[j] == rest[j - 1] && (i > 0 ==> all[i] == rest[i - 1]);
      }
    }
  }

  lemma {:induction false} SinglesApart(branches: seq<Schema>, key: string)
    ensures forall value :: value in Singles(branches, key) <==> exists b | b in branches :: Single(b, key) == Some(value)
    ensures AllDistinct(Singles(branches, key)) <==> SinglesDiffer(branches, key)
  {
    hide Single, AllDistinct, SinglesDiffer;
    if branches == [] {
      NoneDiffer(key);
    } else {
      var rest := branches[1..];
      SinglesApart(rest, key);
      assert forall b :: b in branches <==> b == branches[0] || b in rest;
      DifferFirst(branches, key);
      if Single(branches[0], key).Some? {
        DistinctFirst(Single(branches[0], key).value, Singles(rest, key));
      }
    }
  }

  lemma {:induction false} NoneDiffer(key: string)
    ensures AllDistinct([]) && SinglesDiffer([], key)
  {
  }

  /** Branches are named after the first of the seven keys that gives some of them a name and no two the same. */
  lemma {:induction false} HoistKeyIsFirst(keys: seq<string>, branches: seq<Schema>, key: string)
    ensures HoistKey(keys, branches) == Some(key) <==>
              exists n | 0 <= n < |keys| :: keys[n] == key && NamesApart(branches, key) && forall i | 0 <= i < n :: !NamesApart(branches, keys[i])
    ensures HoistKey(keys, branches) == None <==> forall k | k in keys :: !NamesApart(branches, k)
  {
    hide NamesApart, AllDistinct, Singles;
    if keys != [] {
      FirstKey(keys[0], branches);
      HoistKeyIsFirst(keys[1..], branches, key);
    }
  }

  lemma {:induction false} FirstKey(key: string, branches: seq<Schema>)
    ensures NamesApart(branches, key) <==> Singles(branches, key) != [] && AllDistinct(Singles(branches, key))
  {
    SinglesApart(branches, key);
    hide Singles, AllDistinct, Single, SinglesDiffer;
    if Singles(branches, key) != [] {
      assert Singles(branches, key)[0] in Singles(branches, key);
    }
  }

  class Bundle {
    var names: map<Schema, string>
    var used: set<string>
    var queue: seq<(string, Schema)>
    var defs: Defs
    var splits: map<Schema, seq<Schema>>
    ghost var asked: set<string>
    ghost var inlined: set<Schema>
    const primitives: set<Schema>
    const suffixes: map<string, string>
    const pascal: string -> string
    ghost const universe: set<Schema>

    constructor (primitives: set<Schema>, suffixes: map<string, string>, pascal: string -> string, ghost universe: set<Schema>)
      ensures this.universe == universe && this.suffixes == suffixes && this.primitives == primitives && this.pascal == pascal && Sound(Now(), universe, None)
      ensures names == map[] && used == {} && inlined == {} && defs == map[]
    {
      names, used, queue, defs, splits, asked, inlined := map[], {}, [], map[], map[], {}, {};
      this.primitives, this.suffixes, this.pascal, this.universe := primitives, suffixes, pascal, universe;
    }

    ghost function Now(): State reads this { State(names, used, queue, defs, splits, asked, inlined) }

    /** `name`: a schema keeps its first name, and no name is given twice. */
    method Name(s: Schema, value: string, ghost top: Option<Schema>) returns (ok: bool)
      requires Sound(Now(), universe, top)
      modifies this
      ensures Sound(Now(), universe, top) && Later(old(Now()), Now())
      ensures var skip := !IsShape(s) || s in primitives || s in old(names);
              && ok == (skip || value !in old(used))
              && Now() == if skip || !ok then old(Now()) else WithName(old(Now()), s, value)
    {
      LaterSelf(Now());
      hide Sound, Later, Grows;
      if !IsShape(s) || s in primitives || s in names {
        return true;
      }
      if value in used {
        return false;
      }
      NameSound(Now(), universe, top, s, value);
      names, used := names[s := value], used + {value};
      ok := true;
    }

    /** `ref`: asks for a named schema to be defined, once. */
    method Refer(s: Schema, ghost top: Option<Schema>) returns (d: Doc)
      requires Sound(Now(), universe, top) && s in names && s in universe && top != Some(s)
      modifies this
      ensures Sound(Now(), universe, top) && Later(old(Now()), Now())
      ensures d == Ref(names[s]) && names == old(names) && used == old(used) && inlined == old(inlined) && Denotes(EnvOf(Now()), d, s)
    {
      var name := names[s];
      if name !in defs && !exists q | q in queue :: q.0 == name {
        PushSound(Now(), universe, top, s);
        queue, asked := queue + [(name, s)], asked + {name};
      }
      hide DefsSound, SplitsSound;
      d := Ref(name);
    }

    /** `split`, with its memo: which branches become copies, and which copies those are. */
    method Split(branches: seq<Schema>, ghost top: Option<Schema>)
      returns (parts: seq<Schema>, ghost groups: seq<seq<Schema>>, ghost keys: seq<Option<string>>)
      requires Sound(Now(), universe, top) && Closed(universe) && forall b | b in branches :: b in universe
      modifies this
      ensures Sound(Now(), universe, top) && Later(old(Now()), Now()) && Now() == old(Now()).(splits := splits, inlined := inlined)
      ensures SplitBy(old(Now()), branches, keys) && groups == GroupsOf(branches, keys) && parts == Flatten(groups)
      ensures TakenApart(inlined, branches, groups) && forall part | part in parts :: part in universe
    {
      var key := Discriminator(branches);
      parts, groups, keys := [], [], [];
      NothingSplit(Now(), key);
      LaterSelf(Now());
      for i := 0 to |branches|
        invariant Sound(Now(), universe, top) && Later(old(Now()), Now()) && Now() == old(Now()).(splits := splits, inlined := inlined)
        invariant SplitUpTo(old(Now()), key, branches[..i], keys, splits) && parts == Flatten(GroupsOf(branches[..i], keys))
        invariant SplitInlined(inlined, branches[..i], keys)
        invariant forall part | part in parts :: part in universe
      {
        hide Sound, SplitUpTo, GroupsOf, Flatten, Closed, Copies, Splits, Later, Grows, HasTag, Values, Group, GroupOf, SplitAs, Discriminator, SplitInlined;
        ghost var before := splits;
        ghost var st := Now();
        ghost var k;
        var group;
        DiscriminatorIsValues(branches, key, i);
        group, k := SplitOne(branches[i], key, top);
        LaterTrans(old(Now()), st, Now());
        OneMoreInlined(st.inlined, inlined, branches, i, keys, k);
        GroupInUniverse(universe, branches[i], group);
        OneMoreSplit(old(Now()), key, branches, i, keys, before, splits, k);
        parts, keys := parts + group, keys + [k];
      }
      assert branches[..|branches|] == branches;
      SplitAll(old(Now()), branches, keys, splits);
      groups := GroupsOf(branches, keys);
      ApartByKeys(inlined, branches, keys);
    }

    /** One branch of `split`. */
    method SplitOne(branch: Schema, key: Option<string>, ghost top: Option<Schema>) returns (group: seq<Schema>, ghost k: Option<string>)
      requires Sound(Now(), universe, top) && (key.Some? && HasTag(branch, key.value) ==> Splits(branch, key.value))
      modifies this
      ensures Sound(Now(), universe, top) && Later(old(Now()), Now()) && Now() == old(Now()).(splits := splits, inlined := inlined)
      ensures old(inlined) <= inlined && (k.Some? ==> branch in inlined)
      ensures SplitAs(names, key, branch, old(splits), splits, k) && group == GroupOf(branch, k) && Group(branch, group)
    {
      hide Sound, SplitAs, Copies, GroupOf, Splits, Later, Grows;
      LaterSelf(Now());
      if key.None? || !HasTag(branch, key.value) || branch in names {
        Unsplit(names, key, branch, splits);
        return [branch], None;
      }
      if branch !in splits {
        SplitSound(Now(), universe, top, branch, key.value);
        splits := splits[branch := Copies(branch, key.value)];
      }
      k := Memo(Now(), universe, top, branch, key);
      SplitNow(names, key, branch, old(splits), splits, k);
      group := splits[branch];
      SplitLater(old(Now()), Now());
      ghost var st := Now();
      InlineSound(Now(), universe, top, branch);
      inlined := inlined + {branch};
      LaterTrans(old(Now()), st, Now());
    }

    /** `hoist`: names branches after the single value of their tag; it fails exactly when such a name is taken. */
    method Hoist(branches: seq<Schema>, suffix: string, ghost top: Option<Schema>) returns (ok: bool)
      requires Sound(Now(), universe, top)
      modifies this
      ensures Sound(Now(), universe, top) && Later(old(Now()), Now())
      ensures ok ==> forall b | b in branches :: Hoisted(names, primitives, HoistKey(DISCRIMINATORS, branches), b)
      ensures forall b | b in names && b !in old(names) :: NamedAfter(pascal, suffix, branches, b, names[b])
      ensures !ok ==> exists b, name :: NamedAfter(pascal, suffix, branches, b, name) && b !in names && IsShape(b) && b !in primitives && Taken(names, name)
    {
      hide Sound, Grows;
      LaterSelf(Now());
      var key := HoistKey(DISCRIMINATORS, branches);
      if key.None? {
        return true;
      }
      for i := 0 to |branches|
        invariant Sound(Now(), universe, top) && Later(old(Now()), Now())
        invariant forall k | 0 <= k < i :: Hoisted(names, primitives, key, branches[k])
        invariant forall b | b in names && b !in old(names) :: NamedAfter(pascal, suffix, branches, b, names[b])
      {
        hide HoistKey, Single, IsShape;
        var value := Single(branches[i], key.value);
        if value.Some? && value.value != "" {
          ghost var before := Now();
          ok := Name(branches[i], pascal(value.value) + suffix, top);
          LaterTrans(old(Now()), before, Now());
          assert NamedAfter(pascal, suffix, branches, branches[i], pascal(value.value) + suffix);
          if !ok {
            UsedIsTaken(before, universe, top, pascal(value.value) + suffix);
            return;
          }
        }
      }
      ok := true;
    }

    /** `render`: a reference to a named schema, else its keywords. `top` is the schema being defined. */
    method Render(s: Schema, defining: Option<string>, ghost top: Option<Schema>) returns (ok: bool, d: Doc)
      requires Sound(Now(), universe, top) && Closed(universe) && s in universe
      requires top.Some? ==> Weight(s) <= Weight(top.value)
      requires defining.Some? ==> s in names && names[s] == defining.value
      requires defining.None? ==> top != Some(s)
      modifies this
      ensures Sound(Now(), universe, top) && Later(old(Now()), Now())
      ensures ok ==> if defining.Some? then BodyDenotes(EnvOf(Now()), d, s) else Denotes(EnvOf(Now()), d, s)
      ensures ok && defining.None? && IsNamed(old(names), s) ==> d == Ref(old(names)[s])
      ensures defining.None? ==> ok && names == old(names)
      ensures defining.Some? ==> Hoists(pascal, suffixes, primitives, old(names), names, defining, s, ok)
      decreases Weight(s), 4
    {
      hide Sound, Later, Denotes, BodyDenotes, Weight, Grows, Hoists;
      if s in names && names[s] != "" && defining != Some(names[s]) {
        ok := true;
        d := Refer(s, top);
        return;
      }
      ghost var st0 := Now();
      LaterSelf(st0);
      if defining.None? {
        InlineSound(st0, universe, top, s);
        inlined := inlined + {s};
      }
      ghost var st1 := Now();
      ok, d := RenderBody(s, defining, top);
      LaterTrans(st0, st1, Now());
      if defining.None? {
        NothingHoisted(pascal, suffixes, primitives, st1, Now(), s, ok);
        StaysInlined(st1, Now(), s);
        BodyIsDenoted(EnvOf(Now()), d, s);
      }
    }

    method RenderBody(s: Schema, defining: Option<string>, ghost top: Option<Schema>) returns (ok: bool, d: Doc)
      requires Sound(Now(), universe, top) && Closed(universe) && s in universe
      requires top.Some? ==> Weight(s) <= Weight(top.value)
      modifies this
      ensures Sound(Now(), universe, top) && Later(old(Now()), Now())
      ensures ok ==> BodyDenotes(EnvOf(Now()), d, s)
      ensures Hoists(pascal, suffixes, primitives, old(names), names, defining, s, ok)
      decreases Weight(s), 3
    {
      hide Sound, Later, Weight, Closed, BodyDenotes, PropertiesDenote, AdditionalDenotes, ItemsDenote, UnionDenotes, Grows;
      d := Ref("");
      var oneOf, anyOf;
      var properties, additional, items := RenderMembers(s, top);
      ghost var st0, st1 := old(Now()), Now();
      ok, oneOf, anyOf := RenderUnions(s, defining, top);
      LaterTrans(st0, st1, Now());
      LaterGrows(st1, Now());
      if !ok {
        return;
      }
      d := Body(KindOut(s), ConstantOut(s), ValuesOut(s), properties, s.required, additional, items, s.bounds, oneOf, anyOf);
      Assemble(EnvOf(st1), EnvOf(Now()), d, s);
    }

    /** The schemas of properties, further properties and items. */
    method RenderMembers(s: Schema, ghost top: Option<Schema>)
      returns (properties: seq<DocProperty>, additional: DocAdditional, items: Option<Doc>)
      requires Sound(Now(), universe, top) && Closed(universe) && s in universe
      requires top.Some? ==> Weight(s) <= Weight(top.value)
      modifies this
      ensures Sound(Now(), universe, top) && Later(old(Now()), Now())
      ensures names == old(names) && MembersDenote(EnvOf(Now()), properties, additional, items, s)
      decreases Weight(s), 2
    {
      PropertiesInside(universe, s);
      OthersInside(universe, s);
      hide Sound, Later, Weight, Closed, MembersDenote, PropertiesDenote, AdditionalDenotes, ItemsDenote, AllDenote, Grows;
      ghost var w, st0 := Weight(s), Now();
      var docs := RenderAll(SchemasOf(s.properties), w, top);
      ghost var st1 := Now();
      additional := RenderAdditional(s.additional, w, top);
      ghost var st2 := Now();
      LaterTrans(st0, st1, st2);
      items := RenderItems(s.items, w, top);
      LaterTrans(st0, st2, Now());
      properties := PropertiesOf(s, docs);
      PropertyDocs(EnvOf(st1), docs, s.properties, properties, w);
      MembersTogether(st1, st2, Now(), properties, additional, items, s);
    }

    /** Both unions of a schema. */
    method RenderUnions(s: Schema, defining: Option<string>, ghost top: Option<Schema>) returns (ok: bool, oneOf: DocBranches, anyOf: DocBranches)
      requires Sound(Now(), universe, top) && Closed(universe) && s in universe
      requires top.Some? ==> Weight(s) <= Weight(top.value)
      modifies this
      ensures Sound(Now(), universe, top) && Later(old(Now()), Now())
      ensures ok ==> UnionDenotes(EnvOf(Now()), oneOf, s.oneOf, Weight(s)) && UnionDenotes(EnvOf(Now()), anyOf, s.anyOf, Weight(s))
      ensures Hoists(pascal, suffixes, primitives, old(names), names, defining, s, ok)
      decreases Weight(s), 2
    {
      OthersInside(universe, s);
      hide Sound, Later, Weight, Closed, UnionDenotes, Grows;
      anyOf := NoDocs;
      ok, oneOf := RenderUnion(s.oneOf, defining, Weight(s), top);
      FirstHoists(pascal, suffixes, primitives, old(names), names, defining, s, ok);
      if !ok {
        return;
      }
      ghost var st0, st1 := old(Now()), Now();
      ok, anyOf := RenderUnion(s.anyOf, defining, Weight(s), top);
      BothHoist(pascal, suffixes, primitives, st0, st1, Now(), defining, s, ok);
      LaterTrans(st0, st1, Now());
      LaterGrows(st1, Now());
      UnionGrows(EnvOf(st1), EnvOf(Now()), oneOf, s.oneOf, Weight(s));
    }

    method RenderAdditional(a: Additional, ghost w: nat, ghost top: Option<Schema>) returns (d: DocAdditional)
      requires Sound(Now(), universe, top) && Closed(universe)
      requires a.Each? ==> a.schema in universe && Weight(a.schema) < w
      requires top.Some? ==> w <= Weight(top.value)
      modifies this
      ensures Sound(Now(), universe, top) && Later(old(Now()), Now())
      ensures names == old(names) && AdditionalDenotes(EnvOf(Now()), d, a, w)
      decreases w, 0
    {
      LaterSelf(Now());
      hide Sound, Later, Denotes, Closed, Weight;
      match a {
        case Unsaid => d := DocUnsaid;
        case Forbidden => d := DocForbidden;
        case Each(t) =>
          var _, doc := Render(t, None, top);
          d := DocEach(doc);
      }
    }

    method RenderItems(items: Option<Schema>, ghost w: nat, ghost top: Option<Schema>) returns (d: Option<Doc>)
      requires Sound(Now(), universe, top) && Closed(universe)
      requires items.Some? ==> items.value in universe && Weight(items.value) < w
      requires top.Some? ==> w <= Weight(top.value)
      modifies this
      ensures Sound(Now(), universe, top) && Later(old(Now()), Now())
      ensures names == old(names) && ItemsDenote(EnvOf(Now()), d, items, w)
      decreases w, 0
    {
      LaterSelf(Now());
      hide Sound, Later, Denotes, Closed, Weight;
      d := None;
      if items.Some? {
        var _, doc := Render(items.value, None, top);
        d := Some(doc);
      }
    }

    /** The branches of a union, split, perhaps named, and rendered. */
    method RenderUnion(branches: Branches, defining: Option<string>, ghost w: nat, ghost top: Option<Schema>) returns (ok: bool, d: DocBranches)
      requires Sound(Now(), universe, top) && Closed(universe)
      requires branches.Branches? ==> forall b | b in branches.list :: b in universe && Weight(b) < w
      requires top.Some? ==> w <= Weight(top.value)
      modifies this
      ensures Sound(Now(), universe, top) && Later(old(Now()), Now())
      ensures ok ==> UnionDenotes(EnvOf(Now()), d, branches, w)
      ensures var suffix := Suffix(suffixes, defining);
              && OnlyPartNames(pascal, suffix, branches, NoBranches, old(names), names)
              && if ok then PartsHoisted(names, primitives, suffix, branches) else PartClash(pascal, suffix, branches, NoBranches, primitives, names)
      decreases w, 1
    {
      LaterSelf(Now());
      hide Sound, Denotes, Closed, Weight, AllDenote, Grows, Grouped;
      ok, d := true, NoDocs;
      if branches.NoBranches? {
        return;
      }
      ghost var st0, groups, keys := Now(), [], [];
      var parts;
      parts, groups, keys := Split(branches.list, top);
      ByKeysIsGrouped(st0, branches.list, keys);
      ghost var st1 := Now();
      PartsAreLighter(branches.list, groups, w);
      var suffix := Suffix(suffixes, defining);
      if suffix != "" {
        ok := Hoist(parts, suffix, top);
        LaterTrans(st0, st1, Now());
        HoistedByGroups(pascal, suffix, branches, groups, st0.names, names, primitives, ok);
        if !ok {
          return;
        }
      }
      ghost var st2 := Now();
      var docs := RenderAll(parts, w, top);
      LaterTrans(st0, st2, Now());
      LaterTrans(st1, st2, Now());
      StayApart(st1, Now(), branches.list, groups);
      d := Docs(docs);
    }

    /** Renders schemas one after another. */
    method RenderAll(parts: seq<Schema>, ghost w: nat, ghost top: Option<Schema>) returns (docs: seq<Doc>)
      requires Sound(Now(), universe, top) && Closed(universe)
      requires forall part | part in parts :: part in universe && Weight(part) < w
      requires top.Some? ==> w <= Weight(top.value)
      modifies this
      ensures Sound(Now(), universe, top) && Later(old(Now()), Now())
      ensures names == old(names) && |docs| == |parts| && AllDenote(EnvOf(Now()), docs, parts, w)
      ensures NamedAreRefs(names, parts, docs)
      decreases w, 0
    {
      LaterSelf(Now());
      docs := [];
      hide Later, NamedAreRefs, IsNamed;
      NoRefs(names);
      for n := 0 to |parts|
        invariant Sound(Now(), universe, top) && Later(old(Now()), Now())
        invariant |docs| == n && AllDenote(EnvOf(Now()), docs, parts[..n], w)
        invariant NamedAreRefs(old(names), parts[..n], docs)
        invariant names == old(names)
      {
        hide Sound, Denotes, Weight, AllDenote, Grows, Closed;
        ghost var st := Now();
        StaysNamed(old(Now()), st, parts[n]);
        var _, d := Render(parts[n], None, top);
        LaterTrans(old(Now()), st, Now());
        LaterGrows(st, Now());
        OneMoreRef(old(names), parts, docs, d, n);
        AllGrow(EnvOf(st), EnvOf(Now()), docs, parts[..n], w);
        AllDenoteMore(EnvOf(Now()), docs, parts, w, d, n);
        docs := docs + [d];
      }
      assert parts[..|parts|] == parts;
    }

    /** `drain`: defines every name asked for; each schema is defined once, so the worklist ends. */
    method Drain() returns (ok: bool)
      requires Sound(Now(), universe, None) && Closed(universe)
      modifies this
      ensures Grows(EnvOf(old(Now())), EnvOf(Now()))
      ensures ok ==> Sound(Now(), universe, None) && queue == []
      ensures NamesComeFrom(pascal, suffixes, old(names), names)
      ensures ok && old(defs) == map[] ==> AllHoisted(suffixes, primitives, names, defs)
      ensures !ok ==> Clash(pascal, suffixes, primitives, names)
    {
      LaterSelf(Now());
      hide Sound, Grows, Closed, Finished, NamesComeFrom, AllHoisted, Clash, HoistGrows;
      NamesAreGiven(pascal, suffixes, names);
      NothingDefined(suffixes, primitives, names);
      while queue != []
        invariant Sound(Now(), universe, None) && Grows(EnvOf(old(Now())), EnvOf(Now()))
        invariant NamesComeFrom(pascal, suffixes, old(names), names)
        invariant old(defs) == map[] ==> AllHoisted(suffixes, primitives, names, defs)
        decreases universe - Finished(Now(), universe)
      {
        ghost var st := Now();
        ok := DefineNext();
        StillFrom(pascal, suffixes, old(names), EnvOf(st), EnvOf(Now()));
        GrowsThrough(EnvOf(old(Now())), EnvOf(st), EnvOf(Now()));
        if !ok {
          return;
        }
      }
      ok := true;
    }

    /** Takes the first name off the worklist and defines it. */
    method DefineNext() returns (ok: bool)
      requires Sound(Now(), universe, None) && Closed(universe) && queue != []
      modifies this
      ensures Grows(EnvOf(old(Now())), EnvOf(Now()))
      ensures ok ==> Sound(Now(), universe, None) && universe - Finished(Now(), universe) < universe - Finished(old(Now()), universe)
      ensures ok ==> old(queue)[0].0 in defs
      ensures HoistGrows(pascal, suffixes, old(names), names)
      ensures ok && AllHoisted(suffixes, primitives, old(names), old(defs)) ==> AllHoisted(suffixes, primitives, names, defs)
      ensures !ok ==> Clash(pascal, suffixes, primitives, names)
    {
      hide Hoists, HoistGrows, AllHoisted, Clash;
      hide Sound, Grows, Closed, Weight, Denotes, BodyDenotes, Later, Finished, NameOf, RefsIn, Grouped;
      ghost var st0 := Now();
      var (name, s) := queue[0];
      PopSound(st0, universe);
      FirstIsNamed(st0, universe);
      queue := queue[1..];
      ghost var st1 := Now();
      var d;
      ok, d := Render(s, Some(name), Some(s));
      ghost var st2 := Now();
      LaterGrows(st1, st2);
      FirstHoisted(pascal, suffixes, primitives, st1, st2, s, ok);
      if !ok {
        return;
      }
      NewAreUndefined(st1, st2, universe, s);
      OneMoreHoisted(pascal, suffixes, primitives, st1, st2, universe, s, name, d);
      FirstIsDefined(st0, st1, st2, universe, s, name, d);
      defs := defs[name := d];
    }

    /** What `buildProtocolSchema` does with its bundle: names schemas and asks for some, in any order, then
        defines all that was asked for. */
    method Build(steps: seq<Request>) returns (ok: bool, refs: seq<Doc>)
      requires Sound(Now(), universe, None) && Closed(universe) && forall t | t in steps :: t.schema in universe
      modifies this
      ensures ok ==> Sound(Now(), universe, None) && queue == []
      ensures ok ==> AllDenote(EnvOf(Now()), refs, Asked(steps), Heaviest(steps))
      ensures old(names == map[] && used == {}) && Consistent(primitives, steps) && !ok ==> Clash(pascal, suffixes, primitives, names)
      ensures old(names == map[] && used == {} && inlined == {}) && (ok || Consistent(primitives, steps)) ==>
                KeepsGiven(GivenNames(primitives, steps), EnvOf(Now())) && NamesComeFrom(pascal, suffixes, GivenNames(primitives, steps), names)
      ensures ok && old(defs) == map[] ==> AllHoisted(suffixes, primitives, names, defs)
    {
      hide NamesComeFrom, AllHoisted, Clash;
      hide Sound, Grows, Closed, Weight, Denotes, AllDenote, Later, Asked, Heaviest, KeepsGiven;
      refs := [];
      NoneTakenYet(primitives, steps, Now());
      NoneAsked(EnvOf(Now()), Heaviest(steps));
      for n := 0 to |steps|
        invariant Sound(Now(), universe, None)
        invariant old(names == map[] && used == {}) && Consistent(primitives, steps) ==> TakenFrom(primitives, steps, n, Now())
        invariant AllDenote(EnvOf(Now()), refs, Asked(steps[..n]), Heaviest(steps))
        invariant old(names == map[] && inlined == {}) ==> names == GivenNames(primitives, steps[..n]) && inlined == {}
        invariant defs == old(defs)
      {
        GivenUnfold(primitives, steps, n);
        ghost var st := Now();
        hide GivenNames;
        if Consistent(primitives, steps) && TakenFrom(primitives, steps, n, st) {
          NextIsPossible(primitives, steps, n, st);
        }
        hide Consistent, TakenFrom;
        match steps[n] {
          case NameIt(s, value) =>
            ok := Name(s, value, None);
            if !ok {
              return;
            }
            AskedMore(st, Now(), refs, steps, n);
            LaterDefs(st, Now());
          case AskFor(s) =>
            if s !in names {
              return false, refs;
            }
            var d := Refer(s, None);
            AskedTakes(primitives, steps, n, st, Now());
            AskedMore(st, Now(), refs, steps, n);
            AskedOne(EnvOf(Now()), refs, steps, n, d);
            LaterDefs(st, Now());
            refs := refs + [d];
        }
      }
      assert steps[..|steps|] == steps;
      ghost var st := Now();
      ok := Drain();
      AllGrow(EnvOf(st), EnvOf(Now()), refs, Asked(steps), Heaviest(steps));
      GivenAreKept(EnvOf(st), EnvOf(Now()));
    }
  }

  datatype Request = NameIt(schema: Schema, value: string) | AskFor(schema: Schema)

  /** No name is given twice, and only schemas that were given a name are asked for. */
  ghost predicate Consistent(primitives: set<Schema>, steps: seq<Request>) {
    && (forall i, j | 0 <= i < j < |steps| && steps[i].NameIt? && steps[j].NameIt? :: steps[i].value != steps[j].value)
    && forall j | 0 <= j < |steps| && steps[j].AskFor? ::
         && IsShape(steps[j].schema) && steps[j].schema !in primitives
         && exists i | 0 <= i < j :: steps[i].NameIt? && steps[i].schema == steps[j].schema
  }

  /** The first `n` requests gave the names there are. */
  ghost predicate TakenFrom(primitives: set<Schema>, steps: seq<Request>, n: nat, st: State) {
    && n <= |steps|
    && (forall name | name in st.used :: exists i | 0 <= i < n :: steps[i].NameIt? && steps[i].value == name)
    && forall i | 0 <= i < n && steps[i].NameIt? && IsShape(steps[i].schema) && steps[i].schema !in primitives :: steps[i].schema in st.names
  }

  lemma {:induction false} NoneAsked(env: Env, w: nat)
    ensures Asked([]) == [] && AllDenote(env, [], [], w)
  {
  }

  lemma {:induction false} NoneTakenYet(primitives: set<Schema>, steps: seq<Request>, st: State)
    ensures st.names == map[] && st.used == {} ==> TakenFrom(primitives, steps, 0, st)
  {
  }

  lemma {:induction false} NextIsPossible(primitives: set<Schema>, steps: seq<Request>, n: nat, st: State)
    requires n < |steps| && Consistent(primitives, steps) && TakenFrom(primitives, steps, n, st)
    ensures steps[n].AskFor? ==> steps[n].schema in st.names
    ensures steps[n].NameIt? ==>
              var s := steps[n].schema;
              var skip := !IsShape(s) || s in primitives || s in st.names;
              && steps[n].value !in st.used
              && TakenFrom(primitives, steps, n + 1, if skip then st else WithName(st, s, steps[n].value))
  {
  }

  lemma {:induction false} AskedTakes(primitives: set<Schema>, steps: seq<Request>, n: nat, st: State, st': State)
    requires n < |steps| && steps[n].AskFor? && st'.names == st.names && st'.used == st.used
    ensures TakenFrom(primitives, steps, n, st) ==> TakenFrom(primitives, steps, n + 1, st')
  {
  }

  /** The names the requests give: a shape that is no primitive keeps the first one. */
  function GivenNames(primitives: set<Schema>, steps: seq<Request>): map<Schema, string> {
    if steps == [] then map[]
    else
      var before, step := GivenNames(primitives, steps[..|steps| - 1]), steps[|steps| - 1];
      if step.NameIt? && IsShape(step.schema) && step.schema !in primitives && step.schema !in before then before[step.schema := step.value]
      else before
  }

  lemma {:induction false} GivenUnfold(primitives: set<Schema>, steps: seq<Request>, n: nat)
    requires n < |steps|
    ensures var before := GivenNames(primitives, steps[..n]);
            GivenNames(primitives, steps[..n + 1]) ==
              if steps[n].NameIt? && IsShape(steps[n].schema) && steps[n].schema !in primitives && steps[n].schema !in before
              then before[steps[n].schema := steps[n].value]
              else before
  {
    assert steps[..n + 1][..n] == steps[..n];
  }

  /** Given names last, and a schema that was given one is nowhere written out in place. */
  ghost predicate KeepsGiven(given: map<Schema, string>, env: Env) {
    forall s | s in given :: s in env.names && env.names[s] == given[s] && (IsNamed(given, s) ==> s !in env.inlined)
  }

  lemma {:induction false} GivenAreKept(env: Env, env': Env)
    requires Grows(env, env')
    ensures env.inlined == {} ==> KeepsGiven(env.names, env')
  {
  }

  /** The schemas asked for, in order. */
  function Asked(steps: seq<Request>): seq<Schema> {
    if steps == [] then []
    else Asked(steps[..|steps| - 1]) + if steps[|steps| - 1].AskFor? then [steps[|steps| - 1].schema] else []
  }

  function Heaviest(steps: seq<Request>): nat {
    if steps == [] then 0 else Weight(steps[0].schema) + 1 + Heaviest(steps[1..])
  }

  lemma {:induction false} LighterThanHeaviest(steps: seq<Request>, n: nat)
    requires n < |steps|
    ensures Weight(steps[n].schema) < Heaviest(steps)
  {
    if n > 0 {
      LighterThanHeaviest(steps[1..], n - 1);
    }
  }

  lemma {:induction false} AskedUnfold(steps: seq<Request>, n: nat)
    requires n < |steps|
    ensures Asked(steps[..n + 1]) == Asked(steps[..n]) + if steps[n].AskFor? then [steps[n].schema] else []
  {
    assert steps[..n + 1][..n] == steps[..n];
  }

  lemma {:induction false} AskedMore(st: State, st': State, refs: seq<Doc>, steps: seq<Request>, n: nat)
    requires n < |steps| && Later(st, st') && AllDenote(EnvOf(st), refs, Asked(steps[..n]), Heaviest(steps))
    ensures AllDenote(EnvOf(st'), refs, Asked(steps[..n]), Heaviest(steps))
    ensures steps[n].NameIt? ==> AllDenote(EnvOf(st'), refs, Asked(steps[..n + 1]), Heaviest(steps))
  {
    AllGrow(EnvOf(st), EnvOf(st'), refs, Asked(steps[..n]), Heaviest(steps));
    AskedUnfold(steps, n);
    assert Asked(steps[..n]) + [] == Asked(steps[..n]);
  }

  lemma {:induction false} AskedOne(env: Env, refs: seq<Doc>, steps: seq<Request>, n: nat, d: Doc)
    requires n < |steps| && steps[n].AskFor? && AllDenote(env, refs, Asked(steps[..n]), Heaviest(steps)) && Denotes(env, d, steps[n].schema)
    ensures AllDenote(env, refs + [d], Asked(steps[..n + 1]), Heaviest(steps))
  {
    AskedUnfold(steps, n);
    LighterThanHeaviest(steps, n);
    var parts := Asked(steps[..n + 1]);
    assert parts[..|refs|] == Asked(steps[..n]);
    AllDenoteMore(env, refs, parts, Heaviest(steps), d, |refs|);
    assert parts[..|refs| + 1] == parts;
  }

  /** The schemas already defined. */
  function Finished(st: State, universe: set<Schema>): set<Schema> {
    set s | s in universe && s in st.names && st.names[s] in st.defs
  }

  lemma {:induction false} GrowsThrough(a: Env, b: Env, c: Env)
    requires Grows(a, b) && Grows(b, c)
    ensures Grows(a, c)
  {
  }

  lemma {:induction false} FirstIsDefined(st0: State, st1: State, st2: State, universe: set<Schema>, s: Schema, name: string, d: Doc)
    requires Later(st1, st2) && st1 == st0.(queue := st1.queue) && Sound(st2, universe, Some(s))
    requires s in universe && s in st0.names && st0.names[s] == name && name !in st0.defs && BodyDenotes(EnvOf(st2), d, s)
    ensures Sound(Defined(st2, name, d), universe, None)
    ensures universe - Finished(Defined(st2, name, d), universe) < universe - Finished(st0, universe)
  {
    hide Sound, Later, Denotes, BodyDenotes, Finished, Grows;
    KeepsName(st1, st2, s);
    DefineSound(st2, universe, s, d);
    OneMoreFinished(st0, st1, st2, Defined(st2, name, d), universe, s, name, d);
  }

  lemma {:induction false} FirstIsNamed(st: State, universe: set<Schema>)
    requires Sound(st, universe, None) && st.queue != []
    ensures st.queue[0].1 in st.names && st.queue[0].0 !in st.defs
  {
    hide NamesSound, DefsSound, SplitsSound, Queued;
  }

  lemma {:induction false} KeepsName(st: State, st': State, s: Schema)
    requires Later(st, st') && s in st.names
    ensures s in st'.names && st'.names[s] == st.names[s] && st'.defs == st.defs
  {
  }

  lemma {:induction false} OneMoreFinished(st0: State, st1: State, st2: State, st3: State, universe: set<Schema>, s: Schema, name: string, d: Doc)
    requires Later(st1, st2) && st1 == st0.(queue := st1.queue) && st3 == Defined(st2, name, d)
    requires s in universe && s in st0.names && st0.names[s] == name && name !in st0.defs
    ensures universe - Finished(st3, universe) < universe - Finished(st0, universe)
  {
    assert s in Finished(st3, universe) && s !in Finished(st0, universe);
    forall t | t in Finished(st0, universe) ensures t in Finished(st3, universe) {
      assert st2.names[t] == st0.names[t];
    }
  }

  lemma {:induction false} OthersInside(universe: set<Schema>, s: Schema)
    requires Closed(universe) && s in universe
    ensures s.additional.Each? ==> s.additional.schema in universe && Weight(s.additional.schema) < Weight(s)
    ensures s.items.Some? ==> s.items.value in universe && Weight(s.items.value) < Weight(s)
    ensures s.oneOf.Branches? ==> forall b | b in s.oneOf.list :: b in universe && Weight(b) < Weight(s)
    ensures s.anyOf.Branches? ==> forall b | b in s.anyOf.list :: b in universe && Weight(b) < Weight(s)
  {
    hide Weight, Closed;
    forall child | Inside(child, s) ensures child in universe && Weight(child) < Weight(s) {
      ChildInUniverse(universe, s, child);
    }
    assert s.additional.Each? ==> Inside(s.additional.schema, s);
    assert s.items.Some? ==> Inside(s.items.value, s);
    assert s.oneOf.Branches? ==> forall b | b in s.oneOf.list :: Inside(b, s);
    assert s.anyOf.Branches? ==> forall b | b in s.anyOf.list :: Inside(b, s);
  }

  lemma {:induction false} SplitLater(st: State, st': State)
    requires EnvOf(st) == EnvOf(st') && st.defs == st'.defs
    ensures Later(st, st')
  {
  }

  lemma {:induction false} UsedIsTaken(st: State, universe: set<Schema>, top: Option<Schema>, name: string)
    requires Sound(st, universe, top) && name in st.used
    ensures Taken(st.names, name)
  {
    hide QueueSound, DefsSound, SplitsSound;
  }

  lemma {:induction false} HoistedByGroups(pascal: string -> string, suffix: string, branches: Branches, groups: seq<seq<Schema>>, before: map<Schema, string>,
                                           names: map<Schema, string>, primitives: set<Schema>, ok: bool)
    requires suffix != "" && branches.Branches? && Grouped(branches.list, groups)
    requires forall b | b in names && b !in before :: NamedAfter(pascal, suffix, Flatten(groups), b, names[b])
    requires if ok then forall b | b in Flatten(groups) :: Hoisted(names, primitives, HoistKey(DISCRIMINATORS, Flatten(groups)), b)
             else exists b, name :: NamedAfter(pascal, suffix, Flatten(groups), b, name) && b !in names && IsShape(b) && b !in primitives && Taken(names, name)
    ensures OnlyPartNames(pascal, suffix, branches, NoBranches, before, names)
    ensures if ok then PartsHoisted(names, primitives, suffix, branches) else PartClash(pascal, suffix, branches, NoBranches, primitives, names)
  {
    hide NamedAfter, Hoisted, Grouped, Taken, IsShape, HoistKey;
    forall b, name | NamedAfter(pascal, suffix, Flatten(groups), b, name) ensures PartName(pascal, suffix, branches, b, name) {
    }
    if !ok {
      var b, name :| NamedAfter(pascal, suffix, Flatten(groups), b, name) && b !in names && IsShape(b) && b !in primitives && Taken(names, name);
      assert PartName(pascal, suffix, branches, b, name);
    }
  }

  lemma {:induction false} NothingHoisted(pascal: string -> string, suffixes: map<string, string>, primitives: set<Schema>, st: State, st': State, s: Schema, ok: bool)
    requires Later(st, st') && Hoists(pascal, suffixes, primitives, st.names, st'.names, None, s, ok)
    ensures ok && st'.names == st.names
  {
    assert forall u: Branches, b, name :: !PartName(pascal, "", u, b, name);
    hide PartName, PartsHoisted, Taken, IsShape;
    assert forall b | b in st'.names :: b in st.names;
  }

  /** New names are made for parts of unions of named schemas. */
  ghost predicate HoistGrows(pascal: string -> string, suffixes: map<string, string>, before: map<Schema, string>, names: map<Schema, string>) {
    forall b | b in names && b !in before :: exists t | t in before :: HoistName(pascal, suffixes, before, t, b, names[b])
  }

  lemma {:induction false} NoSuffix(pascal: string -> string)
    ensures forall u: Branches, b, name :: !PartName(pascal, "", u, b, name)
  {
  }

  lemma {:induction false} FirstHoisted(pascal: string -> string, suffixes: map<string, string>, primitives: set<Schema>, st: State, st': State, s: Schema, ok: bool)
    requires s in st.names && Later(st, st') && Hoists(pascal, suffixes, primitives, st.names, st'.names, Some(st.names[s]), s, ok)
    ensures HoistGrows(pascal, suffixes, st.names, st'.names)
    ensures !ok ==> Clash(pascal, suffixes, primitives, st'.names)
  {
    NoSuffix(pascal);
    hide PartName, PartsHoisted, Taken, IsShape;
    forall b | b in st'.names && b !in st.names ensures exists t | t in st.names :: HoistName(pascal, suffixes, st.names, t, b, st'.names[b]) {
      assert HoistName(pascal, suffixes, st.names, s, b, st'.names[b]);
    }
    assert s in st'.names && st'.names[s] == st.names[s];
    hide PartClash;
  }

  lemma {:induction false} OneMoreHoisted(pascal: string -> string, suffixes: map<string, string>, primitives: set<Schema>, st: State, st': State,
                                          universe: set<Schema>, s: Schema, name: string, d: Doc)
    requires Later(st, st') && Sound(st', universe, Some(s)) && s in st.names && st.names[s] == name
    requires Hoists(pascal, suffixes, primitives, st.names, st'.names, Some(name), s, true)
    requires forall b | b in st'.names && b !in st.names :: st'.names[b] !in st.defs
    ensures AllHoisted(suffixes, primitives, st.names, st.defs) ==> AllHoisted(suffixes, primitives, st'.names, st'.defs[name := d])
  {
    hide PartsHoisted, QueueSound, DefsSound, SplitsSound, OnlyPartNames;
    if AllHoisted(suffixes, primitives, st.names, st.defs) {
      forall t | t in st'.names && st'.names[t] in st'.defs[name := d] && st'.names[t] in suffixes
        ensures PartsHoisted(st'.names, primitives, suffixes[st'.names[t]], t.oneOf)
        ensures PartsHoisted(st'.names, primitives, suffixes[st'.names[t]], t.anyOf)
      {
        if st'.names[t] == name {
          assert t == s;
        } else {
          StaysHoisted(st, st', primitives, suffixes[st.names[t]], t.oneOf);
          StaysHoisted(st, st', primitives, suffixes[st.names[t]], t.anyOf);
        }
      }
    }
  }

  lemma {:induction false} NewAreUndefined(st: State, st': State, universe: set<Schema>, s: Schema)
    requires Sound(st, universe, Some(s)) && Sound(st', universe, Some(s)) && Later(st, st')
    ensures forall b | b in st'.names && b !in st.names :: st'.names[b] !in st.defs
  {
    hide DefsSound, SplitsSound, QueueSound;
    AskedNow(st, universe, s);
  }

  lemma {:induction false} AskedNow(st: State, universe: set<Schema>, s: Schema)
    requires QueueSound(st, universe, Some(s))
    ensures st.defs.Keys <= st.used
  {
    hide Queued, NameOf;
  }

  /** Without suffixes no name is made, and none clashes. */
  lemma {:induction false} NoSuffixNoNames(pascal: string -> string, primitives: set<Schema>, given: map<Schema, string>, names: map<Schema, string>)
    ensures !Clash(pascal, map[], primitives, names)
    ensures NamesComeFrom(pascal, map[], given, names) ==> forall b | b in names :: b in given && given[b] == names[b]
  {
    assert forall u: Branches, b, name :: !PartName(pascal, "", u, b, name);
    hide PartName, Taken, IsShape;
  }

  lemma {:induction false} NamesAreGiven(pascal: string -> string, suffixes: map<string, string>, names: map<Schema, string>)
    ensures NamesComeFrom(pascal, suffixes, names, names)
  {
  }

  lemma {:induction false} NothingDefined(suffixes: map<string, string>, primitives: set<Schema>, names: map<Schema, string>)
    ensures AllHoisted(suffixes, primitives, names, map[])
  {
  }

  lemma {:induction false} StillFrom(pascal: string -> string, suffixes: map<string, string>, given: map<Schema, string>, env: Env, env': Env)
    requires NamesComeFrom(pascal, suffixes, given, env.names) && HoistGrows(pascal, suffixes, env.names, env'.names) && Grows(env, env')
    ensures NamesComeFrom(pascal, suffixes, given, env'.names)
  {
    hide PartName;
    forall b | b in env'.names ensures (b in given && given[b] == env'.names[b]) || exists t | t in env'.names :: HoistName(pascal, suffixes, env'.names, t, b, env'.names[b]) {
      if !(b in given && given[b] == env'.names[b]) {
        var t :| t in env.names && HoistName(pascal, suffixes, env.names, t, b, env'.names[b]);
        assert HoistName(pascal, suffixes, env'.names, t, b, env'.names[b]);
      }
    }
  }

  lemma {:induction false} FirstHoists(pascal: string -> string, suffixes: map<string, string>, primitives: set<Schema>, before: map<Schema, string>,
                                       names: map<Schema, string>, defining: Option<string>, s: Schema, ok: bool)
    requires var suffix := Suffix(suffixes, defining);
             && OnlyPartNames(pascal, suffix, s.oneOf, NoBranches, before, names)
             && (!ok ==> PartClash(pascal, suffix, s.oneOf, NoBranches, primitives, names))
    ensures !ok ==> Hoists(pascal, suffixes, primitives, before, names, defining, s, ok)
  {
    hide Taken, IsShape, Grouped, NamedAfter, PartsHoisted;
    NoPartName(pascal, Suffix(suffixes, defining));
    hide PartName;
  }

  lemma {:induction false} NoPartName(pascal: string -> string, suffix: string)
    ensures forall b, name :: !PartName(pascal, suffix, NoBranches, b, name)
  {
  }

  lemma {:induction false} BothHoist(pascal: string -> string, suffixes: map<string, string>, primitives: set<Schema>, st0: State, st1: State, st2: State,
                                     defining: Option<string>, s: Schema, ok: bool)
    requires Later(st0, st1) && Later(st1, st2)
    requires var suffix := Suffix(suffixes, defining);
             && OnlyPartNames(pascal, suffix, s.oneOf, NoBranches, st0.names, st1.names)
             && OnlyPartNames(pascal, suffix, s.anyOf, NoBranches, st1.names, st2.names)
             && PartsHoisted(st1.names, primitives, suffix, s.oneOf)
             && if ok then PartsHoisted(st2.names, primitives, suffix, s.anyOf) else PartClash(pascal, suffix, s.anyOf, NoBranches, primitives, st2.names)
    ensures Hoists(pascal, suffixes, primitives, st0.names, st2.names, defining, s, ok)
  {
    hide Taken, IsShape, Grouped, NamedAfter;
    var suffix := Suffix(suffixes, defining);
    NoPartName(pascal, suffix);
    StaysHoisted(st1, st2, primitives, suffix, s.oneOf);
    hide PartName, PartsHoisted;
    assert forall b | b in st1.names :: st2.names[b] == st1.names[b];
  }

  lemma {:induction false} StaysHoisted(st: State, st': State, primitives: set<Schema>, suffix: string, branches: Branches)
    requires PartsHoisted(st.names, primitives, suffix, branches) && forall b | b in st.names :: b in st'.names
    ensures PartsHoisted(st'.names, primitives, suffix, branches)
  {
    hide Grouped, HoistKey, Single, IsShape;
    if suffix != "" && branches.Branches? {
      var groups: seq<seq<Schema>> :| Grouped(branches.list, groups) && forall b | b in Flatten(groups) :: Hoisted(st.names, primitives, HoistKey(DISCRIMINATORS, Flatten(groups)), b);
      assert forall b | b in Flatten(groups) :: Hoisted(st'.names, primitives, HoistKey(DISCRIMINATORS, Flatten(groups)), b);
    }
  }

  /** Schemas that had names are rendered as references to those. */
  ghost predicate NamedAreRefs(names: map<Schema, string>, parts: seq<Schema>, docs: seq<Doc>) {
    |docs| == |parts| && forall n | 0 <= n < |parts| && IsNamed(names, parts[n]) :: docs[n] == Ref(names[parts[n]])
  }

  lemma {:induction false} NoRefs(names: map<Schema, string>)
    ensures NamedAreRefs(names, [], [])
  {
  }

  lemma {:induction false} OneMoreRef(names: map<Schema, string>, parts: seq<Schema>, docs: seq<Doc>, d: Doc, n: nat)
    requires n < |parts| && NamedAreRefs(names, parts[..n], docs) && (IsNamed(names, parts[n]) ==> d == Ref(names[parts[n]]))
    ensures NamedAreRefs(names, parts[..n + 1], docs + [d])
  {
    assert forall m | 0 <= m < n :: parts[..n + 1][m] == parts[..n][m];
  }

  lemma {:induction false} StaysNamed(st: State, st': State, s: Schema)
    requires Later(st, st')
    ensures IsNamed(st.names, s) ==> IsNamed(st'.names, s) && st'.names[s] == st.names[s]
  {
  }

  lemma {:induction false} StaysInlined(st: State, st': State, s: Schema)
    requires Later(st, st') && s in st.inlined
    ensures s in st'.inlined
  {
  }

  lemma {:induction false} StayApart(st: State, st': State, branches: seq<Schema>, groups: seq<seq<Schema>>)
    requires Later(st, st') && TakenApart(st.inlined, branches, groups)
    ensures TakenApart(st'.inlined, branches, groups)
  {
  }

  ghost predicate SplitInlined(inlined: set<Schema>, branches: seq<Schema>, keys: seq<Option<string>>) {
    |keys| == |branches| && forall i | 0 <= i < |branches| && keys[i].Some? :: branches[i] in inlined
  }

  lemma {:induction false} OneMoreInlined(inlined: set<Schema>, inlined': set<Schema>, branches: seq<Schema>, i: nat, keys: seq<Option<string>>, k: Option<string>)
    requires i < |branches| && SplitInlined(inlined, branches[..i], keys) && inlined <= inlined' && (k.Some? ==> branches[i] in inlined')
    ensures SplitInlined(inlined', branches[..i + 1], keys + [k])
  {
    assert forall j | 0 <= j < i :: branches[..i + 1][j] == branches[..i][j];
  }

  lemma {:induction false} ApartByKeys(inlined: set<Schema>, branches: seq<Schema>, keys: seq<Option<string>>)
    requires SplitKeys(branches, keys) && SplitInlined(inlined, branches, keys)
    ensures TakenApart(inlined, branches, GroupsOf(branches, keys))
  {
    hide Copies, Splits;
  }

  lemma {:induction false} LaterDefs(a: State, b: State)
    requires Later(a, b)
    ensures a.defs == b.defs
  {
  }

  lemma {:induction false} LaterGrows(a: State, b: State)
    requires Later(a, b)
    ensures Grows(EnvOf(a), EnvOf(b))
  {
    hide Grows;
  }

  function PropertiesOf(s: Schema, docs: seq<Doc>): seq<DocProperty>
    requires |docs| == |s.properties|
  {
    seq(|docs|, i requires 0 <= i < |docs| => DocProperty(s.properties[i].key, docs[i]))
  }

  ghost predicate MembersDenote(env: Env, properties: seq<DocProperty>, additional: DocAdditional, items: Option<Doc>, s: Schema) {
    && PropertiesDenote(env, properties, s.properties, Weight(s)) && AdditionalDenotes(env, additional, s.additional, Weight(s))
    && ItemsDenote(env, items, s.items, Weight(s))
  }

  /** Members rendered one after another, each under the names of its time. */
  lemma {:induction false} MembersTogether(a: State, b: State, c: State, properties: seq<DocProperty>, additional: DocAdditional,
                                           items: Option<Doc>, s: Schema)
    requires Later(a, b) && Later(b, c)
    requires PropertiesDenote(EnvOf(a), properties, s.properties, Weight(s)) && AdditionalDenotes(EnvOf(b), additional, s.additional, Weight(s))
    requires ItemsDenote(EnvOf(c), items, s.items, Weight(s))
    ensures MembersDenote(EnvOf(c), properties, additional, items, s)
  {
    hide Later, PropertiesDenote, AdditionalDenotes, ItemsDenote, Weight, Grows;
    LaterTrans(a, b, c);
    LaterGrows(a, c);
    LaterGrows(b, c);
    PropertiesGrow(EnvOf(a), EnvOf(c), properties, s.properties, Weight(s));
    AdditionalGrows(EnvOf(b), EnvOf(c), additional, s.additional, Weight(s));
  }

  /** The parts of a body. */
  lemma {:induction false} Assemble(e1: Env, e2: Env, d: Doc, s: Schema)
    requires d.Body? && d.kind == KindOut(s) && d.constant == ConstantOut(s) && d.values == ValuesOut(s)
    requires d.required == s.required && d.bounds == s.bounds
    requires MembersDenote(e1, d.properties, d.additional, d.items, s) && Grows(e1, e2)
    requires UnionDenotes(e2, d.oneOf, s.oneOf, Weight(s)) && UnionDenotes(e2, d.anyOf, s.anyOf, Weight(s))
    ensures BodyDenotes(e2, d, s)
  {
    PropertiesGrow(e1, e2, d.properties, s.properties, Weight(s));
    AdditionalGrows(e1, e2, d.additional, s.additional, Weight(s));
    ItemsGrow(e1, e2, d.items, s.items, Weight(s));
    hide PropertiesDenote, AdditionalDenotes, ItemsDenote, UnionDenotes, Weight, Grows;
  }

  lemma {:induction false} LaterSelf(st: State)
    ensures Later(st, st)
  {
  }

  /** How a branch that `split` sees is taken apart: for the tag, or the one an earlier union took it apart for. */
  ghost predicate SplitAs(names: map<Schema, string>, key: Option<string>, branch: Schema, before: map<Schema, seq<Schema>>,
                          splits: map<Schema, seq<Schema>>, k: Option<string>) {
    && (k.Some? <==> key.Some? && HasTag(branch, key.value) && branch !in names)
    && (k.Some? ==> Splits(branch, k.value) && branch in splits && splits[branch] == Copies(branch, k.value))
    && splits == (if k.Some? && branch !in before then before[branch := Copies(branch, key.value)] else before)
    && (k.Some? && splits[branch] == Copies(branch, key.value) ==> k == key)
  }

  /** What `split` returns for some branches. */
  ghost predicate SplitBy(st: State, branches: seq<Schema>, keys: seq<Option<string>>) {
    var key := Discriminator(branches);
    && SplitKeys(branches, keys)
    && forall i | 0 <= i < |branches| ::
         && (keys[i].Some? <==> key.Some? && HasTag(branches[i], key.value) && branches[i] !in st.names)
         && (keys[i].Some? && branches[i] !in st.splits ==> keys[i] == key)
  }

  ghost predicate SplitUpTo(st: State, key: Option<string>, branches: seq<Schema>, keys: seq<Option<string>>, splits: map<Schema, seq<Schema>>) {
    && SplitKeys(branches, keys)
    && (forall i | 0 <= i < |branches| ::
          && (keys[i].Some? <==> key.Some? && HasTag(branches[i], key.value) && branches[i] !in st.names)
          && (keys[i].Some? && branches[i] !in st.splits ==> keys[i] == key))
    && forall b | b in splits && b !in st.splits :: key.Some? && HasTag(b, key.value) && splits[b] == Copies(b, key.value)
  }

  lemma {:induction false} NothingSplit(st: State, key: Option<string>)
    ensures SplitUpTo(st, key, [], [], st.splits) && Flatten(GroupsOf([], [])) == []
  {
  }

  lemma {:induction false} DiscriminatorIsValues(branches: seq<Schema>, key: Option<string>, i: nat)
    requires key == Discriminator(branches) && i < |branches|
    ensures key.Some? && HasTag(branches[i], key.value) ==> Splits(branches[i], key.value)
  {
  }

  lemma {:induction false} OneMoreSplit(st: State, key: Option<string>, branches: seq<Schema>, i: nat, keys: seq<Option<string>>,
                                        before: map<Schema, seq<Schema>>, splits: map<Schema, seq<Schema>>, k: Option<string>)
    requires i < |branches| && SplitUpTo(st, key, branches[..i], keys, before) && SplitAs(st.names, key, branches[i], before, splits, k)
    ensures SplitUpTo(st, key, branches[..i + 1], keys + [k], splits) && (k.Some? ==> Splits(branches[i], k.value))
    ensures SplitKeys(branches[..i], keys) && SplitKeys(branches[..i + 1], keys + [k])
    ensures Flatten(GroupsOf(branches[..i + 1], keys + [k])) == Flatten(GroupsOf(branches[..i], keys)) + GroupOf(branches[i], k)
  {
    hide SplitUpTo, SplitAs, Splits, Flatten, HasTag, GroupOf, GroupsOf;
    OneMoreKey(st, key, branches, i, keys, before, splits, k);
    OneMoreGroup(branches, i, keys, k);
    FlattenMore(GroupsOf(branches[..i], keys), GroupOf(branches[i], k));
  }

  lemma {:induction false} OneMoreKey(st: State, key: Option<string>, branches: seq<Schema>, i: nat, keys: seq<Option<string>>,
                                      before: map<Schema, seq<Schema>>, splits: map<Schema, seq<Schema>>, k: Option<string>)
    requires i < |branches| && SplitUpTo(st, key, branches[..i], keys, before) && SplitAs(st.names, key, branches[i], before, splits, k)
    ensures SplitUpTo(st, key, branches[..i + 1], keys + [k], splits) && (k.Some? ==> Splits(branches[i], k.value))
    ensures |keys| == i && SplitKeys(branches[..i], keys) && SplitKeys(branches[..i + 1], keys + [k])
  {
    hide Splits, HasTag;
    assert forall j | 0 <= j < i :: branches[..i + 1][j] == branches[..i][j] && (keys + [k])[j] == keys[j];
    assert branches[..i + 1][i] == branches[i] && (keys + [k])[i] == k;
  }

  lemma {:induction false} OneMoreGroup(branches: seq<Schema>, i: nat, keys: seq<Option<string>>, k: Option<string>)
    requires i < |branches| && SplitKeys(branches[..i], keys) && SplitKeys(branches[..i + 1], keys + [k]) && (k.Some? ==> Splits(branches[i], k.value))
    ensures GroupsOf(branches[..i + 1], keys + [k]) == GroupsOf(branches[..i], keys) + [GroupOf(branches[i], k)]
  {
    hide Splits, HasTag, GroupOf;
    assert forall j | 0 <= j < i :: branches[..i + 1][j] == branches[..i][j] && (keys + [k])[j] == keys[j];
    assert branches[..i + 1][i] == branches[i] && (keys + [k])[i] == k;
  }

  lemma {:induction false} SplitAll(st: State, branches: seq<Schema>, keys: seq<Option<string>>, splits: map<Schema, seq<Schema>>)
    requires SplitUpTo(st, Discriminator(branches), branches, keys, splits)
    ensures SplitBy(st, branches, keys)
  {
    hide SplitKeys, HasTag, Discriminator;
  }

  lemma {:induction false} ByKeysIsGrouped(st: State, branches: seq<Schema>, keys: seq<Option<string>>)
    requires SplitBy(st, branches, keys)
    ensures Grouped(branches, GroupsOf(branches, keys))
  {
    hide Grouped, HasTag;
  }

  lemma {:induction false} Unsplit(names: map<Schema, string>, key: Option<string>, branch: Schema, splits: map<Schema, seq<Schema>>)
    requires key.None? || !HasTag(branch, key.value) || branch in names
    ensures SplitAs(names, key, branch, splits, splits, None) && GroupOf(branch, None) == [branch] && Group(branch, [branch])
  {
    hide HasTag;
  }

  /** The tag the memo took a branch apart for. */
  lemma {:induction false} Memo(st: State, universe: set<Schema>, top: Option<Schema>, branch: Schema, key: Option<string>) returns (k: Option<string>)
    requires Sound(st, universe, top) && branch in st.splits && key.Some? && HasTag(branch, key.value) && Splits(branch, key.value)
    ensures k.Some? && Splits(branch, k.value) && st.splits[branch] == Copies(branch, k.value)
    ensures st.splits[branch] == Copies(branch, key.value) ==> k == key
  {
    hide NamesSound, QueueSound, DefsSound, Copies, HasTag;
    if st.splits[branch] == Copies(branch, key.value) {
      k := key;
    } else {
      var memo: string :| Splits(branch, memo) && st.splits[branch] == Copies(branch, memo);
      k := Some(memo);
    }
  }

  lemma {:induction false} SplitNow(names: map<Schema, string>, key: Option<string>, branch: Schema, before: map<Schema, seq<Schema>>,
                                    splits: map<Schema, seq<Schema>>, k: Option<string>)
    requires key.Some? && HasTag(branch, key.value) && branch !in names && k.Some? && Splits(branch, k.value)
    requires splits == (if branch !in before then before[branch := Copies(branch, key.value)] else before)
    requires splits[branch] == Copies(branch, k.value) && (splits[branch] == Copies(branch, key.value) ==> k == key)
    ensures SplitAs(names, key, branch, before, splits, k) && splits[branch] == GroupOf(branch, k) && Group(branch, splits[branch])
  {
    hide HasTag, Copies;
  }

  lemma {:induction false} FlattenMore(groups: seq<seq<Schema>>, group: seq<Schema>)
    ensures Flatten(groups + [group]) == Flatten(groups) + group
  {
    if groups == [] {
      assert [] + [group] == [group];
    } else {
      assert (groups + [group])[1..] == groups[1..] + [group];
      FlattenMore(groups[1..], group);
    }
  }

  lemma {:induction false} BodyIsDenoted(env: Env, d: Doc, s: Schema)
    requires BodyDenotes(env, d, s) && s in env.inlined
    ensures Denotes(env, d, s) && d.Body?
  {
  }

  lemma {:induction false} PropertiesInside(universe: set<Schema>, s: Schema)
    requires Closed(universe) && s in universe
    ensures forall part | part in SchemasOf(s.properties) :: part in universe && Weight(part) < Weight(s)
  {
    forall part | part in SchemasOf(s.properties) ensures part in universe && Weight(part) < Weight(s) {
      var i :| 0 <= i < |s.properties| && SchemasOf(s.properties)[i] == part;
      assert s.properties[i].schema == part;
      ChildInUniverse(universe, s, part);
    }
  }

  // ----- What the bundle promises

  /** Every reference inside a document uses a known name. */
  ghost predicate RefsIn(d: Doc, known: set<string>)
    decreases d
  {
    match d
    case Ref(name) => name in known
    case Body(_, _, _, _, _, _, _, _, _, _) =>
      && (forall i | 0 <= i < |d.properties| :: RefsIn(d.properties[i].doc, known))
      && (d.additional.DocEach? ==> RefsIn(d.additional.doc, known))
      && (d.items.Some? ==> RefsIn(d.items.value, known))
      && (d.oneOf.Docs? ==> forall x | x in d.oneOf.list :: RefsIn(x, known))
      && (d.anyOf.Docs? ==> forall x | x in d.anyOf.list :: RefsIn(x, known))
  }

  lemma {:induction false} DenotedRefs(env: Env, d: Doc, s: Schema)
    requires Denotes(env, d, s)
    ensures RefsIn(d, env.asked)
    decreases Weight(s), 2
  {
    if d.Body? {
      BodyRefs(env, d, s);
    }
  }

  lemma {:induction false} BodyRefs(env: Env, d: Doc, s: Schema)
    requires BodyDenotes(env, d, s)
    ensures RefsIn(d, env.asked)
    decreases Weight(s), 1
  {
    assert PropertiesDenote(env, d.properties, s.properties, Weight(s)) && AdditionalDenotes(env, d.additional, s.additional, Weight(s));
    assert ItemsDenote(env, d.items, s.items, Weight(s));
    forall i | 0 <= i < |d.properties| ensures RefsIn(d.properties[i].doc, env.asked) {
      DenotedRefs(env, d.properties[i].doc, s.properties[i].schema);
    }
    if d.additional.DocEach? {
      DenotedRefs(env, d.additional.doc, s.additional.schema);
    }
    if d.items.Some? {
      DenotedRefs(env, d.items.value, s.items.value);
    }
    if d.oneOf.Docs? {
      UnionRefs(env, d.oneOf, s.oneOf, Weight(s));
    }
    if d.anyOf.Docs? {
      UnionRefs(env, d.anyOf, s.anyOf, Weight(s));
    }
    hide Denotes, BodyDenotes, Weight;
  }

  lemma {:induction false} UnionRefs(env: Env, docs: DocBranches, branches: Branches, w: nat)
    requires UnionDenotes(env, docs, branches, w) && docs.Docs?
    ensures forall x | x in docs.list :: RefsIn(x, env.asked)
    decreases w, 0
  {
    var groups: seq<seq<Schema>> :| Grouped(branches.list, groups) && TakenApart(env.inlined, branches.list, groups) && AllDenote(env, docs.list, Flatten(groups), w);
    forall i | 0 <= i < |docs.list| ensures RefsIn(docs.list[i], env.asked) {
      DenotedRefs(env, docs.list[i], Flatten(groups)[i]);
    }
  }

  /** After the worklist ends every reference leads to a definition, and different schemas have different names. */
  lemma {:induction false} ReferencesAreDefined(st: State, universe: set<Schema>)
    requires Sound(st, universe, None) && st.queue == []
    ensures st.asked == st.defs.Keys && Complete(EnvOf(st), st.defs)
    ensures forall name | name in st.defs :: RefsIn(st.defs[name], st.defs.Keys)
    ensures forall s, t | s in st.names && t in st.names && s != t :: st.names[s] != st.names[t]
  {
    assert st.asked == st.defs.Keys;
    hide QueueSound, SplitsSound, BodyDenotes, RefsIn;
    forall name | name in st.defs ensures RefsIn(st.defs[name], st.defs.Keys) {
      assert name in st.asked && name in st.used;
      var s :| s in st.names && st.names[s] == name;
      BodyRefs(EnvOf(st), st.defs[name], s);
    }
  }

  /** A document accepts exactly the JSON a schema does, whatever the regular expressions mean. */
  ghost predicate AcceptsSame(defs: Defs, d: Doc, s: Schema) {
    forall re: Regex, v: Json, fuel: nat | Weight(s) <= fuel :: DocAccepts(re, defs, d, v, fuel) <==> Accepts(re, s, v)
  }

  lemma {:induction false} AcceptedJsonIsIdentical(st: State, universe: set<Schema>, d: Doc, s: Schema)
    requires Sound(st, universe, None) && st.queue == [] && Denotes(EnvOf(st), d, s) && WellTagged(s)
    ensures AcceptsSame(st.defs, d, s)
  {
    ReferencesAreDefined(st, universe);
    hide Sound, Complete, Denotes, WellTagged, DocAccepts, Accepts, Weight;
    forall re: Regex, v: Json, fuel: nat | Weight(s) <= fuel ensures DocAccepts(re, st.defs, d, v, fuel) <==> Accepts(re, s, v) {
      DenotesSame(re, EnvOf(st), st.defs, d, s, v, fuel);
    }
  }

  // ----- Every named schema is defined

  /** Rendering a schema comes to another: to its properties, but for tags it may be taken apart for when it has no name; to
      further properties, items and branches. */
  ghost predicate Uses(given: map<Schema, string>, s: Schema, c: Schema) {
    || (exists i | 0 <= i < |s.properties| :: s.properties[i].schema == c && (IsNamed(given, s) || !HasTag(s, s.properties[i].key)))
    || (s.additional.Each? && c == s.additional.schema)
    || (s.items.Some? && c == s.items.value)
    || (s.oneOf.Branches? && c in s.oneOf.list)
    || (s.anyOf.Branches? && c in s.anyOf.list)
  }

  ghost predicate UsesAlong(given: map<Schema, string>, path: seq<Schema>) {
    path != [] && forall i | 0 <= i < |path| - 1 :: Uses(given, path[i], path[i + 1])
  }

  /** A schema is rendered somewhere: by a document of its own place, or by one of the copies it was taken apart into. */
  ghost predicate Rendered(env: Env, s: Schema) {
    || (exists d :: Denotes(env, d, s))
    || (s in env.inlined && exists key: string, d :: Splits(s, key) && Denotes(env, d, CopyFor(s, key, 0)))
  }

  lemma {:induction false} InFlatten(groups: seq<seq<Schema>>, j: nat, c: Schema)
    requires j < |groups| && c in groups[j]
    ensures c in Flatten(groups)
  {
    if j > 0 {
      InFlatten(groups[1..], j - 1, c);
    }
  }

  lemma {:induction false} BranchIsRendered(env: Env, docs: DocBranches, branches: Branches, w: nat, c: Schema)
    requires UnionDenotes(env, docs, branches, w) && branches.Branches? && c in branches.list
    ensures Rendered(env, c)
  {
    var groups: seq<seq<Schema>> :| Grouped(branches.list, groups) && TakenApart(env.inlined, branches.list, groups) && AllDenote(env, docs.list, Flatten(groups), w);
    hide Denotes, Splits, Weight, Grouped, CopyFor;
    var j :| 0 <= j < |branches.list| && branches.list[j] == c;
    SomeOfGroup(branches.list, groups, j);
    if groups[j] == [c] {
      InFlatten(groups, j, c);
      var k :| 0 <= k < |Flatten(groups)| && Flatten(groups)[k] == c;
      assert Denotes(env, docs.list[k], Flatten(groups)[k]);
    } else {
      var key: string :| Splits(c, key) && groups[j] == Copies(c, key);
      var copy := FirstCopy(c, key);
      InFlatten(groups, j, copy);
      var k :| 0 <= k < |Flatten(groups)| && Flatten(groups)[k] == copy;
      assert Denotes(env, docs.list[k], copy);
    }
  }

  lemma {:induction false} SomeOfGroup(branches: seq<Schema>, groups: seq<seq<Schema>>, j: nat)
    requires Grouped(branches, groups) && j < |branches|
    ensures |groups| == |branches| && Group(branches[j], groups[j])
  {
  }

  lemma {:induction false} FirstCopy(s: Schema, key: string) returns (copy: Schema)
    requires Splits(s, key)
    ensures copy == CopyFor(s, key, 0) && copy in Copies(s, key)
  {
    copy := Copies(s, key)[0];
  }

  /** What is written out renders all that is directly inside. */
  lemma {:induction false} InsideIsRendered(env: Env, d: Doc, s: Schema, c: Schema)
    requires BodyDenotes(env, d, s) && Inside(c, s)
    ensures Rendered(env, c)
  {
    assert PropertiesDenote(env, d.properties, s.properties, Weight(s)) && AdditionalDenotes(env, d.additional, s.additional, Weight(s));
    assert ItemsDenote(env, d.items, s.items, Weight(s));
    if i :| 0 <= i < |s.properties| && s.properties[i].schema == c {
      assert Denotes(env, d.properties[i].doc, c);
    } else if s.additional.Each? && c == s.additional.schema {
      assert Denotes(env, d.additional.doc, c);
    } else if s.items.Some? && c == s.items.value {
      assert Denotes(env, d.items.value, c);
    } else if s.oneOf.Branches? && c in s.oneOf.list {
      BranchIsRendered(env, d.oneOf, s.oneOf, Weight(s), c);
    } else {
      BranchIsRendered(env, d.anyOf, s.anyOf, Weight(s), c);
    }
    hide Denotes, BodyDenotes, Weight, UnionDenotes;
  }

  lemma {:induction false} DocumentOf(env: Env, defs: Defs, d: Doc, s: Schema) returns (body: Doc)
    requires Denotes(env, d, s) && Complete(env, defs)
    ensures BodyDenotes(env, body, s)
  {
    body := if d.Ref? then defs[d.name] else d;
    hide BodyDenotes;
  }

  /** A copy of a branch has all that is inside the branch but its tag. */
  lemma {:induction false} CopyHasInside(given: map<Schema, string>, s: Schema, key: string, c: Schema)
    requires HasTag(s, key) && Uses(given, s, c) && !IsNamed(given, s)
    ensures Inside(c, CopyFor(s, key, 0))
  {
    var copy := CopyFor(s, key, 0);
    if i :| 0 <= i < |s.properties| && s.properties[i].schema == c && !HasTag(s, s.properties[i].key) {
      var at := SetPropPlace(s.properties, key, TagFor(Tag(s, key), 0));
      assert copy.properties[i] == s.properties[i];
    }
  }

  lemma {:induction false} UseIsRendered(env: Env, defs: Defs, given: map<Schema, string>, s: Schema, c: Schema)
    requires Complete(env, defs) && KeepsGiven(given, env) && Rendered(env, s) && Uses(given, s, c)
    ensures Rendered(env, c)
  {
    hide Complete, Uses, HasTag, BodyDenotes, Denotes, CopyFor, Inside, Rendered;
    if d :| Denotes(env, d, s) {
      var body := DocumentOf(env, defs, d, s);
      UseIsInside(given, s, c);
      InsideIsRendered(env, body, s, c);
    } else {
      var key, d := RenderedApart(env, s);
      var body := DocumentOf(env, defs, d, CopyFor(s, key, 0));
      CopyHasInside(given, s, key, c);
      InsideIsRendered(env, body, CopyFor(s, key, 0), c);
    }
  }

  lemma {:induction false} RenderedApart(env: Env, s: Schema) returns (key: string, d: Doc)
    requires Rendered(env, s) && !exists d :: Denotes(env, d, s)
    ensures s in env.inlined && HasTag(s, key) && Denotes(env, d, CopyFor(s, key, 0))
  {
    hide Denotes, HasTag, CopyFor;
    key, d :| Splits(s, key) && Denotes(env, d, CopyFor(s, key, 0));
  }

  lemma {:induction false} UseIsInside(given: map<Schema, string>, s: Schema, c: Schema)
    requires Uses(given, s, c)
    ensures Inside(c, s)
  {
  }

  /** Every schema that was given a name and is used, however far down, by one that is rendered, has a definition. */
  lemma {:induction false} UsedIsDefined(env: Env, defs: Defs, given: map<Schema, string>, path: seq<Schema>)
    requires Complete(env, defs) && env.asked <= defs.Keys && KeepsGiven(given, env)
    requires UsesAlong(given, path) && Rendered(env, path[0]) && IsNamed(given, path[|path| - 1])
    ensures given[path[|path| - 1]] in defs
  {
    hide Complete, Uses, BodyDenotes;
    if |path| == 1 {
      var s := path[0];
      hide BodyDenotes;
      assert s !in env.inlined;
      var d :| Denotes(env, d, s);
    } else {
      UseIsRendered(env, defs, given, path[0], path[1]);
      forall i | 0 <= i < |path[1..]| - 1 ensures Uses(given, path[1..][i], path[1..][i + 1]) {
        assert path[1..][i] == path[i + 1] && path[1..][i + 1] == path[(i + 1) + 1];
      }
      UsedIsDefined(env, defs, given, path[1..]);
    }
  }

  /** Every definition is the document of a schema of that name. */
  ghost predicate DefinesNamed(env: Env, defs: Defs) {
    forall name | name in defs :: exists s | s in env.names :: env.names[s] == name && BodyDenotes(env, defs[name], s)
  }

  lemma {:induction false} DefinitionsAreOfNamed(st: State, universe: set<Schema>)
    requires Sound(st, universe, None) && st.queue == []
    ensures DefinesNamed(EnvOf(st), st.defs)
  {
    assert st.asked == st.defs.Keys;
    hide QueueSound, SplitsSound, BodyDenotes;
    forall name | name in st.defs ensures exists s | s in st.names :: st.names[s] == name && BodyDenotes(EnvOf(st), st.defs[name], s) {
      assert name in st.asked && name in st.used;
      var s :| s in st.names && st.names[s] == name;
    }
  }

  /** The whole generator. The documents it returns accept what the schemas asked for accept; no schema that was given a name is
      written out inside another's document; and each one used by what was asked for, however far down, has its definition. */
  method Compile(primitives: set<Schema>, suffixes: map<string, string>, pascal: string -> string, steps: seq<Request>)
    returns (ok: bool, refs: seq<Doc>, defs: Defs, ghost env: Env)
    ensures !ok && Consistent(primitives, steps) ==> Clash(pascal, suffixes, primitives, env.names)
    ensures ok ==> |refs| == |Asked(steps)| && forall name | name in defs :: RefsIn(defs[name], defs.Keys)
    ensures ok ==> forall i | 0 <= i < |refs| :: RefsIn(refs[i], defs.Keys) && (WellTagged(Asked(steps)[i]) ==> AcceptsSame(defs, refs[i], Asked(steps)[i]))
    ensures ok ==> DefinesNamed(env, defs) && forall i | 0 <= i < |refs| :: Denotes(env, refs[i], Asked(steps)[i])
    ensures ok || Consistent(primitives, steps) ==>
              KeepsGiven(GivenNames(primitives, steps), env) && NamesComeFrom(pascal, suffixes, GivenNames(primitives, steps), env.names)
    ensures ok ==> AllHoisted(suffixes, primitives, env.names, defs)
    ensures ok ==> AllUsedAreDefined(GivenNames(primitives, steps), steps, defs)
  {
    hide Clash, NamesComeFrom, AllHoisted, KeepsGiven, GivenNames, Consistent, Closed, Everything, AllUsedAreDefined;
    ghost var universe := Everything(steps);
    EverythingIsClosed(steps);
    var bundle := new Bundle(primitives, suffixes, pascal, universe);
    ok, refs := bundle.Build(steps);
    defs := bundle.defs;
    env := EnvOf(bundle.Now());
    if ok {
      ghost var st := bundle.Now();
      ReferencesAreDefined(st, universe);
      DefinitionsAreOfNamed(st, universe);
      hide Sound, WellTagged, AcceptsSame, Complete, Denotes, RefsIn, DefinesNamed, Asked;
      forall i | 0 <= i < |refs|
        ensures Denotes(env, refs[i], Asked(steps)[i])
        ensures RefsIn(refs[i], defs.Keys) && (WellTagged(Asked(steps)[i]) ==> AcceptsSame(defs, refs[i], Asked(steps)[i]))
      {
        DenotedRefs(EnvOf(st), refs[i], Asked(steps)[i]);
        if WellTagged(Asked(steps)[i]) {
          AcceptedJsonIsIdentical(st, universe, refs[i], Asked(steps)[i]);
        }
      }
      UsedByAsked(env, defs, GivenNames(primitives, steps), steps, refs);
    }
  }

  ghost predicate AllUsedAreDefined(given: map<Schema, string>, steps: seq<Request>, defs: Defs) {
    forall path | UsesAlong(given, path) && path[0] in Asked(steps) && IsNamed(given, path[|path| - 1]) :: given[path[|path| - 1]] in defs
  }

  lemma {:induction false} UsedByAsked(env: Env, defs: Defs, given: map<Schema, string>, steps: seq<Request>, refs: seq<Doc>)
    requires Complete(env, defs) && env.asked <= defs.Keys && KeepsGiven(given, env)
    requires |refs| == |Asked(steps)| && forall i | 0 <= i < |refs| :: Denotes(env, refs[i], Asked(steps)[i])
    ensures AllUsedAreDefined(given, steps, defs)
  {
    hide Complete, KeepsGiven, Denotes, Uses;
    forall path | UsesAlong(given, path) && path[0] in Asked(steps) && IsNamed(given, path[|path| - 1])
      ensures given[path[|path| - 1]] in defs
    {
      var i :| 0 <= i < |Asked(steps)| && Asked(steps)[i] == path[0];
      assert Denotes(env, refs[i], path[0]);
      UsedIsDefined(env, defs, given, path);
    }
  }

  ghost function Everything(steps: seq<Request>): set<Schema> {
    if steps == [] then {} else Reach(steps[0].schema) + Everything(steps[1..])
  }

  lemma {:induction false} EverythingIsClosed(steps: seq<Request>)
    ensures Closed(Everything(steps)) && forall t | t in steps :: t.schema in Everything(steps)
  {
    if steps != [] {
      ReachClosed(steps[0].schema);
      EverythingIsClosed(steps[1..]);
      hide Parts;
    }
  }
}
