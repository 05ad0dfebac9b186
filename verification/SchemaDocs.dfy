/** The JSON Schema documents `Bundle.render` (scripts/gen-protocol-schema.ts) emits: what they accept, and why
    that is what the source schemas accept. */
module SchemaDocs {
  import opened Outcomes
  import opened Schemas
  import opened SchemaSplit

  datatype DocProperty = DocProperty(key: string, doc: Doc)

  datatype DocBranches = NoDocs | Docs(list: seq<Doc>)

  datatype DocAdditional = DocUnsaid | DocForbidden | DocEach(doc: Doc)

  /** An emitted schema: a `$ref` into `$defs`, or keywords. */
  datatype Doc =
    | Ref(name: string)
    | Body(kind: Option<Kind>, constant: Option<Scalar>, values: Option<seq<Scalar>>, properties: seq<DocProperty>, required: seq<string>,
           additional: DocAdditional, items: Option<Doc>, bounds: Bounds, oneOf: DocBranches, anyOf: DocBranches)

  type Defs = map<string, Doc>

  // ----- Acceptance

  predicate DocHas(properties: seq<DocProperty>, key: string) { exists p | p in properties :: p.key == key }

  function DocFlags(re: Regex, defs: Defs, docs: seq<Doc>, v: Json, fuel: nat): (flags: seq<bool>)
    ensures |flags| == |docs| && forall i | 0 <= i < |docs| :: flags[i] == DocAccepts(re, defs, docs[i], v, fuel)
    decreases fuel, docs
  {
    if docs == [] then [] else [DocAccepts(re, defs, docs[0], v, fuel)] + DocFlags(re, defs, docs[1..], v, fuel)
  }

  predicate DocPropertiesAccept(re: Regex, defs: Defs, properties: seq<DocProperty>, fields: map<string, Json>, fuel: nat)
    decreases fuel, properties
  {
    forall i | 0 <= i < |properties| ::
      properties[i].key in fields ==> DocAccepts(re, defs, properties[i].doc, fields[properties[i].key], fuel)
  }

  predicate DocObjectAccepts(re: Regex, defs: Defs, d: Doc, fields: map<string, Json>, fuel: nat)
    requires d.Body?
    decreases fuel, d, 0
  {
    && (forall key | key in d.required :: key in fields)
    && DocPropertiesAccept(re, defs, d.properties, fields, fuel)
    && (d.additional.DocForbidden? ==> forall key | key in fields :: DocHas(d.properties, key))
    && (d.additional.DocEach? ==> forall key | key in fields && !DocHas(d.properties, key) :: DocAccepts(re, defs, d.additional.doc, fields[key], fuel))
  }

  predicate DocUnionAccepts(re: Regex, defs: Defs, d: Doc, v: Json, fuel: nat)
    requires d.Body?
    decreases fuel, d, 0
  {
    && (d.oneOf.Docs? ==> OneOf(DocFlags(re, defs, d.oneOf.list, v, fuel)))
    && (d.anyOf.Docs? ==> AnyOf(DocFlags(re, defs, d.anyOf.list, v, fuel)))
  }

  /** Acceptance through at most `fuel` references one inside another. */
  predicate DocAccepts(re: Regex, defs: Defs, d: Doc, v: Json, fuel: nat)
    decreases fuel, d, 1
  {
    match d
    case Ref(name) => fuel > 0 && name in defs && DocAccepts(re, defs, defs[name], v, fuel - 1)
    case Body(_, _, _, _, _, _, _, _, _, _) =>
      && (d.kind.Some? ==> HasKind(d.kind.value, v))
      && (d.constant.Some? ==> v == Atom(d.constant.value))
      && (d.values.Some? ==> v.Atom? && v.x in d.values.value)
      && InBounds(re, d.bounds, v)
      && (v.Obj? ==> DocObjectAccepts(re, defs, d, v.fields, fuel))
      && (v.Arr? && d.items.Some? ==> forall x | x in v.items :: DocAccepts(re, defs, d.items.value, x, fuel))
      && DocUnionAccepts(re, defs, d, v, fuel)
  }

  // ----- The size of a schema

  function Weight(s: Schema): (w: nat)
    ensures w >= 1
    decreases s
  {
    1 + (if s.values.Some? then |s.values.value| else 0) + WeightOfProperties(s.properties)
    + (if s.additional.Each? then Weight(s.additional.schema) else 0) + (if s.items.Some? then Weight(s.items.value) else 0)
    + (if s.oneOf.Branches? then WeightOfAll(s.oneOf.list) else 0) + (if s.anyOf.Branches? then WeightOfAll(s.anyOf.list) else 0)
  }

  function WeightOfAll(schemas: seq<Schema>): nat
    decreases schemas
  {
    if schemas == [] then 0 else Weight(schemas[0]) + WeightOfAll(schemas[1..])
  }

  function WeightOfProperties(properties: seq<Property>): nat
    decreases properties
  {
    if properties == [] then 0 else Weight(properties[0].schema) + WeightOfProperties(properties[1..])
  }

  lemma {:induction false} WeightInAll(schemas: seq<Schema>, i: nat)
    requires i < |schemas|
    ensures Weight(schemas[i]) <= WeightOfAll(schemas)
  {
    if i > 0 {
      WeightInAll(schemas[1..], i - 1);
    }
  }

  lemma {:induction false} WeightInProperties(properties: seq<Property>, i: nat)
    requires i < |properties|
    ensures Weight(properties[i].schema) <= WeightOfProperties(properties)
  {
    if i > 0 {
      WeightInProperties(properties[1..], i - 1);
    }
  }

  /** A schema directly inside another. */
  ghost predicate Inside(child: Schema, s: Schema) {
    || (exists i | 0 <= i < |s.properties| :: s.properties[i].schema == child)
    || (s.additional.Each? && child == s.additional.schema)
    || (s.items.Some? && child == s.items.value)
    || (s.oneOf.Branches? && child in s.oneOf.list)
    || (s.anyOf.Branches? && child in s.anyOf.list)
  }

  lemma {:induction false} InsideIsLighter(child: Schema, s: Schema)
    requires Inside(child, s)
    ensures Weight(child) < Weight(s)
  {
    if i :| 0 <= i < |s.properties| && s.properties[i].schema == child {
      WeightInProperties(s.properties, i);
    } else if s.oneOf.Branches? && child in s.oneOf.list {
      var i :| 0 <= i < |s.oneOf.list| && s.oneOf.list[i] == child;
      WeightInAll(s.oneOf.list, i);
    } else if s.anyOf.Branches? && child in s.anyOf.list {
      var i :| 0 <= i < |s.anyOf.list| && s.anyOf.list[i] == child;
      WeightInAll(s.anyOf.list, i);
    }
  }

  lemma {:induction false} WeightOfSet(properties: seq<Property>, key: string, schema: Schema)
    requires Has(properties, key)
    ensures WeightOfProperties(SetProp(properties, key, schema)) + Weight(Prop(properties, key).value) == WeightOfProperties(properties) + Weight(schema)
  {
    var r := SetProp(properties, key, schema);
    if properties[0].key == key {
      assert r[1..] == properties[1..];
    } else {
      assert Has(properties[1..], key);
      WeightOfSet(properties[1..], key, schema);
      assert r[1..] == SetProp(properties[1..], key, schema);
    }
  }

  lemma {:induction false} CopyIsLighter(s: Schema, key: string, i: nat)
    requires HasTag(s, key) && i < |TagValues(s, key)|
    ensures Weight(CopyFor(s, key, i)) < Weight(s)
  {
    var tag := TagFor(Tag(s, key), i);
    WeightOfSet(s.properties, key, tag);
    TagForIsLighter(Tag(s, key), i);
    SameButProperties(s, CopyOf(s.id, i), SetProp(s.properties, key, tag));
    hide Weight, WeightOfProperties, SetProp;
  }

  lemma {:induction false} TagForIsLighter(tag: Schema, i: nat)
    requires tag.values.Some? && i < |tag.values.value| && |tag.values.value| >= 2
    ensures Weight(TagFor(tag, i)) < Weight(tag)
  {
    hide WeightOfProperties, WeightOfAll;
  }

  lemma {:induction false} SameButProperties(s: Schema, id: Id, properties: seq<Property>)
    ensures Weight(s.(id := id, properties := properties)) + WeightOfProperties(s.properties) == Weight(s) + WeightOfProperties(properties)
  {
    hide WeightOfProperties, WeightOfAll;
  }

  /** The branches and copies a union is rendered as. */
  lemma {:induction false} PartsAreLighter(branches: seq<Schema>, groups: seq<seq<Schema>>, w: nat)
    requires Grouped(branches, groups) && forall i | 0 <= i < |branches| :: Weight(branches[i]) < w
    ensures forall part | part in Flatten(groups) :: Weight(part) < w
  {
    if branches != [] {
      GroupedRest(branches, groups);
      PartsAreLighter(branches[1..], groups[1..], w);
      forall part | part in Flatten(groups) ensures Weight(part) < w {
        if part in groups[0] && groups[0] != [branches[0]] {
          var key: string :| Splits(branches[0], key) && groups[0] == Copies(branches[0], key);
          var i :| 0 <= i < |groups[0]| && groups[0][i] == part;
          CopyIsLighter(branches[0], key, i);
        }
      }
    }
  }

  // ----- When a document stands for a schema

  /** The names given so far, those asked for by a `$ref`, and the schemas that were written out in place: as keywords inside
      another schema's document, or taken apart into copies. */
  datatype Env = Env(names: map<Schema, string>, asked: set<string>, inlined: set<Schema>)

  predicate NamedAs(env: Env, s: Schema, name: string) { s in env.names && env.names[s] == name && name in env.asked }

  /** The kind of all of some values, unless they differ or are all null. */
  function KindOfAll(values: seq<Scalar>): Option<Kind> {
    if values == [] then None
    else if forall x | x in values :: x.Str? then Some(StringKind)
    else if forall x | x in values :: x.Bool? then Some(BooleanKind)
    else if forall x | x in values :: x.Num? then Some(if forall x | x in values :: IsInteger(x.n) then IntegerKind else NumberKind)
    else None
  }

  /** The kind emitted: the schema's own, or else the one its values have. */
  function KindOut(s: Schema): Option<Kind> {
    if s.kind.Some? then s.kind else if s.values.Some? then KindOfAll(s.values.value) else None
  }

  function ConstantOut(s: Schema): Option<Scalar> {
    if s.values.Some? && |s.values.value| == 1 then Some(s.values.value[0]) else None
  }

  function ValuesOut(s: Schema): Option<seq<Scalar>> {
    if s.values.Some? && |s.values.value| != 1 then s.values else None
  }

  ghost predicate Denotes(env: Env, d: Doc, s: Schema)
    decreases Weight(s), 3
  {
    match d
    case Ref(name) => NamedAs(env, s, name)
    case Body(_, _, _, _, _, _, _, _, _, _) => s in env.inlined && BodyDenotes(env, d, s)
  }

  ghost predicate BodyDenotes(env: Env, d: Doc, s: Schema)
    decreases Weight(s), 2
  {
    && d.Body? && d.kind == KindOut(s) && d.constant == ConstantOut(s) && d.values == ValuesOut(s)
    && d.required == s.required && d.bounds == s.bounds
    && PropertiesDenote(env, d.properties, s.properties, Weight(s))
    && AdditionalDenotes(env, d.additional, s.additional, Weight(s))
    && ItemsDenote(env, d.items, s.items, Weight(s))
    && UnionDenotes(env, d.oneOf, s.oneOf, Weight(s))
    && UnionDenotes(env, d.anyOf, s.anyOf, Weight(s))
  }

  ghost predicate PropertiesDenote(env: Env, docs: seq<DocProperty>, properties: seq<Property>, w: nat)
    decreases w, 0
  {
    && |docs| == |properties|
    && forall i | 0 <= i < |properties| ::
         docs[i].key == properties[i].key && Weight(properties[i].schema) < w && Denotes(env, docs[i].doc, properties[i].schema)
  }

  ghost predicate AdditionalDenotes(env: Env, d: DocAdditional, a: Additional, w: nat)
    decreases w, 0
  {
    match a
    case Unsaid => d.DocUnsaid?
    case Forbidden => d.DocForbidden?
    case Each(t) => d.DocEach? && Weight(t) < w && Denotes(env, d.doc, t)
  }

  ghost predicate ItemsDenote(env: Env, d: Option<Doc>, items: Option<Schema>, w: nat)
    decreases w, 0
  {
    match items
    case None => d.None?
    case Some(t) => d.Some? && Weight(t) < w && Denotes(env, d.value, t)
  }

  ghost predicate AllDenote(env: Env, docs: seq<Doc>, parts: seq<Schema>, w: nat)
    decreases w, 0
  {
    |docs| == |parts| && forall i | 0 <= i < |parts| :: Weight(parts[i]) < w && Denotes(env, docs[i], parts[i])
  }

  ghost predicate UnionDenotes(env: Env, docs: DocBranches, branches: Branches, w: nat)
    decreases w, 1
  {
    match branches
    case NoBranches => docs.NoDocs?
    case Branches(list) =>
      docs.Docs? && exists groups: seq<seq<Schema>> :: Grouped(list, groups) && TakenApart(env.inlined, list, groups) && AllDenote(env, docs.list, Flatten(groups), w)
  }

  /** What is not rendered as it is was taken apart. */
  ghost predicate TakenApart(inlined: set<Schema>, branches: seq<Schema>, groups: seq<seq<Schema>>) {
    forall i | 0 <= i < |branches| && i < |groups| :: groups[i] == [branches[i]] || branches[i] in inlined
  }

  /** Every name asked for is defined by a document for the schema of that name. */
  ghost predicate Complete(env: Env, defs: Defs) {
    forall s | s in env.names && env.names[s] in env.asked :: env.names[s] in defs && BodyDenotes(env, defs[env.names[s]], s)
  }

  /** Branches of a `oneOf` can be taken apart, everywhere in a schema. */
  ghost predicate WellTagged(s: Schema)
    decreases s
  {
    && (forall i | 0 <= i < |s.properties| :: WellTagged(s.properties[i].schema))
    && (s.additional.Each? ==> WellTagged(s.additional.schema))
    && (s.items.Some? ==> WellTagged(s.items.value))
    && (s.oneOf.Branches? ==> forall b | b in s.oneOf.list :: Tidy(b) && WellTagged(b))
    && (s.anyOf.Branches? ==> forall b | b in s.anyOf.list :: WellTagged(b))
  }

  // ----- The accepted JSON is identical

  lemma {:induction false} KindOfAllHolds(values: seq<Scalar>, x: Scalar)
    requires x in values && KindOfAll(values).Some?
    ensures HasKind(KindOfAll(values).value, Atom(x))
  {
  }

  /** The kind emitted for values without one of their own: the narrowest that all of them have, but for null. */
  lemma {:induction false} KindIsOfValues(s: Schema, k: Kind)
    ensures s.kind.Some? ==> KindOut(s) == s.kind
    ensures s.kind.None? ==>
              (KindOut(s) == Some(k) <==>
                && s.values.Some? && s.values.value != [] && k != NullKind && (forall x | x in s.values.value :: HasKind(k, Atom(x)))
                && (k == NumberKind ==> exists x | x in s.values.value :: !HasKind(IntegerKind, Atom(x))))
  {
    if s.kind.None? && s.values.Some? && s.values.value != [] {
      var values := s.values.value;
      assert values[0] in values;
      if forall x | x in values :: x.Num? {
        if exists x | x in values :: !IsInteger(x.n) {
          var x :| x in values && !IsInteger(x.n);
          assert !HasKind(IntegerKind, Atom(x));
        } else {
          assert forall x | x in values :: HasKind(IntegerKind, Atom(x));
        }
      }
    }
  }

  /** A single value is written as `const`, any other number of them as `enum`. */
  lemma {:induction false} ValuesAreWrittenOnce(s: Schema, x: Scalar)
    ensures ConstantOut(s) == Some(x) <==> s.values == Some([x])
    ensures ValuesOut(s) == s.values <==> ConstantOut(s).None?
    ensures ConstantOut(s).Some? ==> ValuesOut(s).None?
  {
    if s.values.Some? && |s.values.value| == 1 {
      assert s.values.value == [s.values.value[0]];
    }
  }

  /** Naming the kind of enum values, and writing a single value as `const`, changes nothing. */
  lemma {:induction false} SameValues(d: Doc, s: Schema, v: Json)
    requires d.Body? && d.kind == KindOut(s) && d.constant == ConstantOut(s) && d.values == ValuesOut(s)
    ensures (d.kind.Some? ==> HasKind(d.kind.value, v)) && (d.constant.Some? ==> v == Atom(d.constant.value))
            && (d.values.Some? ==> v.Atom? && v.x in d.values.value)
       <==> (s.kind.Some? ==> HasKind(s.kind.value, v)) && (s.values.Some? ==> v.Atom? && v.x in s.values.value)
  {
    if s.values.Some? && v.Atom? && v.x in s.values.value && KindOfAll(s.values.value).Some? {
      KindOfAllHolds(s.values.value, v.x);
    }
  }

  lemma {:induction false} SetPropTagged(properties: seq<Property>, key: string, schema: Schema)
    requires Has(properties, key) && WellTagged(schema) && forall i | 0 <= i < |properties| :: WellTagged(properties[i].schema)
    ensures forall i | 0 <= i < |properties| :: WellTagged(SetProp(properties, key, schema)[i].schema)
  {
    var at := SetPropPlace(properties, key, schema);
  }

  lemma {:induction false} CopyWellTagged(s: Schema, key: string, i: nat)
    requires WellTagged(s) && HasTag(s, key) && i < |TagValues(s, key)|
    ensures WellTagged(CopyFor(s, key, i))
  {
    var tag := Tag(s, key);
    var at :| 0 <= at < |s.properties| && s.properties[at] == Property(key, tag);
    assert WellTagged(s.properties[at].schema);
    assert WellTagged(TagFor(tag, i));
    SetPropTagged(s.properties, key, TagFor(tag, i));
  }

  lemma {:induction false} PartsWellTagged(branches: seq<Schema>, groups: seq<seq<Schema>>)
    requires Grouped(branches, groups) && forall b | b in branches :: WellTagged(b)
    ensures forall part | part in Flatten(groups) :: WellTagged(part)
  {
    if branches != [] {
      GroupedRest(branches, groups);
      PartsWellTagged(branches[1..], groups[1..]);
      hide WellTagged;
      forall part | part in Flatten(groups) ensures WellTagged(part) {
        if part in groups[0] && groups[0] != [branches[0]] {
          var key: string :| Splits(branches[0], key) && groups[0] == Copies(branches[0], key);
          var i :| 0 <= i < |groups[0]| && groups[0][i] == part;
          CopyWellTagged(branches[0], key, i);
        }
      }
    }
  }

  /** A document that stands for a schema accepts what the schema accepts, given enough steps to follow its
      references: the weight of the schema is enough. */
  lemma {:induction false} DenotesSame(re: Regex, env: Env, defs: Defs, d: Doc, s: Schema, v: Json, fuel: nat)
    requires Denotes(env, d, s) && Complete(env, defs) && WellTagged(s) && Weight(s) <= fuel
    ensures DocAccepts(re, defs, d, v, fuel) <==> Accepts(re, s, v)
    decreases Weight(s), 3
  {
    match d
    case Ref(name) => BodySame(re, env, defs, defs[name], s, v, fuel - 1);
    case Body(_, _, _, _, _, _, _, _, _, _) => BodySame(re, env, defs, d, s, v, fuel);
  }

  lemma {:induction false} BodySame(re: Regex, env: Env, defs: Defs, d: Doc, s: Schema, v: Json, fuel: nat)
    requires BodyDenotes(env, d, s) && Complete(env, defs) && WellTagged(s) && Weight(s) - 1 <= fuel
    ensures DocAccepts(re, defs, d, v, fuel) <==> Accepts(re, s, v)
    decreases Weight(s), 2
  {
    SameValues(d, s, v);
    if v.Obj? {
      ObjectSame(re, env, defs, d, s, v.fields, fuel);
    }
    if v.Arr? && s.items.Some? {
      forall x | x in v.items ensures DocAccepts(re, defs, d.items.value, x, fuel) <==> Accepts(re, s.items.value, x) {
        DenotesSame(re, env, defs, d.items.value, s.items.value, x, fuel);
      }
    }
    if s.oneOf.Branches? {
      UnionSame(re, env, defs, d.oneOf.list, s.oneOf.list, Weight(s), v, fuel, true);
    }
    if s.anyOf.Branches? {
      UnionSame(re, env, defs, d.anyOf.list, s.anyOf.list, Weight(s), v, fuel, false);
    }
    hide Complete, WellTagged, HasKind, InBounds, OneOf, AnyOf, DocObjectAccepts, ObjectAccepts, Weight;
  }

  lemma {:induction false} ObjectSame(re: Regex, env: Env, defs: Defs, d: Doc, s: Schema, fields: map<string, Json>, fuel: nat)
    requires BodyDenotes(env, d, s) && Complete(env, defs) && WellTagged(s) && Weight(s) - 1 <= fuel
    ensures DocObjectAccepts(re, defs, d, fields, fuel) <==> ObjectAccepts(re, s, fields)
    decreases Weight(s), 1
  {
    forall key ensures DocHas(d.properties, key) == Has(s.properties, key) {
      SameKeys(env, d.properties, s.properties, Weight(s), key);
    }
    forall i | 0 <= i < |s.properties| && s.properties[i].key in fields
      ensures DocAccepts(re, defs, d.properties[i].doc, fields[s.properties[i].key], fuel) <==>
                Accepts(re, s.properties[i].schema, fields[s.properties[i].key])
    {
      DenotesSame(re, env, defs, d.properties[i].doc, s.properties[i].schema, fields[s.properties[i].key], fuel);
    }
    if s.additional.Each? {
      forall key | key in fields
        ensures DocAccepts(re, defs, d.additional.doc, fields[key], fuel) <==> Accepts(re, s.additional.schema, fields[key])
      {
        DenotesSame(re, env, defs, d.additional.doc, s.additional.schema, fields[key], fuel);
      }
    }
    hide Complete, WellTagged, Weight, Denotes, DocHas, Has, DocAccepts, Accepts;
  }

  lemma {:induction false} SameKeys(env: Env, docs: seq<DocProperty>, properties: seq<Property>, w: nat, key: string)
    requires PropertiesDenote(env, docs, properties, w)
    ensures DocHas(docs, key) == Has(properties, key)
  {
    hide Denotes, Weight;
    if p :| p in docs && p.key == key {
      var i :| 0 <= i < |docs| && docs[i] == p;
      assert properties[i] in properties;
    }
    if p :| p in properties && p.key == key {
      var i :| 0 <= i < |properties| && properties[i] == p;
      assert docs[i] in docs;
    }
  }

  lemma {:induction false} UnionSame(re: Regex, env: Env, defs: Defs, docs: seq<Doc>, branches: seq<Schema>, w: nat, v: Json, fuel: nat, one: bool)
    requires UnionDenotes(env, Docs(docs), Branches(branches), w) && Complete(env, defs) && w - 1 <= fuel
    requires forall b | b in branches :: WellTagged(b) && (one ==> Tidy(b))
    ensures one ==> (OneOf(DocFlags(re, defs, docs, v, fuel)) <==> OneOf(Flags(re, branches, v)))
    ensures AnyOf(DocFlags(re, defs, docs, v, fuel)) <==> AnyOf(Flags(re, branches, v))
    decreases w, 1
  {
    var groups: seq<seq<Schema>> :| Grouped(branches, groups) && AllDenote(env, docs, Flatten(groups), w);
    PartsWellTagged(branches, groups);
    FlagsSame(re, env, defs, docs, Flatten(groups), w, v, fuel);
    hide WellTagged, Complete, AllDenote, Weight;
    SplitKeepsAnyOf(re, branches, groups, v);
    if one {
      TidyCountsOnce(re, branches, groups, v);
      OneOfByGroups(re, branches, groups, v);
    }
  }

  lemma {:induction false} FlagsSame(re: Regex, env: Env, defs: Defs, docs: seq<Doc>, parts: seq<Schema>, w: nat, v: Json, fuel: nat)
    requires AllDenote(env, docs, parts, w) && Complete(env, defs) && w - 1 <= fuel && forall p | p in parts :: WellTagged(p)
    ensures DocFlags(re, defs, docs, v, fuel) == Flags(re, parts, v)
    decreases w, 0
  {
    forall i | 0 <= i < |parts| ensures DocAccepts(re, defs, docs[i], v, fuel) == Accepts(re, parts[i], v) {
      DenotesSame(re, env, defs, docs[i], parts[i], v, fuel);
    }
  }
}
