/** What `Bundle.split` (scripts/gen-protocol-schema.ts) does to the accepted JSON: one copy of an object branch
    for each value of its tag. */
module SchemaSplit {
  import opened Outcomes
  import opened Schemas

  // ----- Copies of a branch

  function SetProp(properties: seq<Property>, key: string, schema: Schema): (r: seq<Property>)
    ensures |r| == |properties|
  {
    if properties == [] then []
    else if properties[0].key == key then [Property(key, schema)] + properties[1..]
    else [properties[0]] + SetProp(properties[1..], key, schema)
  }

  /** A branch with a tag that has several values. */
  predicate HasTag(s: Schema, key: string) {
    match Prop(s.properties, key)
    case None => false
    case Some(tag) => tag.values.Some? && |tag.values.value| >= 2
  }

  function Tag(s: Schema, key: string): Schema
    requires HasTag(s, key)
  {
    Prop(s.properties, key).value
  }

  function TagValues(s: Schema, key: string): (values: seq<Scalar>)
    requires HasTag(s, key)
    ensures |values| >= 2
  {
    Tag(s, key).values.value
  }

  function TagFor(tag: Schema, i: nat): Schema
    requires tag.values.Some? && i < |tag.values.value|
  {
    tag.(id := CopyOf(tag.id, i), values := Some([tag.values.value[i]]))
  }

  /** The branch for one value of its tag. */
  function CopyFor(s: Schema, key: string, i: nat): Schema
    requires HasTag(s, key) && i < |TagValues(s, key)|
  {
    s.(id := CopyOf(s.id, i), properties := SetProp(s.properties, key, TagFor(Tag(s, key), i)))
  }

  function Copies(s: Schema, key: string): (copies: seq<Schema>)
    requires HasTag(s, key)
    ensures |copies| == |TagValues(s, key)| && forall i | 0 <= i < |copies| :: copies[i] == CopyFor(s, key, i)
  {
    seq(|TagValues(s, key)|, i requires 0 <= i < |TagValues(s, key)| => CopyFor(s, key, i))
  }

  lemma {:induction false} SetPropPlace(properties: seq<Property>, key: string, schema: Schema) returns (at: nat)
    requires Has(properties, key)
    ensures at < |properties| && properties[at].key == key && Prop(properties, key) == Some(properties[at].schema)
    ensures SetProp(properties, key, schema) == properties[at := Property(key, schema)]
  {
    if properties[0].key == key {
      at := 0;
    } else {
      assert Has(properties[1..], key);
      var rest := SetPropPlace(properties[1..], key, schema);
      at := rest + 1;
    }
  }

  lemma {:induction false} TagForAccepts(re: Regex, tag: Schema, i: nat, x: Json)
    requires tag.values.Some? && i < |tag.values.value|
    ensures Accepts(re, TagFor(tag, i), x) <==> Accepts(re, tag, x) && x == Atom(tag.values.value[i])
  {
  }

  lemma {:induction false} ReplacedProperties(re: Regex, before: seq<Property>, at: nat, p: Property, fields: map<string, Json>)
    requires at < |before| && p.key == before[at].key
    ensures (forall key :: Has(before[at := p], key) == Has(before, key))
    ensures p.key in fields && (Accepts(re, p.schema, fields[p.key]) ==> Accepts(re, before[at].schema, fields[p.key])) ==>
              (PropertiesAccept(re, before[at := p], fields) <==> PropertiesAccept(re, before, fields) && Accepts(re, p.schema, fields[p.key]))
    ensures p.key !in fields ==> PropertiesAccept(re, before[at := p], fields) == PropertiesAccept(re, before, fields)
  {
    var after := before[at := p];
    forall key ensures Has(after, key) == Has(before, key) {
      if Has(before, key) {
        var i :| 0 <= i < |before| && before[i].key == key;
        assert after[i] in after;
      }
      if Has(after, key) {
        var i :| 0 <= i < |after| && after[i].key == key;
        assert before[i] in before;
      }
    }
    hide Has, Accepts;
    if PropertiesAccept(re, after, fields) && p.key in fields {
      assert Accepts(re, after[at].schema, fields[after[at].key]);
    }
    assert forall i | 0 <= i < |before| && i != at :: after[i] == before[i];
  }

  /** A copy accepts what the branch accepts, unless the tag is there with another value. */
  lemma {:induction false} CopyAccepts(re: Regex, s: Schema, key: string, i: nat, v: Json)
    requires HasTag(s, key) && i < |TagValues(s, key)|
    ensures Accepts(re, CopyFor(s, key, i), v) <==>
              Accepts(re, s, v) && (v.Obj? && key in v.fields ==> v.fields[key] == Atom(TagValues(s, key)[i]))
  {
    var tag := TagFor(Tag(s, key), i);
    var at := SetPropPlace(s.properties, key, tag);
    if v.Obj? {
      if key in v.fields {
        TagForAccepts(re, Tag(s, key), i, v.fields[key]);
      }
      ReplacedProperties(re, s.properties, at, Property(key, tag), v.fields);
      assert PropertiesAccept(re, s.properties, v.fields) && key in v.fields ==> Accepts(re, s.properties[at].schema, v.fields[key]);
      hide Has, PropertiesAccept, TagFor, Prop;
      assert ObjectAccepts(re, s, v.fields) && key in v.fields ==> Accepts(re, Tag(s, key), v.fields[key]);
      assert ObjectAccepts(re, CopyFor(s, key, i), v.fields) <==>
               ObjectAccepts(re, s, v.fields) && (key in v.fields ==> Accepts(re, tag, v.fields[key]));
    }
    hide ObjectAccepts;
    assert UnionAccepts(re, CopyFor(s, key, i), v) == UnionAccepts(re, s, v);
  }

  // ----- How many copies accept a value

  function Multiplicity(values: seq<Scalar>, x: Scalar): nat {
    if values == [] then 0 else (if values[0] == x then 1 else 0) + Multiplicity(values[1..], x)
  }

  predicate NoDuplicates(values: seq<Scalar>) { forall i, j | 0 <= i < j < |values| :: values[i] != values[j] }

  lemma {:induction false} MultiplicityPositive(values: seq<Scalar>, x: Scalar)
    ensures Multiplicity(values, x) > 0 <==> x in values
  {
    if values != [] {
      MultiplicityPositive(values[1..], x);
      assert x in values <==> x == values[0] || x in values[1..];
    }
  }

  lemma {:induction false} MultiplicityOne(values: seq<Scalar>, x: Scalar)
    requires NoDuplicates(values) && x in values
    ensures Multiplicity(values, x) == 1
  {
    if values[0] == x {
      MultiplicityPositive(values[1..], x);
    } else {
      assert x in values[1..];
      MultiplicityOne(values[1..], x);
    }
  }

  /** How often copies of a branch count a value the branch accepts. */
  function Times(s: Schema, key: string, v: Json): nat
    requires HasTag(s, key)
  {
    if v.Obj? && key in v.fields then
      if v.fields[key].Atom? then Multiplicity(TagValues(s, key), v.fields[key].x) else 0
    else |TagValues(s, key)|
  }

  lemma {:induction false} CountMatches(flags: seq<bool>, values: seq<Scalar>, accepted: bool, keyed: bool, x: Json)
    requires |flags| == |values|
    requires forall i | 0 <= i < |flags| :: flags[i] == (accepted && (keyed ==> x == Atom(values[i])))
    ensures CountTrue(flags) == if !accepted then 0 else if !keyed then |values| else if x.Atom? then Multiplicity(values, x.x) else 0
  {
    if flags != [] {
      CountMatches(flags[1..], values[1..], accepted, keyed, x);
    }
  }

  /** The copies accept a value the branch accepts once for every time the tag's value is listed, or all
      together when the tag is not there. */
  lemma {:induction false} CopiesCount(re: Regex, s: Schema, key: string, v: Json)
    requires HasTag(s, key)
    ensures CountTrue(Flags(re, Copies(s, key), v)) == if Accepts(re, s, v) then Times(s, key, v) else 0
  {
    var copies, values := Copies(s, key), TagValues(s, key);
    var keyed := v.Obj? && key in v.fields;
    var x := if keyed then v.fields[key] else v;
    forall i | 0 <= i < |copies| ensures Flags(re, copies, v)[i] == (Accepts(re, s, v) && (keyed ==> x == Atom(values[i]))) {
      CopyAccepts(re, s, key, i, v);
    }
    hide Accepts;
    CountMatches(Flags(re, copies, v), values, Accepts(re, s, v), keyed, x);
  }

  // ----- Discriminators tell branches apart

  lemma {:induction false} SomeFlag(flags: seq<bool>) returns (i: nat)
    requires CountTrue(flags) >= 1
    ensures i < |flags| && flags[i]
  {
    if flags[0] {
      i := 0;
    } else {
      var rest := SomeFlag(flags[1..]);
      i := rest + 1;
    }
  }

  lemma {:induction false} FlagCounts(flags: seq<bool>, i: nat)
    requires i < |flags| && flags[i]
    ensures CountTrue(flags) >= 1
  {
    if i > 0 {
      FlagCounts(flags[1..], i - 1);
    }
  }

  lemma {:induction false} ValuesOfOne(schemas: seq<Schema>, key: string, i: nat)
    requires i < |schemas| && ValuesAll(schemas, key).Some?
    ensures Values(schemas[i], key).Some? && forall x | x in Values(schemas[i], key).value :: x in ValuesAll(schemas, key).value
  {
    if i > 0 {
      ValuesOfOne(schemas[1..], key, i - 1);
    }
  }

  /** An object a schema accepts has each discriminator of the schema, with one of its values. */
  lemma {:induction false} ValuesHold(re: Regex, s: Schema, key: string, v: Json)
    requires Values(s, key).Some? && Accepts(re, s, v) && v.Obj?
    ensures key in v.fields && v.fields[key].Atom? && v.fields[key].x in Values(s, key).value
    decreases s
  {
    if s.oneOf.Branches? {
      UnionValuesHold(re, s.oneOf.list, key, v);
    } else if s.anyOf.Branches? {
      UnionValuesHold(re, s.anyOf.list, key, v);
    } else {
      var i :| 0 <= i < |s.properties| && s.properties[i] == Property(key, Prop(s.properties, key).value);
      assert PropertiesAccept(re, s.properties, v.fields);
    }
  }

  lemma {:induction false} UnionValuesHold(re: Regex, schemas: seq<Schema>, key: string, v: Json)
    requires ValuesAll(schemas, key).Some? && CountTrue(Flags(re, schemas, v)) >= 1 && v.Obj?
    ensures key in v.fields && v.fields[key].Atom? && v.fields[key].x in ValuesAll(schemas, key).value
    decreases schemas
  {
    var i := SomeFlag(Flags(re, schemas, v));
    ValuesOfOne(schemas, key, i);
    ValuesHold(re, schemas[i], key, v);
  }

  lemma {:induction false} NoFlag(flags: seq<bool>)
    requires forall i | 0 <= i < |flags| :: !flags[i]
    ensures CountTrue(flags) == 0
  {
    if flags != [] {
      NoFlag(flags[1..]);
    }
  }

  lemma {:induction false} AtMostOne(flags: seq<bool>)
    requires forall i, j | 0 <= i < j < |flags| :: !(flags[i] && flags[j])
    ensures CountTrue(flags) <= 1
  {
    if flags != [] {
      if flags[0] {
        NoFlag(flags[1..]);
      } else {
        AtMostOne(flags[1..]);
      }
    }
  }

  /** An object matches at most one of the branches a discriminator is found for. */
  lemma {:induction false} DiscriminatorSeparates(re: Regex, branches: seq<Schema>, v: Json)
    requires Discriminator(branches).Some? && v.Obj?
    ensures CountTrue(Flags(re, branches, v)) <= 1
    ensures OneOf(Flags(re, branches, v)) <==> AnyOf(Flags(re, branches, v))
  {
    var key, flags := Discriminator(branches).value, Flags(re, branches, v);
    forall i, j | 0 <= i < j < |flags| ensures !(flags[i] && flags[j]) {
      if flags[i] {
        ValuesHold(re, branches[i], key, v);
      }
      if flags[j] {
        ValuesHold(re, branches[j], key, v);
      }
    }
    hide Accepts;
    AtMostOne(flags);
  }

  // ----- A whole union

  /** `split` takes a branch apart when its tag has values in the sense of `Values`. */
  predicate Splits(s: Schema, key: string) { HasTag(s, key) && Values(s, key).Some? }

  /** What a branch may become: itself, or its copies for a tag. */
  ghost predicate Group(branch: Schema, group: seq<Schema>) {
    group == [branch] || exists key: string :: Splits(branch, key) && group == Copies(branch, key)
  }

  function Flatten(groups: seq<seq<Schema>>): seq<Schema> {
    if groups == [] then [] else groups[0] + Flatten(groups[1..])
  }

  ghost predicate Grouped(branches: seq<Schema>, groups: seq<seq<Schema>>) {
    |groups| == |branches| && forall i | 0 <= i < |branches| :: Group(branches[i], groups[i])
  }

  lemma {:induction false} CountConcat(a: seq<bool>, b: seq<bool>)
    ensures CountTrue(a + b) == CountTrue(a) + CountTrue(b)
  {
    if a == [] {
      assert a + b == b;
    } else {
      assert (a + b)[1..] == a[1..] + b;
      CountConcat(a[1..], b);
    }
  }

  lemma {:induction false} FlagsConcat(re: Regex, a: seq<Schema>, b: seq<Schema>, v: Json)
    ensures Flags(re, a + b, v) == Flags(re, a, v) + Flags(re, b, v)
  {
    hide Flags, Accepts;
  }

  /** A branch's group accepts a value at least once if the branch does, and not at all otherwise. */
  lemma {:induction false} GroupCount(re: Regex, branch: Schema, group: seq<Schema>, v: Json)
    requires Group(branch, group)
    ensures Accepts(re, branch, v) <==> CountTrue(Flags(re, group, v)) >= 1
    ensures group == [branch] ==> CountTrue(Flags(re, group, v)) == if Accepts(re, branch, v) then 1 else 0
  {
    if group == [branch] {
      assert Flags(re, group, v) == [Accepts(re, branch, v)];
    } else {
      var key: string :| Splits(branch, key) && group == Copies(branch, key);
      CopiesCount(re, branch, key, v);
      if Accepts(re, branch, v) && v.Obj? {
        ValuesHold(re, branch, key, v);
        if key in v.fields {
          TagHolds(re, branch, key, v);
          MultiplicityPositive(TagValues(branch, key), v.fields[key].x);
        }
      }
    }
  }

  lemma {:induction false} TagHolds(re: Regex, s: Schema, key: string, v: Json)
    requires HasTag(s, key) && Accepts(re, s, v) && v.Obj? && key in v.fields
    ensures v.fields[key].Atom? && v.fields[key].x in TagValues(s, key)
  {
    var i :| 0 <= i < |s.properties| && s.properties[i] == Property(key, Tag(s, key));
    assert PropertiesAccept(re, s.properties, v.fields);
    assert Accepts(re, s.properties[i].schema, v.fields[key]);
  }

  lemma {:induction false} GroupedRest(branches: seq<Schema>, groups: seq<seq<Schema>>)
    requires Grouped(branches, groups) && branches != []
    ensures Group(branches[0], groups[0]) && Grouped(branches[1..], groups[1..])
  {
  }

  /** Splitting keeps `anyOf` whatever the branches are. */
  lemma {:induction false} SplitKeepsAnyOf(re: Regex, branches: seq<Schema>, groups: seq<seq<Schema>>, v: Json)
    requires Grouped(branches, groups)
    ensures CountTrue(Flags(re, branches, v)) <= CountTrue(Flags(re, Flatten(groups), v))
    ensures AnyOf(Flags(re, Flatten(groups), v)) <==> AnyOf(Flags(re, branches, v))
  {
    if branches != [] {
      GroupedRest(branches, groups);
      SplitKeepsAnyOf(re, branches[1..], groups[1..], v);
      GroupCount(re, branches[0], groups[0], v);
      UnionUnfold(re, branches, groups, v);
    }
  }

  lemma {:induction false} UnionUnfold(re: Regex, branches: seq<Schema>, groups: seq<seq<Schema>>, v: Json)
    requires |groups| == |branches| > 0
    ensures CountTrue(Flags(re, branches, v)) == (if Accepts(re, branches[0], v) then 1 else 0) + CountTrue(Flags(re, branches[1..], v))
    ensures CountTrue(Flags(re, Flatten(groups), v)) == CountTrue(Flags(re, groups[0], v)) + CountTrue(Flags(re, Flatten(groups[1..]), v))
  {
    hide Accepts;
    assert Flags(re, branches, v) == [Accepts(re, branches[0], v)] + Flags(re, branches[1..], v);
    FlagsConcat(re, groups[0], Flatten(groups[1..]), v);
    CountConcat(Flags(re, groups[0], v), Flags(re, Flatten(groups[1..]), v));
  }

  /** No accepted branch has two copies that accept the value. */
  ghost predicate CountsOnce(re: Regex, branches: seq<Schema>, groups: seq<seq<Schema>>, v: Json)
    requires |groups| == |branches|
  {
    forall i | 0 <= i < |branches| && Accepts(re, branches[i], v) :: CountTrue(Flags(re, groups[i], v)) == 1
  }

  lemma {:induction false} CountsOnceSame(re: Regex, branches: seq<Schema>, groups: seq<seq<Schema>>, v: Json)
    requires Grouped(branches, groups)
    ensures CountsOnce(re, branches, groups, v) <==> CountTrue(Flags(re, branches, v)) == CountTrue(Flags(re, Flatten(groups), v))
  {
    if branches != [] {
      GroupedRest(branches, groups);
      CountsOnceSame(re, branches[1..], groups[1..], v);
      SplitKeepsAnyOf(re, branches[1..], groups[1..], v);
      GroupCount(re, branches[0], groups[0], v);
      UnionUnfold(re, branches, groups, v);
      CountsOnceUnfold(re, branches, groups, v);
      hide Accepts, Group, CountsOnce, Flatten;
    }
  }

  lemma {:induction false} CountsOnceUnfold(re: Regex, branches: seq<Schema>, groups: seq<seq<Schema>>, v: Json)
    requires |groups| == |branches| > 0
    ensures CountsOnce(re, branches, groups, v) <==>
              (Accepts(re, branches[0], v) ==> CountTrue(Flags(re, groups[0], v)) == 1) && CountsOnce(re, branches[1..], groups[1..], v)
  {
    hide Accepts, CountTrue;
    if (Accepts(re, branches[0], v) ==> CountTrue(Flags(re, groups[0], v)) == 1) && CountsOnce(re, branches[1..], groups[1..], v) {
      forall i | 0 <= i < |branches| && Accepts(re, branches[i], v) ensures CountTrue(Flags(re, groups[i], v)) == 1 {
        if i > 0 {
          assert branches[i] == branches[1..][i - 1] && groups[i] == groups[1..][i - 1];
        }
      }
    }
    if CountsOnce(re, branches, groups, v) {
      forall i | 0 <= i < |branches| - 1 && Accepts(re, branches[1..][i], v) ensures CountTrue(Flags(re, groups[1..][i], v)) == 1 {
        assert branches[i + 1] == branches[1..][i] && groups[i + 1] == groups[1..][i];
      }
    }
  }

  lemma {:induction false} OneOfByGroups(re: Regex, branches: seq<Schema>, groups: seq<seq<Schema>>, v: Json)
    requires Grouped(branches, groups)
    ensures OneOf(Flags(re, Flatten(groups), v)) <==> OneOf(Flags(re, branches, v)) && CountsOnce(re, branches, groups, v)
  {
    CountsOnceSame(re, branches, groups, v);
    SplitKeepsAnyOf(re, branches, groups, v);
    hide Accepts, Grouped, CountsOnce;
  }

  /** Which branches are taken apart, and for which tag. */
  predicate SplitKeys(branches: seq<Schema>, keys: seq<Option<string>>) {
    |keys| == |branches| && forall i | 0 <= i < |keys| && keys[i].Some? :: Splits(branches[i], keys[i].value)
  }

  function GroupOf(branch: Schema, key: Option<string>): seq<Schema>
    requires key.Some? ==> Splits(branch, key.value)
  {
    if key.None? then [branch] else Copies(branch, key.value)
  }

  function GroupsOf(branches: seq<Schema>, keys: seq<Option<string>>): (groups: seq<seq<Schema>>)
    requires SplitKeys(branches, keys)
    ensures Grouped(branches, groups)
  {
    seq(|branches|, i requires 0 <= i < |branches| => GroupOf(branches[i], keys[i]))
  }

  /** The value is an object whose tag the branch lists exactly once. */
  predicate TaggedOnce(s: Schema, key: string, v: Json)
    requires HasTag(s, key)
  {
    v.Obj? && key in v.fields && v.fields[key].Atom? && Multiplicity(TagValues(s, key), v.fields[key].x) == 1
  }

  lemma {:induction false} TimesOnce(re: Regex, s: Schema, key: string, v: Json)
    requires Splits(s, key) && Accepts(re, s, v)
    ensures Times(s, key, v) == 1 <==> TaggedOnce(s, key, v)
  {
    if v.Obj? {
      ValuesHold(re, s, key, v);
    }
  }

  /** Splitting keeps `oneOf` for a value exactly when it was not met before, or when every branch that is taken apart
      and accepts the value lists the value's tag exactly once. */
  lemma {:induction false} SplitKeepsOneOf(re: Regex, branches: seq<Schema>, keys: seq<Option<string>>, v: Json)
    requires SplitKeys(branches, keys)
    ensures OneOf(Flags(re, Flatten(GroupsOf(branches, keys)), v)) <==>
              && OneOf(Flags(re, branches, v))
              && forall i | 0 <= i < |branches| && keys[i].Some? && Accepts(re, branches[i], v) :: TaggedOnce(branches[i], keys[i].value, v)
  {
    var groups := GroupsOf(branches, keys);
    OneOfByGroups(re, branches, groups, v);
    forall i | 0 <= i < |branches| && Accepts(re, branches[i], v)
      ensures CountTrue(Flags(re, groups[i], v)) == 1 <==> (keys[i].Some? ==> TaggedOnce(branches[i], keys[i].value, v))
    {
      if keys[i].Some? {
        CopiesCount(re, branches[i], keys[i].value, v);
        TimesOnce(re, branches[i], keys[i].value, v);
      } else {
        GroupCount(re, branches[i], groups[i], v);
      }
    }
    hide Accepts, Flags, TaggedOnce, CountTrue, Splits;
  }

  /** A branch that only admits objects and lists no tag value twice. */
  ghost predicate Tidy(s: Schema) {
    forall key: string | Splits(s, key) :: s.kind == Some(ObjectKind) && NoDuplicates(TagValues(s, key))
  }

  lemma {:induction false} TidyCountsOnce(re: Regex, branches: seq<Schema>, groups: seq<seq<Schema>>, v: Json)
    requires Grouped(branches, groups) && forall i | 0 <= i < |branches| :: Tidy(branches[i])
    ensures CountsOnce(re, branches, groups, v)
  {
    forall i | 0 <= i < |branches| && Accepts(re, branches[i], v) ensures CountTrue(Flags(re, groups[i], v)) == 1 {
      GroupCount(re, branches[i], groups[i], v);
      if groups[i] != [branches[i]] {
        var key: string :| Splits(branches[i], key) && groups[i] == Copies(branches[i], key);
        CopiesCount(re, branches[i], key, v);
        ValuesHold(re, branches[i], key, v);
        TagHolds(re, branches[i], key, v);
        MultiplicityOne(TagValues(branches[i], key), v.fields[key].x);
      }
    }
  }

  // ----- The two families `split` does change

  const FREE := Bounds(None, None, None, None, None, None, None)

  function TagSchema(values: seq<Scalar>): Schema {
    Schema(Made(0), None, Some(values), [], [], Unsaid, None, FREE, NoBranches, NoBranches)
  }

  function TaggedBranch(kind: Option<Kind>, values: seq<Scalar>): Schema {
    Schema(Made(1), kind, None, [Property("kind", TagSchema(values))], ["kind"], Unsaid, None, FREE, NoBranches, NoBranches)
  }

  /** A value listed twice: the union of one branch accepts an object its copies both accept. */
  lemma {:induction false} RepeatedValueBreaksOneOf(re: Regex)
    ensures var branch, v := TaggedBranch(Some(ObjectKind), [Str("a"), Str("a")]), Obj(map["kind" := Atom(Str("a"))]);
            && Splits(branch, "kind") && Discriminator([branch]) == Some("kind")
            && OneOf(Flags(re, [branch], v)) && !OneOf(Flags(re, Copies(branch, "kind"), v))
  {
    var values := [Str("a"), Str("a")];
    var branch, v := TaggedBranch(Some(ObjectKind), values), Obj(map["kind" := Atom(Str("a"))]);
    KindSeparates(branch, values);
    BranchAccepts(re, Some(ObjectKind), values, v);
    CopiesCount(re, branch, "kind", v);
    assert Multiplicity(values, Str("a")) == 2 by {
      assert values[1..] == [Str("a")];
    }
    assert CountTrue(Flags(re, [branch], v)) == 1;
  }

  /** A branch that admits more than objects: all its copies accept what has no tag. */
  lemma {:induction false} OpenBranchBreaksOneOf(re: Regex)
    ensures var branch, v := TaggedBranch(None, [Str("a"), Str("b")]), Atom(Null);
            && Splits(branch, "kind") && Discriminator([branch]) == Some("kind")
            && OneOf(Flags(re, [branch], v)) && !OneOf(Flags(re, Copies(branch, "kind"), v))
  {
    var values := [Str("a"), Str("b")];
    var branch, v := TaggedBranch(None, values), Atom(Null);
    KindSeparates(branch, values);
    BranchAccepts(re, None, values, v);
    CopiesCount(re, branch, "kind", v);
    assert CountTrue(Flags(re, [branch], v)) == 1;
  }

  lemma {:induction false} KindSeparates(branch: Schema, values: seq<Scalar>)
    requires exists kind :: branch == TaggedBranch(kind, values)
    ensures Prop(branch.properties, "kind") == Some(TagSchema(values)) && Values(branch, "kind") == Some(values)
    ensures Discriminator([branch]) == Some("kind")
  {
    assert Separates([branch], DISCRIMINATORS[0]);
  }

  lemma {:induction false} BranchAccepts(re: Regex, kind: Option<Kind>, values: seq<Scalar>, v: Json)
    requires kind.Some? ==> HasKind(kind.value, v)
    requires v.Obj? ==> v.fields.Keys == {"kind"} && v.fields["kind"].Atom? && v.fields["kind"].x in values
    ensures Accepts(re, TaggedBranch(kind, values), v)
  {
    if v.Obj? {
      assert Accepts(re, TagSchema(values), v.fields["kind"]);
      assert PropertiesAccept(re, [Property("kind", TagSchema(values))], v.fields);
    }
  }
}
