/** Source schemas (packages/cli/src/remote/schema/base.ts) and what they accept, after JSON Schema 2020-12;
    and how `Bundle.split` of scripts/gen-protocol-schema.ts takes union branches apart. */
module Schemas {
  import opened Outcomes

  datatype Scalar = Null | Bool(b: bool) | Num(n: real) | Str(s: string)

  datatype Json = Atom(x: Scalar) | Arr(items: seq<Json>) | Obj(fields: map<string, Json>)

  datatype Kind = ObjectKind | ArrayKind | StringKind | IntegerKind | NumberKind | BooleanKind | NullKind

  /** The constraints a schema passes on as they are. */
  datatype Bounds = Bounds(minItems: Option<nat>, maxItems: Option<nat>, minLength: Option<nat>, maxLength: Option<nat>,
                           pattern: Option<string>, minimum: Option<real>, maximum: Option<real>)

  /** Which object a schema is: one the validators made, or the copy `split` made for one value of a tag. */
  datatype Id = Made(n: nat) | CopyOf(id: Id, index: nat)

  datatype Property = Property(key: string, schema: Schema)

  datatype Branches = NoBranches | Branches(list: seq<Schema>)

  datatype Additional = Unsaid | Forbidden | Each(schema: Schema)

  datatype Schema = Schema(id: Id, kind: Option<Kind>, values: Option<seq<Scalar>>, properties: seq<Property>, required: seq<string>,
                           additional: Additional, items: Option<Schema>, bounds: Bounds,
                           oneOf: Branches, anyOf: Branches)

  type Regex = (string, string) -> bool

  // ----- Acceptance

  function IsInteger(n: real): bool { n == n.Floor as real }

  predicate HasKind(k: Kind, v: Json) {
    match k
    case ObjectKind => v.Obj?
    case ArrayKind => v.Arr?
    case StringKind => v.Atom? && v.x.Str?
    case IntegerKind => v.Atom? && v.x.Num? && IsInteger(v.x.n)
    case NumberKind => v.Atom? && v.x.Num?
    case BooleanKind => v.Atom? && v.x.Bool?
    case NullKind => v.Atom? && v.x.Null?
  }

  function Whole(n: int): Json { Atom(Num(n as real)) }

  /** Every value has a kind, and no second one but that integers are numbers too. */
  lemma {:induction false} KindsAreApart(v: Json, j: Kind, k: Kind)
    ensures exists kind :: HasKind(kind, v)
    ensures HasKind(j, v) && HasKind(k, v) && j != k ==> (j == IntegerKind && k == NumberKind) || (j == NumberKind && k == IntegerKind)
    ensures HasKind(IntegerKind, v) <==> exists n: int :: v == Whole(n)
  {
    match v
    case Obj(_) => assert HasKind(ObjectKind, v);
    case Arr(_) => assert HasKind(ArrayKind, v);
    case Atom(x) =>
      match x
      case Null => assert HasKind(NullKind, v);
      case Bool(_) => assert HasKind(BooleanKind, v);
      case Str(_) => assert HasKind(StringKind, v);
      case Num(n) =>
        assert HasKind(NumberKind, v);
        if IsInteger(n) {
          assert v == Whole(n.Floor);
        }
  }

  predicate InBounds(re: Regex, b: Bounds, v: Json) {
    && (v.Arr? ==> (b.minItems.Some? ==> b.minItems.value <= |v.items|) && (b.maxItems.Some? ==> |v.items| <= b.maxItems.value))
    && (v.Atom? && v.x.Str? ==>
          && (b.minLength.Some? ==> b.minLength.value <= |v.x.s|) && (b.maxLength.Some? ==> |v.x.s| <= b.maxLength.value)
          && (b.pattern.Some? ==> re(b.pattern.value, v.x.s)))
    && (v.Atom? && v.x.Num? ==>
          (b.minimum.Some? ==> b.minimum.value <= v.x.n) && (b.maximum.Some? ==> v.x.n <= b.maximum.value))
  }

  predicate Has(properties: seq<Property>, key: string) { exists p | p in properties :: p.key == key }

  function CountTrue(flags: seq<bool>): nat {
    if flags == [] then 0 else (if flags[0] then 1 else 0) + CountTrue(flags[1..])
  }

  /** Which of some schemas accept a value. */
  function Flags(re: Regex, schemas: seq<Schema>, v: Json): (flags: seq<bool>)
    ensures |flags| == |schemas| && forall i | 0 <= i < |schemas| :: flags[i] == Accepts(re, schemas[i], v)
    decreases schemas
  {
    if schemas == [] then [] else [Accepts(re, schemas[0], v)] + Flags(re, schemas[1..], v)
  }

  predicate OneOf(flags: seq<bool>) { CountTrue(flags) == 1 }

  predicate AnyOf(flags: seq<bool>) { CountTrue(flags) >= 1 }

  predicate PropertiesAccept(re: Regex, properties: seq<Property>, fields: map<string, Json>)
    decreases properties
  {
    forall i | 0 <= i < |properties| :: properties[i].key in fields ==> Accepts(re, properties[i].schema, fields[properties[i].key])
  }

  /** Required, known and further properties. */
  predicate ObjectAccepts(re: Regex, s: Schema, fields: map<string, Json>)
    decreases s, 0
  {
    && (forall key | key in s.required :: key in fields)
    && PropertiesAccept(re, s.properties, fields)
    && (s.additional.Forbidden? ==> forall key | key in fields :: Has(s.properties, key))
    && (s.additional.Each? ==> forall key | key in fields && !Has(s.properties, key) :: Accepts(re, s.additional.schema, fields[key]))
  }

  predicate UnionAccepts(re: Regex, s: Schema, v: Json)
    decreases s, 0
  {
    && (s.oneOf.Branches? ==> OneOf(Flags(re, s.oneOf.list, v)))
    && (s.anyOf.Branches? ==> AnyOf(Flags(re, s.anyOf.list, v)))
  }

  predicate Accepts(re: Regex, s: Schema, v: Json)
    decreases s, 1
  {
    && (s.kind.Some? ==> HasKind(s.kind.value, v))
    && (s.values.Some? ==> v.Atom? && v.x in s.values.value)
    && InBounds(re, s.bounds, v)
    && (v.Obj? ==> ObjectAccepts(re, s, v.fields))
    && (v.Arr? && s.items.Some? ==> forall x | x in v.items :: Accepts(re, s.items.value, x))
    && UnionAccepts(re, s, v)
  }

  // ----- Discriminators

  const DISCRIMINATORS := ["kind", "type", "op", "role", "status", "state", "action"]

  /** The first property of that name. */
  function Prop(properties: seq<Property>, key: string): (schema: Option<Schema>)
    ensures schema.Some? <==> Has(properties, key)
    ensures schema.Some? ==> exists i | 0 <= i < |properties| :: properties[i] == Property(key, schema.value)
  {
    if properties == [] then None
    else if properties[0].key == key then Some(properties[0].schema)
    else
      assert forall p | p in properties :: p == properties[0] || p in properties[1..];
      Prop(properties[1..], key)
  }

  /** Every enum value a required discriminator can take in a schema, through nested unions. */
  function Values(s: Schema, key: string): Option<seq<Scalar>>
    decreases s
  {
    if s.oneOf.Branches? then ValuesAll(s.oneOf.list, key)
    else if s.anyOf.Branches? then ValuesAll(s.anyOf.list, key)
    else
      match Prop(s.properties, key)
      case None => None
      case Some(tag) => if key in s.required then tag.values else None
  }

  function ValuesAll(schemas: seq<Schema>, key: string): Option<seq<Scalar>>
    decreases schemas
  {
    if schemas == [] then Some([])
    else
      match Values(schemas[0], key)
      case None => None
      case Some(first) =>
        match ValuesAll(schemas[1..], key)
        case None => None
        case Some(rest) => Some(first + rest)
  }

  /** All branches have values for the tag, and no value belongs to two branches. */
  predicate Separates(branches: seq<Schema>, key: string) {
    && (forall i | 0 <= i < |branches| :: Values(branches[i], key).Some?)
    && forall i, j | 0 <= i < j < |branches| :: forall x | x in Values(branches[i], key).value :: x !in Values(branches[j], key).value
  }

  function FirstSeparating(keys: seq<string>, branches: seq<Schema>): (key: Option<string>)
    ensures key.Some? ==> key.value in keys && Separates(branches, key.value)
    ensures key.None? ==> forall k | k in keys :: !Separates(branches, k)
  {
    if keys == [] then None
    else if Separates(branches, keys[0]) then Some(keys[0])
    else FirstSeparating(keys[1..], branches)
  }

  function Discriminator(branches: seq<Schema>): Option<string> { FirstSeparating(DISCRIMINATORS, branches) }

  // ----- Tags and their values, read off the ends of nested unions

  function Leaves(s: Schema): seq<Schema>
    decreases s
  {
    if s.oneOf.Branches? then LeavesOfAll(s.oneOf.list) else if s.anyOf.Branches? then LeavesOfAll(s.anyOf.list) else [s]
  }

  function LeavesOfAll(schemas: seq<Schema>): seq<Schema>
    decreases schemas
  {
    if schemas == [] then [] else Leaves(schemas[0]) + LeavesOfAll(schemas[1..])
  }

  /** The tag is required and lists its values. */
  predicate Tagged(leaf: Schema, key: string) {
    key in leaf.required && Prop(leaf.properties, key).Some? && Prop(leaf.properties, key).value.values.Some?
  }

  predicate Lists(leaf: Schema, key: string, x: Scalar) { Tagged(leaf, key) && x in Prop(leaf.properties, key).value.values.value }

  /** A schema has values for a tag exactly if all ends of its unions have, and they are the values those list. */
  lemma {:induction false} ValuesAreOfLeaves(s: Schema, key: string)
    ensures Values(s, key).Some? <==> forall leaf | leaf in Leaves(s) :: Tagged(leaf, key)
    ensures Values(s, key).Some? ==> forall x :: x in Values(s, key).value <==> exists leaf | leaf in Leaves(s) :: Lists(leaf, key, x)
    decreases s
  {
    if s.oneOf.Branches? {
      ValuesOfAllLeaves(s.oneOf.list, key);
    } else if s.anyOf.Branches? {
      ValuesOfAllLeaves(s.anyOf.list, key);
    } else {
      assert Leaves(s) == [s] && s in Leaves(s);
    }
  }

  lemma {:induction false} ValuesOfAllLeaves(schemas: seq<Schema>, key: string)
    ensures ValuesAll(schemas, key).Some? <==> forall leaf | leaf in LeavesOfAll(schemas) :: Tagged(leaf, key)
    ensures ValuesAll(schemas, key).Some? ==> forall x :: x in ValuesAll(schemas, key).value <==> exists leaf | leaf in LeavesOfAll(schemas) :: Lists(leaf, key, x)
    decreases schemas
  {
    hide Tagged, Lists;
    if schemas != [] {
      ValuesAreOfLeaves(schemas[0], key);
      ValuesOfAllLeaves(schemas[1..], key);
      var all, first, rest := LeavesOfAll(schemas), Leaves(schemas[0]), LeavesOfAll(schemas[1..]);
      assert forall leaf :: leaf in all <==> leaf in first || leaf in rest;
    }
  }

  /** The values the ends list, one end after another. */
  function Listed(leaves: seq<Schema>, key: string): seq<Scalar> {
    if leaves == [] then [] else (if Tagged(leaves[0], key) then Prop(leaves[0].properties, key).value.values.value else []) + Listed(leaves[1..], key)
  }

  lemma {:induction false} ListedInBoth(a: seq<Schema>, b: seq<Schema>, key: string)
    ensures Listed(a + b, key) == Listed(a, key) + Listed(b, key)
  {
    hide Tagged;
    if a == [] {
      assert a + b == b;
    } else {
      assert (a + b)[1..] == a[1..] + b;
      ListedInBoth(a[1..], b, key);
    }
  }

  lemma {:induction false} ValuesAreListed(s: Schema, key: string)
    ensures Values(s, key).Some? ==> Values(s, key).value == Listed(Leaves(s), key)
    decreases s
  {
    if s.oneOf.Branches? {
      AllValuesAreListed(s.oneOf.list, key);
    } else if s.anyOf.Branches? {
      AllValuesAreListed(s.anyOf.list, key);
    } else {
      assert [s][1..] == [];
    }
  }

  lemma {:induction false} AllValuesAreListed(schemas: seq<Schema>, key: string)
    ensures ValuesAll(schemas, key).Some? ==> ValuesAll(schemas, key).value == Listed(LeavesOfAll(schemas), key)
    decreases schemas
  {
    hide Tagged, Listed;
    if schemas == [] {
      NothingListed(key);
    } else {
      ValuesAreListed(schemas[0], key);
      AllValuesAreListed(schemas[1..], key);
      ListedInBoth(Leaves(schemas[0]), LeavesOfAll(schemas[1..]), key);
    }
  }

  lemma {:induction false} NothingListed(key: string)
    ensures Listed([], key) == []
  {
  }

  /** Every end of every branch is tagged, and no value is listed in two branches. */
  ghost predicate TagsApart(branches: seq<Schema>, key: string) {
    && (forall i, leaf | 0 <= i < |branches| && leaf in Leaves(branches[i]) :: Tagged(leaf, key))
    && forall i, j, a, b, x | 0 <= i < j < |branches| && a in Leaves(branches[i]) && b in Leaves(branches[j]) :: !(Lists(a, key, x) && Lists(b, key, x))
  }

  lemma {:induction false} SeparatesByLeaves(branches: seq<Schema>, key: string)
    ensures Separates(branches, key) <==> TagsApart(branches, key)
  {
    hide Values, Leaves, Tagged, Lists;
    forall i | 0 <= i < |branches|
      ensures Values(branches[i], key).Some? <==> forall leaf | leaf in Leaves(branches[i]) :: Tagged(leaf, key)
      ensures Values(branches[i], key).Some? ==> forall x :: x in Values(branches[i], key).value <==> exists leaf | leaf in Leaves(branches[i]) :: Lists(leaf, key, x)
    {
      ValuesAreOfLeaves(branches[i], key);
    }
    if Separates(branches, key) {
      forall i, j, a, b, x | 0 <= i < j < |branches| && a in Leaves(branches[i]) && b in Leaves(branches[j]) && Lists(a, key, x) ensures !Lists(b, key, x) {
        assert x in Values(branches[i], key).value && x !in Values(branches[j], key).value;
      }
    }
  }

  lemma {:induction false} FirstIsFirst(keys: seq<string>, branches: seq<Schema>, n: nat)
    requires n < |keys| && Separates(branches, keys[n]) && forall i | 0 <= i < n :: !Separates(branches, keys[i])
    ensures FirstSeparating(keys, branches) == Some(keys[n])
  {
    hide Separates;
    if n > 0 {
      FirstIsFirst(keys[1..], branches, n - 1);
    }
  }

  /** The discriminator is the first of the seven keys that keeps the branches apart. */
  lemma {:induction false} DiscriminatorIsFirst(branches: seq<Schema>, n: nat)
    requires n < 7
    ensures |DISCRIMINATORS| == 7
    ensures Discriminator(branches) == Some(DISCRIMINATORS[n]) <==> TagsApart(branches, DISCRIMINATORS[n]) && forall i | 0 <= i < n :: !TagsApart(branches, DISCRIMINATORS[i])
    ensures Discriminator(branches) == None <==> forall i | 0 <= i < 7 :: !TagsApart(branches, DISCRIMINATORS[i])
  {
    hide TagsApart, Separates;
    forall i | 0 <= i < 7 ensures Separates(branches, DISCRIMINATORS[i]) <==> TagsApart(branches, DISCRIMINATORS[i]) {
      SeparatesByLeaves(branches, DISCRIMINATORS[i]);
    }
    var found := Discriminator(branches);
    if found.Some? {
      var m := LeastSeparating(branches, 0);
      FirstIsFirst(DISCRIMINATORS, branches, m);
      KeysDiffer(m, n);
    }
  }

  lemma {:induction false} LeastSeparating(branches: seq<Schema>, least: nat) returns (n: nat)
    requires least <= 7 && (forall i | 0 <= i < least :: !Separates(branches, DISCRIMINATORS[i])) && exists i | 0 <= i < 7 :: Separates(branches, DISCRIMINATORS[i])
    ensures n < 7 && Separates(branches, DISCRIMINATORS[n]) && forall i | 0 <= i < n :: !Separates(branches, DISCRIMINATORS[i])
    decreases 7 - least
  {
    hide Separates;
    if Separates(branches, DISCRIMINATORS[least]) {
      n := least;
    } else {
      n := LeastSeparating(branches, least + 1);
    }
  }

  lemma {:induction false} KeysDiffer(m: nat, n: nat)
    requires m < 7 && n < 7
    ensures DISCRIMINATORS[m] == DISCRIMINATORS[n] ==> m == n
  {
  }
}
