/** The class `Parser` of scripts/gen-settings-docs.ts: a recursive-descent parser of TypeScript types, and a
    printer it undoes. */
module TypeGrammar {
  import opened Outcomes

  datatype Field = Field(name: string, optional: bool, ty: Type)

  datatype Type =
    | Named(name: string, args: seq<Type>)
    | Union(args: seq<Type>)
    | Intersection(args: seq<Type>)
    | ArrayOf(item: Type)
    | Record(fields: seq<Field>)

  type Tokens = seq<string>

  // ----- Tokens

  predicate IsWordChar(c: char) { 'a' <= c <= 'z' || 'A' <= c <= 'Z' || '0' <= c <= '9' || c == '_' }

  predicate IsWord(t: string) { t != "" && forall c | c in t :: IsWordChar(c) }

  /** The inside of a string literal, up to its closing quote. */
  predicate LiteralRest(t: string) {
    if t == "" then false
    else if t[0] == '\"' then |t| == 1
    else if t[0] == '\\' then |t| > 1 && t[1] !in {'\n', '\r', '\U{2028}', '\U{2029}'} && LiteralRest(t[2..])
    else LiteralRest(t[1..])
  }

  predicate IsName(t: string) { IsWord(t) || (t != "" && t[0] == '\"' && LiteralRest(t[1..])) }

  /** The token at a position; nothing is at the end. */
  function Tok(ts: Tokens, p: nat): string { if p < |ts| then ts[p] else "" }

  lemma {:induction false} SymbolsAreNoNames(t: string)
    requires IsName(t)
    ensures t !in {"|", "&", "{", "}", "(", ")", "<", ">", "[", "]", ",", ";", ":", "?", ""}
  {
    assert IsWord(t) ==> t[0] in t;
  }

  // ----- The grammar

  type Parsed = Option<(Type, nat)>

  /** A parse ends after it began, within the tokens. */
  predicate Advances(ts: Tokens, p: nat, r: Parsed) { r.Some? ==> p < r.value.1 <= |ts| }

  /** `type`: intersections separated by bars, perhaps after a leading bar. */
  function TypeAt(ts: Tokens, p: nat): (r: Parsed)
    ensures Advances(ts, p, r)
    decreases if p <= |ts| then |ts| - p else 0, 5
  {
    if p > |ts| then None
    else
      var q := if Tok(ts, p) == "|" then p + 1 else p;
      match IntersectionAt(ts, q)
      case None => None
      case Some((t, end)) => UnionRest(ts, end, [t])
  }

  function UnionRest(ts: Tokens, p: nat, members: seq<Type>): (r: Parsed)
    requires members != []
    ensures r.Some? ==> p <= r.value.1 && (p <= |ts| ==> r.value.1 <= |ts|)
    decreases if p <= |ts| then |ts| - p else 0, 6
  {
    if Tok(ts, p) == "|" then
      match IntersectionAt(ts, p + 1)
      case None => None
      case Some((t, end)) => UnionRest(ts, end, members + [t])
    else Some((if |members| == 1 then members[0] else Union(members), p))
  }

  /** `intersection`. */
  function IntersectionAt(ts: Tokens, p: nat): (r: Parsed)
    ensures Advances(ts, p, r)
    decreases if p <= |ts| then |ts| - p else 0, 4
  {
    match PrimaryAt(ts, p)
    case None => None
    case Some((t, end)) => IntersectionRest(ts, end, [t])
  }

  function IntersectionRest(ts: Tokens, p: nat, parts: seq<Type>): (r: Parsed)
    requires parts != []
    ensures r.Some? ==> p <= r.value.1 && (p <= |ts| ==> r.value.1 <= |ts|)
    decreases if p <= |ts| then |ts| - p else 0, 5
  {
    if Tok(ts, p) == "&" then
      match PrimaryAt(ts, p + 1)
      case None => None
      case Some((t, end)) => IntersectionRest(ts, end, parts + [t])
    else Some((if |parts| == 1 then parts[0] else Intersection(parts), p))
  }

  /** `primary`: what brackets may follow. */
  function PrimaryAt(ts: Tokens, p: nat): (r: Parsed)
    ensures Advances(ts, p, r)
    decreases if p <= |ts| then |ts| - p else 0, 3
  {
    match BaseAt(ts, p)
    case None => None
    case Some((t, end)) => ArrayRest(ts, end, t)
  }

  function BaseAt(ts: Tokens, p: nat): (r: Parsed)
    ensures Advances(ts, p, r)
    decreases if p <= |ts| then |ts| - p else 0, 2
  {
    if Tok(ts, p) == "{" then
      match FieldsAt(ts, p + 1, [])
      case None => None
      case Some((fields, end)) => Some((Record(fields), end))
    else if Tok(ts, p) == "(" then
      match TypeAt(ts, p + 1)
      case None => None
      case Some((t, end)) => if Tok(ts, end) == ")" then Some((t, end + 1)) else None
    else if p >= |ts| || !IsName(ts[p]) then None
    else if Tok(ts, p + 1) == "<" then
      match TypeAt(ts, p + 2)
      case None => None
      case Some((t, end)) => ArgsRest(ts, end, ts[p], [t])
    else Some((Named(ts[p], []), p + 1))
  }

  function ArrayRest(ts: Tokens, p: nat, t: Type): (r: Parsed)
    ensures r.Some? ==> p <= r.value.1 && (p <= |ts| ==> r.value.1 <= |ts|)
    decreases if p <= |ts| then |ts| - p else 0, 0
  {
    if Tok(ts, p) == "[" then if Tok(ts, p + 1) == "]" then ArrayRest(ts, p + 2, ArrayOf(t)) else None
    else Some((t, p))
  }

  function ArgsRest(ts: Tokens, p: nat, name: string, args: seq<Type>): (r: Parsed)
    ensures Advances(ts, p, r)
    decreases if p <= |ts| then |ts| - p else 0, 6
  {
    if Tok(ts, p) == "," then
      match TypeAt(ts, p + 1)
      case None => None
      case Some((t, end)) => ArgsRest(ts, end, name, args + [t])
    else if Tok(ts, p) == ">" then Some((Named(name, args), p + 1))
    else None
  }

  /** `fields`, after its opening brace. */
  function FieldsAt(ts: Tokens, p: nat, fields: seq<Field>): (r: Option<(seq<Field>, nat)>)
    ensures r.Some? ==> p < r.value.1 <= |ts|
    decreases if p <= |ts| then |ts| - p else 0, 6
  {
    if Tok(ts, p) == "}" then Some((fields, p + 1))
    else if !IsWord(Tok(ts, p)) then None
    else
      var optional := Tok(ts, p + 1) == "?";
      var q := if optional then p + 2 else p + 1;
      if Tok(ts, q) != ":" then None
      else
        match TypeAt(ts, q + 1)
        case None => None
        case Some((t, end)) =>
          FieldsAt(ts, if Tok(ts, end) in {";", ","} then end + 1 else end, fields + [Field(Tok(ts, p), optional, t)])
  }

  // ----- Printing

  /** The tokens of a type where a type (level 0), a member of a union (1) or of an intersection (2) may stand. */
  function Print(t: Type, level: nat): Tokens
    decreases t, 0
  {
    match t
    case Named(name, args) => [name] + if args == [] then [] else ["<"] + PrintSeparated(args, ",", 0) + [">"]
    case Union(args) =>
      var inside := PrintSeparated(args, "|", 1);
      if level > 0 then ["("] + inside + [")"] else inside
    case Intersection(args) =>
      var inside := PrintSeparated(args, "&", 2);
      if level > 1 then ["("] + inside + [")"] else inside
    case ArrayOf(item) => Print(item, 2) + ["[", "]"]
    case Record(fields) => ["{"] + PrintFields(fields) + ["}"]
  }

  function PrintSeparated(args: seq<Type>, separator: string, level: nat): Tokens
    decreases args, 1
  {
    if args == [] then []
    else Print(args[0], level) + PrintRest(args[1..], separator, level)
  }

  /** Further arguments, each after its separator. */
  function PrintRest(args: seq<Type>, separator: string, level: nat): Tokens
    decreases args, 0
  {
    if args == [] then [] else [separator] + Print(args[0], level) + PrintRest(args[1..], separator, level)
  }

  function PrintFields(fields: seq<Field>): Tokens
    decreases fields, 0
  {
    if fields == [] then []
    else [fields[0].name] + (if fields[0].optional then ["?"] else []) + [":"] + Print(fields[0].ty, 0) + [";"] + PrintFields(fields[1..])
  }

  /** Types the grammar has: unions and intersections of at least two, and names that are names. */
  predicate WellFormed(t: Type)
    decreases t
  {
    match t
    case Named(name, args) => IsName(name) && forall i | 0 <= i < |args| :: WellFormed(args[i])
    case Union(args) => |args| >= 2 && forall i | 0 <= i < |args| :: WellFormed(args[i])
    case Intersection(args) => |args| >= 2 && forall i | 0 <= i < |args| :: WellFormed(args[i])
    case ArrayOf(item) => WellFormed(item)
    case Record(fields) => forall i | 0 <= i < |fields| :: IsWord(fields[i].name) && WellFormed(fields[i].ty)
  }

  /** Some tokens are there at a position. */
  predicate There(ts: Tokens, p: nat, piece: Tokens) { p + |piece| <= |ts| && ts[p..p + |piece|] == piece }

  lemma {:induction false} ThereSplit(ts: Tokens, p: nat, a: Tokens, b: Tokens)
    ensures There(ts, p, a + b) <==> There(ts, p, a) && There(ts, p + |a|, b)
  {
    if There(ts, p, a + b) {
      assert ts[p..p + |a|] == (a + b)[..|a|] && ts[p + |a|..p + |a| + |b|] == (a + b)[|a|..];
    }
    if There(ts, p, a) && There(ts, p + |a|, b) {
      assert ts[p..p + |a + b|] == ts[p..p + |a|] + ts[p + |a|..p + |a| + |b|];
    }
  }

  lemma {:induction false} ThereOne(ts: Tokens, p: nat, t: string)
    ensures There(ts, p, [t]) <==> p < |ts| && Tok(ts, p) == t
  {
  }

  /** What may not follow a type read at a level, as it would belong to the type. */
  predicate Stops(next: string, level: nat) {
    next != "<" && next != "[" && (level <= 1 ==> next != "&") && (level == 0 ==> next != "|")
  }

  lemma {:induction false} FirstToken(t: Type, level: nat)
    requires WellFormed(t)
    ensures Print(t, level) != [] && Print(t, level)[0] != "|"
    decreases t
  {
    match t
    case Named(name, _) => SymbolsAreNoNames(name);
    case Union(args) => if level == 0 { FirstToken(args[0], 1); }
    case Intersection(args) => if level <= 1 { FirstToken(args[0], 2); }
    case ArrayOf(item) => FirstToken(item, 2);
    case Record(_) =>
  }

  // ----- Reading back what was printed

  /** A type printed where an intersection's member may stand is read back, and what follows may make it an array. */
  lemma {:induction false} PrimaryBack(ts: Tokens, p: nat, t: Type)
    requires WellFormed(t) && There(ts, p, Print(t, 2)) && Tok(ts, p + |Print(t, 2)|) != "<"
    ensures PrimaryAt(ts, p) == ArrayRest(ts, p + |Print(t, 2)|, t)
    decreases t, 2
  {
    hide TypeAt, UnionRest, IntersectionAt, IntersectionRest, PrimaryAt, BaseAt, ArrayRest, ArgsRest, FieldsAt, Print, PrintSeparated, PrintRest, PrintFields, There, IsName, IsWord;
    match t
    case Named(name, args) => NamedBack(ts, p, name, args);
    case Union(args) => UnionInside(ts, p, args);
    case Intersection(args) => IntersectionInside(ts, p, args);
    case ArrayOf(item) => ArrayBack(ts, p, item);
    case Record(fields) => RecordBack(ts, p, fields);
  }

  lemma {:induction false} UnionInside(ts: Tokens, p: nat, args: seq<Type>)
    requires |args| >= 2 && (forall i | 0 <= i < |args| :: WellFormed(args[i])) && There(ts, p, Print(Union(args), 2))
    ensures PrimaryAt(ts, p) == ArrayRest(ts, p + |Print(Union(args), 2)|, Union(args))
    decreases args, 6
  {
    hide TypeAt, UnionRest, IntersectionAt, IntersectionRest, PrimaryAt, BaseAt, ArrayRest, ArgsRest, FieldsAt, PrintSeparated, PrintRest, PrintFields, There, WellFormed, IsName, IsWord;
    Enclosed(ts, p, "(", PrintSeparated(args, "|", 1), ")");
    assert Stops(")", 0);
    UnionBack(ts, p + 1, args);
    InParentheses(ts, p);
  }

  lemma {:induction false} IntersectionInside(ts: Tokens, p: nat, args: seq<Type>)
    requires |args| >= 2 && (forall i | 0 <= i < |args| :: WellFormed(args[i])) && There(ts, p, Print(Intersection(args), 2))
    ensures PrimaryAt(ts, p) == ArrayRest(ts, p + |Print(Intersection(args), 2)|, Intersection(args))
    decreases args, 6
  {
    FirstToken(Intersection(args), 1);
    hide TypeAt, UnionRest, IntersectionAt, IntersectionRest, PrimaryAt, BaseAt, ArrayRest, ArgsRest, FieldsAt, PrintSeparated, PrintRest, PrintFields, There, WellFormed, IsName, IsWord;
    Enclosed(ts, p, "(", PrintSeparated(args, "&", 2), ")");
    assert Print(Intersection(args), 1) == PrintSeparated(args, "&", 2);
    FirstThere(ts, p + 1, PrintSeparated(args, "&", 2));
    assert Stops(")", 1);
    IntersectionBack(ts, p + 1, args);
    assert p + 1 <= |ts| && Tok(ts, p + 1) != "|";
    assert IntersectionAt(ts, p + 1).Some? && IntersectionAt(ts, p + 1).value.1 == p + 1 + |PrintSeparated(args, "&", 2)|;
    assert Tok(ts, p + 1 + |PrintSeparated(args, "&", 2)|) == ")";
    SingleMember(ts, p + 1);
    InParentheses(ts, p);
  }

  lemma {:induction false} ArrayBack(ts: Tokens, p: nat, item: Type)
    requires WellFormed(item) && There(ts, p, Print(ArrayOf(item), 2))
    ensures PrimaryAt(ts, p) == ArrayRest(ts, p + |Print(ArrayOf(item), 2)|, ArrayOf(item))
    decreases item, 6
  {
    hide TypeAt, UnionRest, IntersectionAt, IntersectionRest, PrimaryAt, BaseAt, ArrayRest, ArgsRest, FieldsAt, PrintSeparated, PrintRest, PrintFields, There, WellFormed, IsName, IsWord;
    var end := p + |Print(item, 2)|;
    ThereSplit(ts, p, Print(item, 2), ["[", "]"]);
    assert ["["] + ["]"] == ["[", "]"];
    ThereSplit(ts, end, ["["], ["]"]);
    ThereOne(ts, end, "[");
    ThereOne(ts, end + 1, "]");
    PrimaryBack(ts, p, item);
    OneBracket(ts, end, item);
  }

  lemma {:induction false} RecordBack(ts: Tokens, p: nat, fields: seq<Field>)
    requires (forall i | 0 <= i < |fields| :: IsWord(fields[i].name) && WellFormed(fields[i].ty)) && There(ts, p, Print(Record(fields), 2))
    ensures PrimaryAt(ts, p) == ArrayRest(ts, p + |Print(Record(fields), 2)|, Record(fields))
    decreases fields, 6
  {
    hide TypeAt, UnionRest, IntersectionAt, IntersectionRest, PrimaryAt, BaseAt, ArrayRest, ArgsRest, FieldsAt, PrintSeparated, PrintRest, PrintFields, There, WellFormed, IsName, IsWord;
    Enclosed(ts, p, "{", PrintFields(fields), "}");
    FieldsBack(ts, p + 1, [], fields);
    assert [] + fields == fields;
    InBraces(ts, p);
  }

  lemma {:induction false} FirstThere(ts: Tokens, p: nat, piece: Tokens)
    requires There(ts, p, piece) && piece != []
    ensures Tok(ts, p) == piece[0] && p < |ts|
  {
    assert ts[p..p + |piece|][0] == piece[0];
  }

  lemma {:induction false} InParentheses(ts: Tokens, p: nat)
    requires Tok(ts, p) == "(" && TypeAt(ts, p + 1).Some? && Tok(ts, TypeAt(ts, p + 1).value.1) == ")"
    ensures PrimaryAt(ts, p) == ArrayRest(ts, TypeAt(ts, p + 1).value.1 + 1, TypeAt(ts, p + 1).value.0)
  {
    hide TypeAt, ArgsRest, FieldsAt, ArrayRest;
  }

  lemma {:induction false} InBraces(ts: Tokens, p: nat)
    requires Tok(ts, p) == "{" && FieldsAt(ts, p + 1, []).Some?
    ensures PrimaryAt(ts, p) == ArrayRest(ts, FieldsAt(ts, p + 1, []).value.1, Record(FieldsAt(ts, p + 1, []).value.0))
  {
    hide TypeAt, ArgsRest, FieldsAt, ArrayRest;
  }

  lemma {:induction false} OneBracket(ts: Tokens, p: nat, t: Type)
    requires Tok(ts, p) == "[" && Tok(ts, p + 1) == "]"
    ensures ArrayRest(ts, p, t) == ArrayRest(ts, p + 2, ArrayOf(t))
  {
  }

  /** An intersection before a token that is no bar is a whole type. */
  lemma {:induction false} SingleMember(ts: Tokens, p: nat)
    requires p <= |ts| && Tok(ts, p) != "|" && IntersectionAt(ts, p).Some? && Tok(ts, IntersectionAt(ts, p).value.1) != "|"
    ensures TypeAt(ts, p) == IntersectionAt(ts, p)
  {
    hide IntersectionAt, IntersectionRest, PrimaryAt, BaseAt, ArrayRest, ArgsRest, FieldsAt, Print, PrintSeparated, PrintRest, PrintFields, There, WellFormed, IsName, IsWord, Stops;
  }

  /** A member of a union is read back. */
  lemma {:induction false} MemberBack(ts: Tokens, p: nat, t: Type)
    requires WellFormed(t) && There(ts, p, Print(t, 1)) && Stops(Tok(ts, p + |Print(t, 1)|), 1)
    ensures IntersectionAt(ts, p) == Some((t, p + |Print(t, 1)|))
    decreases t, 3
  {
    if t.Intersection? {
      IntersectionBack(ts, p, t.args);
    } else {
      assert Print(t, 1) == Print(t, 2);
      PrimaryBack(ts, p, t);
    }
  }

  /** A type is read back, and reading stops at its end. */
  lemma {:induction false} TypeBack(ts: Tokens, p: nat, t: Type)
    requires WellFormed(t) && There(ts, p, Print(t, 0)) && Stops(Tok(ts, p + |Print(t, 0)|), 0)
    ensures TypeAt(ts, p) == Some((t, p + |Print(t, 0)|))
    decreases t, 4
  {
    FirstToken(t, 0);
    assert Tok(ts, p) == Print(t, 0)[0];
    if t.Union? {
      UnionBack(ts, p, t.args);
    } else {
      assert Print(t, 0) == Print(t, 1);
      MemberBack(ts, p, t);
    }
  }

  lemma {:induction false} UnionBack(ts: Tokens, p: nat, args: seq<Type>)
    requires |args| >= 2 && (forall i | 0 <= i < |args| :: WellFormed(args[i]))
    requires There(ts, p, PrintSeparated(args, "|", 1)) && Stops(Tok(ts, p + |PrintSeparated(args, "|", 1)|), 0)
    ensures TypeAt(ts, p) == Some((Union(args), p + |PrintSeparated(args, "|", 1)|))
    decreases args, 5
  {
    hide UnionRest, IntersectionAt, IntersectionRest, PrimaryAt, BaseAt, ArrayRest, ArgsRest, FieldsAt, Print, PrintSeparated, PrintRest, PrintFields, There, WellFormed, IsName, IsWord;
    var first := Print(args[0], 1);
    SeparatedThere(ts, p, args, "|", 1);
    FirstToken(args[0], 1);
    assert Tok(ts, p) == first[0];
    RestStops(ts, p + |first|, args[1..], "|", 1);
    MemberBack(ts, p, args[0]);
    UnionRestBack(ts, p + |first|, [args[0]], args[1..]);
    assert [args[0]] + args[1..] == args;
  }

  lemma {:induction false} UnionRestBack(ts: Tokens, p: nat, members: seq<Type>, args: seq<Type>)
    requires members != [] && |members| + |args| >= 2 && (forall i | 0 <= i < |args| :: WellFormed(args[i]))
    requires There(ts, p, PrintRest(args, "|", 1)) && Stops(Tok(ts, p + |PrintRest(args, "|", 1)|), 0)
    ensures UnionRest(ts, p, members) == Some((Union(members + args), p + |PrintRest(args, "|", 1)|))
    decreases args, 5
  {
    hide TypeAt, IntersectionAt, IntersectionRest, PrimaryAt, BaseAt, ArrayRest, ArgsRest, FieldsAt, Print, PrintSeparated, PrintRest, PrintFields, There, WellFormed, IsName, IsWord;
    RestNothing("|", 1);
    if args == [] {
      assert members + args == members;
    } else {
      var first := Print(args[0], 1);
      RestThere(ts, p, args, "|", 1);
      RestStops(ts, p + 1 + |first|, args[1..], "|", 1);
      MemberBack(ts, p + 1, args[0]);
      UnionRestBack(ts, p + 1 + |first|, members + [args[0]], args[1..]);
      assert members + [args[0]] + args[1..] == members + args;
    }
  }

  /** Between printed arguments stands a separator, so reading an argument stops there. */
  lemma {:induction false} RestNothing(separator: string, level: nat)
    ensures PrintRest([], separator, level) == [] && PrintFields([]) == []
  {
  }

  lemma {:induction false} RestThere(ts: Tokens, p: nat, args: seq<Type>, separator: string, level: nat)
    requires There(ts, p, PrintRest(args, separator, level)) && args != []
    ensures Tok(ts, p) == separator && There(ts, p + 1, Print(args[0], level))
    ensures There(ts, p + 1 + |Print(args[0], level)|, PrintRest(args[1..], separator, level))
    ensures |PrintRest(args, separator, level)| == 1 + |Print(args[0], level)| + |PrintRest(args[1..], separator, level)|
  {
    hide TypeAt, UnionRest, IntersectionAt, IntersectionRest, PrimaryAt, BaseAt, ArrayRest, ArgsRest, FieldsAt, Print, PrintSeparated, PrintFields, There, WellFormed, IsName, IsWord, Stops;
    var first, rest := Print(args[0], level), PrintRest(args[1..], separator, level);
    ThereSplit(ts, p, [separator] + first, rest);
    ThereSplit(ts, p, [separator], first);
    ThereOne(ts, p, separator);
  }

  lemma {:induction false} SeparatedThere(ts: Tokens, p: nat, args: seq<Type>, separator: string, level: nat)
    requires There(ts, p, PrintSeparated(args, separator, level)) && args != []
    ensures There(ts, p, Print(args[0], level)) && There(ts, p + |Print(args[0], level)|, PrintRest(args[1..], separator, level))
    ensures |PrintSeparated(args, separator, level)| == |Print(args[0], level)| + |PrintRest(args[1..], separator, level)|
  {
    ThereSplit(ts, p, Print(args[0], level), PrintRest(args[1..], separator, level));
  }

  /** Some tokens between two symbols. */
  lemma {:induction false} Enclosed(ts: Tokens, p: nat, open: string, inside: Tokens, close: string)
    requires There(ts, p, [open] + inside + [close])
    ensures Tok(ts, p) == open && There(ts, p + 1, inside) && Tok(ts, p + 1 + |inside|) == close && p + 1 + |inside| < |ts|
  {
    ThereSplit(ts, p, [open] + inside, [close]);
    ThereSplit(ts, p, [open], inside);
    ThereOne(ts, p, open);
    ThereOne(ts, p + 1 + |inside|, close);
  }

  lemma {:induction false} RestStops(ts: Tokens, p: nat, args: seq<Type>, separator: string, level: nat)
    requires There(ts, p, PrintRest(args, separator, level)) && Stops(separator, level)
    requires args == [] ==> Stops(Tok(ts, p), level)
    ensures Stops(Tok(ts, p), level)
  {
    hide TypeAt, UnionRest, IntersectionAt, IntersectionRest, PrimaryAt, BaseAt, ArrayRest, ArgsRest, FieldsAt, Print, PrintSeparated, PrintFields, WellFormed, IsName, IsWord;
    if args != [] {
      assert PrintRest(args, separator, level)[0] == separator;
      assert ts[p..p + |PrintRest(args, separator, level)|][0] == separator;
    }
  }

  lemma {:induction false} PartBack(ts: Tokens, p: nat, t: Type)
    requires WellFormed(t) && There(ts, p, Print(t, 2)) && Stops(Tok(ts, p + |Print(t, 2)|), 2)
    ensures PrimaryAt(ts, p) == Some((t, p + |Print(t, 2)|))
    decreases t, 3
  {
    hide TypeAt, UnionRest, IntersectionAt, IntersectionRest, PrimaryAt, BaseAt, ArgsRest, FieldsAt, Print, PrintSeparated, PrintRest, PrintFields, There, WellFormed, IsName, IsWord;
    PrimaryBack(ts, p, t);
  }

  lemma {:induction false} IntersectionBack(ts: Tokens, p: nat, args: seq<Type>)
    requires |args| >= 2 && (forall i | 0 <= i < |args| :: WellFormed(args[i]))
    requires There(ts, p, PrintSeparated(args, "&", 2)) && Stops(Tok(ts, p + |PrintSeparated(args, "&", 2)|), 1)
    ensures IntersectionAt(ts, p) == Some((Intersection(args), p + |PrintSeparated(args, "&", 2)|))
    decreases args, 5
  {
    hide TypeAt, UnionRest, IntersectionRest, PrimaryAt, BaseAt, ArrayRest, ArgsRest, FieldsAt, Print, PrintSeparated, PrintRest, PrintFields, There, WellFormed, IsName, IsWord;
    var first := Print(args[0], 2);
    SeparatedThere(ts, p, args, "&", 2);
    RestStops(ts, p + |first|, args[1..], "&", 2);
    PartBack(ts, p, args[0]);
    IntersectionRestBack(ts, p + |first|, [args[0]], args[1..]);
    assert [args[0]] + args[1..] == args;
  }

  lemma {:induction false} IntersectionRestBack(ts: Tokens, p: nat, parts: seq<Type>, args: seq<Type>)
    requires parts != [] && |parts| + |args| >= 2 && (forall i | 0 <= i < |args| :: WellFormed(args[i]))
    requires There(ts, p, PrintRest(args, "&", 2)) && Stops(Tok(ts, p + |PrintRest(args, "&", 2)|), 1)
    ensures IntersectionRest(ts, p, parts) == Some((Intersection(parts + args), p + |PrintRest(args, "&", 2)|))
    decreases args, 5
  {
    hide TypeAt, UnionRest, IntersectionAt, PrimaryAt, BaseAt, ArrayRest, ArgsRest, FieldsAt, Print, PrintSeparated, PrintRest, PrintFields, There, WellFormed, IsName, IsWord;
    RestNothing("&", 2);
    if args == [] {
      assert parts + args == parts;
    } else {
      var first := Print(args[0], 2);
      RestThere(ts, p, args, "&", 2);
      RestStops(ts, p + 1 + |first|, args[1..], "&", 2);
      PartBack(ts, p + 1, args[0]);
      IntersectionRestBack(ts, p + 1 + |first|, parts + [args[0]], args[1..]);
      assert parts + [args[0]] + args[1..] == parts + args;
    }
  }

  lemma {:induction false} NamedBack(ts: Tokens, p: nat, name: string, args: seq<Type>)
    requires IsName(name) && (forall i | 0 <= i < |args| :: WellFormed(args[i]))
    requires There(ts, p, Print(Named(name, args), 2)) && Tok(ts, p + |Print(Named(name, args), 2)|) != "<"
    ensures PrimaryAt(ts, p) == ArrayRest(ts, p + |Print(Named(name, args), 2)|, Named(name, args))
    decreases args, 6
  {
    SymbolsAreNoNames(name);
    ThereSplit(ts, p, [name], if args == [] then [] else ["<"] + PrintSeparated(args, ",", 0) + [">"]);
    ThereOne(ts, p, name);
    if args == [] {
      assert [name] + [] == [name];
      BareName(ts, p);
    } else {
      hide TypeAt, UnionRest, IntersectionAt, IntersectionRest, PrimaryAt, BaseAt, ArrayRest, ArgsRest, FieldsAt, Print, PrintSeparated, PrintRest, PrintFields, There, WellFormed, IsName, IsWord, Stops;
      Enclosed(ts, p + 1, "<", PrintSeparated(args, ",", 0), ">");
      ArgsBack(ts, p, args);
      NameWithArgs(ts, p);
    }
  }

  lemma {:induction false} BareName(ts: Tokens, p: nat)
    requires p < |ts| && IsName(ts[p]) && Tok(ts, p + 1) != "<"
    ensures PrimaryAt(ts, p) == ArrayRest(ts, p + 1, Named(ts[p], []))
  {
    SymbolsAreNoNames(ts[p]);
    hide TypeAt, ArgsRest, FieldsAt, ArrayRest;
  }

  lemma {:induction false} NameWithArgs(ts: Tokens, p: nat)
    requires p < |ts| && IsName(ts[p]) && Tok(ts, p + 1) == "<" && TypeAt(ts, p + 2).Some?
    requires ArgsRest(ts, TypeAt(ts, p + 2).value.1, ts[p], [TypeAt(ts, p + 2).value.0]).Some?
    ensures var r := ArgsRest(ts, TypeAt(ts, p + 2).value.1, ts[p], [TypeAt(ts, p + 2).value.0]).value;
            PrimaryAt(ts, p) == ArrayRest(ts, r.1, r.0)
  {
    SymbolsAreNoNames(ts[p]);
    hide TypeAt, ArgsRest, FieldsAt, ArrayRest;
  }

  lemma {:induction false} ArgsBack(ts: Tokens, p: nat, args: seq<Type>)
    requires p < |ts| && args != [] && (forall i | 0 <= i < |args| :: WellFormed(args[i]))
    requires There(ts, p + 2, PrintSeparated(args, ",", 0)) && Tok(ts, p + 2 + |PrintSeparated(args, ",", 0)|) == ">"
    ensures TypeAt(ts, p + 2).Some? && ArgsRest(ts, TypeAt(ts, p + 2).value.1, ts[p], [TypeAt(ts, p + 2).value.0]) ==
              Some((Named(ts[p], args), p + 2 + |PrintSeparated(args, ",", 0)| + 1))
    decreases args, 5
  {
    hide TypeAt, UnionRest, IntersectionAt, IntersectionRest, PrimaryAt, BaseAt, ArrayRest, ArgsRest, FieldsAt, Print, PrintSeparated, PrintRest, PrintFields, There, WellFormed, IsName, IsWord;
    var end := p + 2 + |Print(args[0], 0)|;
    SeparatedThere(ts, p + 2, args, ",", 0);
    RestNothing(",", 0);
    RestStops(ts, end, args[1..], ",", 0);
    TypeBack(ts, p + 2, args[0]);
    ArgsRestBack(ts, end, ts[p], [args[0]], args[1..]);
    assert [args[0]] + args[1..] == args;
  }

  lemma {:induction false} ArgsRestBack(ts: Tokens, p: nat, name: string, done: seq<Type>, args: seq<Type>)
    requires forall i | 0 <= i < |args| :: WellFormed(args[i])
    requires There(ts, p, PrintRest(args, ",", 0)) && Tok(ts, p + |PrintRest(args, ",", 0)|) == ">"
    ensures ArgsRest(ts, p, name, done) == Some((Named(name, done + args), p + |PrintRest(args, ",", 0)| + 1))
    decreases args, 5
  {
    hide TypeAt, UnionRest, IntersectionAt, IntersectionRest, PrimaryAt, BaseAt, ArrayRest, FieldsAt, Print, PrintSeparated, PrintRest, PrintFields, There, WellFormed, IsName, IsWord;
    RestNothing(",", 0);
    if args == [] {
      assert done + args == done;
    } else {
      var first := Print(args[0], 0);
      RestThere(ts, p, args, ",", 0);
      RestStops(ts, p + 1 + |first|, args[1..], ",", 0);
      TypeBack(ts, p + 1, args[0]);
      ArgsRestBack(ts, p + 1 + |first|, name, done + [args[0]], args[1..]);
      assert done + [args[0]] + args[1..] == done + args;
    }
  }

  lemma {:induction false} FieldsBack(ts: Tokens, p: nat, done: seq<Field>, fields: seq<Field>)
    requires forall i | 0 <= i < |fields| :: IsWord(fields[i].name) && WellFormed(fields[i].ty)
    requires There(ts, p, PrintFields(fields)) && Tok(ts, p + |PrintFields(fields)|) == "}"
    ensures FieldsAt(ts, p, done) == Some((done + fields, p + |PrintFields(fields)| + 1))
    decreases fields, 5
  {
    hide TypeAt, UnionRest, IntersectionAt, IntersectionRest, PrimaryAt, BaseAt, ArrayRest, ArgsRest, FieldsAt, Print, PrintSeparated, PrintRest, PrintFields, There, WellFormed, IsName, IsWord;
    if fields == [] {
      RestNothing(",", 0);
      FieldsEnd(ts, p, done);
      assert done + fields == done;
    } else {
      var f := fields[0];
      FieldThere(ts, p, fields);
      var q := if f.optional then p + 2 else p + 1;
      var end := q + 1 + |Print(f.ty, 0)|;
      TypeBack(ts, q + 1, f.ty);
      FieldBack(ts, p, done, f, end);
      FieldsBack(ts, end + 1, done + [f], fields[1..]);
      assert done + [f] + fields[1..] == done + fields;
    }
  }

  lemma {:induction false} FieldsEnd(ts: Tokens, p: nat, done: seq<Field>)
    requires Tok(ts, p) == "}"
    ensures FieldsAt(ts, p, done) == Some((done, p + 1))
  {
  }

  lemma {:induction false} FieldBack(ts: Tokens, p: nat, done: seq<Field>, f: Field, end: nat)
    requires Tok(ts, p) == f.name && IsWord(f.name) && f.optional == (Tok(ts, p + 1) == "?")
    requires var q := if f.optional then p + 2 else p + 1; Tok(ts, q) == ":" && TypeAt(ts, q + 1) == Some((f.ty, end))
    ensures FieldsAt(ts, p, done) == FieldsAt(ts, if Tok(ts, end) in {";", ","} then end + 1 else end, done + [f])
  {
    SymbolsAreNoNames(f.name);
    hide TypeAt, IsWord, IsName;
  }

  lemma {:induction false} NoField(ts: Tokens, p: nat, done: seq<Field>)
    requires Tok(ts, p) != "}"
    requires var q := if Tok(ts, p + 1) == "?" then p + 2 else p + 1;
             !IsWord(Tok(ts, p)) || Tok(ts, q) != ":" || TypeAt(ts, q + 1).None?
    ensures FieldsAt(ts, p, done).None?
  {
    hide TypeAt, IsWord, IsName;
  }

  lemma {:induction false} FieldThere(ts: Tokens, p: nat, fields: seq<Field>)
    requires There(ts, p, PrintFields(fields)) && fields != []
    ensures var f := fields[0];
            var q := if f.optional then p + 2 else p + 1;
            var end := q + 1 + |Print(f.ty, 0)|;
            && Tok(ts, p) == f.name && f.optional == (Tok(ts, p + 1) == "?") && Tok(ts, q) == ":"
            && There(ts, q + 1, Print(f.ty, 0)) && Tok(ts, end) == ";" && There(ts, end + 1, PrintFields(fields[1..]))
            && p + |PrintFields(fields)| == end + 1 + |PrintFields(fields[1..])|
  {
    hide TypeAt, UnionRest, IntersectionAt, IntersectionRest, PrimaryAt, BaseAt, ArrayRest, ArgsRest, FieldsAt, Print, PrintSeparated, PrintRest, There, WellFormed, IsName, IsWord, Stops;
    var f := fields[0];
    var mark, ty, rest := if f.optional then ["?"] else [], Print(f.ty, 0), PrintFields(fields[1..]);
    var q := p + 1 + |mark|;
    ThereSplit(ts, p, [f.name] + mark + [":"] + ty + [";"], rest);
    ThereSplit(ts, p, [f.name] + mark + [":"] + ty, [";"]);
    ThereSplit(ts, p, [f.name] + mark + [":"], ty);
    ThereSplit(ts, p, [f.name] + mark, [":"]);
    ThereSplit(ts, p, [f.name], mark);
    ThereOne(ts, p, f.name);
    if f.optional {
      ThereOne(ts, p + 1, "?");
    }
    ThereOne(ts, q, ":");
    ThereOne(ts, q + 1 + |ty|, ";");
  }

  /** Parsing the printed tokens of a type gives the type back and uses them all. */
  lemma {:induction false} PrintedTypeIsRead(t: Type)
    requires WellFormed(t)
    ensures TypeAt(Print(t, 0), 0) == Some((t, |Print(t, 0)|))
  {
    TypeBack(Print(t, 0), 0, t);
  }

  // ----- The parser itself

  /** A result and a position agree with the grammar. */
  predicate Agrees(r: Option<Type>, pos: nat, parsed: Parsed) {
    match parsed
    case None => r.None?
    case Some((t, end)) => r == Some(t) && pos == end
  }

  class Parser {
    const tokens: Tokens
    var pos: nat

    constructor (tokens: Tokens)
      ensures this.tokens == tokens && pos == 0
    {
      this.tokens, pos := tokens, 0;
    }

    /** `type`. */
    method ParseType() returns (r: Option<Type>)
      requires pos <= |tokens|
      modifies this
      ensures Agrees(r, pos, TypeAt(tokens, old(pos)))
      decreases |tokens| - pos, 5
    {
      hide IntersectionAt, PrimaryAt;
      if Tok(tokens, pos) == "|" {
        pos := pos + 1;
      }
      ghost var start := pos;
      var member := ParseIntersection();
      if member.None? {
        return None;
      }
      var union := [member.value];
      while Tok(tokens, pos) == "|"
        invariant union != [] && start < pos <= |tokens|
        invariant TypeAt(tokens, old(pos)) == UnionRest(tokens, pos, union)
        decreases |tokens| - pos
      {
        pos := pos + 1;
        member := ParseIntersection();
        if member.None? {
          return None;
        }
        union := union + [member.value];
      }
      r := Some(if |union| == 1 then union[0] else Union(union));
    }

    /** `intersection`. */
    method ParseIntersection() returns (r: Option<Type>)
      requires pos <= |tokens|
      modifies this
      ensures Agrees(r, pos, IntersectionAt(tokens, old(pos)))
      decreases |tokens| - pos, 4
    {
      hide PrimaryAt;
      ghost var start := pos;
      var part := ParsePrimary();
      if part.None? {
        return None;
      }
      var parts := [part.value];
      while Tok(tokens, pos) == "&"
        invariant parts != [] && start < pos <= |tokens|
        invariant IntersectionAt(tokens, old(pos)) == IntersectionRest(tokens, pos, parts)
        decreases |tokens| - pos
      {
        pos := pos + 1;
        part := ParsePrimary();
        if part.None? {
          return None;
        }
        parts := parts + [part.value];
      }
      r := Some(if |parts| == 1 then parts[0] else Intersection(parts));
    }

    /** `primary`. */
    method ParsePrimary() returns (r: Option<Type>)
      requires pos <= |tokens|
      modifies this
      ensures Agrees(r, pos, PrimaryAt(tokens, old(pos)))
      decreases |tokens| - pos, 3
    {
      hide BaseAt;
      r := ParseBase();
      if r.None? {
        return;
      }
      var t := r.value;
      while Tok(tokens, pos) == "["
        invariant pos <= |tokens| && PrimaryAt(tokens, old(pos)) == ArrayRest(tokens, pos, t)
        decreases |tokens| - pos
      {
        if Tok(tokens, pos + 1) != "]" {
          return None;
        }
        pos, t := pos + 2, ArrayOf(t);
      }
      r := Some(t);
    }

    /** ... before its brackets. */
    method ParseBase() returns (r: Option<Type>)
      requires pos <= |tokens|
      modifies this
      ensures Agrees(r, pos, BaseAt(tokens, old(pos)))
      decreases |tokens| - pos, 2
    {
      hide TypeAt, FieldsAt, ArgsRest;
      if Tok(tokens, pos) == "{" {
        pos := pos + 1;
        var fields := ParseFields();
        return if fields.Some? then Some(Record(fields.value)) else None;
      }
      if Tok(tokens, pos) == "(" {
        pos := pos + 1;
        r := ParseType();
        if r.Some? {
          if Tok(tokens, pos) != ")" {
            return None;
          }
          pos := pos + 1;
        }
        return;
      }
      if pos >= |tokens| || !IsName(tokens[pos]) {
        return None;
      }
      var name := tokens[pos];
      pos := pos + 1;
      if Tok(tokens, pos) != "<" {
        return Some(Named(name, []));
      }
      pos := pos + 1;
      r := ParseArgs(name);
    }

    /** The arguments of a generic type. */
    method ParseArgs(name: string) returns (r: Option<Type>)
      requires pos <= |tokens|
      modifies this
      ensures Agrees(r, pos, match TypeAt(tokens, old(pos)) case None => None case Some((t, end)) => ArgsRest(tokens, end, name, [t]))
      decreases |tokens| - pos, 6
    {
      hide TypeAt;
      ghost var start := pos;
      var arg := ParseType();
      if arg.None? {
        return None;
      }
      ghost var spec := ArgsRest(tokens, pos, name, [arg.value]);
      var args := [arg.value];
      while Tok(tokens, pos) == ","
        invariant start < pos <= |tokens| && spec == ArgsRest(tokens, pos, name, args)
        decreases |tokens| - pos
      {
        pos := pos + 1;
        arg := ParseType();
        if arg.None? {
          return None;
        }
        args := args + [arg.value];
      }
      if Tok(tokens, pos) != ">" {
        return None;
      }
      pos := pos + 1;
      r := Some(Named(name, args));
    }

    /** `fields`, after the opening brace. */
    method ParseFields() returns (r: Option<seq<Field>>)
      requires pos <= |tokens|
      modifies this
      ensures match FieldsAt(tokens, old(pos), []) case None => r.None? case Some((fields, end)) => r == Some(fields) && pos == end
      decreases |tokens| - pos, 6
    {
      hide TypeAt, FieldsAt, IsWord;
      var fields := [];
      while Tok(tokens, pos) != "}"
        invariant old(pos) <= pos <= |tokens| && FieldsAt(tokens, old(pos), []) == FieldsAt(tokens, pos, fields)
        decreases |tokens| - pos
      {
        ghost var at := pos;
        var name := Tok(tokens, pos);
        if pos >= |tokens| || !IsWord(name) {
          NoWord(tokens, pos);
          NoField(tokens, at, fields);
          return None;
        }
        pos := pos + 1;
        var optional := Tok(tokens, pos) == "?";
        if optional {
          pos := pos + 1;
        }
        if Tok(tokens, pos) != ":" {
          NoField(tokens, at, fields);
          return None;
        }
        pos := pos + 1;
        var t := ParseType();
        if t.None? {
          NoField(tokens, at, fields);
          return None;
        }
        FieldBack(tokens, at, fields, Field(name, optional, t.value), pos);
        fields := fields + [Field(name, optional, t.value)];
        if Tok(tokens, pos) in {";", ","} {
          pos := pos + 1;
        }
      }
      FieldsEnd(tokens, pos, fields);
      pos := pos + 1;
      r := Some(fields);
    }
  }

  lemma {:induction false} NoWord(ts: Tokens, p: nat)
    ensures p >= |ts| ==> !IsWord(Tok(ts, p))
  {
  }
}
