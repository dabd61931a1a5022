/** Schema nodes, JSON-like values and reference resolution: model of pi/packages/ai/src/schema.ts. */
module SchemaNodes {
  import opened Options

  /** A run-time value. `Undefined` stands for every value that JSON does not have. */
  datatype Value =
    | Undefined
    | Null
    | Bool(b: bool)
    | Num(n: real)
    | Str(s: string)
    | Arr(elems: seq<Value>)
    | Obj(fields: seq<Field>)

  /** One own property; an object lists its properties in key order. */
  datatype Field = Field(key: string, value: Value)

  datatype Type = TString | TNumber | TInteger | TBoolean | TNull | TArray | TObject | TOther(name: string)

  datatype Items = NoItems | Each(item: Node) | Positional(positions: seq<Node>)

  datatype Additional = Unspecified | Allow(allowed: bool) | Matching(schema: Node)

  /** An `anyOf` or `oneOf` keyword. */
  datatype Branches = Absent | Branches(list: seq<Node>)

  datatype Entry = Entry(name: string, node: Node)

  /** A schema object, one field per keyword that the validator or the converter reads. */
  datatype Node = Node(
    ref: Option<string>,
    id: Option<string>,
    defs: seq<Entry>,
    anyOf: Branches,
    oneOf: Branches,
    allOf: seq<Node>,
    constant: Option<Value>,
    enumeration: Option<seq<Value>>,
    types: seq<Type>,
    minLength: Option<nat>, maxLength: Option<nat>, pattern: Option<string>,
    minimum: Option<real>, maximum: Option<real>, multipleOf: Option<real>,
    minItems: Option<nat>, maxItems: Option<nat>,
    items: Items,
    properties: seq<Entry>,
    required: seq<string>,
    patternProperties: seq<Entry>,
    additional: Additional)

  /** The definitions in scope, with what regular expressions and number formatting do. `rank` witnesses that
      references are guarded; the program does not have it. */
  datatype Context = Context(
    defs: map<string, Node>,
    rank: map<string, nat>,
    test: (string, string) -> bool,
    isMultiple: (real, real) -> bool,
    parse: string -> Option<real>,
    show: real -> string)

  // ----- Reference resolution

  const MAX_HOPS: nat := 64

  function ResolveFrom(n: Node, defs: map<string, Node>, hops: nat): Node
    requires hops <= MAX_HOPS
    decreases MAX_HOPS - hops
  {
    if hops < MAX_HOPS && n.ref.Some? && n.ref.value in defs then ResolveFrom(defs[n.ref.value], defs, hops + 1)
    else n
  }

  /** resolveRef, as a function. */
  function Resolve(n: Node, defs: map<string, Node>): Node {
    ResolveFrom(n, defs, 0)
  }

  method ResolveRef(node: Node, defs: map<string, Node>) returns (target: Node)
    ensures target == Resolve(node, defs)
  {
    target := node;
    var hops := 0;
    while hops < MAX_HOPS
      invariant hops <= MAX_HOPS
      invariant ResolveFrom(target, defs, hops) == Resolve(node, defs)
    {
      if target.ref.None? {
        return;
      }
      if target.ref.value !in defs {
        return;
      }
      target := defs[target.ref.value];
      hops := hops + 1;
    }
  }

  // ----- Guardedness: how often a node can be unfolded without descending into the value

  function Max(a: nat, b: nat): nat {
    if a >= b then a else b
  }

  function Rank(rank: map<string, nat>, n: Node): nat {
    Max(RefRank(rank, n),
        Max(if n.anyOf.Branches? then RankAll(rank, n.anyOf.list) else 0,
            Max(if n.oneOf.Branches? then RankAll(rank, n.oneOf.list) else 0, RankAll(rank, n.allOf))))
  }

  function RefRank(rank: map<string, nat>, n: Node): nat {
    if n.ref.Some? && n.ref.value in rank then rank[n.ref.value] + 1 else 0
  }

  function RankAll(rank: map<string, nat>, ns: seq<Node>): nat {
    if ns == [] then 0 else Max(Rank(rank, ns[0]), RankAll(rank, ns[1..]))
  }

  lemma {:induction false} RankIn(rank: map<string, nat>, ns: seq<Node>, n: Node)
    requires n in ns
    ensures Rank(rank, n) <= RankAll(rank, ns)
  {
    if n != ns[0] {
      RankIn(rank, ns[1..], n);
    }
  }

  lemma RankOfParts(rank: map<string, nat>, n: Node)
    ensures n.anyOf.Branches? ==> forall b :: b in n.anyOf.list ==> Rank(rank, b) <= Rank(rank, n)
    ensures n.oneOf.Branches? ==> forall b :: b in n.oneOf.list ==> Rank(rank, b) <= Rank(rank, n)
    ensures forall b :: b in n.allOf ==> Rank(rank, b) <= Rank(rank, n)
  {
    if n.anyOf.Branches? {
      forall b | b in n.anyOf.list ensures Rank(rank, b) <= Rank(rank, n) {
        RankIn(rank, n.anyOf.list, b);
      }
    }
    if n.oneOf.Branches? {
      forall b | b in n.oneOf.list ensures Rank(rank, b) <= Rank(rank, n) {
        RankIn(rank, n.oneOf.list, b);
      }
    }
    forall b | b in n.allOf ensures Rank(rank, b) <= Rank(rank, n) {
      RankIn(rank, n.allOf, b);
    }
  }

  lemma RankOfLists(rank: map<string, nat>, n: Node)
    ensures n.anyOf.Branches? ==> RankAll(rank, n.anyOf.list) <= Rank(rank, n)
    ensures n.oneOf.Branches? ==> RankAll(rank, n.oneOf.list) <= Rank(rank, n)
    ensures RankAll(rank, n.allOf) <= Rank(rank, n)
  {
  }

  /** Every cycle of references passes through an array element, a property or a record value: unfolding a
      definition without descending into the value leads only to definitions of smaller rank. */
  predicate Guarded(c: Context) {
    && c.rank.Keys == c.defs.Keys
    && forall name :: name in c.defs ==> Rank(c.rank, c.defs[name]) <= c.rank[name]
  }

  lemma RefRankBound(c: Context, n: Node)
    requires Guarded(c) && n.ref.Some? && n.ref.value in c.defs
    ensures Rank(c.rank, c.defs[n.ref.value]) < Rank(c.rank, n)
  {
    assert RefRank(c.rank, n) <= Rank(c.rank, n);
  }

  /** Resolution follows definitions only, so what every hop decreases, resolving decreases. */
  lemma {:induction false} ResolveDecreases(defs: map<string, Node>, f: Node -> nat, n: Node, hops: nat)
    requires hops <= MAX_HOPS
    requires forall m: Node :: m.ref.Some? && m.ref.value in defs ==> f(defs[m.ref.value]) < f(m)
    ensures ResolveFrom(n, defs, hops) == n || f(ResolveFrom(n, defs, hops)) < f(n)
    decreases MAX_HOPS - hops
  {
    if hops < MAX_HOPS && n.ref.Some? && n.ref.value in defs {
      ResolveDecreases(defs, f, defs[n.ref.value], hops + 1);
    }
  }

  lemma ResolveRank(c: Context, n: Node)
    requires Guarded(c)
    ensures Resolve(n, c.defs) == n || Rank(c.rank, Resolve(n, c.defs)) < Rank(c.rank, n)
  {
    var f := (m: Node) => Rank(c.rank, m);
    forall m: Node | m.ref.Some? && m.ref.value in c.defs
      ensures f(c.defs[m.ref.value]) < f(m)
    {
      RefRankBound(c, m);
    }
    ResolveDecreases(c.defs, f, n, 0);
  }

  // ----- Values

  predicate IsInteger(n: real) {
    n.Floor as real == n
  }

  predicate MatchesType(v: Value, t: Type) {
    match t
    case TString => v.Str?
    case TNumber => v.Num?
    case TInteger => v.Num? && IsInteger(v.n)
    case TBoolean => v.Bool?
    case TNull => v.Null?
    case TArray => v.Arr?
    case TObject => v.Obj?
    case TOther(_) => true
  }

  predicate MatchesAny(v: Value, types: seq<Type>) {
    types == [] || exists t :: t in types && MatchesType(v, t)
  }

  function Find(entries: seq<Entry>, name: string): (r: Option<Node>)
    ensures r.Some? ==> exists e :: e in entries && e.name == name && e.node == r.value
    ensures r.None? ==> forall e :: e in entries ==> e.name != name
  {
    if entries == [] then None
    else if entries[0].name == name then Some(entries[0].node)
    else Find(entries[1..], name)
  }

  predicate HasName(entries: seq<Entry>, name: string) {
    exists e :: e in entries && e.name == name
  }

  function Get(fields: seq<Field>, key: string): (r: Option<Value>)
    ensures r.Some? <==> exists f :: f in fields && f.key == key
    ensures r.Some? ==> exists f :: f in fields && f.key == key && f.value == r.value
  {
    if fields == [] then None
    else if fields[0].key == key then Some(fields[0].value)
    else Get(fields[1..], key)
  }

  predicate HasKey(fields: seq<Field>, key: string) {
    exists f :: f in fields && f.key == key
  }

  predicate DeepEqual(a: Value, b: Value) {
    if a.Arr? && b.Arr? then
      |a.elems| == |b.elems| && forall i :: 0 <= i < |a.elems| ==> DeepEqual(a.elems[i], b.elems[i])
    else if a.Obj? && b.Obj? then
      && |a.fields| == |b.fields|
      && forall f :: f in a.fields ==> HasKey(b.fields, f.key) && DeepEqual(f.value, Get(b.fields, f.key).value)
    else a == b
  }
}
