/** The schema builders, the definitions they put in scope, and the recursive JSON schema made with them. */
module SchemaBuilders {
  import opened Options
  import opened SchemaNodes
  import opened SchemaAccepts
  import opened SchemaConversion
  import opened SchemaTheorems

  const EMPTY: Node :=
    Node(None, None, [], Absent, Absent, [], None, None, [], None, None, None, None, None, None, None, None,
         NoItems, [], [], [], Unspecified)

  const EVERY_KEY: string := "^.*$"

  /** A schema as written with the builders. Optional only occurs as a property of Object. */
  datatype Built =
    | StringOf(minLength: Option<nat>, maxLength: Option<nat>, pattern: Option<string>)
    | NumberOf(minimum: Option<real>, maximum: Option<real>, multipleOf: Option<real>)
    | IntegerOf(minimum: Option<real>, maximum: Option<real>, multipleOf: Option<real>)
    | BooleanOf
    | NullOf
    | UnknownOf
    | LiteralOf(value: Literal)
    | ObjectOf(props: seq<Property>, objectAdditional: BuiltAdditional)
    | ArrayOf(items: Built, minItems: Option<nat>, maxItems: Option<nat>)
    | UnionOf(branches: seq<Built>)
    | RecordOf(values: Built, recordAdditional: BuiltAdditional)
    | RefTo(name: string)
    | CyclicOf(defs: seq<Definition>, root: string)

  datatype Literal = StringLiteral(s: string) | NumberLiteral(n: real) | BooleanLiteral(b: bool)
  datatype Property = Property(key: string, optional: bool, schema: Built)
  datatype BuiltAdditional = NotGiven | Given(allowed: bool) | GivenSchema(schema: Built)
  datatype Definition = Definition(name: string, schema: Built)

  /** What the builders produce. */
  function Build(b: Built): Node {
    match b
    case StringOf(lo, hi, pattern) => EMPTY.(types := [TString], minLength := lo, maxLength := hi, pattern := pattern)
    case NumberOf(lo, hi, m) => EMPTY.(types := [TNumber], minimum := lo, maximum := hi, multipleOf := m)
    case IntegerOf(lo, hi, m) => EMPTY.(types := [TInteger], minimum := lo, maximum := hi, multipleOf := m)
    case BooleanOf => EMPTY.(types := [TBoolean])
    case NullOf => EMPTY.(types := [TNull])
    case UnknownOf => EMPTY
    case LiteralOf(StringLiteral(s)) => EMPTY.(types := [TString], constant := Some(Str(s)))
    case LiteralOf(NumberLiteral(n)) => EMPTY.(types := [TNumber], constant := Some(Num(n)))
    case LiteralOf(BooleanLiteral(x)) => EMPTY.(types := [TBoolean], constant := Some(Bool(x)))
    case ObjectOf(props, additional) =>
      EMPTY.(types := [TObject], properties := BuildProperties(props), required := RequiredKeys(props),
             additional := BuildAdditional(additional))
    case ArrayOf(items, lo, hi) => EMPTY.(types := [TArray], items := Each(Build(items)), minItems := lo, maxItems := hi)
    case UnionOf(branches) => EMPTY.(anyOf := Branches(BuildAll(branches)))
    case RecordOf(value, additional) =>
      EMPTY.(types := [TObject], patternProperties := [Entry(EVERY_KEY, Build(value))],
             additional := BuildAdditional(additional))
    case RefTo(name) => EMPTY.(ref := Some(name))
    case CyclicOf(defs, root) => EMPTY.(defs := BuildDefinitions(defs), ref := Some(root))
  }

  function BuildAll(bs: seq<Built>): seq<Node> {
    if bs == [] then [] else [Build(bs[0])] + BuildAll(bs[1..])
  }

  function BuildProperties(ps: seq<Property>): seq<Entry> {
    if ps == [] then [] else [Entry(ps[0].key, Build(ps[0].schema))] + BuildProperties(ps[1..])
  }

  function RequiredKeys(ps: seq<Property>): seq<string> {
    if ps == [] then []
    else (if ps[0].optional then [] else [ps[0].key]) + RequiredKeys(ps[1..])
  }

  function BuildAdditional(a: BuiltAdditional): Additional {
    match a
    case NotGiven => Unspecified
    case Given(allowed) => Allow(allowed)
    case GivenSchema(schema) => Matching(Build(schema))
  }

  /** Cyclic names each definition after its key. */
  function BuildDefinitions(ds: seq<Definition>): seq<Entry> {
    if ds == [] then []
    else [Entry(ds[0].name, Build(ds[0].schema).(id := Some(ds[0].name)))] + BuildDefinitions(ds[1..])
  }

  /** No Record has a schema for additional properties. */
  predicate RecordsOpen(b: Built) {
    match b
    case ObjectOf(props, additional) =>
      (forall p :: p in props ==> RecordsOpen(p.schema)) && (additional.GivenSchema? ==> RecordsOpen(additional.schema))
    case ArrayOf(items, _, _) => RecordsOpen(items)
    case UnionOf(branches) => forall x :: x in branches ==> RecordsOpen(x)
    case RecordOf(value, additional) => RecordsOpen(value) && !additional.GivenSchema?
    case CyclicOf(defs, _) => forall d :: d in defs ==> RecordsOpen(d.schema)
    case _ => true
  }

  // ----- Definitions in scope

  /** collectDefs: definitions are entered under their id, or else their key; later ones replace earlier ones. */
  function CollectDefs(n: Node, out: map<string, Node>): map<string, Node>
    decreases n, 1
  {
    var o1 := CollectDefinitions(n.defs, out);
    var o2 := if n.anyOf.Branches? then CollectAll(n.anyOf.list, o1) else o1;
    var o3 := if n.oneOf.Branches? then CollectAll(n.oneOf.list, o2) else o2;
    var o4 := CollectAll(n.allOf, o3);
    var o5 := CollectEntries(n.properties, o4);
    var o6 := match n.items
              case NoItems => o5
              case Each(item) => CollectDefs(item, o5)
              case Positional(positions) => CollectAll(positions, o5);
    var o7 := if n.additional.Matching? then CollectDefs(n.additional.schema, o6) else o6;
    CollectEntries(n.patternProperties, o7)
  }

  function CollectAll(ns: seq<Node>, out: map<string, Node>): map<string, Node>
    decreases ns, 0
  {
    if ns == [] then out else CollectAll(ns[1..], CollectDefs(ns[0], out))
  }

  function CollectEntries(es: seq<Entry>, out: map<string, Node>): map<string, Node>
    decreases es, 0
  {
    if es == [] then out else CollectEntries(es[1..], CollectDefs(es[0].node, out))
  }

  function DefinedName(e: Entry): string {
    if e.node.id.Some? then e.node.id.value else e.name
  }

  function CollectDefinitions(es: seq<Entry>, out: map<string, Node>): map<string, Node>
    decreases es, 0
  {
    if es == [] then out
    else CollectDefinitions(es[1..], CollectDefs(es[0].node, out[DefinedName(es[0]) := es[0].node]))
  }

  predicate AllShaped(defs: map<string, Node>, additional: bool) {
    forall name :: name in defs ==> Shaped(defs[name], additional)
  }

  /** Collecting reads only these keywords. */
  lemma CollectIgnoresId(n: Node, id: Option<string>, out: map<string, Node>)
    ensures CollectDefs(n.(id := id), out) == CollectDefs(n, out)
  {
  }

  lemma ShapedIgnoresId(n: Node, id: Option<string>, additional: bool)
    requires Shaped(n, additional)
    ensures Shaped(n.(id := id), additional)
  {
  }

  /** Everything the builders make has their shape, and so has every definition it puts in scope; what they make
      without a schema for a Record's additional properties is plain. */
  lemma {:induction false} BuildIsShaped(b: Built, additional: bool, out: map<string, Node>)
    requires (additional || RecordsOpen(b)) && AllShaped(out, additional)
    ensures Shaped(Build(b), additional) && AllShaped(CollectDefs(Build(b), out), additional)
    decreases b, 1
  {
    var n := Build(b);
    match b
    case ObjectOf(_, _) => ObjectIsShaped(b, additional, out);
    case ArrayOf(items, _, _) =>
      BuildIsShaped(items, additional, out);
      assert CollectDefs(n, out) == CollectDefs(Build(items), out);
    case UnionOf(_) => UnionIsShaped(b, additional, out);
    case RecordOf(_, _) => RecordIsShaped(b, additional, out);
    case CyclicOf(defs, _) =>
      DefinitionsShaped(defs, additional, out);
      assert CollectDefs(n, out) == CollectDefinitions(BuildDefinitions(defs), out);
    case _ =>
      assert CollectDefs(n, out) == out;
  }

  lemma {:induction false} UnionIsShaped(b: Built, additional: bool, out: map<string, Node>)
    requires b.UnionOf? && (additional || RecordsOpen(b)) && AllShaped(out, additional)
    ensures Shaped(Build(b), additional) && AllShaped(CollectDefs(Build(b), out), additional)
    decreases b, 0
  {
    BranchesShaped(b.branches, additional, out);
    assert CollectDefs(Build(b), out) == CollectAll(BuildAll(b.branches), out);
  }

  lemma {:induction false} ObjectIsShaped(b: Built, additional: bool, out: map<string, Node>)
    requires b.ObjectOf? && (additional || RecordsOpen(b)) && AllShaped(out, additional)
    ensures Shaped(Build(b), additional) && AllShaped(CollectDefs(Build(b), out), additional)
    decreases b, 0
  {
    var n := Build(b);
    PropertiesShaped(b.props, additional, out);
    var o := CollectEntries(n.properties, out);
    if b.objectAdditional.GivenSchema? {
      BuildIsShaped(b.objectAdditional.schema, additional, o);
    }
    assert CollectDefs(n, out) == if n.additional.Matching? then CollectDefs(n.additional.schema, o) else o;
  }

  lemma {:induction false} RecordIsShaped(b: Built, additional: bool, out: map<string, Node>)
    requires b.RecordOf? && (additional || RecordsOpen(b)) && AllShaped(out, additional)
    ensures Shaped(Build(b), additional) && AllShaped(CollectDefs(Build(b), out), additional)
    decreases b, 0
  {
    var n := Build(b);
    BuildIsShaped(b.values, additional, out);
    assert n.patternProperties == [Entry(EVERY_KEY, Build(b.values))] && n.patternProperties[1..] == [];
    assert CollectEntries(n.patternProperties, out) == CollectDefs(Build(b.values), out);
    assert n.additional == BuildAdditional(b.recordAdditional);
    if n.additional.Matching? {
      BuildIsShaped(b.recordAdditional.schema, additional, out);
      var o := CollectDefs(n.additional.schema, out);
      BuildIsShaped(b.values, additional, o);
      assert CollectEntries(n.patternProperties, o) == CollectDefs(Build(b.values), o);
      assert CollectDefs(n, out) == CollectEntries(n.patternProperties, o);
    } else {
      assert CollectDefs(n, out) == CollectEntries(n.patternProperties, out);
    }
  }

  lemma {:induction false} BranchesShaped(bs: seq<Built>, additional: bool, out: map<string, Node>)
    requires (additional || forall x :: x in bs ==> RecordsOpen(x)) && AllShaped(out, additional)
    ensures (forall n :: n in BuildAll(bs) ==> Shaped(n, additional)) && AllShaped(CollectAll(BuildAll(bs), out), additional)
    decreases bs
  {
    if bs != [] {
      BuildIsShaped(bs[0], additional, out);
      BranchesShaped(bs[1..], additional, CollectDefs(Build(bs[0]), out));
      assert BuildAll(bs)[1..] == BuildAll(bs[1..]);
    }
  }

  lemma {:induction false} PropertiesShaped(ps: seq<Property>, additional: bool, out: map<string, Node>)
    requires (additional || forall p :: p in ps ==> RecordsOpen(p.schema)) && AllShaped(out, additional)
    ensures forall e :: e in BuildProperties(ps) ==> Shaped(e.node, additional)
    ensures AllShaped(CollectEntries(BuildProperties(ps), out), additional)
    decreases ps
  {
    if ps != [] {
      BuildIsShaped(ps[0].schema, additional, out);
      PropertiesShaped(ps[1..], additional, CollectDefs(Build(ps[0].schema), out));
      assert BuildProperties(ps)[1..] == BuildProperties(ps[1..]);
    }
  }

  lemma {:induction false} DefinitionsShaped(ds: seq<Definition>, additional: bool, out: map<string, Node>)
    requires (additional || forall d :: d in ds ==> RecordsOpen(d.schema)) && AllShaped(out, additional)
    ensures AllShaped(CollectDefinitions(BuildDefinitions(ds), out), additional)
    decreases ds
  {
    if ds != [] {
      var n := Build(ds[0].schema);
      var e := BuildDefinitions(ds)[0];
      var with := out[DefinedName(e) := e.node];
      BuildIsShaped(ds[0].schema, additional, out);
      ShapedIgnoresId(n, e.node.id, additional);
      BuildIsShaped(ds[0].schema, additional, with);
      CollectIgnoresId(n, e.node.id, with);
      DefinitionsShaped(ds[1..], additional, CollectDefs(e.node, with));
      assert BuildDefinitions(ds)[1..] == BuildDefinitions(ds[1..]);
    }
  }

  /** What they make without a schema for a Record's additional properties is plain. */
  lemma BuildIsPlain(b: Built)
    requires RecordsOpen(b)
    ensures Plain(Build(b)) && AllShaped(CollectDefs(Build(b), map[]), false)
  {
    BuildIsShaped(b, false, map[]);
  }

  /** The context in which a root schema is checked and converted. */
  ghost predicate ContextOf(c: Context, b: Built) {
    Guarded(c) && c.defs == CollectDefs(Build(b), map[])
  }

  /** Convert by any builder-made schema whose Records have no schema for additional properties leaves accepted
      values unchanged. */
  lemma BuiltKeepsAccepted(c: Context, b: Built, v: Value)
    requires ContextOf(c, b) && RecordsOpen(b)
    ensures Accepts(c, Build(b), v) ==> Convert(c, Build(b), v) == v
  {
    BuildIsPlain(b);
    if Accepts(c, Build(b), v) {
      ConvertKeepsAccepted(c, Build(b), v);
    }
  }

  /** And what it returns, it leaves unchanged when applied again. */
  lemma BuiltIdempotent(c: Context, b: Built, v: Value)
    requires ContextOf(c, b) && RecordsOpen(b)
    ensures Convert(c, Build(b), Convert(c, Build(b), v)) == Convert(c, Build(b), v)
  {
    BuildIsPlain(b);
    ConvertIdempotent(c, Build(b), v);
  }

  /** A union conversion returns the value unchanged or a value the union accepts. */
  lemma BuiltUnion(c: Context, branches: seq<Built>, v: Value)
    requires ContextOf(c, UnionOf(branches))
    ensures var n := Build(UnionOf(branches));
            Convert(c, n, v) == v || Accepts(c, n, Convert(c, n, v))
  {
    var n := Build(UnionOf(branches));
    UnionOutcome(c, n.anyOf.list, v);
    assert Resolve(n, c.defs) == n && ConvertAll(c, n.allOf, v) == v;
    assert Convert(c, n, v) == ConvertUnion(c, n.anyOf.list, v);
  }
}
