/** The recursive JSON schema of pi/packages/protocol/src/schemas.ts, and the limits of conversion by Records. */
module SchemaJson {
  import opened Options
  import opened SchemaNodes
  import opened SchemaAccepts
  import opened SchemaConversion
  import opened SchemaTheorems
  import opened SchemaBuilders

  const JSON_NAME: string := "JsonValue"

  const JSON_UNION: Built :=
    UnionOf([NullOf, BooleanOf, NumberOf(None, None, None), StringOf(None, None, None),
             ArrayOf(RefTo(JSON_NAME), None, None), RecordOf(RefTo(JSON_NAME), NotGiven)])

  const JSON_SCHEMA: Built := CyclicOf([Definition(JSON_NAME, JSON_UNION)], JSON_NAME)

  predicate IsLineTerminator(ch: char) {
    ch == '\n' || ch == '\r' || ch == '\U{2028}' || ch == '\U{2029}'
  }

  predicate OneLine(key: string) {
    forall ch :: ch in key ==> !IsLineTerminator(ch)
  }

  /** Built of JSON values throughout. */
  predicate IsJson(v: Value) {
    match v
    case Undefined => false
    case Arr(elems) => forall e :: e in elems ==> IsJson(e)
    case Obj(fields) => forall f :: f in fields ==> IsJson(f.value)
    case _ => true
  }

  /** JSON except below properties whose key has a line terminator, where anything goes. */
  predicate IsJsonOnOneLineKeys(v: Value) {
    match v
    case Undefined => false
    case Arr(elems) => forall e :: e in elems ==> IsJsonOnOneLineKeys(e)
    case Obj(fields) => forall f :: f in fields && OneLine(f.key) ==> IsJsonOnOneLineKeys(f.value)
    case _ => true
  }

  predicate KeysOnOneLine(v: Value) {
    match v
    case Arr(elems) => forall e :: e in elems ==> KeysOnOneLine(e)
    case Obj(fields) => forall f :: f in fields ==> OneLine(f.key) && KeysOnOneLine(f.value)
    case _ => true
  }

  /** The context of the JSON schema: the pattern that Records use matches exactly the keys on one line. */
  ghost predicate JsonContext(c: Context) {
    && c.defs == CollectDefs(Build(JSON_SCHEMA), map[])
    && c.rank == map[JSON_NAME := 0]
    && forall key :: c.test(EVERY_KEY, key) <==> OneLine(key)
  }

  const JSON_NODE: Node := Build(JSON_UNION).(id := Some(JSON_NAME))

  const REF_NODE: Node := Build(RefTo(JSON_NAME))

  lemma JsonBranches()
    ensures JSON_NODE.anyOf.list
         == [Build(NullOf), Build(BooleanOf), Build(NumberOf(None, None, None)), Build(StringOf(None, None, None)),
             Build(ArrayOf(RefTo(JSON_NAME), None, None)), Build(RecordOf(RefTo(JSON_NAME), NotGiven))]
  {
    var bs := JSON_UNION.branches;
    assert BuildAll(bs[6..]) == [];
    assert BuildAll(bs[5..]) == [Build(bs[5])] + BuildAll(bs[6..]) by { assert bs[5..][1..] == bs[6..]; }
    assert BuildAll(bs[4..]) == [Build(bs[4])] + BuildAll(bs[5..]) by { assert bs[4..][1..] == bs[5..]; }
    assert BuildAll(bs[3..]) == [Build(bs[3])] + BuildAll(bs[4..]) by { assert bs[3..][1..] == bs[4..]; }
    assert BuildAll(bs[2..]) == [Build(bs[2])] + BuildAll(bs[3..]) by { assert bs[2..][1..] == bs[3..]; }
    assert BuildAll(bs[1..]) == [Build(bs[1])] + BuildAll(bs[2..]) by { assert bs[1..][1..] == bs[2..]; }
    assert BuildAll(bs) == [Build(bs[0])] + BuildAll(bs[1..]);
  }

  /** A node that mentions no other node defines nothing and cannot be unfolded. */
  lemma LeafNode(n: Node, out: map<string, Node>, rank: map<string, nat>)
    requires n.defs == [] && n.anyOf.Absent? && n.oneOf.Absent? && n.allOf == [] && n.additional.Unspecified?
    ensures n.ref.None? ==> Rank(rank, n) == 0
    ensures n.properties == [] && n.items.NoItems? && n.patternProperties == [] ==> CollectDefs(n, out) == out
    ensures n.properties == [] && n.items.Each? && n.patternProperties == [] ==>
              CollectDefs(n, out) == CollectDefs(n.items.item, out)
    ensures n.properties == [] && n.items.NoItems? && |n.patternProperties| == 1 ==>
              CollectDefs(n, out) == CollectDefs(n.patternProperties[0].node, out)
  {
    if |n.patternProperties| == 1 {
      var ps := n.patternProperties;
      assert CollectEntries(ps, out) == CollectEntries(ps[1..], CollectDefs(ps[0].node, out));
    }
  }

  lemma JsonDefs()
    ensures CollectDefs(Build(JSON_SCHEMA), map[]) == map[JSON_NAME := JSON_NODE]
  {
    JsonBranches();
    var defs := map[JSON_NAME := JSON_NODE];
    LeafNode(REF_NODE, defs, map[]);
    forall b | b in JSON_NODE.anyOf.list
      ensures CollectDefs(b, defs) == defs
    {
      LeafNode(b, defs, map[]);
    }
    CollectsNothing(JSON_NODE.anyOf.list, defs);
    JsonRootCollects(defs);
  }

  lemma JsonRootCollects(defs: map<string, Node>)
    requires defs == map[JSON_NAME := JSON_NODE]
    ensures CollectDefs(Build(JSON_SCHEMA), map[]) == CollectAll(JSON_NODE.anyOf.list, defs)
  {
    assert CollectDefs(JSON_NODE, defs) == CollectAll(JSON_NODE.anyOf.list, defs);
    var ds := [Definition(JSON_NAME, JSON_UNION)];
    assert BuildDefinitions(ds[1..]) == [];
    var es := BuildDefinitions(ds);
    assert es == [Entry(JSON_NAME, JSON_NODE)] && es[1..] == [];
    assert CollectDefinitions(es, map[]) == CollectDefs(JSON_NODE, defs);
    assert CollectDefs(Build(JSON_SCHEMA), map[]) == CollectDefinitions(es, map[]);
  }

  lemma {:induction false} CollectsNothing(ns: seq<Node>, out: map<string, Node>)
    requires forall n :: n in ns ==> CollectDefs(n, out) == out
    ensures CollectAll(ns, out) == out
  {
    if ns != [] {
      assert ns[0] in ns;
      CollectsNothing(ns[1..], out);
    }
  }

  lemma {:induction false} RankZero(rank: map<string, nat>, ns: seq<Node>)
    requires forall n :: n in ns ==> Rank(rank, n) == 0
    ensures RankAll(rank, ns) == 0
  {
    if ns != [] {
      assert ns[0] in ns;
      RankZero(rank, ns[1..]);
    }
  }

  lemma JsonRank(rank: map<string, nat>)
    ensures JSON_NODE.anyOf.Branches? && Rank(rank, JSON_NODE) == 0
  {
    JsonBranches();
    forall n | n in JSON_NODE.anyOf.list ensures Rank(rank, n) == 0 {
      LeafNode(n, map[], rank);
    }
    RankZero(rank, JSON_NODE.anyOf.list);
  }

  /** The only cycle, through the definition itself, passes through array elements and record values. */
  lemma JsonGuarded(c: Context)
    requires JsonContext(c)
    ensures Guarded(c) && c.defs == map[JSON_NAME := JSON_NODE]
  {
    hide CollectDefs, Build, Rank;
    JsonDefs();
    JsonRank(c.rank);
  }

  lemma JsonAcceptsLeaf(c: Context, v: Value)
    requires JsonContext(c) && Guarded(c)
    ensures Accepts(c, Build(NullOf), v) <==> v.Null?
    ensures Accepts(c, Build(BooleanOf), v) <==> v.Bool?
    ensures Accepts(c, Build(NumberOf(None, None, None)), v) <==> v.Num?
    ensures Accepts(c, Build(StringOf(None, None, None)), v) <==> v.Str?
  {
    PlainType(c, NullOf, TNull, v);
    PlainType(c, BooleanOf, TBoolean, v);
    PlainType(c, NumberOf(None, None, None), TNumber, v);
    PlainType(c, StringOf(None, None, None), TString, v);
  }

  lemma PlainType(c: Context, b: Built, t: Type, v: Value)
    requires Guarded(c) && Build(b) == EMPTY.(types := [t])
    ensures Accepts(c, Build(b), v) <==> MatchesType(v, t)
  {
    var n := Build(b);
    assert t in n.types;
    assert Resolve(n, c.defs) == n;
    assert Accepts(c, n, v) == AcceptsTarget(c, n, v) == PartsOk(c, n, v);
    if v.Obj? {
      assert FieldsOk(c, n, v.fields);
    }
  }

  lemma JsonAcceptsArray(c: Context, v: Value)
    requires JsonContext(c) && Guarded(c)
    ensures Accepts(c, Build(ArrayOf(RefTo(JSON_NAME), None, None)), v)
       <==> v.Arr? && forall e :: e in v.elems ==> Accepts(c, REF_NODE, e)
  {
    var n := Build(ArrayOf(RefTo(JSON_NAME), None, None));
    assert TArray in n.types;
    assert Resolve(n, c.defs) == n;
    assert Accepts(c, n, v) == AcceptsTarget(c, n, v) == PartsOk(c, n, v);
    if v.Arr? {
      forall i | 0 <= i < |v.elems|
        ensures ItemAt(n.items, i) == Some(REF_NODE) && v.elems[i] in v.elems
      {
      }
      assert AcceptsTarget(c, n, v) <==> ElementsOk(c, n, v.elems);
      if ElementsOk(c, n, v.elems) {
        forall e | e in v.elems ensures Accepts(c, REF_NODE, e) {
          var i :| 0 <= i < |v.elems| && v.elems[i] == e;
          assert ItemAt(n.items, i).Some?;
        }
      }
    }
  }

  lemma JsonAcceptsRecord(c: Context, v: Value)
    requires JsonContext(c) && Guarded(c)
    ensures Accepts(c, Build(RecordOf(RefTo(JSON_NAME), NotGiven)), v)
       <==> v.Obj? && forall f :: f in v.fields && OneLine(f.key) ==> Accepts(c, REF_NODE, f.value)
  {
    var n := Build(RecordOf(RefTo(JSON_NAME), NotGiven));
    assert TObject in n.types && n.patternProperties[0] in n.patternProperties;
    assert Resolve(n, c.defs) == n;
    assert Accepts(c, n, v) == AcceptsTarget(c, n, v) == PartsOk(c, n, v);
    if v.Obj? {
      forall f | f in v.fields
        ensures FieldOk(c, n, f) <==> (OneLine(f.key) ==> Accepts(c, REF_NODE, f.value))
      {
      }
      assert PartsOk(c, n, v) == FieldsOk(c, n, v.fields);
    }
  }

  lemma JsonUnfold(c: Context, v: Value)
    requires JsonContext(c) && Guarded(c) && c.defs == map[JSON_NAME := JSON_NODE]
    ensures Accepts(c, REF_NODE, v) <==> Accepts(c, JSON_NODE, v)
    ensures Accepts(c, Build(JSON_SCHEMA), v) <==> Accepts(c, JSON_NODE, v)
    ensures Accepts(c, JSON_NODE, v) <==> exists b :: b in JSON_NODE.anyOf.list && Accepts(c, b, v)
  {
    JsonBranches();
    assert ResolveFrom(REF_NODE, c.defs, 0) == ResolveFrom(JSON_NODE, c.defs, 1) == JSON_NODE;
    assert ResolveFrom(Build(JSON_SCHEMA), c.defs, 0) == ResolveFrom(JSON_NODE, c.defs, 1);
    assert Resolve(JSON_NODE, c.defs) == JSON_NODE;
    assert Accepts(c, JSON_NODE, v) == AcceptsTarget(c, JSON_NODE, v);
  }

  lemma JsonAlternatives(c: Context, v: Value)
    requires Guarded(c)
    ensures (exists b :: b in JSON_NODE.anyOf.list && Accepts(c, b, v))
       <==> || Accepts(c, Build(NullOf), v) || Accepts(c, Build(BooleanOf), v)
            || Accepts(c, Build(NumberOf(None, None, None)), v) || Accepts(c, Build(StringOf(None, None, None)), v)
            || Accepts(c, Build(ArrayOf(RefTo(JSON_NAME), None, None)), v)
            || Accepts(c, Build(RecordOf(RefTo(JSON_NAME), NotGiven)), v)
  {
    hide Accepts;
    JsonBranches();
    var bs := JSON_NODE.anyOf.list;
    assert bs[0] in bs && bs[1] in bs && bs[2] in bs && bs[3] in bs && bs[4] in bs && bs[5] in bs;
  }

  /** One level of the schema: a leaf, an array, or an object whose one-line keys lead to JSON again. */
  lemma JsonLevel(c: Context, v: Value)
    requires JsonContext(c) && Guarded(c) && c.defs == map[JSON_NAME := JSON_NODE]
    ensures Accepts(c, REF_NODE, v)
       <==> match v
            case Undefined => false
            case Arr(elems) => forall e :: e in elems ==> Accepts(c, REF_NODE, e)
            case Obj(fields) => forall f :: f in fields && OneLine(f.key) ==> Accepts(c, REF_NODE, f.value)
            case _ => true
  {
    JsonUnfold(c, v);
    JsonAlternatives(c, v);
    JsonAcceptsLeaf(c, v);
    JsonAcceptsArray(c, v);
    JsonAcceptsRecord(c, v);
  }

  lemma {:induction false} JsonNodeAccepts(c: Context, v: Value)
    requires JsonContext(c) && Guarded(c) && c.defs == map[JSON_NAME := JSON_NODE]
    ensures Accepts(c, REF_NODE, v) <==> IsJsonOnOneLineKeys(v)
    decreases v
  {
    JsonLevel(c, v);
    match v
    case Arr(elems) =>
      forall e | e in elems
        ensures Accepts(c, REF_NODE, e) <==> IsJsonOnOneLineKeys(e)
      {
        JsonNodeAccepts(c, e);
      }
    case Obj(fields) =>
      forall f | f in fields
        ensures Accepts(c, REF_NODE, f.value) <==> IsJsonOnOneLineKeys(f.value)
      {
        JsonNodeAccepts(c, f.value);
      }
    case _ =>
  }

  lemma {:induction false} JsonShapes(v: Value)
    ensures IsJson(v) ==> IsJsonOnOneLineKeys(v)
    ensures KeysOnOneLine(v) && IsJsonOnOneLineKeys(v) ==> IsJson(v)
  {
    match v
    case Arr(elems) =>
      forall e | e in elems
        ensures (IsJson(e) ==> IsJsonOnOneLineKeys(e)) && (KeysOnOneLine(e) && IsJsonOnOneLineKeys(e) ==> IsJson(e))
      {
        JsonShapes(e);
      }
    case Obj(fields) =>
      forall f | f in fields
        ensures (IsJson(f.value) ==> IsJsonOnOneLineKeys(f.value))
             && (KeysOnOneLine(f.value) && IsJsonOnOneLineKeys(f.value) ==> IsJson(f.value))
      {
        JsonShapes(f.value);
      }
    case _ =>
  }

  /** The JSON schema accepts exactly the values that are JSON as far as keys on one line lead: every JSON value,
      and for such keys only JSON values. */
  lemma JsonSchemaAccepts(c: Context, v: Value)
    requires JsonContext(c)
    ensures Guarded(c)
    ensures Accepts(c, Build(JSON_SCHEMA), v) <==> IsJsonOnOneLineKeys(v)
    ensures IsJson(v) ==> Accepts(c, Build(JSON_SCHEMA), v)
    ensures KeysOnOneLine(v) ==> (Accepts(c, Build(JSON_SCHEMA), v) <==> IsJson(v))
  {
    JsonGuarded(c);
    JsonUnfold(c, v);
    JsonNodeAccepts(c, v);
    JsonShapes(v);
  }

  /** Below a key with a line break the schema accepts what is not JSON. */
  lemma JsonSchemaGap(c: Context)
    requires JsonContext(c)
    ensures Guarded(c)
    ensures var v := Obj([Field("\n", Undefined)]);
            Accepts(c, Build(JSON_SCHEMA), v) && !IsJson(v)
  {
    var v := Obj([Field("\n", Undefined)]);
    JsonSchemaAccepts(c, v);
    assert '\n' in v.fields[0].key && v.fields[0] in v.fields;
  }
}
