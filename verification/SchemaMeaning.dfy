/** What each builder's schema accepts, and what it converts a value to, said without the nodes behind it. */
module SchemaMeaning {
  import opened Options
  import opened SchemaNodes
  import opened SchemaAccepts
  import opened SchemaConversion
  import opened SchemaTheorems
  import opened SchemaBuilders
  import opened SchemaRecords

  // ----- Conversion to primitive types

  /** To a number: true is one, false and null are zero, text is the number it reads as. */
  lemma NumbersConvert(c: Context, b: Built, v: Value)
    requires Guarded(c) && (b.NumberOf? || b.IntegerOf?)
    ensures var r := Convert(c, Build(b), v);
            && (v == Bool(true) ==> r == Num(1.0))
            && (v == Bool(false) || v.Null? ==> r == Num(0.0))
            && (v.Str? ==>
                  r == if c.parse(v.s).Some? && (b.IntegerOf? ==> c.parse(v.s).value.Floor as real == c.parse(v.s).value)
                       then Num(c.parse(v.s).value) else v)
            && (!v.Bool? && !v.Null? && !v.Str? ==> r == v)
  {
    PrimitiveKeepsIff(c, b, v);
    hide Convert, Build, Guarded;
  }

  /** To a boolean: "true" and one are true; "false", zero and null are false. */
  lemma BooleansConvert(c: Context, v: Value)
    requires Guarded(c)
    ensures var r := Convert(c, Build(BooleanOf), v);
            && (v == Str("true") || v == Num(1.0) ==> r == Bool(true))
            && (v == Str("false") || v == Num(0.0) || v.Null? ==> r == Bool(false))
            && (!v.Null? && v != Str("true") && v != Str("false") && v != Num(0.0) && v != Num(1.0) ==> r == v)
  {
    PrimitiveKeepsIff(c, BooleanOf, v);
    hide Convert, Build, Guarded;
  }

  /** To a string: booleans and numbers are what they print as, null is empty. */
  lemma StringsConvert(c: Context, lo: Option<nat>, hi: Option<nat>, pattern: Option<string>, v: Value)
    requires Guarded(c)
    ensures var r := Convert(c, Build(StringOf(lo, hi, pattern)), v);
            && (v == Bool(true) ==> r == Str("true")) && (v == Bool(false) ==> r == Str("false"))
            && (v.Num? ==> r == Str(c.show(v.n))) && (v.Null? ==> r == Str(""))
            && (!v.Bool? && !v.Num? && !v.Null? ==> r == v)
  {
    PrimitiveKeepsIff(c, StringOf(lo, hi, pattern), v);
    hide Convert, Build, Guarded;
  }

  /** To null: the empty string, zero and false. */
  lemma NullsConvert(c: Context, v: Value)
    requires Guarded(c)
    ensures Convert(c, Build(NullOf), v) == if v == Str("") || v == Num(0.0) || v == Bool(false) then Null else v
  {
    PrimitiveKeepsIff(c, NullOf, v);
    hide Convert, Build, Guarded;
  }

  /** The schema for the type of a literal. */
  function TypeOfLiteral(l: Literal): Built {
    match l
    case StringLiteral(_) => StringOf(None, None, None)
    case NumberLiteral(_) => NumberOf(None, None, None)
    case BooleanLiteral(_) => BooleanOf
  }

  /** A literal converts like its type, whatever it is. */
  lemma LiteralsConvert(c: Context, l: Literal, v: Value)
    requires Guarded(c)
    ensures Convert(c, Build(LiteralOf(l)), v) == Convert(c, Build(TypeOfLiteral(l)), v)
  {
    PrimitiveKeepsIff(c, LiteralOf(l), v);
    PrimitiveKeepsIff(c, TypeOfLiteral(l), v);
    hide Convert, Build, Guarded, StandsFor, Coerce;
  }

  // ----- Conversion of arrays, objects and unions

  lemma ConvertsDirectly(c: Context, n: Node, v: Value)
    requires Guarded(c) && n.ref.None? && n.anyOf.Absent? && n.oneOf.Absent? && n.allOf == []
    requires v.Arr? || v.Obj?
    ensures v.Arr? ==> Convert(c, n, v) == Arr(ConvertElems(c, n, v.elems, 0))
    ensures v.Obj? ==> Convert(c, n, v) == Obj(ConvertFields(c, n, v.fields))
  {
    assert Resolve(n, c.defs) == n && ConvertAll(c, n.allOf, v) == v;
    assert Convert(c, n, v) == ConvertTarget(c, n, v);
    CompoundStays(c, n.types, v);
  }

  lemma {:induction false} CompoundStays(c: Context, types: seq<Type>, v: Value)
    requires v.Arr? || v.Obj?
    ensures CoerceTo(c, v, types) == v
    decreases |types|
  {
    if types != [] {
      CompoundStays(c, types[1..], v);
      assert CoerceFirst(c, v, types[1..]) == v;
    }
  }

  lemma {:induction false} ElemsConvert(c: Context, n: Node, elems: seq<Value>, i: nat, k: nat)
    requires Guarded(c) && n.items.Each? && k < |elems|
    ensures ConvertElems(c, n, elems, i)[k] == Convert(c, n.items.item, elems[k])
    decreases k
  {
    hide Convert;
    if k > 0 {
      ElemsConvert(c, n, elems[1..], i + 1, k - 1);
    }
  }

  /** An array is converted element by element. */
  lemma ArraysConvert(c: Context, items: Built, lo: Option<nat>, hi: Option<nat>, elems: seq<Value>, k: nat)
    requires Guarded(c) && k < |elems|
    ensures var r := Convert(c, Build(ArrayOf(items, lo, hi)), Arr(elems));
            r.Arr? && |r.elems| == |elems| && r.elems[k] == Convert(c, Build(items), elems[k])
  {
    var n := Build(ArrayOf(items, lo, hi));
    assert n.items == Each(Build(items));
    ConvertsDirectly(c, n, Arr(elems));
    hide Convert, Build;
    ElemsConvert(c, n, elems, 0, k);
  }

  lemma {:induction false} FieldsConvert(c: Context, n: Node, fields: seq<Field>, k: nat)
    requires Guarded(c) && k < |fields|
    ensures ConvertFields(c, n, fields)[k] == Field(fields[k].key, ConvertField(c, n, fields[k]))
    decreases k
  {
    hide ConvertField;
    if k > 0 {
      FieldsConvert(c, n, fields[1..], k - 1);
    }
  }

  /** No property is described twice. */
  predicate Distinct(props: seq<Property>) {
    forall i, j :: 0 <= i < j < |props| ==> props[i].key != props[j].key
  }

  lemma {:induction false} PropertyFound(props: seq<Property>, key: string)
    requires Distinct(props)
    ensures var own := Find(BuildProperties(props), key);
            && (own.None? <==> forall p :: p in props ==> p.key != key)
            && forall p :: p in props && p.key == key ==> own == Some(Build(p.schema))
    decreases |props|
  {
    hide Build, Distinct;
    if props != [] {
      var (first, rest) := (props[0], props[1..]);
      DistinctRest(props);
      PropertyFound(rest, key);
      assert Find(BuildProperties(props), key)
          == if first.key == key then Some(Build(first.schema)) else Find(BuildProperties(rest), key) by {
        assert BuildProperties(props)[1..] == BuildProperties(rest);
      }
      assert forall p :: p in props <==> p == first || p in rest;
    }
  }

  lemma DistinctRest(props: seq<Property>)
    requires Distinct(props) && props != []
    ensures Distinct(props[1..]) && forall p :: p in props[1..] ==> p.key != props[0].key
  {
    var rest := props[1..];
    assert forall i, j :: 0 <= i < j < |rest| ==> rest[i] == props[i + 1] && rest[j] == props[j + 1];
    forall p | p in rest ensures p.key != props[0].key {
      var j :| 0 <= j < |rest| && rest[j] == p;
      assert props[j + 1] == p;
    }
  }

  /** An object keeps its keys; a property is converted by its own schema if it has one, else by the one for additional
      properties if there is one. */
  lemma ObjectsConvert(c: Context, props: seq<Property>, additional: BuiltAdditional, fields: seq<Field>, k: nat)
    requires Guarded(c) && Distinct(props) && k < |fields|
    ensures var r := Convert(c, Build(ObjectOf(props, additional)), Obj(fields));
            && r.Obj? && |r.fields| == |fields| && r.fields[k].key == fields[k].key
            && (forall p :: p in props && p.key == fields[k].key ==>
                  r.fields[k].value == Convert(c, Build(p.schema), fields[k].value))
            && ((forall p :: p in props ==> p.key != fields[k].key) ==>
                  r.fields[k].value == if additional.GivenSchema? then Convert(c, Build(additional.schema), fields[k].value)
                                       else fields[k].value)
  {
    var n := Build(ObjectOf(props, additional));
    ConvertsDirectly(c, n, Obj(fields));
    PropertyFound(props, fields[k].key);
    assert n.properties == BuildProperties(props) && n.additional == BuildAdditional(additional);
    assert ConvertPatterns(c, n.patternProperties, fields[k].key, fields[k].value) == fields[k].value;
    forall p | p in props && p.key == fields[k].key
      ensures ConvertField(c, n, fields[k]) == Convert(c, Build(p.schema), fields[k].value)
    {
      var v := Convert(c, Build(p.schema), fields[k].value);
      assert ConvertPatterns(c, n.patternProperties, fields[k].key, v) == v;
    }
    hide Convert, Build, Find;
    FieldsConvert(c, n, fields, k);
  }

  /** A Record converts the properties whose keys its pattern matches by its value schema, and leaves others alone unless
      there is a schema for them; that one comes on top for keys of the pattern. */
  lemma RecordsConvert(c: Context, values: Built, additional: BuiltAdditional, fields: seq<Field>, k: nat)
    requires Guarded(c) && k < |fields|
    ensures var r := Convert(c, Build(RecordOf(values, additional)), Obj(fields));
            && r.Obj? && |r.fields| == |fields| && r.fields[k].key == fields[k].key
            && var v := if c.test(EVERY_KEY, fields[k].key) then Convert(c, Build(values), fields[k].value) else fields[k].value;
               r.fields[k].value == if additional.GivenSchema? then Convert(c, Build(additional.schema), v) else v
  {
    var n := Build(RecordOf(values, additional));
    ConvertsDirectly(c, n, Obj(fields));
    var ps := n.patternProperties;
    assert ps == [Entry(EVERY_KEY, Build(values))] && n.properties == [] && n.additional == BuildAdditional(additional);
    var (key, v) := (fields[k].key, fields[k].value);
    var w := if c.test(EVERY_KEY, key) then Convert(c, Build(values), v) else v;
    assert ConvertPatterns(c, ps, key, v) == ConvertPatterns(c, ps[1..], key, w) == w;
    hide Convert, Build;
    FieldsConvert(c, n, fields, k);
  }

  lemma {:induction false} BuildAllAt(bs: seq<Built>, i: nat)
    requires i < |bs|
    ensures |BuildAll(bs)| == |bs| && BuildAll(bs)[i] == Build(bs[i])
    decreases |bs|
  {
    hide Build;
    if i > 0 {
      BuildAllAt(bs[1..], i - 1);
    } else if |bs| > 1 {
      BuildAllAt(bs[1..], 0);
    }
  }

  lemma BuildAllOf(bs: seq<Built>)
    ensures |BuildAll(bs)| == |bs| && forall i :: 0 <= i < |bs| ==> BuildAll(bs)[i] == Build(bs[i])
  {
    hide Build;
    forall i | 0 <= i < |bs| ensures |BuildAll(bs)| == |bs| && BuildAll(bs)[i] == Build(bs[i]) {
      BuildAllAt(bs, i);
    }
  }

  /** The branch accepts its own conversion of the value. */
  predicate Fits(c: Context, b: Built, v: Value)
    requires Guarded(c)
  {
    Accepts(c, Build(b), Convert(c, Build(b), v))
  }

  lemma {:induction false} FirstFitIs(c: Context, bs: seq<Built>, v: Value, i: nat)
    requires Guarded(c) && i <= |bs| && forall k :: 0 <= k < i ==> !Fits(c, bs[k], v)
    requires i < |bs| ==> Fits(c, bs[i], v)
    ensures FirstFit(c, BuildAll(bs), v) == if i < |bs| then Convert(c, Build(bs[i]), v) else v
    decreases i
  {
    hide Accepts, Convert, Build;
    if i > 0 {
      var rest := bs[1..];
      assert BuildAll(bs)[1..] == BuildAll(rest) && !Fits(c, bs[0], v);
      assert forall k :: 0 <= k < i - 1 ==> rest[k] == bs[k + 1];
      FirstFitIs(c, rest, v, i - 1);
    }
  }

  lemma UnionConvertsByBranch(c: Context, n: Node, ns: seq<Node>, v: Value)
    requires Guarded(c) && n.ref.None? && n.anyOf == Branches(ns) && n.allOf == []
    ensures Convert(c, n, v) == if exists b :: b in ns && Accepts(c, b, v) then v else FirstFit(c, ns, v)
  {
    assert Resolve(n, c.defs) == n && ConvertAll(c, n.allOf, v) == v;
    assert Convert(c, n, v) == ConvertTarget(c, n, v) == ConvertUnion(c, ns, v);
  }

  /** A union leaves alone what a branch accepts; anything else becomes what the first branch that accepts its own
      conversion makes of it, if there is one. */
  lemma UnionsConvert(c: Context, bs: seq<Built>, v: Value, i: nat)
    requires Guarded(c)
    ensures (exists b :: b in bs && Accepts(c, Build(b), v)) ==> Convert(c, Build(UnionOf(bs)), v) == v
    ensures (forall b :: b in bs ==> !Accepts(c, Build(b), v)) && i <= |bs| && (forall k :: 0 <= k < i ==> !Fits(c, bs[k], v))
            && (i < |bs| ==> Fits(c, bs[i], v)) ==>
              Convert(c, Build(UnionOf(bs)), v) == if i < |bs| then Convert(c, Build(bs[i]), v) else v
  {
    UnionConvertsByBranch(c, Build(UnionOf(bs)), BuildAll(bs), v);
    hide Convert, Accepts, Build, Fits, Guarded, BuildAll, FirstFit;
    BuildAllOf(bs);
    BranchesAre(bs);
    if (forall b :: b in bs ==> !Accepts(c, Build(b), v)) && i <= |bs| && (forall k :: 0 <= k < i ==> !Fits(c, bs[k], v))
       && (i < |bs| ==> Fits(c, bs[i], v)) {
      FirstFitIs(c, bs, v, i);
    }
  }

  lemma BranchesAre(bs: seq<Built>)
    ensures forall b :: b in bs ==> Build(b) in BuildAll(bs)
    ensures forall n :: n in BuildAll(bs) ==> exists b :: b in bs && Build(b) == n
  {
    hide Build, BuildAll;
    BuildAllOf(bs);
    forall b | b in bs ensures Build(b) in BuildAll(bs) {
      var i :| 0 <= i < |bs| && bs[i] == b;
      assert BuildAll(bs)[i] == Build(b);
    }
    forall n | n in BuildAll(bs) ensures exists b :: b in bs && Build(b) == n {
      var i :| 0 <= i < |BuildAll(bs)| && BuildAll(bs)[i] == n;
      assert bs[i] in bs;
    }
  }

  // ----- Acceptance

  lemma AcceptsParts(c: Context, n: Node, v: Value)
    requires Guarded(c) && n.ref.None? && n.anyOf.Absent? && n.oneOf.Absent? && n.allOf == []
    ensures Accepts(c, n, v) <==> PartsOk(c, n, v)
  {
    assert Resolve(n, c.defs) == n;
    assert Accepts(c, n, v) == AcceptsTarget(c, n, v);
  }

  lemma OneType(v: Value, t: Type)
    ensures MatchesAny(v, [t]) <==> MatchesType(v, t)
  {
    assert [t][0] in [t];
  }

  /** Strings within the bounds, which are included, that match the pattern. */
  lemma StringsAccepted(c: Context, lo: Option<nat>, hi: Option<nat>, pattern: Option<string>, v: Value)
    requires Guarded(c)
    ensures Accepts(c, Build(StringOf(lo, hi, pattern)), v)
            <==> v.Str? && (lo.Some? ==> |v.s| >= lo.value) && (hi.Some? ==> |v.s| <= hi.value)
                 && (pattern.Some? ==> c.test(pattern.value, v.s))
  {
    AcceptsParts(c, Build(StringOf(lo, hi, pattern)), v);
    OneType(v, TString);
    hide Accepts, Guarded;
  }

  /** Numbers, or whole numbers, within the bounds, which are included, that divide by `multipleOf` unless it is zero. */
  lemma NumbersAccepted(c: Context, b: Built, v: Value)
    requires Guarded(c) && (b.NumberOf? || b.IntegerOf?)
    ensures Accepts(c, Build(b), v)
            <==> v.Num? && (b.minimum.Some? ==> v.n >= b.minimum.value) && (b.maximum.Some? ==> v.n <= b.maximum.value)
                 && (b.multipleOf.Some? && b.multipleOf.value != 0.0 ==> c.isMultiple(v.n, b.multipleOf.value))
                 && (b.IntegerOf? ==> v.n.Floor as real == v.n)
  {
    AcceptsParts(c, Build(b), v);
    OneType(v, if b.NumberOf? then TNumber else TInteger);
    hide Accepts, Guarded;
  }

  /** Booleans, null, and anything at all. */
  lemma SimpleAccepted(c: Context, v: Value)
    requires Guarded(c)
    ensures Accepts(c, Build(BooleanOf), v) <==> v.Bool?
    ensures Accepts(c, Build(NullOf), v) <==> v.Null?
    ensures Accepts(c, Build(UnknownOf), v)
  {
    AcceptsParts(c, Build(BooleanOf), v);
    AcceptsParts(c, Build(NullOf), v);
    AcceptsParts(c, Build(UnknownOf), v);
    OneType(v, TBoolean);
    OneType(v, TNull);
    hide Accepts, Guarded;
    if v.Obj? {
      assert FieldsOk(c, Build(UnknownOf), v.fields);
    }
  }

  /** A literal accepts itself only. */
  lemma LiteralsAccepted(c: Context, l: Literal, v: Value)
    requires Guarded(c)
    ensures Accepts(c, Build(LiteralOf(l)), v) <==>
            v == match l
                 case StringLiteral(s) => Str(s)
                 case NumberLiteral(n) => Num(n)
                 case BooleanLiteral(x) => Bool(x)
  {
    AcceptsParts(c, Build(LiteralOf(l)), v);
    OneType(v, match l case StringLiteral(_) => TString case NumberLiteral(_) => TNumber case BooleanLiteral(_) => TBoolean);
    hide Accepts, Guarded;
  }

  /** Arrays of a size within the bounds, of elements that are accepted. */
  lemma ArraysAccepted(c: Context, items: Built, lo: Option<nat>, hi: Option<nat>, v: Value)
    requires Guarded(c)
    ensures Accepts(c, Build(ArrayOf(items, lo, hi)), v)
            <==> v.Arr? && (lo.Some? ==> |v.elems| >= lo.value) && (hi.Some? ==> |v.elems| <= hi.value)
                 && forall i :: 0 <= i < |v.elems| ==> Accepts(c, Build(items), v.elems[i])
  {
    var n := Build(ArrayOf(items, lo, hi));
    assert n.items == Each(Build(items));
    AcceptsParts(c, n, v);
    OneType(v, TArray);
    hide Accepts, Guarded;
    if v.Arr? {
      assert ElementsOk(c, n, v.elems) <==> forall i :: 0 <= i < |v.elems| ==> Accepts(c, Build(items), v.elems[i]) by {
        assert forall i :: 0 <= i < |v.elems| ==> ItemAt(n.items, i) == Some(Build(items));
      }
    }
  }

  lemma UnionAcceptsByBranch(c: Context, n: Node, ns: seq<Node>, v: Value)
    requires Guarded(c) && n.ref.None? && n.anyOf == Branches(ns)
    ensures Accepts(c, n, v) <==> ns == [] || exists b :: b in ns && Accepts(c, b, v)
  {
    assert Resolve(n, c.defs) == n;
    assert Accepts(c, n, v) == AcceptsTarget(c, n, v);
  }

  /** Whatever a branch accepts; without branches, anything. */
  lemma UnionsAccepted(c: Context, bs: seq<Built>, v: Value)
    requires Guarded(c)
    ensures Accepts(c, Build(UnionOf(bs)), v) <==> bs == [] || exists b :: b in bs && Accepts(c, Build(b), v)
  {
    var n := Build(UnionOf(bs));
    UnionAcceptsByBranch(c, n, BuildAll(bs), v);
    BuildAllOf(bs);
    BranchesAre(bs);
    hide Build, BuildAll, Accepts, Guarded;
  }

  lemma ReferenceResolves(c: Context, n: Node, name: string)
    requires name in c.defs && c.defs[name].ref.None? && n.ref == Some(name)
    ensures Resolve(n, c.defs) == c.defs[name] == Resolve(c.defs[name], c.defs)
  {
    assert ResolveFrom(c.defs[name], c.defs, 1) == c.defs[name];
  }

  /** A reference, or the root of a cyclic schema, accepts and converts like the definition it names, unless that refers
      on in its turn. */
  lemma ReferencesFollowed(c: Context, b: Built, name: string, v: Value)
    requires Guarded(c) && name in c.defs && c.defs[name].ref.None?
    requires b == RefTo(name) || (b.CyclicOf? && b.root == name)
    ensures Accepts(c, Build(b), v) <==> Accepts(c, c.defs[name], v)
    ensures Convert(c, Build(b), v) == Convert(c, c.defs[name], v)
  {
    hide Resolve, Guarded, Accepts, Convert;
    ReferenceResolves(c, Build(b), name);
    AsTarget(c, Build(b), v);
    AsTarget(c, c.defs[name], v);
  }

  lemma AsTarget(c: Context, n: Node, v: Value)
    requires Guarded(c)
    ensures Accepts(c, n, v) <==> AcceptsTarget(c, Resolve(n, c.defs), v)
    ensures Convert(c, n, v) == ConvertTarget(c, Resolve(n, c.defs), v)
  {
    hide Resolve, Guarded, AcceptsTarget, ConvertTarget;
  }

  lemma {:induction false} PropertiesAre(props: seq<Property>)
    ensures forall e: Entry :: e in BuildProperties(props) <==> exists p :: p in props && e == Entry(p.key, Build(p.schema))
    ensures forall name: string :: name in RequiredKeys(props) <==> exists p :: p in props && !p.optional && p.key == name
    decreases |props|
  {
    hide Build;
    if props != [] {
      PropertiesAre(props[1..]);
      assert props == [props[0]] + props[1..];
    }
  }

  /** Property `f` is as the object's description says. */
  predicate Described(c: Context, props: seq<Property>, additional: BuiltAdditional, f: Field)
    requires Guarded(c)
  {
    if exists p :: p in props && p.key == f.key then
      forall p :: p in props && p.key == f.key ==> Accepts(c, Build(p.schema), f.value)
    else
      match additional
      case NotGiven => true
      case Given(allowed) => allowed
      case GivenSchema(schema) => Accepts(c, Build(schema), f.value)
  }

  lemma RequiredAre(props: seq<Property>, fields: seq<Field>)
    ensures (forall name :: name in RequiredKeys(props) ==> HasKey(fields, name))
            <==> forall p :: p in props && !p.optional ==> exists f :: f in fields && f.key == p.key
  {
    PropertiesAre(props);
    hide BuildProperties, RequiredKeys;
    if forall name :: name in RequiredKeys(props) ==> HasKey(fields, name) {
      forall p | p in props && !p.optional ensures exists f :: f in fields && f.key == p.key {
        assert HasKey(fields, p.key);
      }
    }
  }

  /** Objects that have every property that is not optional, with all their properties as described. */
  lemma ObjectsAccepted(c: Context, props: seq<Property>, additional: BuiltAdditional, v: Value)
    requires Guarded(c)
    ensures Accepts(c, Build(ObjectOf(props, additional)), v)
            <==> v.Obj? && (forall p :: p in props && !p.optional ==> exists f :: f in v.fields && f.key == p.key)
                 && forall f :: f in v.fields ==> Described(c, props, additional, f)
  {
    var n := Build(ObjectOf(props, additional));
    assert n.properties == BuildProperties(props) && n.required == RequiredKeys(props);
    assert n.additional == BuildAdditional(additional) && n.patternProperties == [];
    AcceptsParts(c, n, v);
    OneType(v, TObject);
    hide Accepts, Guarded, Build, BuildProperties, RequiredKeys;
    if v.Obj? {
      RequiredAre(props, v.fields);
      forall f | f in v.fields ensures FieldOk(c, n, f) <==> Described(c, props, additional, f) {
        FieldDescribed(c, n, props, additional, f);
      }
      hide FieldOk, Described;
      assert FieldsOk(c, n, v.fields) <==> forall f :: f in v.fields ==> Described(c, props, additional, f);
    }
  }

  lemma FieldDescribed(c: Context, n: Node, props: seq<Property>, additional: BuiltAdditional, f: Field)
    requires Guarded(c) && n.properties == BuildProperties(props) && n.patternProperties == []
    requires n.additional == BuildAdditional(additional)
    ensures FieldOk(c, n, f) <==> Described(c, props, additional, f)
  {
    PropertiesAre(props);
    hide Accepts, Guarded, Build, BuildProperties;
    if p :| p in props && p.key == f.key {
      assert Entry(p.key, Build(p.schema)) in n.properties;
      forall q | q in props && q.key == f.key ensures Entry(q.key, Build(q.schema)) in n.properties {
      }
    }
  }

  /** Objects whose properties are accepted by the value schema, if the pattern matches the key, or else are as is said of
      additional properties. */
  lemma RecordsAccepted(c: Context, values: Built, additional: BuiltAdditional, v: Value)
    requires Guarded(c)
    ensures Accepts(c, Build(RecordOf(values, additional)), v)
            <==> v.Obj? && forall f :: f in v.fields ==>
                   if c.test(EVERY_KEY, f.key) then Accepts(c, Build(values), f.value) else Described(c, [], additional, f)
  {
    var n := Build(RecordOf(values, additional));
    assert n.patternProperties == [Entry(EVERY_KEY, Build(values))] && n.properties == [] && n.required == [];
    assert n.additional == BuildAdditional(additional);
    AcceptsParts(c, n, v);
    OneType(v, TObject);
    hide Accepts, Guarded, Build;
    if v.Obj? {
      var p := n.patternProperties[0];
      assert p in n.patternProperties && forall q :: q in n.patternProperties ==> q == p;
      forall f | f in v.fields
        ensures FieldOk(c, n, f)
                <==> if c.test(EVERY_KEY, f.key) then Accepts(c, Build(values), f.value) else Described(c, [], additional, f)
      {
      }
      hide FieldOk, Described;
      assert FieldsOk(c, n, v.fields) <==> forall f :: f in v.fields ==> FieldOk(c, n, f);
    }
  }
}
