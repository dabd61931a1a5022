/** Records with a schema for additional properties: conversion applies that schema to the keys of the pattern as well,
    which checking does not. When exactly an accepted value is left alone. */
module SchemaRecords {
  import opened Options
  import opened SchemaNodes
  import opened SchemaAccepts
  import opened SchemaConversion
  import opened SchemaTheorems
  import opened SchemaBuilders
  import opened SchemaJson

  predicate InShape(c: Context) {
    Guarded(c) && AllShaped(c.defs, true)
  }

  /** No property of the accepted value, at any depth, is changed by being converted twice. */
  predicate Settled(c: Context, n: Node, v: Value)
    requires Guarded(c)
    decreases v, 1
  {
    var t := Resolve(n, c.defs);
    t.anyOf.Branches?
    || match v
       case Arr(elems) => SettledFrom(c, t, elems, 0)
       case Obj(fields) => forall f :: f in fields ==> FieldSettled(c, t, f)
       case _ => true
  }

  /** The elements of an array from position `i` on. */
  predicate SettledFrom(c: Context, t: Node, elems: seq<Value>, i: nat)
    requires Guarded(c)
    decreases elems
  {
    forall k :: 0 <= k < |elems| && ItemAt(t.items, i + k).Some? ==> Settled(c, ItemAt(t.items, i + k).value, elems[k])
  }

  /** The one schema that is for property `f` leaves it alone; a Record's property whose key matches the pattern has two
      schemas if there is one for additional properties. */
  predicate FieldSettled(c: Context, t: Node, f: Field)
    requires Guarded(c)
    decreases f
  {
    if Twice(c, t, f.key) then
      Convert(c, t.additional.schema, Convert(c, t.patternProperties[0].node, f.value)) == f.value
    else Applied(c, t, f.key).Some? ==> Settled(c, Applied(c, t, f.key).value, f.value)
  }

  /** The key matches the pattern of a Record that has a schema for additional properties. */
  predicate Twice(c: Context, t: Node, key: string) {
    && Find(t.properties, key).None? && t.patternProperties != [] && t.additional.Matching?
    && c.test(t.patternProperties[0].name, key)
  }

  lemma FieldConverts(c: Context, t: Node, f: Field)
    requires InShape(c) && Shaped(t, true)
    ensures ConvertField(c, t, f) ==
            if Twice(c, t, f.key) then Convert(c, t.additional.schema, Convert(c, t.patternProperties[0].node, f.value))
            else if Applied(c, t, f.key).Some? then Convert(c, Applied(c, t, f.key).value, f.value)
            else f.value
    ensures Applied(c, t, f.key).Some? ==> Shaped(Applied(c, t, f.key).value, true)
  {
    var ps := t.patternProperties;
    if ps != [] {
      assert ps[0] in ps && ps[1..] == [];
      var v := if c.test(ps[0].name, f.key) then Convert(c, ps[0].node, f.value) else f.value;
      assert ConvertPatterns(c, ps, f.key, f.value) == ConvertPatterns(c, ps[1..], f.key, v) == v;
    }
  }

  /** What conversion by a builder-made node comes down to on an accepted value. */
  lemma ConvertShaped(c: Context, n: Node, v: Value)
    requires InShape(c) && Shaped(n, true) && Accepts(c, n, v)
    ensures var t := Resolve(n, c.defs);
            && Shaped(t, true) && (t.anyOf.Absent? ==> PartsOk(c, t, v))
            && Convert(c, n, v) == if t.anyOf.Branches? then v
                                   else match v
                                        case Obj(fields) => Obj(ConvertFields(c, t, fields))
                                        case Arr(elems) => Arr(ConvertElems(c, t, elems, 0))
                                        case _ => v
  {
    ShapedResolveFrom(c, n, 0, true);
    var t := Resolve(n, c.defs);
    assert ConvertAll(c, t.allOf, v) == v;
    assert Convert(c, n, v) == ConvertTarget(c, t, v) && AcceptsTarget(c, t, v);
    if t.anyOf.Branches? {
      assert t.anyOf.list == [] ==> FirstFit(c, t.anyOf.list, v) == v;
      assert ConvertUnion(c, t.anyOf.list, v) == v;
    } else {
      assert PartsOk(c, t, v) && CoerceTo(c, v, t.types) == v;
    }
  }

  /** By any builder-made schema, an accepted value is left alone exactly if it is settled. */
  lemma {:induction false} ConvertKeepsIffSettled(c: Context, n: Node, v: Value)
    requires InShape(c) && Shaped(n, true) && Accepts(c, n, v)
    ensures Convert(c, n, v) == v <==> Settled(c, n, v)
    decreases v, 1
  {
    ConvertShaped(c, n, v);
    var t := Resolve(n, c.defs);
    hide Convert, Accepts, Shaped, ConvertElems, ConvertFields;
    if t.anyOf.Absent? {
      match v
      case Arr(elems) =>
        assert ElementsOk(c, t, elems);
        ElemsKeptIff(c, t, elems, 0);
      case Obj(fields) =>
        assert FieldsOk(c, t, fields);
        FieldsKeptIff(c, t, fields);
      case _ =>
    }
  }

  predicate AcceptedFrom(c: Context, t: Node, elems: seq<Value>, i: nat)
    requires Guarded(c)
  {
    forall k :: 0 <= k < |elems| && ItemAt(t.items, i + k).Some? ==> Accepts(c, ItemAt(t.items, i + k).value, elems[k])
  }

  lemma OneMore(c: Context, t: Node, elems: seq<Value>, i: nat)
    requires Guarded(c) && elems != []
    ensures SettledFrom(c, t, elems, i) <==>
            (ItemAt(t.items, i).Some? ==> Settled(c, ItemAt(t.items, i).value, elems[0])) && SettledFrom(c, t, elems[1..], i + 1)
    ensures AcceptedFrom(c, t, elems, i) ==>
            (ItemAt(t.items, i).Some? ==> Accepts(c, ItemAt(t.items, i).value, elems[0])) && AcceptedFrom(c, t, elems[1..], i + 1)
  {
    hide Settled, Accepts, ItemAt;
    var rest := elems[1..];
    assert forall k :: 0 <= k < |rest| ==> rest[k] == elems[k + 1] && i + 1 + k == i + (k + 1);
    assert forall k :: 1 <= k < |elems| ==> elems[k] == rest[k - 1] && i + k == i + 1 + (k - 1);
    assert i + 0 == i;
  }

  lemma {:induction false} ElemsKeptIff(c: Context, t: Node, elems: seq<Value>, i: nat)
    requires InShape(c) && Shaped(t, true) && AcceptedFrom(c, t, elems, i)
    ensures ConvertElems(c, t, elems, i) == elems <==> SettledFrom(c, t, elems, i)
    decreases elems, 0
  {
    hide SettledFrom, AcceptedFrom, Settled, Accepts, Convert;
    if elems == [] {
      SettledAtEnd(c, t, i);
    } else {
      OneMore(c, t, elems, i);
      if ItemAt(t.items, i).Some? {
        ConvertKeepsIffSettled(c, ItemAt(t.items, i).value, elems[0]);
      }
      var rest := elems[1..];
      ElemsKeptIff(c, t, rest, i + 1);
      var r := ConvertElems(c, t, elems, i);
      assert r[1..] == ConvertElems(c, t, rest, i + 1) && elems == [elems[0]] + rest;
      assert r == elems <==> r[0] == elems[0] && r[1..] == rest;
    }
  }

  lemma SettledAtEnd(c: Context, t: Node, i: nat)
    requires Guarded(c)
    ensures SettledFrom(c, t, [], i)
  {
  }

  lemma {:induction false} FieldsKeptIff(c: Context, t: Node, fields: seq<Field>)
    requires InShape(c) && Shaped(t, true) && forall f :: f in fields ==> FieldOk(c, t, f)
    ensures ConvertFields(c, t, fields) == fields <==> forall f :: f in fields ==> FieldSettled(c, t, f)
    decreases fields, 0
  {
    hide FieldOk, FieldSettled, ConvertField, Shaped;
    if fields != [] {
      var f := fields[0];
      FieldKeptIff(c, t, f);
      FieldsKeptIff(c, t, fields[1..]);
      var r := ConvertFields(c, t, fields);
      assert r[1..] == ConvertFields(c, t, fields[1..]) && fields == [f] + fields[1..];
      assert r == fields <==> r[0] == f && r[1..] == fields[1..];
    }
  }

  lemma {:induction false} FieldKeptIff(c: Context, t: Node, f: Field)
    requires InShape(c) && Shaped(t, true) && FieldOk(c, t, f)
    ensures ConvertField(c, t, f) == f.value <==> FieldSettled(c, t, f)
    decreases f, 0
  {
    FieldConverts(c, t, f);
    if !Twice(c, t, f.key) && Applied(c, t, f.key).Some? {
      if t.patternProperties != [] {
        assert t.patternProperties[0] in t.patternProperties;
      }
      ConvertKeepsIffSettled(c, Applied(c, t, f.key).value, f.value);
    }
  }

  /** Convert by any builder-made schema leaves an accepted value alone exactly if it is settled. */
  lemma BuiltKeepsIffSettled(c: Context, b: Built, v: Value)
    requires ContextOf(c, b) && Accepts(c, Build(b), v)
    ensures Convert(c, Build(b), v) == v <==> Settled(c, Build(b), v)
  {
    BuildIsShaped(b, true, map[]);
    ConvertKeepsIffSettled(c, Build(b), v);
  }

  // ----- Schemas for primitive values

  /** The type of a builder-made schema for primitive values. */
  function PrimitiveType(b: Built): Option<Type> {
    match b
    case StringOf(_, _, _) => Some(TString)
    case NumberOf(_, _, _) => Some(TNumber)
    case IntegerOf(_, _, _) => Some(TInteger)
    case BooleanOf => Some(TBoolean)
    case NullOf => Some(TNull)
    case LiteralOf(StringLiteral(_)) => Some(TString)
    case LiteralOf(NumberLiteral(_)) => Some(TNumber)
    case LiteralOf(BooleanLiteral(_)) => Some(TBoolean)
    case _ => None
  }

  /** The values of another type that stand for one of type `t`. */
  predicate StandsFor(c: Context, t: Type, v: Value) {
    match t
    case TString => v.Null? || v.Num? || v.Bool?
    case TNumber => v.Null? || v.Bool? || (v.Str? && c.parse(v.s).Some?)
    case TInteger => v.Null? || v.Bool? || (v.Str? && c.parse(v.s).Some? && IsInteger(c.parse(v.s).value))
    case TBoolean => v.Null? || v in [Str("true"), Str("false"), Num(0.0), Num(1.0)]
    case TNull => v in [Str(""), Num(0.0), Bool(false)]
    case _ => false
  }

  /** Coercion to a type changes exactly what stands for a value of the type. */
  lemma CoerceKeepsIff(c: Context, t: Type, v: Value)
    ensures CoerceTo(c, v, [t]) == v <==> !StandsFor(c, t, v)
    ensures CoerceTo(c, v, [t]) != v ==> CoerceTo(c, v, [t]) == Coerce(c, v, t)
  {
    assert [t][0] in [t] && (MatchesAny(v, [t]) <==> MatchesType(v, t));
    assert CoerceFirst(c, v, [t]) == Coerce(c, v, t);
  }

  /** What is built for primitive values looks at the type only. */
  lemma PrimitiveNode(c: Context, b: Built)
    requires PrimitiveType(b).Some?
    ensures var (n, t) := (Build(b), PrimitiveType(b).value);
            && n.types == [t] && t in [TString, TNumber, TInteger, TBoolean, TNull] && Resolve(n, c.defs) == n
            && n.anyOf.Absent? && n.oneOf.Absent? && n.allOf == [] && n.items.NoItems? && n.properties == []
            && n.patternProperties == [] && n.additional.Unspecified?
  {
  }

  /** A schema for primitive values leaves alone exactly what does not stand for a value of its type. */
  lemma PrimitiveKeepsIff(c: Context, b: Built, v: Value)
    requires Guarded(c) && PrimitiveType(b).Some?
    ensures Convert(c, Build(b), v) == v <==> !StandsFor(c, PrimitiveType(b).value, v)
    ensures StandsFor(c, PrimitiveType(b).value, v) ==> Convert(c, Build(b), v) == Coerce(c, v, PrimitiveType(b).value)
  {
    hide Build, PrimitiveType, CoerceTo, StandsFor, Coerce, Resolve;
    var (n, t) := (Build(b), PrimitiveType(b).value);
    PrimitiveNode(c, b);
    CoerceKeepsIff(c, t, v);
    assert ConvertAll(c, n.allOf, v) == v;
    assert Convert(c, n, v) == ConvertTarget(c, n, v);
    match v
    case Arr(elems) => NothingToConvert(c, n, elems, [], 0);
    case Obj(fields) => NothingToConvert(c, n, [], fields, 0);
    case _ =>
  }

  lemma {:induction false} NothingToConvert(c: Context, n: Node, elems: seq<Value>, fields: seq<Field>, i: nat)
    requires Guarded(c) && n.items.NoItems? && n.properties == [] && n.patternProperties == [] && !n.additional.Matching?
    ensures ConvertElems(c, n, elems, i) == elems && ConvertFields(c, n, fields) == fields
    decreases |elems| + |fields|
  {
    if elems != [] {
      NothingToConvert(c, n, elems[1..], [], i + 1);
    }
    if fields != [] {
      var f := fields[0];
      assert ConvertPatterns(c, n.patternProperties, f.key, f.value) == f.value && ConvertField(c, n, f) == f.value;
      NothingToConvert(c, n, [], fields[1..], i);
    }
  }

  // ----- Any value and any schema

  /** What conversion leaves alone, accepted or not: no union changes it, it does not stand for a value of the schema's
      type, and its elements and properties are left alone. */
  predicate Untouched(c: Context, n: Node, v: Value)
    requires Guarded(c)
    decreases v, 1
  {
    var t := Resolve(n, c.defs);
    if t.anyOf.Branches? then UnionUntouched(c, t.anyOf.list, v)
    else
      (t.types != [] ==> !StandsFor(c, t.types[0], v))
      && match v
         case Arr(elems) => UntouchedFrom(c, t, elems, 0)
         case Obj(fields) => forall f :: f in fields ==> FieldUntouched(c, t, f)
         case _ => true
  }

  /** A union changes a value exactly if no branch accepts it and one accepts its own conversion of it. */
  predicate UnionUntouched(c: Context, branches: seq<Node>, v: Value)
    requires Guarded(c)
  {
    (exists b :: b in branches && Accepts(c, b, v)) || forall b :: b in branches ==> !Accepts(c, b, Convert(c, b, v))
  }

  predicate UntouchedFrom(c: Context, t: Node, elems: seq<Value>, i: nat)
    requires Guarded(c)
    decreases elems
  {
    forall k :: 0 <= k < |elems| && ItemAt(t.items, i + k).Some? ==> Untouched(c, ItemAt(t.items, i + k).value, elems[k])
  }

  predicate FieldUntouched(c: Context, t: Node, f: Field)
    requires Guarded(c)
    decreases f
  {
    if Twice(c, t, f.key) then
      Convert(c, t.additional.schema, Convert(c, t.patternProperties[0].node, f.value)) == f.value
    else Applied(c, t, f.key).Some? ==> Untouched(c, Applied(c, t, f.key).value, f.value)
  }

  lemma UnionKeepsIff(c: Context, ns: seq<Node>, v: Value)
    requires Guarded(c)
    ensures ConvertUnion(c, ns, v) == v <==> UnionUntouched(c, ns, v)
  {
    FirstFitOutcome(c, ns, v);
  }

  /** What conversion by a builder-made node comes down to. */
  lemma ConvertAny(c: Context, n: Node, v: Value)
    requires InShape(c) && Shaped(n, true)
    ensures var t := Resolve(n, c.defs);
            && Shaped(t, true)
            && Convert(c, n, v) == if t.anyOf.Branches? then ConvertUnion(c, t.anyOf.list, v)
                                   else match CoerceTo(c, v, t.types)
                                        case Obj(fields) => Obj(ConvertFields(c, t, fields))
                                        case Arr(elems) => Arr(ConvertElems(c, t, elems, 0))
                                        case _ => CoerceTo(c, v, t.types)
  {
    ShapedResolveFrom(c, n, 0, true);
    var t := Resolve(n, c.defs);
    assert ConvertAll(c, t.allOf, v) == v && Convert(c, n, v) == ConvertTarget(c, t, v);
  }

  /** Any builder-made schema leaves exactly those values alone. */
  lemma {:induction false} ConvertKeepsIffUntouched(c: Context, n: Node, v: Value)
    requires InShape(c) && Shaped(n, true)
    ensures Convert(c, n, v) == v <==> Untouched(c, n, v)
    decreases v, 1
  {
    ConvertAny(c, n, v);
    var t := Resolve(n, c.defs);
    hide Convert, Accepts, Shaped, ConvertElems, ConvertFields, UnionUntouched, UntouchedFrom, FieldUntouched, StandsFor, CoerceFirst;
    UnionKeepsIff(c, if t.anyOf.Branches? then t.anyOf.list else [], v);
    TypeKeepsIff(c, t.types, v);
    match v
    case Arr(elems) => ElemsUntouchedIff(c, t, elems, 0);
    case Obj(fields) => FieldsUntouchedIff(c, t, fields);
    case _ =>
  }

  lemma TypeKeepsIff(c: Context, types: seq<Type>, v: Value)
    requires |types| <= 1
    ensures CoerceTo(c, v, types) == v <==> (types != [] ==> !StandsFor(c, types[0], v))
    ensures v.Arr? || v.Obj? ==> CoerceTo(c, v, types) == v
    ensures CoerceTo(c, v, types) != v ==> !CoerceTo(c, v, types).Arr? && !CoerceTo(c, v, types).Obj?
  {
    if types != [] {
      assert types == [types[0]];
      CoerceKeepsIff(c, types[0], v);
    }
  }

  lemma OneMoreUntouched(c: Context, t: Node, elems: seq<Value>, i: nat)
    requires Guarded(c) && elems != []
    ensures UntouchedFrom(c, t, elems, i) <==>
            (ItemAt(t.items, i).Some? ==> Untouched(c, ItemAt(t.items, i).value, elems[0])) && UntouchedFrom(c, t, elems[1..], i + 1)
  {
    hide Untouched, ItemAt;
    var rest := elems[1..];
    assert forall k :: 0 <= k < |rest| ==> rest[k] == elems[k + 1] && i + 1 + k == i + (k + 1);
    assert forall k :: 1 <= k < |elems| ==> elems[k] == rest[k - 1] && i + k == i + 1 + (k - 1);
    assert i + 0 == i;
  }

  lemma NoneUntouched(c: Context, t: Node, i: nat)
    requires Guarded(c)
    ensures UntouchedFrom(c, t, [], i)
  {
  }

  lemma {:induction false} ElemsUntouchedIff(c: Context, t: Node, elems: seq<Value>, i: nat)
    requires InShape(c) && Shaped(t, true)
    ensures ConvertElems(c, t, elems, i) == elems <==> UntouchedFrom(c, t, elems, i)
    decreases elems, 0
  {
    hide UntouchedFrom, Untouched, Convert;
    if elems == [] {
      NoneUntouched(c, t, i);
    } else {
      OneMoreUntouched(c, t, elems, i);
      if ItemAt(t.items, i).Some? {
        ConvertKeepsIffUntouched(c, ItemAt(t.items, i).value, elems[0]);
      }
      var rest := elems[1..];
      ElemsUntouchedIff(c, t, rest, i + 1);
      var r := ConvertElems(c, t, elems, i);
      assert r[1..] == ConvertElems(c, t, rest, i + 1) && elems == [elems[0]] + rest;
      assert r == elems <==> r[0] == elems[0] && r[1..] == rest;
    }
  }

  lemma {:induction false} FieldsUntouchedIff(c: Context, t: Node, fields: seq<Field>)
    requires InShape(c) && Shaped(t, true)
    ensures ConvertFields(c, t, fields) == fields <==> forall f :: f in fields ==> FieldUntouched(c, t, f)
    decreases fields, 0
  {
    hide FieldUntouched, ConvertField, Shaped;
    if fields != [] {
      var f := fields[0];
      FieldUntouchedIff(c, t, f);
      FieldsUntouchedIff(c, t, fields[1..]);
      var r := ConvertFields(c, t, fields);
      assert r[1..] == ConvertFields(c, t, fields[1..]) && fields == [f] + fields[1..];
      assert r == fields <==> r[0] == f && r[1..] == fields[1..];
    }
  }

  lemma {:induction false} FieldUntouchedIff(c: Context, t: Node, f: Field)
    requires InShape(c) && Shaped(t, true)
    ensures ConvertField(c, t, f) == f.value <==> FieldUntouched(c, t, f)
    decreases f, 0
  {
    FieldConverts(c, t, f);
    if !Twice(c, t, f.key) && Applied(c, t, f.key).Some? {
      ConvertKeepsIffUntouched(c, Applied(c, t, f.key).value, f.value);
    }
  }

  /** Convert by any builder-made schema leaves a value alone, accepted or not, exactly if it is untouched. */
  lemma BuiltKeepsIffUntouched(c: Context, b: Built, v: Value)
    requires ContextOf(c, b)
    ensures Convert(c, Build(b), v) == v <==> Untouched(c, Build(b), v)
  {
    BuildIsShaped(b, true, map[]);
    ConvertKeepsIffUntouched(c, Build(b), v);
  }

  /** A property with two schemas: if the first leaves it alone, it is settled exactly if the second does. */
  lemma TwiceSettledIff(c: Context, t: Node, f: Field)
    requires InShape(c) && Shaped(t, true) && FieldOk(c, t, f) && Twice(c, t, f.key)
    requires Settled(c, t.patternProperties[0].node, f.value)
    ensures FieldSettled(c, t, f) <==> Untouched(c, t.additional.schema, f.value)
  {
    assert t.patternProperties[0] in t.patternProperties && !HasName(t.properties, f.key);
    ConvertKeepsIffSettled(c, t.patternProperties[0].node, f.value);
    ConvertKeepsIffUntouched(c, t.additional.schema, f.value);
  }

  lemma RecordParts(c: Context, n: Node, v: Value)
    requires Guarded(c) && Accepts(c, n, v) && Resolve(n, c.defs) == n
    requires n.anyOf.Absent? && n.oneOf.Absent? && n.types == [TObject]
    ensures v.Obj? && FieldsOk(c, n, v.fields)
  {
    hide FieldsOk;
    assert AcceptsTarget(c, n, v) && PartsOk(c, n, v);
    assert MatchesAny(v, n.types);
  }

  /** An accepted value of a Record is an object, settled exactly if all its properties are. */
  lemma RecordSettled(c: Context, value: Built, extra: Built, v: Value)
    requires Guarded(c) && Accepts(c, Build(RecordOf(value, GivenSchema(extra))), v)
    ensures var n := Build(RecordOf(value, GivenSchema(extra)));
            && v.Obj? && (forall f :: f in v.fields ==> FieldOk(c, n, f))
            && (Settled(c, n, v) <==> forall f :: f in v.fields ==> FieldSettled(c, n, f))
  {
    hide Build, FieldOk, FieldSettled, Accepts, Resolve;
    var n := Build(RecordOf(value, GivenSchema(extra)));
    RecordNode(c, value, extra);
    RecordParts(c, n, v);
  }

  /** For a Record with a plain schema for its values and one for primitive values for additional properties: an accepted
      value is left alone exactly if no value under a matching key stands for one of the second type. */
  lemma RecordKeepsIff(c: Context, value: Built, extra: Built, v: Value)
    requires Guarded(c) && AllShaped(c.defs, false) && RecordsOpen(value) && PrimitiveType(extra).Some?
    requires Accepts(c, Build(RecordOf(value, GivenSchema(extra))), v)
    ensures v.Obj?
    ensures Convert(c, Build(RecordOf(value, GivenSchema(extra))), v) == v <==>
            forall f :: f in v.fields && c.test(EVERY_KEY, f.key) ==> !StandsFor(c, PrimitiveType(extra).value, f.value)
  {
    hide Convert, Accepts, FieldSettled, FieldOk, Shaped, Build, Settled, StandsFor, PrimitiveType;
    var b := RecordOf(value, GivenSchema(extra));
    DefsInShape(c);
    BuildIsShaped(b, true, map[]);
    ConvertKeepsIffSettled(c, Build(b), v);
    RecordSettled(c, value, extra, v);
    forall f | f in v.fields
      ensures FieldSettled(c, Build(b), f) <==> (c.test(EVERY_KEY, f.key) ==> !StandsFor(c, PrimitiveType(extra).value, f.value))
    {
      RecordFieldSettled(c, value, extra, f);
    }
  }

  lemma DefsInShape(c: Context)
    requires Guarded(c) && AllShaped(c.defs, false)
    ensures InShape(c)
  {
    forall name | name in c.defs ensures Shaped(c.defs[name], true) {
      PlainIsShaped(c.defs[name]);
    }
  }

  lemma {:induction false} PlainIsShaped(n: Node)
    requires Plain(n)
    ensures Shaped(n, true)
    decreases n
  {
    if n.anyOf.Branches? {
      forall b | b in n.anyOf.list ensures Shaped(b, true) {
        PlainIsShaped(b);
      }
    }
    if n.items.Each? {
      PlainIsShaped(n.items.item);
    }
    forall e | e in n.properties ensures Shaped(e.node, true) {
      PlainIsShaped(e.node);
    }
    forall e | e in n.patternProperties ensures Shaped(e.node, true) {
      PlainIsShaped(e.node);
    }
    if n.additional.Matching? {
      PlainIsShaped(n.additional.schema);
    }
  }

  lemma RecordFieldSettled(c: Context, value: Built, extra: Built, f: Field)
    requires Guarded(c) && AllShaped(c.defs, false) && RecordsOpen(value) && PrimitiveType(extra).Some?
    requires FieldOk(c, Build(RecordOf(value, GivenSchema(extra))), f)
    ensures InShape(c)
    ensures FieldSettled(c, Build(RecordOf(value, GivenSchema(extra))), f)
            <==> (c.test(EVERY_KEY, f.key) ==> !StandsFor(c, PrimitiveType(extra).value, f.value))
  {
    hide Build, PrimitiveType, StandsFor, Accepts, Convert, Shaped, FieldOk, FieldSettled, Settled, Untouched;
    var n := Build(RecordOf(value, GivenSchema(extra)));
    DefsInShape(c);
    BuildIsShaped(RecordOf(value, GivenSchema(extra)), true, map[]);
    BuildIsShaped(extra, true, map[]);
    RecordNode(c, value, extra);
    RecordFieldOk(c, n, f);
    if c.test(EVERY_KEY, f.key) {
      PlainSettled(c, value, f.value);
      TwiceSettledIff(c, n, f);
      ConvertKeepsIffUntouched(c, n.additional.schema, f.value);
      PrimitiveKeepsIff(c, extra, f.value);
    } else {
      PrimitiveIsOpen(extra);
      PlainSettled(c, extra, f.value);
    }
  }

  lemma PrimitiveIsOpen(b: Built)
    requires PrimitiveType(b).Some?
    ensures RecordsOpen(b)
  {
  }

  lemma RecordNode(c: Context, value: Built, extra: Built)
    ensures var n := Build(RecordOf(value, GivenSchema(extra)));
            && n.patternProperties == [Entry(EVERY_KEY, Build(value))] && n.additional == Matching(Build(extra))
            && n.properties == [] && n.types == [TObject] && Resolve(n, c.defs) == n && n.anyOf.Absent? && n.oneOf.Absent?
  {
  }

  /** What a Record with a schema for additional properties asks of a property. */
  lemma RecordFieldOk(c: Context, n: Node, f: Field)
    requires Guarded(c) && n.properties == [] && |n.patternProperties| == 1 && n.additional.Matching?
    requires FieldOk(c, n, f)
    ensures var p := n.patternProperties[0];
            if c.test(p.name, f.key) then Twice(c, n, f.key) && Accepts(c, p.node, f.value)
            else Accepts(c, n.additional.schema, f.value)
                 && (FieldSettled(c, n, f) <==> Settled(c, n.additional.schema, f.value))
  {
    var ps := n.patternProperties;
    assert ps[0] in ps && forall p :: p in ps ==> p == ps[0];
    assert (exists p :: p in ps && c.test(p.name, f.key)) <==> c.test(ps[0].name, f.key);
    hide Accepts, Settled;
  }

  /** A plain schema settles whatever it accepts. */
  lemma PlainSettled(c: Context, b: Built, v: Value)
    requires Guarded(c) && AllShaped(c.defs, false) && RecordsOpen(b) && Accepts(c, Build(b), v)
    ensures Settled(c, Build(b), v)
  {
    DefsInShape(c);
    BuildIsShaped(b, false, map[]);
    PlainIsShaped(Build(b));
    ConvertKeepsAccepted(c, Build(b), v);
    ConvertKeepsIffSettled(c, Build(b), v);
  }

  lemma NumberBecomesText(c: Context, n: Node)
    requires InShape(c) && c.test(EVERY_KEY, "a") && Shaped(n, true)
    requires n == Build(RecordOf(NumberOf(None, None, None), GivenSchema(StringOf(None, None, None))))
    ensures ConvertFields(c, n, [Field("a", Num(1.0))]) == [Field("a", Str(c.show(1.0)))]
  {
    var (number, text) := (NumberOf(None, None, None), StringOf(None, None, None));
    assert BuildAdditional(GivenSchema(text)) == Matching(Build(text)) && Twice(c, n, "a");
    assert n.patternProperties == [Entry(EVERY_KEY, Build(number))] && n.additional == Matching(Build(text));
    assert PrimitiveType(number) == Some(TNumber) && PrimitiveType(text) == Some(TString);
    hide Build, PrimitiveType, Twice;
    FieldConverts(c, n, Field("a", Num(1.0)));
    PrimitiveKeepsIff(c, number, Num(1.0));
    PrimitiveKeepsIff(c, text, Num(1.0));
    hide ConvertField;
    assert [Field("a", Num(1.0))][1..] == [] && ConvertFields(c, n, []) == [];
  }

  /** For example, a Record of numbers whose additional properties are strings turns an accepted number into a
      string, which it no longer accepts. */
  lemma RecordAdditionalBreaks(c: Context)
    requires Guarded(c) && c.defs == map[] && c.test(EVERY_KEY, "a")
    ensures var n := Build(RecordOf(NumberOf(None, None, None), GivenSchema(StringOf(None, None, None))));
            var v := Obj([Field("a", Num(1.0))]);
            Accepts(c, n, v) && Convert(c, n, v) == Obj([Field("a", Str(c.show(1.0)))]) && !Accepts(c, n, Convert(c, n, v))
  {
    var b := RecordOf(NumberOf(None, None, None), GivenSchema(StringOf(None, None, None)));
    var n := Build(b);
    var v, w := Obj([Field("a", Num(1.0))]), Obj([Field("a", Str(c.show(1.0)))]);
    assert Resolve(n, c.defs) == n && n.anyOf.Absent?;
    hide Build, Accepts, Shaped, Convert, ConvertFields, FieldOk, Resolve;
    RecordOfNumbers(c, n, v);
    RecordOfNumbers(c, n, w);
    BuildIsShaped(b, true, map[]);
    NumberBecomesText(c, n);
    ConvertShaped(c, n, v);
  }

  lemma RecordOfNumbers(c: Context, n: Node, v: Value)
    requires Guarded(c) && c.test(EVERY_KEY, "a")
    requires n == Build(RecordOf(NumberOf(None, None, None), GivenSchema(StringOf(None, None, None))))
    requires v.Obj? && |v.fields| == 1 && v.fields[0].key == "a"
    ensures Accepts(c, n, v) <==> v.fields[0].value.Num?
    ensures v.fields[0].value.Num? ==> FieldOk(c, n, v.fields[0])
  {
    var number, f := NumberOf(None, None, None), v.fields[0];
    PlainType(c, number, TNumber, f.value);
    assert TObject in n.types && n.patternProperties[0] in n.patternProperties;
    assert FieldOk(c, n, f) <==> Accepts(c, Build(number), f.value);
    assert f in v.fields;
    assert FieldsOk(c, n, v.fields) == FieldOk(c, n, f);
    assert Resolve(n, c.defs) == n && Accepts(c, n, v) == AcceptsTarget(c, n, v) == PartsOk(c, n, v);
  }
}
