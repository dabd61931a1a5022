/** Conversion of values towards a schema, on values. */
module SchemaConversion {
  import opened Options
  import opened SchemaNodes
  import opened SchemaAccepts

  /** coercePrimitive. */
  function Coerce(c: Context, v: Value, t: Type): (r: Value)
    ensures r != v ==> MatchesType(r, t) && !r.Arr? && !r.Obj? && !v.Arr? && !v.Obj?
  {
    match t
    case TNumber =>
      if v.Null? then Num(0.0)
      else if v.Str? && c.parse(v.s).Some? then Num(c.parse(v.s).value)
      else if v.Bool? then Num(if v.b then 1.0 else 0.0)
      else v
    case TInteger =>
      if v.Null? then Num(0.0)
      else if v.Str? && c.parse(v.s).Some? && IsInteger(c.parse(v.s).value) then Num(c.parse(v.s).value)
      else if v.Bool? then Num(if v.b then 1.0 else 0.0)
      else v
    case TBoolean =>
      if v.Null? then Bool(false)
      else if v == Str("true") || v == Num(1.0) then Bool(true)
      else if v == Str("false") || v == Num(0.0) then Bool(false)
      else v
    case TString =>
      if v.Null? then Str("")
      else if v.Num? then Str(c.show(v.n))
      else if v.Bool? then Str(if v.b then "true" else "false")
      else v
    case TNull => if v == Str("") || v == Num(0.0) || v == Bool(false) then Null else v
    case TArray => v
    case TObject => v
    case TOther(_) => v
  }

  /** Coercing back gives the value there was: booleans and null by way of any other primitive type, numbers by way of
      their text if it reads as the number. On the way true is one or its name, and false and null are zero, false's
      name, the empty string or null. */
  lemma CoercionUndone(c: Context, v: Value, t: Type)
    requires t in [TString, TNumber, TInteger, TBoolean, TNull]
    ensures v.Bool? ==>
              Coerce(c, v, t) == match t
                                 case TBoolean => v
                                 case TNull => if v.b then v else Null
                                 case TString => Str(if v.b then "true" else "false")
                                 case _ => Num(if v.b then 1.0 else 0.0)
    ensures v.Null? ==>
              Coerce(c, v, t) == match t
                                 case TBoolean => Bool(false)
                                 case TNull => Null
                                 case TString => Str("")
                                 case _ => Num(0.0)
    ensures v == Num(1.0) && t == TBoolean ==> Coerce(c, v, t) == Bool(true)
    ensures v == Num(0.0) && t == TBoolean ==> Coerce(c, v, t) == Bool(false)
    ensures v.Null? ==> Coerce(c, Coerce(c, v, t), TNull) == v
    ensures v.Bool? && t != TNull ==> Coerce(c, Coerce(c, v, t), TBoolean) == v
    ensures v.Num? && t == TString && c.parse(c.show(v.n)) == Some(v.n) ==> Coerce(c, Coerce(c, v, t), TNumber) == v
  {
  }

  /** The first declared type that changes the value decides. */
  function CoerceFirst(c: Context, v: Value, types: seq<Type>): (r: Value)
    ensures r == v || (!r.Arr? && !r.Obj? && !v.Arr? && !v.Obj?)
  {
    if types == [] then v
    else if Coerce(c, v, types[0]) != v then Coerce(c, v, types[0])
    else CoerceFirst(c, v, types[1..])
  }

  function CoerceTo(c: Context, v: Value, types: seq<Type>): (r: Value)
    ensures r == v || (!r.Arr? && !r.Obj? && !v.Arr? && !v.Obj?)
  {
    if MatchesAny(v, types) then v else CoerceFirst(c, v, types)
  }

  function Depth(v: Value): nat {
    match v
    case Arr(elems) => 1 + DepthOfElems(elems)
    case Obj(fields) => 1 + DepthOfFields(fields)
    case _ => 0
  }

  function DepthOfElems(elems: seq<Value>): nat {
    if elems == [] then 0 else Max(Depth(elems[0]), DepthOfElems(elems[1..]))
  }

  function DepthOfFields(fields: seq<Field>): nat {
    if fields == [] then 0 else Max(Depth(fields[0].value), DepthOfFields(fields[1..]))
  }

  /** convertNodeWithContext: conversion never deepens a value, which is why the conjunction and union steps,
      which convert what was already converted, terminate. */
  function Convert(c: Context, n: Node, v: Value): (r: Value)
    requires Guarded(c)
    ensures Depth(r) <= Depth(v)
    decreases Depth(v), 0, Rank(c.rank, n), n, 1
  {
    ResolveRank(c, n);
    ConvertTarget(c, Resolve(n, c.defs), v)
  }

  function ConvertTarget(c: Context, t: Node, v: Value): (r: Value)
    requires Guarded(c)
    ensures Depth(r) <= Depth(v)
    decreases Depth(v), 0, Rank(c.rank, t), t, 0
  {
    RankOfLists(c.rank, t);
    var v1 := ConvertAll(c, t.allOf, v);
    if t.anyOf.Branches? then ConvertUnion(c, t.anyOf.list, v1)
    else if t.oneOf.Branches? then ConvertUnion(c, t.oneOf.list, v1)
    else
      var v2 := CoerceTo(c, v1, t.types);
      assert Depth(v2) <= Depth(v1);
      match v2
      case Obj(fields) => Obj(ConvertFields(c, t, fields))
      case Arr(elems) => Arr(ConvertElems(c, t, elems, 0))
      case _ => v2
  }

  /** allOf: every member converts the result of the one before. */
  function ConvertAll(c: Context, ns: seq<Node>, v: Value): (r: Value)
    requires Guarded(c)
    ensures Depth(r) <= Depth(v)
    decreases Depth(v), 0, RankAll(c.rank, ns), ns, 2
  {
    if ns == [] then v else ConvertAll(c, ns[1..], Convert(c, ns[0], v))
  }

  /** convertUnionWithContext: the value itself if a branch accepts it, else the first conversion that its own
      branch accepts, else the value itself. */
  function ConvertUnion(c: Context, ns: seq<Node>, v: Value): (r: Value)
    requires Guarded(c)
    ensures Depth(r) <= Depth(v)
    decreases Depth(v), 0, RankAll(c.rank, ns), ns, 2
  {
    if exists b :: b in ns && Accepts(c, b, v) then v else FirstFit(c, ns, v)
  }

  function FirstFit(c: Context, ns: seq<Node>, v: Value): (r: Value)
    requires Guarded(c)
    ensures Depth(r) <= Depth(v)
    decreases Depth(v), 0, RankAll(c.rank, ns), ns, 1
  {
    if ns == [] then v
    else
      var coerced := Convert(c, ns[0], v);
      if Accepts(c, ns[0], coerced) then coerced else FirstFit(c, ns[1..], v)
  }

  function ConvertElems(c: Context, t: Node, elems: seq<Value>, i: nat): (r: seq<Value>)
    requires Guarded(c)
    ensures |r| == |elems| && DepthOfElems(r) <= DepthOfElems(elems)
    decreases DepthOfElems(elems), 3, |elems|
  {
    if elems == [] then []
    else
      var first := if ItemAt(t.items, i).Some? then Convert(c, ItemAt(t.items, i).value, elems[0]) else elems[0];
      [first] + ConvertElems(c, t, elems[1..], i + 1)
  }

  function ConvertFields(c: Context, t: Node, fields: seq<Field>): (r: seq<Field>)
    requires Guarded(c)
    ensures |r| == |fields| && DepthOfFields(r) <= DepthOfFields(fields)
    decreases DepthOfFields(fields), 3, |fields|
  {
    if fields == [] then []
    else [Field(fields[0].key, ConvertField(c, t, fields[0]))] + ConvertFields(c, t, fields[1..])
  }

  /** A property is converted by its own schema, then by every pattern that matches its key, then, if it has no
      schema of its own, by the schema for additional properties. */
  function ConvertField(c: Context, t: Node, f: Field): (r: Value)
    requires Guarded(c)
    ensures Depth(r) <= Depth(f.value)
    decreases Depth(f.value), 2, 0
  {
    var own := Find(t.properties, f.key);
    var v1 := if own.Some? then Convert(c, own.value, f.value) else f.value;
    var v2 := ConvertPatterns(c, t.patternProperties, f.key, v1);
    if own.None? && t.additional.Matching? then Convert(c, t.additional.schema, v2) else v2
  }

  function ConvertPatterns(c: Context, ps: seq<Entry>, key: string, v: Value): (r: Value)
    requires Guarded(c)
    ensures Depth(r) <= Depth(v)
    decreases Depth(v), 1, |ps|
  {
    if ps == [] then v
    else ConvertPatterns(c, ps[1..], key, if c.test(ps[0].name, key) then Convert(c, ps[0].node, v) else v)
  }
}
