/** Which values a schema accepts, stated without error lists: the meaning that validation and conversion are
    measured against. */
module SchemaAccepts {
  import opened Options
  import opened SchemaNodes

  /** Recursion either descends into the value, or unfolds the schema on the same value; the latter lowers the
      rank or moves to a part of the node. */
  predicate Accepts(c: Context, n: Node, v: Value)
    requires Guarded(c)
    decreases v, 1, Rank(c.rank, n), n, 1
  {
    ResolveRank(c, n);
    AcceptsTarget(c, Resolve(n, c.defs), v)
  }

  predicate AcceptsTarget(c: Context, t: Node, v: Value)
    requires Guarded(c)
    decreases v, 1, Rank(c.rank, t), t, 0
  {
    RankOfParts(c.rank, t);
    if t.anyOf.Branches? then
      t.anyOf.list == [] || exists b :: b in t.anyOf.list && Accepts(c, b, v)
    else if t.oneOf.Branches? then
      RankOfLists(c.rank, t);
      t.oneOf.list == [] || AcceptingCount(c, t.oneOf.list, v) == 1
    else
      (forall b :: b in t.allOf ==> Accepts(c, b, v)) && PartsOk(c, t, v)
  }

  function AcceptingCount(c: Context, ns: seq<Node>, v: Value): nat
    requires Guarded(c)
    decreases v, 1, RankAll(c.rank, ns), ns, 0
  {
    if ns == [] then 0 else (if Accepts(c, ns[0], v) then 1 else 0) + AcceptingCount(c, ns[1..], v)
  }

  predicate PartsOk(c: Context, t: Node, v: Value)
    requires Guarded(c)
    decreases v, 0, t, 0
  {
    && ScalarOk(c, t, v)
    && (v.Arr? ==> ElementsOk(c, t, v.elems))
    && (v.Obj? ==> FieldsOk(c, t, v.fields))
  }

  /** The keywords that do not look inside arrays and objects, and the size and presence keywords. */
  predicate ScalarOk(c: Context, t: Node, v: Value) {
    && (t.constant.Some? ==> DeepEqual(v, t.constant.value))
    && (t.enumeration.Some? ==> exists e :: e in t.enumeration.value && DeepEqual(e, v))
    && MatchesAny(v, t.types)
    && (v.Str? ==>
          && (t.minLength.Some? ==> t.minLength.value <= |v.s|)
          && (t.maxLength.Some? ==> |v.s| <= t.maxLength.value)
          && (t.pattern.Some? ==> c.test(t.pattern.value, v.s)))
    && (v.Num? ==>
          && (t.minimum.Some? ==> t.minimum.value <= v.n)
          && (t.maximum.Some? ==> v.n <= t.maximum.value)
          && (t.multipleOf.Some? && t.multipleOf.value != 0.0 ==> c.isMultiple(v.n, t.multipleOf.value)))
    && (v.Arr? ==>
          && (t.minItems.Some? ==> t.minItems.value <= |v.elems|)
          && (t.maxItems.Some? ==> |v.elems| <= t.maxItems.value))
    && (v.Obj? ==> forall name :: name in t.required ==> HasKey(v.fields, name))
  }

  /** The schema that `items` gives element `i`. */
  function ItemAt(items: Items, i: nat): Option<Node> {
    match items
    case NoItems => None
    case Each(item) => Some(item)
    case Positional(positions) => if i < |positions| then Some(positions[i]) else None
  }

  predicate ElementsOk(c: Context, t: Node, elems: seq<Value>)
    requires Guarded(c)
    decreases elems
  {
    forall i :: 0 <= i < |elems| && ItemAt(t.items, i).Some? ==> Accepts(c, ItemAt(t.items, i).value, elems[i])
  }

  predicate FieldsOk(c: Context, t: Node, fields: seq<Field>)
    requires Guarded(c)
    decreases fields
  {
    forall f :: f in fields ==> FieldOk(c, t, f)
  }

  predicate FieldOk(c: Context, t: Node, f: Field)
    requires Guarded(c)
    decreases f
  {
    if HasName(t.properties, f.key) then
      forall e :: e in t.properties && e.name == f.key ==> Accepts(c, e.node, f.value)
    else
      if exists p :: p in t.patternProperties && c.test(p.name, f.key) then
        forall p :: p in t.patternProperties && c.test(p.name, f.key) ==> Accepts(c, p.node, f.value)
      else
        match t.additional
        case Unspecified => true
        case Allow(allowed) => allowed
        case Matching(schema) => Accepts(c, schema, f.value)
  }
}
