/** What conversion keeps: meaning, and its own results. */
module SchemaTheorems {
  import opened Options
  import opened SchemaNodes
  import opened SchemaAccepts
  import opened SchemaConversion

  /** The shape of nodes that the builders make; `additional` says whether a Record may have a schema for additional
      properties. */
  predicate Shaped(n: Node, additional: bool) {
    && n.oneOf.Absent? && n.allOf == [] && n.enumeration.None? && |n.types| <= 1
    && !n.items.Positional?
    && (n.patternProperties != [] ==>
          |n.patternProperties| == 1 && n.properties == [] && (additional || !n.additional.Matching?))
    && (n.anyOf.Branches? ==> forall b :: b in n.anyOf.list ==> Shaped(b, additional))
    && (n.items.Each? ==> Shaped(n.items.item, additional))
    && (forall e :: e in n.properties ==> Shaped(e.node, additional))
    && (forall e :: e in n.patternProperties ==> Shaped(e.node, additional))
    && (n.additional.Matching? ==> Shaped(n.additional.schema, additional))
  }

  predicate Plain(n: Node) {
    Shaped(n, false)
  }

  predicate Sane(c: Context) {
    Guarded(c) && forall name :: name in c.defs ==> Plain(c.defs[name])
  }

  lemma {:induction false} ShapedResolveFrom(c: Context, n: Node, hops: nat, additional: bool)
    requires (forall name :: name in c.defs ==> Shaped(c.defs[name], additional)) && Shaped(n, additional) && hops <= MAX_HOPS
    ensures Shaped(ResolveFrom(n, c.defs, hops), additional)
    decreases MAX_HOPS - hops
  {
    if hops < MAX_HOPS && n.ref.Some? && n.ref.value in c.defs {
      ShapedResolveFrom(c, c.defs[n.ref.value], hops + 1, additional);
    }
  }

  /** What conversion by a plain node comes down to. */
  lemma ConvertPlain(c: Context, n: Node, v: Value)
    requires Sane(c) && Plain(n)
    ensures Plain(Resolve(n, c.defs))
    ensures var t := Resolve(n, c.defs);
            Convert(c, n, v)
            == if t.anyOf.Branches? then ConvertUnion(c, t.anyOf.list, v)
               else match CoerceTo(c, v, t.types)
                    case Obj(fields) => Obj(ConvertFields(c, t, fields))
                    case Arr(elems) => Arr(ConvertElems(c, t, elems, 0))
                    case _ => CoerceTo(c, v, t.types)
  {
    ShapedResolveFrom(c, n, 0, false);
    var t := Resolve(n, c.defs);
    assert ConvertAll(c, t.allOf, v) == v;
    assert Convert(c, n, v) == ConvertTarget(c, t, v);
  }

  // ----- Unions

  lemma {:induction false} FirstFitOutcome(c: Context, ns: seq<Node>, v: Value)
    requires Guarded(c)
    ensures if exists b :: b in ns && Accepts(c, b, Convert(c, b, v))
            then exists b :: b in ns && FirstFit(c, ns, v) == Convert(c, b, v) && Accepts(c, b, FirstFit(c, ns, v))
            else FirstFit(c, ns, v) == v
    decreases |ns|
  {
    if ns != [] {
      var coerced := Convert(c, ns[0], v);
      if Accepts(c, ns[0], coerced) {
        assert ns[0] in ns;
      } else {
        FirstFitOutcome(c, ns[1..], v);
        assert ns == [ns[0]] + ns[1..];
      }
    }
  }

  /** A union conversion is accepted exactly when a branch accepts the value or what that branch makes of it;
      otherwise it hands the value back as it was. */
  lemma UnionOutcome(c: Context, ns: seq<Node>, v: Value)
    requires Guarded(c)
    ensures (exists b :: b in ns && Accepts(c, b, ConvertUnion(c, ns, v)))
       <==> (exists b :: b in ns && (Accepts(c, b, v) || Accepts(c, b, Convert(c, b, v))))
    ensures ConvertUnion(c, ns, v) == v || exists b :: b in ns && Accepts(c, b, ConvertUnion(c, ns, v))
  {
    FirstFitOutcome(c, ns, v);
  }

  // ----- Accepted values are left alone

  lemma {:induction false} ConvertKeepsAccepted(c: Context, n: Node, v: Value)
    requires Sane(c) && Plain(n) && Accepts(c, n, v)
    ensures Convert(c, n, v) == v
    decreases v, 1
  {
    ConvertPlain(c, n, v);
    var t := Resolve(n, c.defs);
    assert AcceptsTarget(c, t, v);
    if t.anyOf.Absent? {
      assert PartsOk(c, t, v) && CoerceTo(c, v, t.types) == v;
      match v
      case Arr(elems) =>
        assert ElementsOk(c, t, elems);
        KeepsElems(c, t, elems, 0);
      case Obj(fields) =>
        assert FieldsOk(c, t, fields);
        KeepsFields(c, t, fields);
      case _ =>
    }
  }

  lemma {:induction false} KeepsElems(c: Context, t: Node, elems: seq<Value>, i: nat)
    requires Sane(c) && Plain(t)
    requires forall k :: 0 <= k < |elems| && ItemAt(t.items, i + k).Some? ==> Accepts(c, ItemAt(t.items, i + k).value, elems[k])
    ensures ConvertElems(c, t, elems, i) == elems
    decreases elems, 0
  {
    if elems != [] {
      if ItemAt(t.items, i).Some? {
        assert ItemAt(t.items, i + 0).Some?;
        ConvertKeepsAccepted(c, ItemAt(t.items, i).value, elems[0]);
      }
      forall k | 0 <= k < |elems[1..]| && ItemAt(t.items, i + 1 + k).Some?
        ensures Accepts(c, ItemAt(t.items, i + 1 + k).value, elems[1..][k])
      {
        assert ItemAt(t.items, i + (k + 1)).Some?;
      }
      KeepsElems(c, t, elems[1..], i + 1);
    }
  }

  lemma {:induction false} KeepsFields(c: Context, t: Node, fields: seq<Field>)
    requires Sane(c) && Plain(t) && forall f :: f in fields ==> FieldOk(c, t, f)
    ensures ConvertFields(c, t, fields) == fields
    decreases fields, 0
  {
    if fields != [] {
      var f := fields[0];
      assert FieldOk(c, t, f);
      KeepsField(c, t, f);
      KeepsFields(c, t, fields[1..]);
    }
  }

  /** The one schema that a builder-made node applies to the property `key`, if any; a Record with a schema for
      additional properties applies that one to keys of its pattern as well. */
  function Applied(c: Context, t: Node, key: string): Option<Node> {
    var own := Find(t.properties, key);
    if own.Some? then own
    else if t.patternProperties != [] && c.test(t.patternProperties[0].name, key) then Some(t.patternProperties[0].node)
    else if t.additional.Matching? then Some(t.additional.schema)
    else None
  }

  lemma AppliedConverts(c: Context, t: Node, f: Field)
    requires Sane(c) && Plain(t)
    ensures ConvertField(c, t, f)
         == if Applied(c, t, f.key).Some? then Convert(c, Applied(c, t, f.key).value, f.value) else f.value
    ensures Applied(c, t, f.key).Some? ==> Plain(Applied(c, t, f.key).value)
  {
    var ps := t.patternProperties;
    if ps != [] {
      assert ps[0] in ps && ps[1..] == [];
      var v := if c.test(ps[0].name, f.key) then Convert(c, ps[0].node, f.value) else f.value;
      assert ConvertPatterns(c, ps, f.key, f.value) == ConvertPatterns(c, ps[1..], f.key, v) == v;
    }
  }

  lemma {:induction false} KeepsField(c: Context, t: Node, f: Field)
    requires Sane(c) && Plain(t) && FieldOk(c, t, f)
    ensures ConvertField(c, t, f) == f.value
    decreases f, 0
  {
    AppliedConverts(c, t, f);
    if Applied(c, t, f.key).Some? {
      if t.patternProperties != [] {
        assert t.patternProperties[0] in t.patternProperties;
      }
      ConvertKeepsAccepted(c, Applied(c, t, f.key).value, f.value);
    }
  }

  // ----- Converting twice changes nothing more

  lemma {:induction false} ConvertIdempotent(c: Context, n: Node, v: Value)
    requires Sane(c) && Plain(n)
    ensures Convert(c, n, Convert(c, n, v)) == Convert(c, n, v)
    decreases v, 1
  {
    ConvertPlain(c, n, v);
    ConvertPlain(c, n, Convert(c, n, v));
    var t := Resolve(n, c.defs);
    if t.anyOf.Branches? {
      UnionOutcome(c, t.anyOf.list, v);
    } else {
      match v
      case Arr(elems) => TwiceElems(c, t, elems, 0);
      case Obj(fields) => TwiceFields(c, t, fields);
      case _ => TwicePrimitive(c, v, t.types);
    }
  }

  lemma TwicePrimitive(c: Context, v: Value, types: seq<Type>)
    requires |types| <= 1
    ensures CoerceTo(c, CoerceTo(c, v, types), types) == CoerceTo(c, v, types)
  {
    if types != [] {
      assert types[0] in types && types == [types[0]];
      assert CoerceFirst(c, v, types) == Coerce(c, v, types[0]);
    }
  }

  lemma {:induction false} TwiceElems(c: Context, t: Node, elems: seq<Value>, i: nat)
    requires Sane(c) && Plain(t)
    ensures ConvertElems(c, t, ConvertElems(c, t, elems, i), i) == ConvertElems(c, t, elems, i)
    decreases elems, 0
  {
    if elems != [] {
      if ItemAt(t.items, i).Some? {
        ConvertIdempotent(c, ItemAt(t.items, i).value, elems[0]);
      }
      TwiceElems(c, t, elems[1..], i + 1);
    }
  }

  lemma {:induction false} TwiceFields(c: Context, t: Node, fields: seq<Field>)
    requires Sane(c) && Plain(t)
    ensures ConvertFields(c, t, ConvertFields(c, t, fields)) == ConvertFields(c, t, fields)
    decreases fields, 0
  {
    if fields != [] {
      var f := fields[0];
      var g := Field(f.key, ConvertField(c, t, f));
      AppliedConverts(c, t, f);
      AppliedConverts(c, t, g);
      if Applied(c, t, f.key).Some? {
        ConvertIdempotent(c, Applied(c, t, f.key).value, f.value);
      }
      TwiceFields(c, t, fields[1..]);
    }
  }
}
