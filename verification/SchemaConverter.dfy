/** The converter as it runs: loops that overwrite the properties and elements of a value. */
module SchemaConverter {
  import opened Options
  import opened SchemaNodes
  import opened SchemaAccepts
  import opened SchemaConversion
  import opened SchemaErrors
  import SchemaValidator

  // ----- Conversion keeps the keys of an object apart

  lemma {:induction false} ConvertProper(c: Context, n: Node, v: Value)
    requires Guarded(c) && Proper(v)
    ensures Proper(Convert(c, n, v))
    decreases Depth(v), 0, Rank(c.rank, n), n, 2
  {
    hide Proper;
    ResolveRank(c, n);
    TargetProper(c, Resolve(n, c.defs), v);
  }

  lemma {:induction false} TargetProper(c: Context, t: Node, v: Value)
    requires Guarded(c) && Proper(v)
    ensures Proper(ConvertTarget(c, t, v))
    decreases Depth(v), 0, Rank(c.rank, t), t, 1
  {
    RankOfLists(c.rank, t);
    AllProper(c, t.allOf, v);
    var v1 := ConvertAll(c, t.allOf, v);
    if t.anyOf.Branches? {
      UnionProper(c, t.anyOf.list, v1);
    } else if t.oneOf.Branches? {
      UnionProper(c, t.oneOf.list, v1);
    } else {
      hide ConvertFields, ConvertElems, ConvertAll;
      match CoerceTo(c, v1, t.types)
      case Obj(fields) => FieldsProper(c, t, fields);
      case Arr(elems) => ElemsProper(c, t, elems, 0);
      case _ =>
    }
  }

  lemma {:induction false} AllProper(c: Context, ns: seq<Node>, v: Value)
    requires Guarded(c) && Proper(v)
    ensures Proper(ConvertAll(c, ns, v))
    decreases Depth(v), 0, RankAll(c.rank, ns), ns, 3
  {
    hide Proper;
    if ns != [] {
      ConvertProper(c, ns[0], v);
      AllProper(c, ns[1..], Convert(c, ns[0], v));
    }
  }

  lemma {:induction false} UnionProper(c: Context, ns: seq<Node>, v: Value)
    requires Guarded(c) && Proper(v)
    ensures Proper(ConvertUnion(c, ns, v))
    decreases Depth(v), 0, RankAll(c.rank, ns), ns, 4
  {
    hide Proper;
    FirstFitProper(c, ns, v);
  }

  lemma {:induction false} FirstFitProper(c: Context, ns: seq<Node>, v: Value)
    requires Guarded(c) && Proper(v)
    ensures Proper(FirstFit(c, ns, v))
    decreases Depth(v), 0, RankAll(c.rank, ns), ns, 3
  {
    hide Proper;
    if ns != [] {
      ConvertProper(c, ns[0], v);
      FirstFitProper(c, ns[1..], v);
    }
  }

  lemma {:induction false} ElemsProper(c: Context, t: Node, elems: seq<Value>, i: nat)
    requires Guarded(c) && forall e :: e in elems ==> Proper(e)
    ensures forall e :: e in ConvertElems(c, t, elems, i) ==> Proper(e)
    decreases DepthOfElems(elems), 3, |elems|
  {
    hide Proper;
    if elems != [] {
      if ItemAt(t.items, i).Some? {
        ConvertProper(c, ItemAt(t.items, i).value, elems[0]);
      }
      ElemsProper(c, t, elems[1..], i + 1);
    }
  }

  lemma {:induction false} FieldsProper(c: Context, t: Node, fields: seq<Field>)
    requires Guarded(c) && forall f :: f in fields ==> Proper(f.value)
    ensures forall f :: f in ConvertFields(c, t, fields) ==> Proper(f.value)
    ensures KeysDiffer(fields) ==> KeysDiffer(ConvertFields(c, t, fields))
    decreases DepthOfFields(fields), 3, |fields|
  {
    hide Proper;
    if fields != [] {
      FieldProper(c, t, fields[0]);
      FieldsProper(c, t, fields[1..]);
    }
    forall j | 0 <= j < |fields| ensures ConvertFields(c, t, fields)[j].key == fields[j].key {
      ConvertFieldsAt(c, t, fields, j);
    }
  }

  lemma {:induction false} FieldProper(c: Context, t: Node, f: Field)
    requires Guarded(c) && Proper(f.value)
    ensures Proper(ConvertField(c, t, f))
    decreases Depth(f.value), 2, 1
  {
    hide Proper;
    var own := Find(t.properties, f.key);
    if own.Some? {
      ConvertProper(c, own.value, f.value);
    }
    var v1 := if own.Some? then Convert(c, own.value, f.value) else f.value;
    PatternsProper(c, t.patternProperties, f.key, v1);
    if own.None? && t.additional.Matching? {
      ConvertProper(c, t.additional.schema, ConvertPatterns(c, t.patternProperties, f.key, v1));
    }
  }

  lemma {:induction false} PatternsProper(c: Context, ps: seq<Entry>, key: string, v: Value)
    requires Guarded(c) && Proper(v)
    ensures Proper(ConvertPatterns(c, ps, key, v))
    decreases Depth(v), 1, |ps|
  {
    hide Proper;
    if ps != [] {
      ConvertProper(c, ps[0].node, v);
      PatternsProper(c, ps[1..], key, if c.test(ps[0].name, key) then Convert(c, ps[0].node, v) else v);
    }
  }

  // ----- The loops

  /** Value.Convert on a schema whose definitions have been collected. */
  method ConvertNode(c: Context, node: Node, value: Value) returns (out: Value)
    requires Guarded(c) && Proper(value)
    ensures out == Convert(c, node, value) && Proper(out)
    decreases Depth(value), 3, Rank(c.rank, node), node, 3
  {
    ConvertProper(c, node, value);
    hide ConvertFields, ConvertElems, CoerceTo, ConvertAll, ConvertUnion;
    ResolveRank(c, node);
    var target := ResolveRef(node, c.defs);
    RankOfLists(c.rank, target);
    out := ConvertMembers(c, target.allOf, value);
    if target.anyOf.Branches? {
      out := ConvertUnionBranches(c, target.anyOf.list, out);
      return;
    }
    if target.oneOf.Branches? {
      out := ConvertUnionBranches(c, target.oneOf.list, out);
      return;
    }
    out := CoerceDeclared(c, out, target.types);
    match out {
      case Obj(fields) =>
        var converted := ConvertObject(c, target, fields);
        out := Obj(converted);
      case Arr(elems) =>
        var converted := ConvertArray(c, target, elems);
        out := Arr(converted);
      case _ =>
    }
  }

  /** allOf: every member converts what the one before made of the value. */
  method ConvertMembers(c: Context, members: seq<Node>, value: Value) returns (out: Value)
    requires Guarded(c) && Proper(value)
    ensures out == ConvertAll(c, members, value) && Proper(out)
    decreases Depth(value), 3, RankAll(c.rank, members), members, 4
  {
    out := value;
    for i := 0 to |members|
      invariant ConvertAll(c, members[i..], out) == ConvertAll(c, members, value) && Depth(out) <= Depth(value)
      invariant Proper(out)
    {
      RankIn(c.rank, members, members[i]);
      assert members[i..][1..] == members[i + 1..];
      out := ConvertNode(c, members[i], out);
    }
  }

  method ConvertUnionBranches(c: Context, branches: seq<Node>, value: Value) returns (out: Value)
    requires Guarded(c) && Proper(value)
    ensures out == ConvertUnion(c, branches, value) && Proper(out)
    decreases Depth(value), 3, RankAll(c.rank, branches), branches, 4
  {
    for i := 0 to |branches|
      invariant forall b :: b in branches[..i] ==> !Accepts(c, b, value)
    {
      var accepted := SchemaValidator.Check(c, branches[i], value);
      if accepted {
        return value;
      }
    }
    assert branches[..|branches|] == branches;
    for i := 0 to |branches|
      invariant FirstFit(c, branches[i..], value) == FirstFit(c, branches, value)
    {
      RankIn(c.rank, branches, branches[i]);
      assert branches[i..][1..] == branches[i + 1..];
      var coerced := ConvertNode(c, branches[i], value);
      var accepted := SchemaValidator.Check(c, branches[i], coerced);
      if accepted {
        return coerced;
      }
    }
    return value;
  }

  method CoerceDeclared(c: Context, value: Value, types: seq<Type>) returns (out: Value)
    requires Proper(value)
    ensures out == CoerceTo(c, value, types) && Proper(out)
  {
    if MatchesAny(value, types) {
      return value;
    }
    for i := 0 to |types|
      invariant CoerceFirst(c, value, types[i..]) == CoerceFirst(c, value, types)
    {
      assert types[i..][1..] == types[i + 1..];
      var coerced := Coerce(c, value, types[i]);
      if coerced != value {
        return coerced;
      }
    }
    return value;
  }

  // ----- Arrays

  lemma {:induction false} ConvertElemsAt(c: Context, t: Node, elems: seq<Value>, i: nat, j: nat)
    requires Guarded(c) && j < |elems|
    ensures ConvertElems(c, t, elems, i)[j] ==
            if ItemAt(t.items, i + j).Some? then Convert(c, ItemAt(t.items, i + j).value, elems[j]) else elems[j]
  {
    if j > 0 {
      ConvertElemsAt(c, t, elems[1..], i + 1, j - 1);
    }
  }

  lemma {:induction false} DepthAt(elems: seq<Value>, j: nat)
    requires j < |elems|
    ensures Depth(elems[j]) <= DepthOfElems(elems)
  {
    if j > 0 {
      DepthAt(elems[1..], j - 1);
    }
  }

  method ConvertArray(c: Context, target: Node, elems: seq<Value>) returns (out: seq<Value>)
    requires Guarded(c) && forall e :: e in elems ==> Proper(e)
    ensures out == ConvertElems(c, target, elems, 0)
    decreases DepthOfElems(elems), 4
  {
    out := elems;
    for index := 0 to |elems|
      invariant |out| == |elems| && forall k :: index <= k < |elems| ==> out[k] == elems[k]
      invariant forall k :: 0 <= k < index ==> out[k] == ConvertElems(c, target, elems, 0)[k]
    {
      hide Proper, ConvertElems;
      ConvertElemsAt(c, target, elems, 0, index);
      DepthAt(elems, index);
      var item := ItemAt(target.items, index);
      if item.Some? {
        var converted := ConvertNode(c, item.value, out[index]);
        out := out[index := converted];
      }
    }
  }

  // ----- Objects

  lemma {:induction false} FieldDepthAt(fields: seq<Field>, j: nat)
    requires j < |fields|
    ensures Depth(fields[j].value) <= DepthOfFields(fields)
  {
    if j > 0 {
      FieldDepthAt(fields[1..], j - 1);
    }
  }

  lemma {:induction false} ConvertFieldsAt(c: Context, t: Node, fields: seq<Field>, j: nat)
    requires Guarded(c) && j < |fields|
    ensures ConvertFields(c, t, fields)[j] == Field(fields[j].key, ConvertField(c, t, fields[j]))
  {
    if j > 0 {
      ConvertFieldsAt(c, t, fields[1..], j - 1);
    }
  }

  /** A property after its own schema. */
  function Own(c: Context, entries: seq<Entry>, f: Field): (r: Value)
    requires Guarded(c)
    ensures Depth(r) <= Depth(f.value)
  {
    var own := Find(entries, f.key);
    if own.Some? then Convert(c, own.value, f.value) else f.value
  }

  lemma {:induction false} FindMore(entries: seq<Entry>, k: nat, name: string)
    requires k < |entries|
    ensures Find(entries[..k + 1], name) ==
            if Find(entries[..k], name).Some? then Find(entries[..k], name)
            else if entries[k].name == name then Some(entries[k].node) else None
  {
    if k > 0 && entries[0].name != name {
      FindMore(entries[1..], k - 1, name);
      assert entries[..k + 1][1..] == entries[1..][..k] && entries[..k][1..] == entries[1..][..k - 1];
    }
  }

  lemma {:induction false} PatternsMore(c: Context, ps: seq<Entry>, k: nat, key: string, v: Value)
    requires Guarded(c) && k < |ps|
    ensures var w := ConvertPatterns(c, ps[..k], key, v);
            ConvertPatterns(c, ps[..k + 1], key, v) == if c.test(ps[k].name, key) then Convert(c, ps[k].node, w) else w
    decreases k
  {
    if k > 0 {
      var u := if c.test(ps[0].name, key) then Convert(c, ps[0].node, v) else v;
      PatternsMore(c, ps[1..], k - 1, key, u);
      assert ps[..k + 1][1..] == ps[1..][..k] && ps[..k][1..] == ps[1..][..k - 1];
    } else {
      assert ps[..1][1..] == [] && ps[..0] == [];
    }
  }

  /** Overwrites the properties whose key the schema `node` is for. */
  method ConvertWhere(c: Context, node: Node, keys: string -> bool, fields: seq<Field>, ghost depth: nat) returns (out: seq<Field>)
    requires Guarded(c) && forall f :: f in fields ==> Depth(f.value) <= depth && Proper(f.value)
    ensures |out| == |fields| && forall f :: f in out ==> Proper(f.value)
    ensures forall i :: 0 <= i < |fields| ==>
              out[i] == Field(fields[i].key, if keys(fields[i].key) then Convert(c, node, fields[i].value) else fields[i].value)
    decreases depth, 4
  {
    out := fields;
    for index := 0 to |fields|
      invariant |out| == |fields| && out[index..] == fields[index..] && forall f :: f in out ==> Proper(f.value)
      invariant forall i :: 0 <= i < index ==>
                  out[i] == Field(fields[i].key, if keys(fields[i].key) then Convert(c, node, fields[i].value) else fields[i].value)
    {
      assert out[index] == out[index..][0] == fields[index];
      if keys(out[index].key) {
        var converted := ConvertNode(c, node, out[index].value);
        out := out[index := Field(out[index].key, converted)];
      }
    }
  }

  /** The first loop: every name of `properties`, its first entry only. */
  method ConvertOwn(c: Context, target: Node, fields: seq<Field>) returns (out: seq<Field>)
    requires Guarded(c) && forall f :: f in fields ==> Proper(f.value)
    ensures |out| == |fields| && forall f :: f in out ==> Proper(f.value)
    ensures forall i :: 0 <= i < |fields| ==> out[i] == Field(fields[i].key, Own(c, target.properties, fields[i]))
    decreases DepthOfFields(fields), 5
  {
    var ps := target.properties;
    out := fields;
    for k := 0 to |ps|
      invariant |out| == |fields| && forall f :: f in out ==> Proper(f.value)
      invariant forall i :: 0 <= i < |fields| ==> out[i] == Field(fields[i].key, Own(c, ps[..k], fields[i]))
    {
      forall i | 0 <= i < |fields| ensures Depth(out[i].value) <= DepthOfFields(fields) {
        FieldDepthAt(fields, i);
      }
      forall i | 0 <= i < |fields|
        ensures Own(c, ps[..k + 1], fields[i]) ==
                if Find(ps[..k], ps[k].name).None? && fields[i].key == ps[k].name then Convert(c, ps[k].node, out[i].value)
                else out[i].value
      {
        FindMore(ps, k, fields[i].key);
      }
      if Find(ps[..k], ps[k].name).None? {
        out := ConvertWhere(c, ps[k].node, key => key == ps[k].name, out, DepthOfFields(fields));
      }
    }
    assert ps[..|ps|] == ps;
  }

  /** The second loop: every pattern, over every property whose key it matches. */
  method ConvertMatching(c: Context, target: Node, fields: seq<Field>, ghost depth: nat) returns (out: seq<Field>)
    requires Guarded(c) && forall f :: f in fields ==> Depth(f.value) <= depth && Proper(f.value)
    ensures |out| == |fields| && forall f :: f in out ==> Proper(f.value)
    ensures forall i :: 0 <= i < |fields| ==>
              out[i] == Field(fields[i].key, ConvertPatterns(c, target.patternProperties, fields[i].key, fields[i].value))
    decreases depth, 5
  {
    var ps := target.patternProperties;
    out := fields;
    for k := 0 to |ps|
      invariant |out| == |fields| && forall f :: f in out ==> Proper(f.value)
      invariant forall i :: 0 <= i < |fields| ==>
                  out[i] == Field(fields[i].key, ConvertPatterns(c, ps[..k], fields[i].key, fields[i].value))
    {
      forall i | 0 <= i < |fields| ensures Depth(out[i].value) <= depth {
        assert fields[i] in fields;
      }
      forall i | 0 <= i < |fields|
        ensures ConvertPatterns(c, ps[..k + 1], fields[i].key, fields[i].value) ==
                if c.test(ps[k].name, fields[i].key) then Convert(c, ps[k].node, out[i].value) else out[i].value
      {
        PatternsMore(c, ps, k, fields[i].key, fields[i].value);
      }
      out := ConvertWhere(c, ps[k].node, key => c.test(ps[k].name, key), out, depth);
    }
    assert ps[..|ps|] == ps;
  }

  /** The three loops together convert every property as by itself. */
  method ConvertObject(c: Context, target: Node, fields: seq<Field>) returns (out: seq<Field>)
    requires Guarded(c) && forall f :: f in fields ==> Proper(f.value)
    ensures out == ConvertFields(c, target, fields)
    decreases DepthOfFields(fields), 6
  {
    out := ConvertOwn(c, target, fields);
    ghost var own := out;
    forall i | 0 <= i < |fields| ensures Depth(own[i].value) <= DepthOfFields(fields) {
      FieldDepthAt(fields, i);
    }
    out := ConvertMatching(c, target, out, DepthOfFields(fields));
    if target.additional.Matching? {
      forall f | f in out ensures Depth(f.value) <= DepthOfFields(fields) {
        var i :| 0 <= i < |out| && out[i] == f;
        assert Depth(own[i].value) <= DepthOfFields(fields);
      }
      out := ConvertWhere(c, target.additional.schema, key => Find(target.properties, key).None?, out, DepthOfFields(fields));
    }
    forall i | 0 <= i < |fields| ensures out[i] == ConvertFields(c, target, fields)[i] {
      ConvertFieldsAt(c, target, fields, i);
    }
  }
}
