/** The validator's error lists, and that they are empty exactly for accepted values. */
module SchemaErrors {
  import opened Options
  import opened SchemaNodes
  import opened SchemaAccepts

  datatype Keyword =
    | KAnyOf | KOneOf | KConst | KEnum | KType | KMinLength | KMaxLength | KPattern
    | KMinimum | KMaximum | KMultipleOf | KMinItems | KMaxItems | KRequired | KAdditional

  datatype Step = Index(i: nat) | Key(k: string)

  type Path = seq<Step>

  datatype Error = Error(keyword: Keyword, path: Path)

  function When(bad: bool, keyword: Keyword, path: Path): seq<Error> {
    if bad then [Error(keyword, path)] else []
  }

  // ----- Unions

  function Passing(lists: seq<seq<Error>>): nat {
    if lists == [] then 0 else (if lists[0] == [] then 1 else 0) + Passing(lists[1..])
  }

  /** Keeps the earlier list unless the next one is shorter; branches without errors are passed over. */
  function BestOf(best: Option<seq<Error>>, lists: seq<seq<Error>>): Option<seq<Error>>
    decreases lists
  {
    if lists == [] then best
    else if lists[0] != [] && (best.None? || |lists[0]| < |best.value|) then BestOf(Some(lists[0]), lists[1..])
    else BestOf(best, lists[1..])
  }

  function UnionErrors(keyword: Keyword, lists: seq<seq<Error>>, path: Path): seq<Error> {
    if lists == [] || (if keyword == KAnyOf then Passing(lists) > 0 else Passing(lists) == 1) then []
    else
      var best := BestOf(None, lists);
      [Error(keyword, path)] + if keyword == KAnyOf && best.Some? then best.value else []
  }

  // ----- Nodes

  function Errors(c: Context, n: Node, v: Value, path: Path): seq<Error>
    requires Guarded(c)
    decreases v, 1, Rank(c.rank, n), n, 3
  {
    ResolveRank(c, n);
    TargetErrors(c, Resolve(n, c.defs), v, path)
  }

  function TargetErrors(c: Context, t: Node, v: Value, path: Path): seq<Error>
    requires Guarded(c)
    decreases v, 1, Rank(c.rank, t), t, 2
  {
    RankOfLists(c.rank, t);
    if t.anyOf.Branches? then UnionErrors(KAnyOf, BranchErrors(c, t.anyOf.list, v, path), path)
    else if t.oneOf.Branches? then UnionErrors(KOneOf, BranchErrors(c, t.oneOf.list, v, path), path)
    else
      Flat(BranchErrors(c, t.allOf, v, path)) + PartErrors(c, t, v, path)
  }

  function PartErrors(c: Context, t: Node, v: Value, path: Path): seq<Error>
    requires Guarded(c)
    decreases v, 0, 0, t, 0
  {
    ScalarErrors(c, t, v, path)
    + match v
      case Arr(elems) => ElementErrors(c, t.items, elems, 0, path)
      case Obj(fields) => ObjectErrors(c, t, fields, path)
      case _ => []
  }

  function ObjectErrors(c: Context, t: Node, fields: seq<Field>, path: Path): seq<Error>
    requires Guarded(c)
    decreases fields, |t.properties| + 2
  {
    When(exists name :: name in t.required && !HasKey(fields, name), KRequired, path)
    + PropertyErrors(c, t.properties, fields, path)
    + PatternErrors(c, t, fields, path)
    + ExtraErrors(c, t, fields, path)
  }

  function BranchErrors(c: Context, ns: seq<Node>, v: Value, path: Path): (r: seq<seq<Error>>)
    requires Guarded(c)
    ensures |r| == |ns|
    decreases v, 1, RankAll(c.rank, ns), ns, 4
  {
    if ns == [] then [] else [Errors(c, ns[0], v, path)] + BranchErrors(c, ns[1..], v, path)
  }

  function Flat(lists: seq<seq<Error>>): seq<Error> {
    if lists == [] then [] else lists[0] + Flat(lists[1..])
  }

  function ScalarErrors(c: Context, t: Node, v: Value, path: Path): seq<Error> {
    When(t.constant.Some? && !DeepEqual(v, t.constant.value), KConst, path)
    + When(t.enumeration.Some? && !exists e :: e in t.enumeration.value && DeepEqual(e, v), KEnum, path)
    + When(!MatchesAny(v, t.types), KType, path)
    + match v
      case Str(s) =>
        When(t.minLength.Some? && |s| < t.minLength.value, KMinLength, path)
        + When(t.maxLength.Some? && |s| > t.maxLength.value, KMaxLength, path)
        + When(t.pattern.Some? && !c.test(t.pattern.value, s), KPattern, path)
      case Num(n) =>
        When(t.minimum.Some? && n < t.minimum.value, KMinimum, path)
        + When(t.maximum.Some? && n > t.maximum.value, KMaximum, path)
        + When(t.multipleOf.Some? && t.multipleOf.value != 0.0 && !c.isMultiple(n, t.multipleOf.value), KMultipleOf, path)
      case Arr(elems) =>
        When(t.minItems.Some? && |elems| < t.minItems.value, KMinItems, path)
        + When(t.maxItems.Some? && |elems| > t.maxItems.value, KMaxItems, path)
      case _ => []
  }

  function ElementErrors(c: Context, items: Items, elems: seq<Value>, i: nat, path: Path): seq<Error>
    requires Guarded(c)
    decreases elems
  {
    if elems == [] then []
    else
      (if ItemAt(items, i).Some? then Errors(c, ItemAt(items, i).value, elems[0], path + [Index(i)]) else [])
      + ElementErrors(c, items, elems[1..], i + 1, path)
  }

  function PropertyErrors(c: Context, ps: seq<Entry>, fields: seq<Field>, path: Path): seq<Error>
    requires Guarded(c)
    decreases fields, |ps|
  {
    if ps == [] then []
    else
      (if HasKey(fields, ps[0].name) then Errors(c, ps[0].node, Get(fields, ps[0].name).value, path + [Key(ps[0].name)])
       else [])
      + PropertyErrors(c, ps[1..], fields, path)
  }

  /** Keys that are no property of the schema are checked by every pattern that matches them. */
  function PatternErrors(c: Context, t: Node, fields: seq<Field>, path: Path): seq<Error>
    requires Guarded(c)
    decreases fields, 0
  {
    if fields == [] then []
    else
      (if HasName(t.properties, fields[0].key) then [] else MatchErrors(c, t.patternProperties, fields[0], path))
      + PatternErrors(c, t, fields[1..], path)
  }

  function MatchErrors(c: Context, ps: seq<Entry>, f: Field, path: Path): seq<Error>
    requires Guarded(c)
    decreases f, |ps|
  {
    if ps == [] then []
    else
      (if c.test(ps[0].name, f.key) then Errors(c, ps[0].node, f.value, path + [Key(f.key)]) else [])
      + MatchErrors(c, ps[1..], f, path)
  }

  predicate IsExtra(c: Context, t: Node, key: string) {
    !HasName(t.properties, key) && !exists p :: p in t.patternProperties && c.test(p.name, key)
  }

  function ExtraErrors(c: Context, t: Node, fields: seq<Field>, path: Path): seq<Error>
    requires Guarded(c)
    decreases fields, 1
  {
    match t.additional
    case Unspecified => []
    case Allow(allowed) => When(!allowed && exists f :: f in fields && IsExtra(c, t, f.key), KAdditional, path)
    case Matching(schema) => AdditionalErrors(c, t, schema, fields, path)
  }

  function AdditionalErrors(c: Context, t: Node, schema: Node, fields: seq<Field>, path: Path): seq<Error>
    requires Guarded(c)
    decreases fields, 0
  {
    if fields == [] then []
    else
      (if IsExtra(c, t, fields[0].key) then Errors(c, schema, fields[0].value, path + [Key(fields[0].key)]) else [])
      + AdditionalErrors(c, t, schema, fields[1..], path)
  }

  // ----- Empty exactly for accepted values

  /** Objects do not have a key twice. */
  predicate Proper(v: Value) {
    match v
    case Arr(elems) => forall e :: e in elems ==> Proper(e)
    case Obj(fields) =>
      && (forall i, j :: 0 <= i < j < |fields| ==> fields[i].key != fields[j].key)
      && (forall f :: f in fields ==> Proper(f.value))
    case _ => true
  }

  lemma GetIsField(fields: seq<Field>, f: Field)
    requires f in fields && KeysDiffer(fields)
    ensures Get(fields, f.key) == Some(f.value)
  {
    var g :| g in fields && g.key == f.key && Some(g.value) == Get(fields, f.key);
    var i :| 0 <= i < |fields| && fields[i] == f;
    var j :| 0 <= j < |fields| && fields[j] == g;
  }

  lemma {:induction false} PassingNone(lists: seq<seq<Error>>)
    ensures Passing(lists) == 0 <==> forall i :: 0 <= i < |lists| ==> lists[i] != []
  {
    if lists != [] {
      PassingNone(lists[1..]);
      assert forall i :: 1 <= i < |lists| ==> lists[i] == lists[1..][i - 1];
    }
  }

  lemma {:induction false} FlatIff(lists: seq<seq<Error>>)
    ensures Flat(lists) == [] <==> forall i :: 0 <= i < |lists| ==> lists[i] == []
  {
    if lists != [] {
      FlatIff(lists[1..]);
      assert forall i :: 1 <= i < |lists| ==> lists[i] == lists[1..][i - 1];
    }
  }

  lemma ScalarErrorsIff(c: Context, t: Node, v: Value, path: Path)
    ensures ScalarOk(c, t, v)
       <==> ScalarErrors(c, t, v, path) == [] && (v.Obj? ==> forall name :: name in t.required ==> HasKey(v.fields, name))
  {
  }

  /** The validator's error list is empty exactly when the schema accepts the value. */
  lemma {:induction false} ErrorsIff(c: Context, n: Node, v: Value, path: Path)
    requires Guarded(c) && Proper(v)
    ensures Errors(c, n, v, path) == [] <==> Accepts(c, n, v)
    decreases v, 1, Rank(c.rank, n), n, 3
  {
    ResolveRank(c, n);
    TargetErrorsIff(c, Resolve(n, c.defs), v, path);
  }

  lemma {:induction false} TargetErrorsIff(c: Context, t: Node, v: Value, path: Path)
    requires Guarded(c) && Proper(v)
    ensures TargetErrors(c, t, v, path) == [] <==> AcceptsTarget(c, t, v)
    decreases v, 1, Rank(c.rank, t), t, 2
  {
    if t.anyOf.Branches? {
      AnyErrorsIff(c, t, v, path);
    } else if t.oneOf.Branches? {
      OneErrorsIff(c, t, v, path);
    } else {
      AllErrorsIff(c, t, v, path);
      PartErrorsIff(c, t, v, path);
      assert TargetErrors(c, t, v, path) == Flat(BranchErrors(c, t.allOf, v, path)) + PartErrors(c, t, v, path);
    }
  }

  lemma {:induction false} AnyErrorsIff(c: Context, t: Node, v: Value, path: Path)
    requires Guarded(c) && Proper(v) && t.anyOf.Branches?
    ensures TargetErrors(c, t, v, path) == [] <==> AcceptsTarget(c, t, v)
    decreases v, 1, Rank(c.rank, t), t, 1
  {
    RankOfLists(c.rank, t);
    var lists := BranchErrors(c, t.anyOf.list, v, path);
    BranchErrorsIff(c, t.anyOf.list, v, path);
    AnyBranch(c, t.anyOf.list, v, lists, path);
    assert TargetErrors(c, t, v, path) == UnionErrors(KAnyOf, lists, path);
  }

  lemma {:induction false} OneErrorsIff(c: Context, t: Node, v: Value, path: Path)
    requires Guarded(c) && Proper(v) && t.anyOf.Absent? && t.oneOf.Branches?
    ensures TargetErrors(c, t, v, path) == [] <==> AcceptsTarget(c, t, v)
    decreases v, 1, Rank(c.rank, t), t, 1
  {
    RankOfLists(c.rank, t);
    var lists := BranchErrors(c, t.oneOf.list, v, path);
    BranchErrorsIff(c, t.oneOf.list, v, path);
    PassingAccepting(c, t.oneOf.list, v, lists);
    assert TargetErrors(c, t, v, path) == UnionErrors(KOneOf, lists, path);
  }

  lemma {:induction false} AllErrorsIff(c: Context, t: Node, v: Value, path: Path)
    requires Guarded(c) && Proper(v)
    ensures Flat(BranchErrors(c, t.allOf, v, path)) == [] <==> forall b :: b in t.allOf ==> Accepts(c, b, v)
    decreases v, 1, Rank(c.rank, t), t, 1
  {
    RankOfLists(c.rank, t);
    BranchErrorsIff(c, t.allOf, v, path);
    AllBranches(c, t.allOf, v, BranchErrors(c, t.allOf, v, path));
  }

  lemma {:induction false} PartErrorsIff(c: Context, t: Node, v: Value, path: Path)
    requires Guarded(c) && Proper(v)
    ensures PartErrors(c, t, v, path) == [] <==> PartsOk(c, t, v)
    decreases v, 0, 0, t, 0
  {
    ScalarErrorsIff(c, t, v, path);
    match v
    case Arr(elems) => ArrayErrorsIff(c, t, elems, path);
    case Obj(fields) => ObjectErrorsIff(c, t, fields, path);
    case _ =>
  }

  lemma {:induction false} ArrayErrorsIff(c: Context, t: Node, elems: seq<Value>, path: Path)
    requires Guarded(c) && forall e :: e in elems ==> Proper(e)
    ensures ElementErrors(c, t.items, elems, 0, path) == [] <==> ElementsOk(c, t, elems)
    decreases elems, 0
  {
    ElementErrorsIff(c, t.items, elems, 0, path);
    ElementsByIndex(c, t, elems);
  }

  lemma ElementsByIndex(c: Context, t: Node, elems: seq<Value>)
    requires Guarded(c)
    ensures ElementsOk(c, t, elems)
       <==> forall k :: 0 <= k < |elems| && ItemAt(t.items, 0 + k).Some? ==> Accepts(c, ItemAt(t.items, 0 + k).value, elems[k])
  {
    forall k | 0 <= k < |elems| ensures ItemAt(t.items, 0 + k) == ItemAt(t.items, k) {
    }
  }

  ghost predicate Reports(c: Context, ns: seq<Node>, v: Value, lists: seq<seq<Error>>)
    requires Guarded(c)
  {
    |lists| == |ns| && forall i :: 0 <= i < |ns| ==> (lists[i] == [] <==> Accepts(c, ns[i], v))
  }

  lemma AnyBranch(c: Context, ns: seq<Node>, v: Value, lists: seq<seq<Error>>, path: Path)
    requires Guarded(c) && Reports(c, ns, v, lists)
    ensures UnionErrors(KAnyOf, lists, path) == [] <==> ns == [] || exists b :: b in ns && Accepts(c, b, v)
  {
    PassingNone(lists);
    if exists b :: b in ns && Accepts(c, b, v) {
      var b :| b in ns && Accepts(c, b, v);
      var i :| 0 <= i < |ns| && ns[i] == b;
      assert lists[i] == [];
    } else {
      forall i | 0 <= i < |ns| ensures lists[i] != [] {
        assert ns[i] in ns;
      }
    }
  }

  lemma {:induction false} PassingAccepting(c: Context, ns: seq<Node>, v: Value, lists: seq<seq<Error>>)
    requires Guarded(c) && Reports(c, ns, v, lists)
    ensures Passing(lists) == AcceptingCount(c, ns, v)
    decreases |ns|
  {
    if ns != [] {
      assert lists[0] == [] <==> Accepts(c, ns[0], v);
      assert Reports(c, ns[1..], v, lists[1..]);
      PassingAccepting(c, ns[1..], v, lists[1..]);
    }
  }

  lemma AllBranches(c: Context, ns: seq<Node>, v: Value, lists: seq<seq<Error>>)
    requires Guarded(c) && Reports(c, ns, v, lists)
    ensures Flat(lists) == [] <==> forall b :: b in ns ==> Accepts(c, b, v)
  {
    FlatIff(lists);
    if Flat(lists) == [] {
      forall b | b in ns ensures Accepts(c, b, v) {
        var i :| 0 <= i < |ns| && ns[i] == b;
        assert lists[i] == [];
      }
    } else {
      var i :| 0 <= i < |lists| && lists[i] != [];
      assert ns[i] in ns;
    }
  }

  lemma {:induction false} BranchErrorsIff(c: Context, ns: seq<Node>, v: Value, path: Path)
    requires Guarded(c) && Proper(v)
    ensures Reports(c, ns, v, BranchErrors(c, ns, v, path))
    decreases v, 1, RankAll(c.rank, ns), ns, 4
  {
    if ns != [] {
      ErrorsIff(c, ns[0], v, path);
      BranchErrorsIff(c, ns[1..], v, path);
      assert forall i :: 1 <= i < |ns| ==> ns[i] == ns[1..][i - 1];
    }
  }

  lemma {:induction false} ElementErrorsIff(c: Context, items: Items, elems: seq<Value>, i: nat, path: Path)
    requires Guarded(c) && forall e :: e in elems ==> Proper(e)
    ensures ElementErrors(c, items, elems, i, path) == []
       <==> forall k :: 0 <= k < |elems| && ItemAt(items, i + k).Some? ==> Accepts(c, ItemAt(items, i + k).value, elems[k])
    decreases elems, -1
  {
    if elems != [] {
      var rest := elems[1..];
      if ItemAt(items, i).Some? {
        ErrorsIff(c, ItemAt(items, i).value, elems[0], path + [Index(i)]);
      }
      ElementErrorsIff(c, items, rest, i + 1, path);
      assert ItemAt(items, i + 0) == ItemAt(items, i);
      if ElementErrors(c, items, rest, i + 1, path) == [] {
        forall k | 1 <= k < |elems| && ItemAt(items, i + k).Some?
          ensures Accepts(c, ItemAt(items, i + k).value, elems[k])
        {
          assert i + 1 + (k - 1) == i + k && rest[k - 1] == elems[k];
        }
      } else {
        var k :| 0 <= k < |rest| && ItemAt(items, i + 1 + k).Some? && !Accepts(c, ItemAt(items, i + 1 + k).value, rest[k]);
        assert i + 1 + k == i + (k + 1) && elems[k + 1] == rest[k];
      }
    }
  }

  ghost predicate KeysDiffer(fields: seq<Field>) {
    forall i, j :: 0 <= i < j < |fields| ==> fields[i].key != fields[j].key
  }

  lemma {:induction false} PropertyErrorsIff(c: Context, ps: seq<Entry>, fields: seq<Field>, path: Path)
    requires Guarded(c) && KeysDiffer(fields) && forall f :: f in fields ==> Proper(f.value)
    ensures PropertyErrors(c, ps, fields, path) == []
       <==> forall e, f :: e in ps && f in fields && e.name == f.key ==> Accepts(c, e.node, f.value)
    decreases fields, |ps|
  {
    if ps != [] {
      var p := ps[0];
      PropertyErrorsIff(c, ps[1..], fields, path);
      if HasKey(fields, p.name) {
        var f :| f in fields && f.key == p.name;
        GetIsField(fields, f);
        ErrorsIff(c, p.node, f.value, path + [Key(p.name)]);
        forall g | g in fields && g.key == p.name ensures g.value == f.value {
          GetIsField(fields, g);
        }
      }
      assert ps == [p] + ps[1..];
    }
  }

  lemma {:induction false} MatchErrorsIff(c: Context, ps: seq<Entry>, f: Field, path: Path)
    requires Guarded(c) && Proper(f.value)
    ensures MatchErrors(c, ps, f, path) == []
       <==> forall p :: p in ps && c.test(p.name, f.key) ==> Accepts(c, p.node, f.value)
    decreases f, |ps|
  {
    if ps != [] {
      ErrorsIff(c, ps[0].node, f.value, path + [Key(f.key)]);
      MatchErrorsIff(c, ps[1..], f, path);
      assert ps == [ps[0]] + ps[1..];
    }
  }

  lemma {:induction false} PatternErrorsIff(c: Context, t: Node, fields: seq<Field>, path: Path)
    requires Guarded(c) && forall f :: f in fields ==> Proper(f.value)
    ensures PatternErrors(c, t, fields, path) == []
       <==> forall f, p :: f in fields && !HasName(t.properties, f.key) && p in t.patternProperties && c.test(p.name, f.key)
              ==> Accepts(c, p.node, f.value)
    decreases fields, 0
  {
    if fields != [] {
      MatchErrorsIff(c, t.patternProperties, fields[0], path);
      PatternErrorsIff(c, t, fields[1..], path);
      assert fields == [fields[0]] + fields[1..];
    }
  }

  lemma {:induction false} AdditionalErrorsIff(c: Context, t: Node, schema: Node, fields: seq<Field>, path: Path)
    requires Guarded(c) && forall f :: f in fields ==> Proper(f.value)
    ensures AdditionalErrors(c, t, schema, fields, path) == []
       <==> forall f :: f in fields && IsExtra(c, t, f.key) ==> Accepts(c, schema, f.value)
    decreases fields, 0
  {
    if fields != [] {
      ErrorsIff(c, schema, fields[0].value, path + [Key(fields[0].key)]);
      AdditionalErrorsIff(c, t, schema, fields[1..], path);
      assert fields == [fields[0]] + fields[1..];
    }
  }

  lemma {:induction false} ObjectErrorsIff(c: Context, t: Node, fields: seq<Field>, path: Path)
    requires Guarded(c) && KeysDiffer(fields) && forall f :: f in fields ==> Proper(f.value)
    ensures ObjectErrors(c, t, fields, path) == []
       <==> FieldsOk(c, t, fields) && forall name :: name in t.required ==> HasKey(fields, name)
    decreases fields, |t.properties| + 2
  {
    PropertyErrorsIff(c, t.properties, fields, path);
    PatternErrorsIff(c, t, fields, path);
    if t.additional.Matching? {
      AdditionalErrorsIff(c, t, t.additional.schema, fields, path);
    }
    FieldsOkParts(c, t, fields);
  }

  /** FieldsOk, keyword by keyword instead of field by field. */
  lemma FieldsOkParts(c: Context, t: Node, fields: seq<Field>)
    requires Guarded(c)
    ensures FieldsOk(c, t, fields)
       <==>
       && (forall e, f :: e in t.properties && f in fields && e.name == f.key ==> Accepts(c, e.node, f.value))
       && (forall f, p :: f in fields && !HasName(t.properties, f.key) && p in t.patternProperties && c.test(p.name, f.key)
             ==> Accepts(c, p.node, f.value))
       && (t.additional.Matching? ==>
             forall f :: f in fields && IsExtra(c, t, f.key) ==> Accepts(c, t.additional.schema, f.value))
       && (t.additional.Allow? && !t.additional.allowed ==> forall f :: f in fields ==> !IsExtra(c, t, f.key))
  {
    forall f | f in fields
      ensures FieldOk(c, t, f)
         <==>
         && (forall e :: e in t.properties && e.name == f.key ==> Accepts(c, e.node, f.value))
         && (!HasName(t.properties, f.key) ==>
               forall p :: p in t.patternProperties && c.test(p.name, f.key) ==> Accepts(c, p.node, f.value))
         && (IsExtra(c, t, f.key) && t.additional.Matching? ==> Accepts(c, t.additional.schema, f.value))
         && (IsExtra(c, t, f.key) && t.additional.Allow? ==> t.additional.allowed)
    {
    }
  }

  /** Of the failing branches of an `anyOf`, the first with the fewest errors is reported. */
  lemma {:induction false} BestIsShortest(best: Option<seq<Error>>, lists: seq<seq<Error>>)
    requires forall i :: 0 <= i < |lists| ==> lists[i] != []
    requires best.Some? || lists != []
    ensures BestOf(best, lists).Some?
    ensures best == BestOf(best, lists) || exists i :: 0 <= i < |lists| && BestOf(best, lists) == Some(lists[i])
    ensures forall i :: 0 <= i < |lists| ==> |BestOf(best, lists).value| <= |lists[i]|
    ensures best.Some? ==> |BestOf(best, lists).value| <= |best.value|
    decreases |lists|
  {
    if lists != [] {
      var rest := lists[1..];
      assert forall i :: 1 <= i < |lists| ==> lists[i] == rest[i - 1];
      assert forall i :: 0 <= i < |rest| ==> rest[i] == lists[i + 1];
      if best.None? || |lists[0]| < |best.value| {
        BestIsShortest(Some(lists[0]), rest);
      } else {
        BestIsShortest(best, rest);
      }
    }
  }
}
