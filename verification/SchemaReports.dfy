/** Which errors are reported for a value that a builder's schema does not accept, and where. */
module SchemaReports {
  import opened Options
  import opened SchemaNodes
  import opened SchemaAccepts
  import opened SchemaErrors
  import opened SchemaConversion
  import opened SchemaBuilders
  import opened SchemaMeaning

  lemma ErrorsAreParts(c: Context, n: Node, v: Value, path: Path)
    requires Guarded(c) && n.ref.None? && n.anyOf.Absent? && n.oneOf.Absent? && n.allOf == []
    ensures Errors(c, n, v, path) == PartErrors(c, n, v, path)
  {
    assert Resolve(n, c.defs) == n;
    RankOfLists(c.rank, n);
    assert Flat(BranchErrors(c, n.allOf, v, path)) == [];
    hide PartErrors;
    assert Errors(c, n, v, path) == TargetErrors(c, n, v, path);
  }

  lemma InThree<T>(e: T, a: seq<T>, b: seq<T>, c: seq<T>)
    ensures e in a + b + c <==> e in a || e in b || e in c
  {
  }

  lemma WhenIn(e: Error, bad: bool, keyword: Keyword, path: Path)
    ensures e in When(bad, keyword, path) <==> bad && e == Error(keyword, path)
  {
  }

  /** The errors of a string by a node that has no constant and no enumeration. */
  lemma StringErrorIn(c: Context, t: Node, s: string, path: Path, e: Error)
    requires t.constant.None? && t.enumeration.None?
    ensures e in ScalarErrors(c, t, Str(s), path)
            <==> || (e == Error(KType, path) && !MatchesAny(Str(s), t.types))
                 || (e == Error(KMinLength, path) && t.minLength.Some? && |s| < t.minLength.value)
                 || (e == Error(KMaxLength, path) && t.maxLength.Some? && |s| > t.maxLength.value)
                 || (e == Error(KPattern, path) && t.pattern.Some? && !c.test(t.pattern.value, s))
  {
    hide MatchesAny, When, ScalarErrors;
    var (x, y, z) := (t.minLength.Some? && |s| < t.minLength.value, t.maxLength.Some? && |s| > t.maxLength.value,
                      t.pattern.Some? && !c.test(t.pattern.value, s));
    TypeErrorFirst(c, t, Str(s), path);
    WhenIn(e, !MatchesAny(Str(s), t.types), KType, path);
    WhenIn(e, x, KMinLength, path);
    WhenIn(e, y, KMaxLength, path);
    WhenIn(e, z, KPattern, path);
    InThree(e, When(x, KMinLength, path), When(y, KMaxLength, path), When(z, KPattern, path));
  }

  /** And of a number. */
  lemma NumberErrorIn(c: Context, t: Node, n: real, path: Path, e: Error)
    requires t.constant.None? && t.enumeration.None?
    ensures e in ScalarErrors(c, t, Num(n), path)
            <==> || (e == Error(KType, path) && !MatchesAny(Num(n), t.types))
                 || (e == Error(KMinimum, path) && t.minimum.Some? && n < t.minimum.value)
                 || (e == Error(KMaximum, path) && t.maximum.Some? && n > t.maximum.value)
                 || (e == Error(KMultipleOf, path) && t.multipleOf.Some? && t.multipleOf.value != 0.0
                     && !c.isMultiple(n, t.multipleOf.value))
  {
    hide MatchesAny, When, ScalarErrors;
    var (x, y, z) := (t.minimum.Some? && n < t.minimum.value, t.maximum.Some? && n > t.maximum.value,
                      t.multipleOf.Some? && t.multipleOf.value != 0.0 && !c.isMultiple(n, t.multipleOf.value));
    TypeErrorFirst(c, t, Num(n), path);
    WhenIn(e, !MatchesAny(Num(n), t.types), KType, path);
    WhenIn(e, x, KMinimum, path);
    WhenIn(e, y, KMaximum, path);
    WhenIn(e, z, KMultipleOf, path);
    InThree(e, When(x, KMinimum, path), When(y, KMaximum, path), When(z, KMultipleOf, path));
  }

  /** Of any value that is no array. */
  lemma ScalarErrorIn(c: Context, t: Node, v: Value, path: Path, e: Error)
    requires t.constant.None? && t.enumeration.None?
    ensures v.Str? ==>
              (e in ScalarErrors(c, t, v, path) <==>
                 || (e == Error(KType, path) && !MatchesAny(v, t.types))
                 || (e == Error(KMinLength, path) && t.minLength.Some? && |v.s| < t.minLength.value)
                 || (e == Error(KMaxLength, path) && t.maxLength.Some? && |v.s| > t.maxLength.value)
                 || (e == Error(KPattern, path) && t.pattern.Some? && !c.test(t.pattern.value, v.s)))
    ensures v.Num? ==>
              (e in ScalarErrors(c, t, v, path) <==>
                 || (e == Error(KType, path) && !MatchesAny(v, t.types))
                 || (e == Error(KMinimum, path) && t.minimum.Some? && v.n < t.minimum.value)
                 || (e == Error(KMaximum, path) && t.maximum.Some? && v.n > t.maximum.value)
                 || (e == Error(KMultipleOf, path) && t.multipleOf.Some? && t.multipleOf.value != 0.0
                     && !c.isMultiple(v.n, t.multipleOf.value)))
    ensures !v.Str? && !v.Num? && !v.Arr? ==>
              ScalarErrors(c, t, v, path) == if MatchesAny(v, t.types) then [] else [Error(KType, path)]
  {
    hide MatchesAny, ScalarErrors;
    TypeErrorFirst(c, t, v, path);
    match v
    case Str(s) => StringErrorIn(c, t, s, path, e);
    case Num(n) => NumberErrorIn(c, t, n, path, e);
    case _ =>
  }

  lemma TypeErrorFirst(c: Context, t: Node, v: Value, path: Path)
    requires t.constant.None? && t.enumeration.None?
    ensures var bad := When(!MatchesAny(v, t.types), KType, path);
            && (v.Str? ==>
                  ScalarErrors(c, t, v, path) ==
                  bad + (When(t.minLength.Some? && |v.s| < t.minLength.value, KMinLength, path)
                         + When(t.maxLength.Some? && |v.s| > t.maxLength.value, KMaxLength, path)
                         + When(t.pattern.Some? && !c.test(t.pattern.value, v.s), KPattern, path)))
            && (v.Num? ==>
                  ScalarErrors(c, t, v, path) ==
                  bad + (When(t.minimum.Some? && v.n < t.minimum.value, KMinimum, path)
                         + When(t.maximum.Some? && v.n > t.maximum.value, KMaximum, path)
                         + When(t.multipleOf.Some? && t.multipleOf.value != 0.0 && !c.isMultiple(v.n, t.multipleOf.value),
                                KMultipleOf, path)))
            && (!v.Str? && !v.Num? && !v.Arr? ==> ScalarErrors(c, t, v, path) == bad + [])
            && (bad == if MatchesAny(v, t.types) then [] else [Error(KType, path)])
  {
    hide MatchesAny;
    assert When(false, KConst, path) + When(false, KEnum, path) + When(!MatchesAny(v, t.types), KType, path)
        == When(!MatchesAny(v, t.types), KType, path);
  }

  /** A string is reported too short, too long, or not to match; anything else is reported for its type. */
  lemma StringsReported(c: Context, lo: Option<nat>, hi: Option<nat>, pattern: Option<string>, v: Value, path: Path, e: Error)
    requires Guarded(c)
    ensures e in Errors(c, Build(StringOf(lo, hi, pattern)), v, path)
            <==> e.path == path
                 && match e.keyword
                    case KType => !v.Str?
                    case KMinLength => v.Str? && lo.Some? && |v.s| < lo.value
                    case KMaxLength => v.Str? && hi.Some? && |v.s| > hi.value
                    case KPattern => v.Str? && pattern.Some? && !c.test(pattern.value, v.s)
                    case _ => false
  {
    hide Errors, Guarded, MatchesAny, PartErrors, ScalarErrors;
    ErrorsAreParts(c, Build(StringOf(lo, hi, pattern)), v, path);
    OneType(v, TString);
    NoParts(c, Build(StringOf(lo, hi, pattern)), v, path);
    ScalarErrorIn(c, Build(StringOf(lo, hi, pattern)), v, path, e);
    if v.Arr? {
      ArraySizeErrors(c, Build(StringOf(lo, hi, pattern)), v.elems, path, e);
    }
  }

  /** What a node for primitive values reports about its parts: nothing. */
  lemma NoParts(c: Context, n: Node, v: Value, path: Path)
    requires Guarded(c) && n.items.NoItems? && n.properties == [] && n.patternProperties == [] && n.required == []
    requires n.additional.Unspecified?
    ensures PartErrors(c, n, v, path) == ScalarErrors(c, n, v, path)
  {
    hide ScalarErrors;
    match v
    case Arr(elems) => NoElementErrors(c, elems, 0, path);
    case Obj(fields) =>
      NoPatternErrors(c, n, fields, path);
      assert PropertyErrors(c, n.properties, fields, path) == [] && ExtraErrors(c, n, fields, path) == [];
      assert ObjectErrors(c, n, fields, path) == [];
    case _ =>
  }

  lemma {:induction false} NoElementErrors(c: Context, elems: seq<Value>, i: nat, path: Path)
    requires Guarded(c)
    ensures ElementErrors(c, NoItems, elems, i, path) == []
    decreases elems
  {
    if elems != [] {
      NoElementErrors(c, elems[1..], i + 1, path);
    }
  }

  lemma {:induction false} NoPatternErrors(c: Context, n: Node, fields: seq<Field>, path: Path)
    requires Guarded(c) && n.patternProperties == []
    ensures PatternErrors(c, n, fields, path) == []
    decreases fields
  {
    if fields != [] {
      NoPatternErrors(c, n, fields[1..], path);
      assert MatchErrors(c, n.patternProperties, fields[0], path) == [];
    }
  }

  /** A number is reported too small, too large or not a multiple; anything else, and a fraction where an integer is
      asked for, for its type. */
  lemma NumbersReported(c: Context, b: Built, v: Value, path: Path, e: Error)
    requires Guarded(c) && (b.NumberOf? || b.IntegerOf?)
    ensures e in Errors(c, Build(b), v, path)
            <==> e.path == path
                 && match e.keyword
                    case KType => !v.Num? || (b.IntegerOf? && v.n.Floor as real != v.n)
                    case KMinimum => v.Num? && b.minimum.Some? && v.n < b.minimum.value
                    case KMaximum => v.Num? && b.maximum.Some? && v.n > b.maximum.value
                    case KMultipleOf =>
                      v.Num? && b.multipleOf.Some? && b.multipleOf.value != 0.0 && !c.isMultiple(v.n, b.multipleOf.value)
                    case _ => false
  {
    hide Errors, Guarded, MatchesAny, PartErrors, ScalarErrors;
    ErrorsAreParts(c, Build(b), v, path);
    OneType(v, if b.NumberOf? then TNumber else TInteger);
    NoParts(c, Build(b), v, path);
    ScalarErrorIn(c, Build(b), v, path, e);
    if v.Arr? {
      ArraySizeErrors(c, Build(b), v.elems, path, e);
    }
  }

  /** Booleans and null are reported for their type, and nothing is reported where anything is accepted. */
  lemma SimpleReported(c: Context, v: Value, path: Path)
    requires Guarded(c)
    ensures Errors(c, Build(BooleanOf), v, path) == if v.Bool? then [] else [Error(KType, path)]
    ensures Errors(c, Build(NullOf), v, path) == if v.Null? then [] else [Error(KType, path)]
    ensures Errors(c, Build(UnknownOf), v, path) == []
  {
    ErrorsAreParts(c, Build(BooleanOf), v, path);
    ErrorsAreParts(c, Build(NullOf), v, path);
    ErrorsAreParts(c, Build(UnknownOf), v, path);
    OneType(v, TBoolean);
    OneType(v, TNull);
    NoParts(c, Build(BooleanOf), v, path);
    NoParts(c, Build(NullOf), v, path);
    NoParts(c, Build(UnknownOf), v, path);
    hide Errors, Guarded, PartErrors;
    assert MatchesAny(v, Build(UnknownOf).types);
    hide MatchesAny;
  }

  /** Any other value than the literal is reported, and for its type as well if that is wrong. */
  lemma LiteralsReported(c: Context, s: string, v: Value, path: Path)
    requires Guarded(c)
    ensures Errors(c, Build(LiteralOf(StringLiteral(s))), v, path)
            == if v == Str(s) then [] else if v.Str? then [Error(KConst, path)] else [Error(KConst, path), Error(KType, path)]
  {
    var n := Build(LiteralOf(StringLiteral(s)));
    ErrorsAreParts(c, n, v, path);
    OneType(v, TString);
    NoParts(c, n, v, path);
    hide Errors, Guarded, PartErrors, MatchesAny;
  }

  lemma {:induction false} ElementErrorIn(c: Context, item: Node, elems: seq<Value>, i: nat, path: Path, e: Error)
    requires Guarded(c)
    ensures e in ElementErrors(c, Each(item), elems, i, path)
            <==> exists k :: 0 <= k < |elems| && e in Errors(c, item, elems[k], path + [Index(i + k)])
    decreases elems
  {
    hide Errors, Guarded;
    if elems != [] {
      var rest := elems[1..];
      ElementErrorIn(c, item, rest, i + 1, path, e);
      if e in Errors(c, item, elems[0], path + [Index(i)]) {
        assert i + 0 == i;
      }
      if k :| 0 <= k < |rest| && e in Errors(c, item, rest[k], path + [Index(i + 1 + k)]) {
        assert elems[k + 1] == rest[k] && i + (k + 1) == i + 1 + k;
      }
      if k :| 0 < k < |elems| && e in Errors(c, item, elems[k], path + [Index(i + k)]) {
        assert rest[k - 1] == elems[k] && i + 1 + (k - 1) == i + k;
      }
    }
  }

  /** An array is reported for its size, and each of its elements at its index for what its own schema says. */
  lemma ArraysReported(c: Context, items: Built, lo: Option<nat>, hi: Option<nat>, elems: seq<Value>, path: Path, e: Error)
    requires Guarded(c)
    ensures e in Errors(c, Build(ArrayOf(items, lo, hi)), Arr(elems), path)
            <==> || (e == Error(KMinItems, path) && lo.Some? && |elems| < lo.value)
                 || (e == Error(KMaxItems, path) && hi.Some? && |elems| > hi.value)
                 || exists i: nat :: i < |elems| && e in Errors(c, Build(items), elems[i], path + [Index(i)])
  {
    hide Errors, Guarded, MatchesAny, ElementErrors, ScalarErrors;
    var n := Build(ArrayOf(items, lo, hi));
    assert n.items == Each(Build(items));
    ErrorsAreParts(c, n, Arr(elems), path);
    OneType(Arr(elems), TArray);
    ElementErrorAt(c, Build(items), elems, path, e);
    ArraySizeErrors(c, n, elems, path, e);
    assert PartErrors(c, n, Arr(elems), path) == ScalarErrors(c, n, Arr(elems), path) + ElementErrors(c, n.items, elems, 0, path);
  }

  lemma ArraySizeErrors(c: Context, n: Node, elems: seq<Value>, path: Path, e: Error)
    requires n.constant.None? && n.enumeration.None?
    ensures e in ScalarErrors(c, n, Arr(elems), path)
            <==> || (e == Error(KType, path) && !MatchesAny(Arr(elems), n.types))
                 || (e == Error(KMinItems, path) && n.minItems.Some? && |elems| < n.minItems.value)
                 || (e == Error(KMaxItems, path) && n.maxItems.Some? && |elems| > n.maxItems.value)
  {
    hide MatchesAny;
  }

  lemma ElementErrorAt(c: Context, item: Node, elems: seq<Value>, path: Path, e: Error)
    requires Guarded(c)
    ensures e in ElementErrors(c, Each(item), elems, 0, path)
            <==> exists i: nat :: i < |elems| && e in Errors(c, item, elems[i], path + [Index(i)])
  {
    hide Errors, Guarded, ElementErrors;
    ElementErrorIn(c, item, elems, 0, path, e);
    if i: nat :| i < |elems| && e in Errors(c, item, elems[i], path + [Index(i)]) {
      assert 0 + i == i;
    }
    if k :| 0 <= k < |elems| && e in Errors(c, item, elems[k], path + [Index(0 + k)]) {
      var i: nat := k;
      assert e in Errors(c, item, elems[i], path + [Index(i)]);
    }
  }

  lemma {:induction false} PropertyErrorIn(c: Context, props: seq<Property>, fields: seq<Field>, path: Path, e: Error)
    requires Guarded(c) && KeysDiffer(fields)
    ensures e in PropertyErrors(c, BuildProperties(props), fields, path)
            <==> exists p, f :: p in props && f in fields && f.key == p.key
                                && e in Errors(c, Build(p.schema), f.value, path + [Key(p.key)])
    decreases |props|
  {
    hide Errors, Guarded, Build;
    if props != [] {
      var (p, rest) := (props[0], props[1..]);
      assert BuildProperties(props)[1..] == BuildProperties(rest) && props == [p] + rest;
      PropertyErrorIn(c, rest, fields, path, e);
      FieldErrorIn(c, Build(p.schema), p.key, fields, path, e);
    }
  }

  lemma FieldErrorIn(c: Context, n: Node, key: string, fields: seq<Field>, path: Path, e: Error)
    requires Guarded(c) && KeysDiffer(fields)
    ensures HasKey(fields, key) && e in Errors(c, n, Get(fields, key).value, path + [Key(key)])
            <==> exists f :: f in fields && f.key == key && e in Errors(c, n, f.value, path + [Key(key)])
  {
    hide Errors, Guarded, KeysDiffer;
    if HasKey(fields, key) {
      forall f | f in fields && f.key == key ensures Get(fields, key) == Some(f.value) {
        GetIsField(fields, f);
      }
    }
  }

  lemma {:induction false} AdditionalErrorIn(c: Context, n: Node, schema: Node, fields: seq<Field>, path: Path, e: Error)
    requires Guarded(c)
    ensures e in AdditionalErrors(c, n, schema, fields, path)
            <==> exists f :: f in fields && IsExtra(c, n, f.key) && e in Errors(c, schema, f.value, path + [Key(f.key)])
    decreases fields
  {
    hide Errors, Guarded, IsExtra;
    if fields != [] {
      AdditionalErrorIn(c, n, schema, fields[1..], path, e);
      assert fields == [fields[0]] + fields[1..];
    }
  }

  /** The object's description does not mention the key. */
  predicate Unmentioned(props: seq<Property>, key: string) {
    forall p :: p in props ==> p.key != key
  }

  lemma ExtraIsUnmentioned(c: Context, n: Node, props: seq<Property>, key: string)
    requires n.properties == BuildProperties(props) && n.patternProperties == []
    ensures IsExtra(c, n, key) <==> Unmentioned(props, key)
  {
    PropertiesAre(props);
    hide BuildProperties, Build;
    if p :| p in props && p.key == key {
      assert Entry(p.key, Build(p.schema)) in n.properties;
    }
  }

  /** An object is reported for missing properties and for additional ones that are not allowed, and each property at its
      key for what its own schema says, or the one for additional properties. */
  lemma ObjectsReported(c: Context, props: seq<Property>, additional: BuiltAdditional, fields: seq<Field>, path: Path, e: Error)
    requires Guarded(c) && KeysDiffer(fields)
    ensures e in Errors(c, Build(ObjectOf(props, additional)), Obj(fields), path)
            <==> || (e == Error(KRequired, path) && exists p :: p in props && !p.optional && forall f :: f in fields ==> f.key != p.key)
                 || (exists p, f :: p in props && f in fields && f.key == p.key
                                    && e in Errors(c, Build(p.schema), f.value, path + [Key(p.key)]))
                 || (e == Error(KAdditional, path) && additional == Given(false) && exists f :: f in fields && Unmentioned(props, f.key))
                 || (additional.GivenSchema?
                     && exists f :: f in fields && Unmentioned(props, f.key)
                                    && e in Errors(c, Build(additional.schema), f.value, path + [Key(f.key)]))
  {
    var n := Build(ObjectOf(props, additional));
    assert n.properties == BuildProperties(props) && n.required == RequiredKeys(props);
    assert n.additional == BuildAdditional(additional) && n.patternProperties == [];
    ErrorsAreParts(c, n, Obj(fields), path);
    OneType(Obj(fields), TObject);
    hide Errors, Guarded, Build, BuildProperties, RequiredKeys, MatchesAny, KeysDiffer, PartErrors;
    ObjectErrorIn(c, n, fields, path, e);
    PropertyErrorIn(c, props, fields, path, e);
    RequiredAre(props, fields);
    ExtraErrorIn(c, n, props, additional, fields, path, e);
    hide Unmentioned, PropertyErrors, ExtraErrors;
  }

  /** The errors of an object, keyword by keyword. */
  lemma ObjectErrorIn(c: Context, n: Node, fields: seq<Field>, path: Path, e: Error)
    requires Guarded(c) && n.constant.None? && n.enumeration.None? && MatchesAny(Obj(fields), n.types) && n.patternProperties == []
    ensures e in PartErrors(c, n, Obj(fields), path)
            <==> || (e == Error(KRequired, path) && exists name :: name in n.required && !HasKey(fields, name))
                 || e in PropertyErrors(c, n.properties, fields, path)
                 || e in ExtraErrors(c, n, fields, path)
  {
    hide MatchesAny, Guarded, PropertyErrors, PatternErrors, ExtraErrors;
    NoPatternErrors(c, n, fields, path);
    assert ScalarErrors(c, n, Obj(fields), path) == [];
    assert PartErrors(c, n, Obj(fields), path) == ObjectErrors(c, n, fields, path);
  }

  lemma ExtraErrorIn(c: Context, n: Node, props: seq<Property>, additional: BuiltAdditional, fields: seq<Field>, path: Path, e: Error)
    requires Guarded(c) && n.properties == BuildProperties(props) && n.patternProperties == []
    requires n.additional == BuildAdditional(additional)
    ensures e in ExtraErrors(c, n, fields, path)
            <==> || (e == Error(KAdditional, path) && additional == Given(false) && exists f :: f in fields && Unmentioned(props, f.key))
                 || (additional.GivenSchema?
                     && exists f :: f in fields && Unmentioned(props, f.key)
                                    && e in Errors(c, Build(additional.schema), f.value, path + [Key(f.key)]))
  {
    hide Errors, Guarded, Build, BuildProperties, AdditionalErrors;
    forall key ensures IsExtra(c, n, key) <==> Unmentioned(props, key) {
      ExtraIsUnmentioned(c, n, props, key);
    }
    hide IsExtra, Unmentioned;
    if additional.GivenSchema? {
      AdditionalErrorIn(c, n, Build(additional.schema), fields, path, e);
    }
  }

  /** What is not an array or an object, where one is asked for, is reported for its type only. */
  lemma OtherTypesReported(c: Context, b: Built, v: Value, path: Path)
    requires Guarded(c) && !v.Arr? && !v.Obj? && (b.ArrayOf? || b.ObjectOf? || b.RecordOf?)
    ensures Errors(c, Build(b), v, path) == [Error(KType, path)]
  {
    ErrorsAreParts(c, Build(b), v, path);
    OneType(v, if b.ArrayOf? then TArray else TObject);
    hide Errors, Guarded, MatchesAny;
  }

  // ----- Unions

  lemma {:induction false} BranchErrorsAre(c: Context, bs: seq<Built>, v: Value, path: Path, i: nat)
    requires Guarded(c) && i < |bs|
    ensures |BranchErrors(c, BuildAll(bs), v, path)| == |bs|
    ensures BranchErrors(c, BuildAll(bs), v, path)[i] == Errors(c, Build(bs[i]), v, path)
    decreases i
  {
    hide Errors, Guarded, Build;
    assert BuildAll(bs)[1..] == BuildAll(bs[1..]);
    BuildAllOf(bs);
    if i > 0 {
      BranchErrorsAre(c, bs[1..], v, path, i - 1);
    }
  }

  /** The first of the shortest lists, all of which hold something. */
  ghost predicate FirstShortest(lists: seq<seq<Error>>, i: nat) {
    i < |lists| && (forall j :: 0 <= j < |lists| ==> |lists[i]| <= |lists[j]|) && forall j :: 0 <= j < i ==> |lists[i]| < |lists[j]|
  }

  lemma {:induction false} BestIsFirstShortest(best: seq<Error>, lists: seq<seq<Error>>) returns (i: nat)
    requires forall j :: 0 <= j < |lists| ==> lists[j] != []
    ensures FirstShortest([best] + lists, i) && BestOf(Some(best), lists) == Some(([best] + lists)[i])
    decreases |lists|
  {
    if lists == [] {
      i := 0;
    } else {
      var rest := lists[1..];
      assert lists[0] != [] && forall j :: 0 <= j < |rest| ==> rest[j] == lists[j + 1];
      if |lists[0]| < |best| {
        var k := BestIsFirstShortest(lists[0], rest);
        i := k + 1;
        assert [lists[0]] + rest == lists;
        assert forall j :: 0 < j <= |lists| ==> ([best] + lists)[j] == lists[j - 1];
        assert |lists[k]| <= |lists[0]|;
      } else {
        var k := BestIsFirstShortest(best, rest);
        i := if k == 0 then 0 else k + 1;
        var (short, long) := ([best] + rest, [best] + lists);
        assert forall j :: 1 < j < |long| ==> long[j] == short[j - 1];
        assert long[i] == short[k] && |short[k]| <= |short[0]|;
        forall j | 0 <= j < |long| ensures |long[i]| <= |long[j]| {
          assert j > 1 ==> |short[k]| <= |short[j - 1]|;
        }
        forall j | 0 <= j < i ensures |long[i]| < |long[j]| {
          assert |short[k]| < |short[0]|;
          assert j > 1 ==> |short[k]| < |short[j - 1]|;
        }
      }
    }
  }

  lemma UnionErrorsOf(c: Context, n: Node, ns: seq<Node>, v: Value, path: Path)
    requires Guarded(c) && n.ref.None? && n.anyOf == Branches(ns)
    ensures Errors(c, n, v, path) == UnionErrors(KAnyOf, BranchErrors(c, ns, v, path), path)
  {
    assert Resolve(n, c.defs) == n;
    RankOfLists(c.rank, n);
    hide UnionErrors, BranchErrors;
    assert Errors(c, n, v, path) == TargetErrors(c, n, v, path);
  }

  /** If a branch has nothing to report, neither has the union; otherwise it reports itself and what the first branch with
      the fewest errors reports. */
  lemma UnionsReported(c: Context, bs: seq<Built>, v: Value, path: Path) returns (i: nat)
    requires Guarded(c)
    ensures var errors := Errors(c, Build(UnionOf(bs)), v, path);
            if bs == [] || exists b :: b in bs && Errors(c, Build(b), v, path) == [] then errors == []
            else
              && i < |bs| && errors == [Error(KAnyOf, path)] + Errors(c, Build(bs[i]), v, path)
              && (forall j :: 0 <= j < |bs| ==> |Errors(c, Build(bs[i]), v, path)| <= |Errors(c, Build(bs[j]), v, path)|)
              && (forall j :: 0 <= j < i ==> |Errors(c, Build(bs[i]), v, path)| < |Errors(c, Build(bs[j]), v, path)|)
  {
    i := 0;
    var lists := BranchErrors(c, BuildAll(bs), v, path);
    UnionErrorsOf(c, Build(UnionOf(bs)), BuildAll(bs), v, path);
    assert |lists| == |bs| by {
      BuildAllOf(bs);
    }
    hide Errors, Guarded, Build, BuildAll, BranchErrors, BestOf;
    forall k | 0 <= k < |bs| ensures lists[k] == Errors(c, Build(bs[k]), v, path) {
      BranchErrorsAre(c, bs, v, path, k);
    }
    PassingNone(lists);
    hide Passing;
    if b :| b in bs && Errors(c, Build(b), v, path) == [] {
      var k :| 0 <= k < |bs| && bs[k] == b;
      assert lists[k] == [];
    } else if bs != [] {
      forall k | 0 <= k < |lists| ensures lists[k] != [] {
        assert bs[k] in bs;
      }
      i := BestOfAll(lists);
    }
  }

  lemma BestOfAll(lists: seq<seq<Error>>) returns (i: nat)
    requires lists != [] && forall j :: 0 <= j < |lists| ==> lists[j] != []
    ensures FirstShortest(lists, i) && BestOf(None, lists) == Some(lists[i])
  {
    i := BestIsFirstShortest(lists[0], lists[1..]);
    assert [lists[0]] + lists[1..] == lists && lists[0] != [];
  }
}
