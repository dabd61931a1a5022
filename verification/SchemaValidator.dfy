/** The validator as it runs: one pass that appends to an error list. */
module SchemaValidator {
  import opened Options
  import opened SchemaNodes
  import opened SchemaAccepts
  import opened SchemaErrors

  lemma Grow(a: seq<Error>, b: seq<Error>, rest: seq<Error>)
    ensures a + b + rest == a + (b + rest)
  {
  }

  /** Check: no errors exactly for accepted values. */
  method Check(c: Context, schema: Node, value: Value) returns (accepted: bool)
    requires Guarded(c) && Proper(value)
    ensures accepted <==> Accepts(c, schema, value)
  {
    var errors := ValidateNode(c, schema, value, [], []);
    ErrorsIff(c, schema, value, []);
    assert [] + Errors(c, schema, value, []) == Errors(c, schema, value, []);
    accepted := |errors| == 0;
  }

  method ValidateUnionBranches(c: Context, keyword: Keyword, branches: seq<Node>, value: Value, path: Path, errors: seq<Error>)
    returns (out: seq<Error>)
    requires Guarded(c) && (keyword == KAnyOf || keyword == KOneOf)
    ensures out == errors + UnionErrors(keyword, BranchErrors(c, branches, value, path), path)
    decreases value, 1, RankAll(c.rank, branches), branches, 4
  {
    hide Errors;
    out := errors;
    ghost var lists := BranchErrors(c, branches, value, path);
    if |branches| == 0 {
      return;
    }
    var passing := 0;
    var best: Option<seq<Error>> := None;
    for index := 0 to |branches|
      invariant passing + Passing(lists[index..]) == Passing(lists)
      invariant BestOf(best, lists[index..]) == BestOf(None, lists)
    {
      BranchErrorsAt(c, branches, value, path, index);
      assert lists[index..][1..] == lists[index + 1..];
      RankIn(c.rank, branches, branches[index]);
      var branchErrors := ValidateNode(c, branches[index], value, path, []);
      assert branchErrors == lists[index];
      if |branchErrors| == 0 {
        passing := passing + 1;
      } else if best.None? || |branchErrors| < |best.value| {
        best := Some(branchErrors);
      }
    }
    assert lists[|branches|..] == [];
    if (if keyword == KAnyOf then passing > 0 else passing == 1) {
      return;
    }
    out := out + [Error(keyword, path)];
    if keyword == KAnyOf && best.Some? {
      out := out + best.value;
    }
  }

  lemma {:induction false} BranchErrorsAt(c: Context, ns: seq<Node>, v: Value, path: Path, i: nat)
    requires Guarded(c) && i < |ns|
    ensures BranchErrors(c, ns, v, path)[i] == Errors(c, ns[i], v, path)
  {
    if i > 0 {
      BranchErrorsAt(c, ns[1..], v, path, i - 1);
    }
  }

  method ValidateNode(c: Context, node: Node, value: Value, path: Path, errors: seq<Error>) returns (out: seq<Error>)
    requires Guarded(c)
    ensures out == errors + Errors(c, node, value, path)
    decreases value, 1, Rank(c.rank, node), node, 3
  {
    ResolveRank(c, node);
    var target := ResolveRef(node, c.defs);
    out := ValidateTarget(c, target, value, path, errors);
  }

  method ValidateTarget(c: Context, target: Node, value: Value, path: Path, errors: seq<Error>) returns (out: seq<Error>)
    requires Guarded(c)
    ensures out == errors + TargetErrors(c, target, value, path)
    decreases value, 1, Rank(c.rank, target), target, 2
  {
    RankOfLists(c.rank, target);
    if target.anyOf.Branches? {
      out := ValidateUnionBranches(c, KAnyOf, target.anyOf.list, value, path, errors);
      return;
    }
    if target.oneOf.Branches? {
      out := ValidateUnionBranches(c, KOneOf, target.oneOf.list, value, path, errors);
      return;
    }
    out := ValidateAll(c, target.allOf, value, path, errors);
    Grow(errors, Flat(BranchErrors(c, target.allOf, value, path)), PartErrors(c, target, value, path));
    out := ValidateParts(c, target, value, path, out);
  }

  method ValidateParts(c: Context, target: Node, value: Value, path: Path, errors: seq<Error>) returns (out: seq<Error>)
    requires Guarded(c)
    ensures out == errors + PartErrors(c, target, value, path)
    decreases value, 0, 0, target, 0
  {
    out := errors + ScalarErrors(c, target, value, path);
    match value {
      case Arr(elems) =>
        Grow(errors, ScalarErrors(c, target, value, path), ElementErrors(c, target.items, elems, 0, path));
        out := ValidateElements(c, target, elems, path, out);
      case Obj(fields) =>
        Grow(errors, ScalarErrors(c, target, value, path), ObjectErrors(c, target, fields, path));
        out := ValidateObject(c, target, fields, path, out);
      case _ =>
    }
  }

  method ValidateAll(c: Context, branches: seq<Node>, value: Value, path: Path, errors: seq<Error>) returns (out: seq<Error>)
    requires Guarded(c)
    ensures out == errors + Flat(BranchErrors(c, branches, value, path))
    decreases value, 1, RankAll(c.rank, branches), branches, 4
  {
    out := errors;
    ghost var lists := BranchErrors(c, branches, value, path);
    for index := 0 to |branches|
      invariant out + Flat(lists[index..]) == errors + Flat(lists)
    {
      BranchErrorsAt(c, branches, value, path, index);
      RankIn(c.rank, branches, branches[index]);
      assert lists[index..][1..] == lists[index + 1..];
      Grow(out, lists[index], Flat(lists[index + 1..]));
      out := ValidateNode(c, branches[index], value, path, out);
    }
    assert lists[|branches|..] == [];
  }

  method ValidateElements(c: Context, target: Node, elems: seq<Value>, path: Path, errors: seq<Error>) returns (out: seq<Error>)
    requires Guarded(c)
    ensures out == errors + ElementErrors(c, target.items, elems, 0, path)
    decreases elems
  {
    out := errors;
    for index := 0 to |elems|
      invariant out + ElementErrors(c, target.items, elems[index..], index, path)
             == errors + ElementErrors(c, target.items, elems, 0, path)
    {
      var item := ItemAt(target.items, index);
      ghost var rest := ElementErrors(c, target.items, elems[index + 1..], index + 1, path);
      assert elems[index..][1..] == elems[index + 1..];
      if item.Some? {
        Grow(out, Errors(c, item.value, elems[index], path + [Index(index)]), rest);
        out := ValidateNode(c, item.value, elems[index], path + [Index(index)], out);
      } else {
        Grow(out, [], rest);
      }
    }
  }

  method ValidateObject(c: Context, target: Node, fields: seq<Field>, path: Path, errors: seq<Error>) returns (out: seq<Error>)
    requires Guarded(c)
    ensures out == errors + ObjectErrors(c, target, fields, path)
    decreases fields, |target.properties| + 3
  {
    ghost var missing := When(exists name :: name in target.required && !HasKey(fields, name), KRequired, path);
    ghost var own := PropertyErrors(c, target.properties, fields, path);
    ghost var matched := PatternErrors(c, target, fields, path);
    ghost var extra := ExtraErrors(c, target, fields, path);
    assert errors + missing + own + matched + extra == errors + (missing + own + matched + extra);
    out := errors;
    if exists name :: name in target.required && !HasKey(fields, name) {
      out := out + [Error(KRequired, path)];
    }
    out := ValidateProperties(c, target.properties, fields, path, out);
    out := ValidatePatterns(c, target, fields, path, out);
    out := ValidateExtra(c, target, fields, path, out);
  }

  method ValidateExtra(c: Context, target: Node, fields: seq<Field>, path: Path, errors: seq<Error>) returns (out: seq<Error>)
    requires Guarded(c)
    ensures out == errors + ExtraErrors(c, target, fields, path)
    decreases fields, 1
  {
    out := errors;
    match target.additional {
      case Unspecified =>
      case Allow(allowed) =>
        if !allowed && exists f :: f in fields && IsExtra(c, target, f.key) {
          out := out + [Error(KAdditional, path)];
        }
      case Matching(schema) => out := ValidateAdditional(c, target, schema, fields, path, out);
    }
  }

  method ValidateProperties(c: Context, ps: seq<Entry>, fields: seq<Field>, path: Path, errors: seq<Error>) returns (out: seq<Error>)
    requires Guarded(c)
    ensures out == errors + PropertyErrors(c, ps, fields, path)
    decreases fields, |ps|
  {
    out := errors;
    for index := 0 to |ps|
      invariant out + PropertyErrors(c, ps[index..], fields, path) == errors + PropertyErrors(c, ps, fields, path)
    {
      var name := ps[index].name;
      ghost var rest := PropertyErrors(c, ps[index + 1..], fields, path);
      assert ps[index..][1..] == ps[index + 1..];
      if HasKey(fields, name) {
        var value := Get(fields, name).value;
        Grow(out, Errors(c, ps[index].node, value, path + [Key(name)]), rest);
        out := ValidateNode(c, ps[index].node, value, path + [Key(name)], out);
      } else {
        Grow(out, [], rest);
      }
    }
  }

  method ValidatePatterns(c: Context, target: Node, fields: seq<Field>, path: Path, errors: seq<Error>) returns (out: seq<Error>)
    requires Guarded(c)
    ensures out == errors + PatternErrors(c, target, fields, path)
    decreases fields, 0
  {
    hide MatchErrors, HasName;
    out := errors;
    for index := 0 to |fields|
      invariant out + PatternErrors(c, target, fields[index..], path) == errors + PatternErrors(c, target, fields, path)
    {
      ghost var rest := PatternErrors(c, target, fields[index + 1..], path);
      assert fields[index..][1..] == fields[index + 1..];
      if HasName(target.properties, fields[index].key) {
        Grow(out, [], rest);
      } else {
        Grow(out, MatchErrors(c, target.patternProperties, fields[index], path), rest);
        out := ValidateMatches(c, target.patternProperties, fields[index], path, out);
      }
    }
  }

  method ValidateMatches(c: Context, ps: seq<Entry>, f: Field, path: Path, errors: seq<Error>) returns (out: seq<Error>)
    requires Guarded(c)
    ensures out == errors + MatchErrors(c, ps, f, path)
    decreases f, |ps|
  {
    out := errors;
    for index := 0 to |ps|
      invariant out + MatchErrors(c, ps[index..], f, path) == errors + MatchErrors(c, ps, f, path)
    {
      ghost var rest := MatchErrors(c, ps[index + 1..], f, path);
      assert ps[index..][1..] == ps[index + 1..];
      if c.test(ps[index].name, f.key) {
        Grow(out, Errors(c, ps[index].node, f.value, path + [Key(f.key)]), rest);
        out := ValidateNode(c, ps[index].node, f.value, path + [Key(f.key)], out);
      } else {
        Grow(out, [], rest);
      }
    }
  }

  method ValidateAdditional(c: Context, target: Node, schema: Node, fields: seq<Field>, path: Path, errors: seq<Error>)
    returns (out: seq<Error>)
    requires Guarded(c)
    ensures out == errors + AdditionalErrors(c, target, schema, fields, path)
    decreases fields, 0
  {
    out := errors;
    for index := 0 to |fields|
      invariant out + AdditionalErrors(c, target, schema, fields[index..], path)
             == errors + AdditionalErrors(c, target, schema, fields, path)
    {
      ghost var rest := AdditionalErrors(c, target, schema, fields[index + 1..], path);
      assert fields[index..][1..] == fields[index + 1..];
      if IsExtra(c, target, fields[index].key) {
        Grow(out, Errors(c, schema, fields[index].value, path + [Key(fields[index].key)]), rest);
        out := ValidateNode(c, schema, fields[index].value, path + [Key(fields[index].key)], out);
      } else {
        Grow(out, [], rest);
      }
    }
  }
}
