/** Which definitions the references of a builder-made schema can name. */
module SchemaScopes {
  import opened Options
  import opened SchemaNodes
  import opened SchemaBuilders

  /** The definitions of all cyclic schemas in `b`, at any depth. */
  function Definitions(b: Built): set<Definition>
    decreases b, 1
  {
    match b
    case ObjectOf(props, additional) => DefinitionsOfProperties(props) + DefinitionsOfAdditional(additional)
    case ArrayOf(items, _, _) => Definitions(items)
    case UnionOf(branches) => DefinitionsOfAll(branches)
    case RecordOf(values, additional) => Definitions(values) + DefinitionsOfAdditional(additional)
    case CyclicOf(defs, _) => DefinitionsWithin(defs)
    case _ => {}
  }

  function DefinitionsOfAll(bs: seq<Built>): set<Definition>
    decreases bs, 0
  {
    if bs == [] then {} else Definitions(bs[0]) + DefinitionsOfAll(bs[1..])
  }

  function DefinitionsOfProperties(ps: seq<Property>): set<Definition>
    decreases ps, 0
  {
    if ps == [] then {} else Definitions(ps[0].schema) + DefinitionsOfProperties(ps[1..])
  }

  function DefinitionsOfAdditional(a: BuiltAdditional): set<Definition>
    decreases a, 0
  {
    if a.GivenSchema? then Definitions(a.schema) else {}
  }

  function DefinitionsWithin(ds: seq<Definition>): set<Definition>
    decreases ds, 0
  {
    if ds == [] then {} else {ds[0]} + Definitions(ds[0].schema) + DefinitionsWithin(ds[1..])
  }

  /** What a definition is entered as. */
  function Defined(d: Definition): Node {
    Build(d.schema).(id := Some(d.name))
  }

  /** `r` has the names of `out` and of the definitions `ds`, and stands each for what it stood for or one of these defines. */
  ghost predicate Collected(out: map<string, Node>, r: map<string, Node>, ds: set<Definition>) {
    && (forall name :: name in r <==> name in out || exists d :: d in ds && d.name == name)
    && (forall name :: name in r ==>
          (name in out && r[name] == out[name]) || exists d :: d in ds && d.name == name && r[name] == Defined(d))
  }

  lemma CollectedNothing(out: map<string, Node>)
    ensures Collected(out, out, {})
  {
  }

  lemma CollectedTwice(out: map<string, Node>, m: map<string, Node>, r: map<string, Node>, ds: set<Definition>, es: set<Definition>)
    requires Collected(out, m, ds) && Collected(m, r, es)
    ensures Collected(out, r, ds + es)
  {
    hide Defined;
    forall name | name in r
      ensures (name in out && r[name] == out[name]) || exists d :: d in ds + es && d.name == name && r[name] == Defined(d)
    {
      if name in m && r[name] == m[name] && !(name in out && m[name] == out[name]) {
        var d :| d in ds && d.name == name && m[name] == Defined(d);
        assert d in ds + es;
      } else if !(name in m && r[name] == m[name]) {
        var d :| d in es && d.name == name && r[name] == Defined(d);
        assert d in ds + es;
      }
    }
    forall name ensures name in r <==> name in out || exists d :: d in ds + es && d.name == name {
      if d :| d in ds + es && d.name == name {
        assert d in ds || d in es;
      }
      if name in r && name !in m {
        var d :| d in es && d.name == name;
        assert d in ds + es;
      } else if name in r && name !in out {
        var d :| d in ds && d.name == name;
        assert d in ds + es;
      }
    }
  }

  /** Collecting the definitions of a builder-made schema enters all of them and nothing else. */
  lemma {:induction false} CollectsDefinitions(b: Built, out: map<string, Node>)
    ensures Collected(out, CollectDefs(Build(b), out), Definitions(b))
    decreases b, 1
  {
    hide Collected;
    var n := Build(b);
    CollectedNothing(out);
    match b
    case ObjectOf(props, additional) =>
      CollectsProperties(props, out);
      var o := CollectEntries(n.properties, out);
      CollectsAdditional(additional, o);
      assert CollectDefs(n, out) == if n.additional.Matching? then CollectDefs(n.additional.schema, o) else o;
      CollectedTwice(out, o, CollectDefs(n, out), DefinitionsOfProperties(props), DefinitionsOfAdditional(additional));
    case ArrayOf(items, _, _) =>
      CollectsDefinitions(items, out);
      assert CollectDefs(n, out) == CollectDefs(Build(items), out);
    case UnionOf(branches) =>
      CollectsBranches(branches, out);
      assert CollectDefs(n, out) == CollectAll(BuildAll(branches), out);
    case RecordOf(_, _) => CollectsRecord(b, out);
    case CyclicOf(defs, _) =>
      CollectsWithin(defs, out);
      assert CollectDefs(n, out) == CollectDefinitions(BuildDefinitions(defs), out);
    case _ =>
      assert CollectDefs(n, out) == out;
  }

  lemma {:induction false} CollectsRecord(b: Built, out: map<string, Node>)
    requires b.RecordOf?
    ensures Collected(out, CollectDefs(Build(b), out), Definitions(b))
    decreases b, 0
  {
    hide Collected;
    var (n, values, additional) := (Build(b), b.values, b.recordAdditional);
    assert n.patternProperties == [Entry(EVERY_KEY, Build(values))] && n.patternProperties[1..] == [];
    assert n.additional == BuildAdditional(additional);
    CollectsAdditional(additional, out);
    var o := if n.additional.Matching? then CollectDefs(n.additional.schema, out) else out;
    CollectsDefinitions(values, o);
    assert CollectEntries(n.patternProperties, o) == CollectDefs(Build(values), o);
    assert CollectDefs(n, out) == CollectEntries(n.patternProperties, o);
    CollectedTwice(out, o, CollectDefs(n, out), DefinitionsOfAdditional(additional), Definitions(values));
    assert DefinitionsOfAdditional(additional) + Definitions(values) == Definitions(values) + DefinitionsOfAdditional(additional);
  }

  lemma {:induction false} CollectsAdditional(a: BuiltAdditional, out: map<string, Node>)
    ensures var m := BuildAdditional(a);
            Collected(out, if m.Matching? then CollectDefs(m.schema, out) else out, DefinitionsOfAdditional(a))
    decreases a, 0
  {
    hide Collected;
    CollectedNothing(out);
    if a.GivenSchema? {
      CollectsDefinitions(a.schema, out);
    }
  }

  lemma {:induction false} CollectsBranches(bs: seq<Built>, out: map<string, Node>)
    ensures Collected(out, CollectAll(BuildAll(bs), out), DefinitionsOfAll(bs))
    decreases bs, 0
  {
    hide Collected, Build;
    CollectedNothing(out);
    if bs != [] {
      var m := CollectDefs(Build(bs[0]), out);
      CollectsDefinitions(bs[0], out);
      CollectsBranches(bs[1..], m);
      assert BuildAll(bs)[1..] == BuildAll(bs[1..]);
      CollectedTwice(out, m, CollectAll(BuildAll(bs), out), Definitions(bs[0]), DefinitionsOfAll(bs[1..]));
    }
  }

  lemma {:induction false} CollectsProperties(ps: seq<Property>, out: map<string, Node>)
    ensures Collected(out, CollectEntries(BuildProperties(ps), out), DefinitionsOfProperties(ps))
    decreases ps, 0
  {
    hide Collected, Build;
    CollectedNothing(out);
    if ps != [] {
      var m := CollectDefs(Build(ps[0].schema), out);
      CollectsDefinitions(ps[0].schema, out);
      CollectsProperties(ps[1..], m);
      assert BuildProperties(ps)[1..] == BuildProperties(ps[1..]);
      CollectedTwice(out, m, CollectEntries(BuildProperties(ps), out), Definitions(ps[0].schema), DefinitionsOfProperties(ps[1..]));
    }
  }

  lemma {:induction false} CollectsWithin(ds: seq<Definition>, out: map<string, Node>)
    ensures Collected(out, CollectDefinitions(BuildDefinitions(ds), out), DefinitionsWithin(ds))
    decreases ds, 0
  {
    hide Collected, Build;
    CollectedNothing(out);
    if ds != [] {
      var d := ds[0];
      var with := out[d.name := Defined(d)];
      var m := CollectDefs(Build(d.schema), with);
      CollectedOne(out, d);
      CollectsDefinitions(d.schema, with);
      CollectedTwice(out, with, m, {d}, Definitions(d.schema));
      CollectIgnoresId(Build(d.schema), Some(d.name), with);
      CollectsWithin(ds[1..], m);
      assert BuildDefinitions(ds)[0] == Entry(d.name, Defined(d)) && BuildDefinitions(ds)[1..] == BuildDefinitions(ds[1..]);
      CollectedTwice(out, m, CollectDefinitions(BuildDefinitions(ds), out), {d} + Definitions(d.schema), DefinitionsWithin(ds[1..]));
    }
  }

  lemma CollectedOne(out: map<string, Node>, d: Definition)
    ensures Collected(out, out[d.name := Defined(d)], {d})
  {
    assert d in {d};
  }

  /** The names in scope are those that are defined somewhere in the schema; one that is defined once stands for what it
      is defined as. */
  lemma NamesInScope(c: Context, b: Built, name: string)
    requires ContextOf(c, b)
    ensures name in c.defs <==> exists d :: d in Definitions(b) && d.name == name
    ensures forall d :: d in Definitions(b) && d.name == name && (forall e :: e in Definitions(b) && e.name == name ==> e == d) ==>
              name in c.defs && c.defs[name] == Build(d.schema).(id := Some(name))
  {
    CollectsDefinitions(b, map[]);
    hide Definitions, CollectDefs, Build, Guarded;
  }
}
