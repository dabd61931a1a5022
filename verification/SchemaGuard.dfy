/** Which definitions are guarded: exactly those without a cycle of references that stays at one value. */
module SchemaGuard {
  import opened Options
  import opened SchemaNodes

  /** The names a node refers to without descending into the value. */
  function Refs(n: Node): set<string> {
    (if n.ref.Some? then {n.ref.value} else {})
    + (if n.anyOf.Branches? then RefsAll(n.anyOf.list) else {})
    + (if n.oneOf.Branches? then RefsAll(n.oneOf.list) else {})
    + RefsAll(n.allOf)
  }

  function RefsAll(ns: seq<Node>): set<string> {
    if ns == [] then {} else Refs(ns[0]) + RefsAll(ns[1..])
  }

  /** Resolving or unfolding definition `a` can lead to definition `b` at the same value. */
  predicate Leads(defs: map<string, Node>, a: string, b: string) {
    a in defs && b in defs && b in Refs(defs[a])
  }

  ghost predicate IsPath(defs: map<string, Node>, p: seq<string>) {
    |p| >= 2 && forall i :: 0 <= i < |p| - 1 ==> Leads(defs, p[i], p[i + 1])
  }

  ghost predicate Connects(defs: map<string, Node>, p: seq<string>, a: string, b: string) {
    IsPath(defs, p) && p[0] == a && p[|p| - 1] == b
  }

  ghost predicate Reaches(defs: map<string, Node>, a: string, b: string) {
    exists p :: Connects(defs, p, a, b)
  }

  /** Every cycle of references passes through an array element, a property or a record value. */
  ghost predicate CyclesDescend(defs: map<string, Node>) {
    forall a :: !Reaches(defs, a, a)
  }

  // ----- A rank excludes cycles

  lemma {:induction false} RefRanked(rank: map<string, nat>, n: Node, b: string)
    requires b in Refs(n) && b in rank
    ensures rank[b] + 1 <= Rank(rank, n)
    decreases n, 0
  {
    if n.ref.Some? && n.ref.value == b {
    } else if n.anyOf.Branches? && b in RefsAll(n.anyOf.list) {
      RefRankedIn(rank, n.anyOf.list, b);
    } else if n.oneOf.Branches? && b in RefsAll(n.oneOf.list) {
      RefRankedIn(rank, n.oneOf.list, b);
    } else {
      RefRankedIn(rank, n.allOf, b);
    }
  }

  lemma {:induction false} RefRankedIn(rank: map<string, nat>, ns: seq<Node>, b: string)
    requires b in RefsAll(ns) && b in rank
    ensures rank[b] + 1 <= RankAll(rank, ns)
    decreases ns, 1
  {
    if b in Refs(ns[0]) {
      RefRanked(rank, ns[0], b);
    } else {
      RefRankedIn(rank, ns[1..], b);
    }
  }

  lemma {:induction false} RankFalls(c: Context, p: seq<string>, i: nat)
    requires Guarded(c) && IsPath(c.defs, p) && i < |p|
    ensures p[0] in c.rank && p[i] in c.rank && c.rank[p[i]] + i <= c.rank[p[0]]
    decreases i
  {
    assert Leads(c.defs, p[0], p[1]);
    if i > 0 {
      RankFalls(c, p, i - 1);
      assert Leads(c.defs, p[i - 1], p[i]);
      RefRanked(c.rank, c.defs[p[i - 1]], p[i]);
    }
  }

  lemma GuardedHasNoCycle(c: Context)
    requires Guarded(c)
    ensures CyclesDescend(c.defs)
  {
    forall a ensures !Reaches(c.defs, a, a) {
      if Reaches(c.defs, a, a) {
        var p :| Connects(c.defs, p, a, a);
        RankFalls(c, p, |p| - 1);
      }
    }
  }

  // ----- Without cycles, the number of definitions reached is a rank

  ghost function Reached(defs: map<string, Node>, a: string): set<string> {
    set b | b in defs && Reaches(defs, a, b)
  }

  lemma ReachesFurther(defs: map<string, Node>, a: string, b: string, x: string)
    requires Leads(defs, a, b) && (x == b || Reaches(defs, b, x))
    ensures Reaches(defs, a, x)
  {
    if x == b {
      assert Connects(defs, [a, b], a, b);
    } else {
      var p :| Connects(defs, p, b, x);
      var q := [a] + p;
      forall i | 0 <= i < |q| - 1 ensures Leads(defs, q[i], q[i + 1]) {
        assert i > 0 ==> Leads(defs, p[i - 1], p[i]);
      }
      assert Connects(defs, q, a, x);
    }
  }

  lemma FewerReached(defs: map<string, Node>, a: string, b: string)
    requires CyclesDescend(defs) && Leads(defs, a, b)
    ensures |Reached(defs, b)| < |Reached(defs, a)|
  {
    forall x | x in Reached(defs, b) + {b} ensures x in Reached(defs, a) {
      ReachesFurther(defs, a, b, x);
    }
    assert b !in Reached(defs, b);
    Smaller(Reached(defs, b) + {b}, Reached(defs, a));
    assert |Reached(defs, b) + {b}| == |Reached(defs, b)| + 1;
  }

  lemma {:induction false} Smaller<T>(a: set<T>, b: set<T>)
    requires a <= b
    ensures |a| <= |b|
    decreases a
  {
    if a != {} {
      var x :| x in a;
      Smaller(a - {x}, b - {x});
    }
  }

  /** The rank of a node is bounded by what bounds the definitions it refers to. */
  lemma {:induction false} RankBound(rank: map<string, nat>, n: Node, m: nat)
    requires forall b :: b in Refs(n) && b in rank ==> rank[b] + 1 <= m
    ensures Rank(rank, n) <= m
    decreases n, 0
  {
    if n.anyOf.Branches? {
      RankBoundAll(rank, n.anyOf.list, m);
    }
    if n.oneOf.Branches? {
      RankBoundAll(rank, n.oneOf.list, m);
    }
    RankBoundAll(rank, n.allOf, m);
  }

  lemma {:induction false} RankBoundAll(rank: map<string, nat>, ns: seq<Node>, m: nat)
    requires forall b :: b in RefsAll(ns) && b in rank ==> rank[b] + 1 <= m
    ensures RankAll(rank, ns) <= m
    decreases ns, 1
  {
    if ns != [] {
      RankBound(rank, ns[0], m);
      RankBoundAll(rank, ns[1..], m);
    }
  }

  ghost function ReachedRank(defs: map<string, Node>): map<string, nat> {
    map a | a in defs :: |Reached(defs, a)|
  }

  /** Definitions are guarded by some rank exactly if every cycle of references descends into the value; validation and
      conversion then come to an end on every value. A cycle of bare references need not descend for that, since resolving
      stops after 64 of them. */
  lemma GuardedIffCyclesDescend(c: Context)
    ensures (exists rank :: Guarded(c.(rank := rank))) <==> CyclesDescend(c.defs)
  {
    hide Rank, Refs, Reaches;
    if exists rank :: Guarded(c.(rank := rank)) {
      var rank :| Guarded(c.(rank := rank));
      GuardedHasNoCycle(c.(rank := rank));
    }
    if CyclesDescend(c.defs) {
      var rank := ReachedRank(c.defs);
      forall a | a in c.defs ensures Rank(rank, c.defs[a]) <= rank[a] {
        forall b | b in Refs(c.defs[a]) && b in rank ensures rank[b] + 1 <= rank[a] {
          FewerReached(c.defs, a, b);
        }
        RankBound(rank, c.defs[a], rank[a]);
      }
      assert Guarded(c.(rank := rank));
    }
  }
}
