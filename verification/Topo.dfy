/** Greedy dependency ordering: `topo_order` and `chain_order` are the same loop with different sort keys. */
module Topo {
  import opened Prelude
  import opened TextOrder

  /** Each node with the set of nodes it depends on. A dependency need not itself be a node. */
  type Graph = map<string, set<string>>

  /** The integer part of a sort key; ties are broken by the node's own id. */
  type Rank = string -> int

  predicate Precedes(rank: Rank, a: string, b: string) {
    rank(a) < rank(b) || (rank(a) == rank(b) && Before(a, b))
  }

  lemma PrecedesIsTotal(rank: Rank, a: string, b: string)
    ensures a == b || Precedes(rank, a, b) || Precedes(rank, b, a)
    ensures !(Precedes(rank, a, b) && Precedes(rank, b, a))
  {
    BeforeIsTotal(a, b);
  }

  lemma PrecedesIsTransitive(rank: Rank, a: string, b: string, c: string)
    requires Precedes(rank, a, b) && Precedes(rank, b, c)
    ensures Precedes(rank, a, c)
  {
    if rank(a) == rank(b) == rank(c) {
      BeforeIsTransitive(a, b, c);
    }
  }

  ghost predicate IsFirst(rank: Rank, c: string, s: set<string>) {
    c in s && forall x :: x in s && x != c ==> Precedes(rank, c, x)
  }

  /** Nodes whose dependencies are all done. */
  function Ready(g: Graph, done: set<string>, remaining: set<string>): set<string>
    requires remaining <= g.Keys
  {
    set t | t in remaining && g[t] <= done
  }

  /** What one turn of the loop may pick: the first ready node, or the first of all when a cycle leaves none ready. */
  ghost predicate Chosen(g: Graph, rank: Rank, done: set<string>, remaining: set<string>, c: string)
    requires remaining <= g.Keys
  {
    var ready := Ready(g, done, remaining);
    if ready != {} then IsFirst(rank, c, ready) else IsFirst(rank, c, remaining)
  }

  /** First element of a non-empty set under the sort key, found by a scan. */
  method FirstOf(rank: Rank, s: set<string>) returns (c: string)
    requires s != {}
    ensures IsFirst(rank, c, s)
  {
    c :| c in s;
    var rest := s - {c};
    while rest != {}
      invariant rest <= s && c in s - rest
      invariant forall x :: x in s - rest && x != c ==> Precedes(rank, c, x)
      decreases |rest|
    {
      var x :| x in rest;
      PrecedesIsTotal(rank, c, x);
      if Precedes(rank, x, c) {
        forall y | y in s - rest && y != c ensures Precedes(rank, x, y) {
          PrecedesIsTransitive(rank, x, c, y);
        }
        c := x;
      }
      rest := rest - {x};
    }
  }

  lemma FirstExists(rank: Rank, s: set<string>)
    requires s != {}
    ensures exists c :: IsFirst(rank, c, s)
    decreases |s|
  {
    var x :| x in s;
    if s == {x} {
      assert IsFirst(rank, x, s);
    } else {
      FirstExists(rank, s - {x});
      var c :| IsFirst(rank, c, s - {x});
      PrecedesIsTotal(rank, c, x);
      if Precedes(rank, x, c) {
        forall y | y in s && y != x ensures Precedes(rank, x, y) {
          if y != c { PrecedesIsTransitive(rank, x, c, y); }
        }
        assert IsFirst(rank, x, s);
      } else {
        assert IsFirst(rank, c, s);
      }
    }
  }

  lemma FirstIsUnique(rank: Rank, s: set<string>, a: string, b: string)
    requires IsFirst(rank, a, s) && IsFirst(rank, b, s)
    ensures a == b
  {
    PrecedesIsTotal(rank, a, b);
  }

  ghost function First(rank: Rank, s: set<string>): (c: string)
    requires s != {}
    ensures IsFirst(rank, c, s)
  {
    FirstExists(rank, s);
    var c :| IsFirst(rank, c, s);
    c
  }

  /** The sequence the loop still has to append when `done` is finished and `remaining` is not. */
  ghost function Greedy(g: Graph, rank: Rank, done: set<string>, remaining: set<string>): seq<string>
    requires remaining <= g.Keys
    decreases |remaining|
  {
    if remaining == {} then []
    else
      var ready := Ready(g, done, remaining);
      var c := First(rank, if ready != {} then ready else remaining);
      [c] + Greedy(g, rank, done + {c}, remaining - {c})
  }

  ghost function Order(g: Graph, rank: Rank): seq<string> {
    Greedy(g, rank, {}, g.Keys)
  }

  lemma GreedyPicks(g: Graph, rank: Rank, done: set<string>, remaining: set<string>, pool: set<string>)
    requires remaining <= g.Keys && remaining != {}
    requires pool == if Ready(g, done, remaining) != {} then Ready(g, done, remaining) else remaining
    ensures var c := First(rank, pool);
      Greedy(g, rank, done, remaining) == [c] + Greedy(g, rank, done + {c}, remaining - {c})
  {
  }

  lemma NothingLeft(g: Graph, rank: Rank)
    ensures forall done :: Greedy(g, rank, done, {}) == []
  {
  }

  lemma OrderGrows(order: seq<string>, c: string, rest: seq<string>)
    ensures order + ([c] + rest) == (order + [c]) + rest
  {
  }

  /** The ordering loop: `remaining` shrinks, `done` and `order` grow, ties go to the smallest key. */
  method ComputeOrder(g: Graph, rank: Rank) returns (order: seq<string>)
    ensures order == Order(g, rank)
  {
    hide Greedy, IsFirst;
    var remaining := g.Keys;
    var done := {};
    order := [];
    NothingLeft(g, rank);
    while remaining != {}
      invariant remaining <= g.Keys
      invariant order + Greedy(g, rank, done, remaining) == Order(g, rank)
      decreases |remaining|
    {
      var ready := set t | t in remaining && g[t] <= done;
      var pool := if ready != {} then ready else remaining;
      var chosen := FirstOf(rank, pool);
      FirstIsUnique(rank, pool, chosen, First(rank, pool));
      GreedyPicks(g, rank, done, remaining, pool);
      OrderGrows(order, chosen, Greedy(g, rank, done + {chosen}, remaining - {chosen}));
      order := order + [chosen];
      done := done + {chosen};
      remaining := remaining - {chosen};
    }
  }

  // ---- What the order promises -------------------------------------------------------------

  lemma ConsKeepsDistinct(c: string, rest: seq<string>)
    requires NoDuplicates(rest) && c !in Elems(rest)
    ensures NoDuplicates([c] + rest) && Elems([c] + rest) == {c} + Elems(rest)
  {
    var o := [c] + rest;
    forall i, j | 0 <= i < j < |o| ensures o[i] != o[j] {
      assert o[j] == rest[j - 1] && rest[j - 1] in Elems(rest);
    }
  }

  lemma ChosenRemains(g: Graph, rank: Rank, done: set<string>, remaining: set<string>)
    requires remaining <= g.Keys && remaining != {}
    ensures var ready := Ready(g, done, remaining);
      First(rank, if ready != {} then ready else remaining) in remaining
  {
  }

  lemma {:induction false} GreedyIsPermutation(g: Graph, rank: Rank, done: set<string>, remaining: set<string>)
    requires remaining <= g.Keys
    ensures var o := Greedy(g, rank, done, remaining);
            NoDuplicates(o) && Elems(o) == remaining && |o| == |remaining|
    decreases |remaining|
  {
    if remaining != {} {
      hide NoDuplicates, IsFirst, Ready, Elems;
      var ready := Ready(g, done, remaining);
      var c := First(rank, if ready != {} then ready else remaining);
      ChosenRemains(g, rank, done, remaining);
      GreedyIsPermutation(g, rank, done + {c}, remaining - {c});
      ConsKeepsDistinct(c, Greedy(g, rank, done + {c}, remaining - {c}));
      assert {c} + (remaining - {c}) == remaining;
    }
  }

  lemma {:induction false} GreedyTurn(g: Graph, rank: Rank, done: set<string>, remaining: set<string>, i: nat)
    requires remaining <= g.Keys
    requires i < |Greedy(g, rank, done, remaining)|
    ensures var o := Greedy(g, rank, done, remaining);
            Chosen(g, rank, done + Elems(o[..i]), remaining - Elems(o[..i]), o[i])
    decreases i
  {
    var o := Greedy(g, rank, done, remaining);
    if i == 0 {
      assert done + Elems(o[..0]) == done && remaining - Elems(o[..0]) == remaining;
    } else {
      var c := o[0];
      GreedyTurn(g, rank, done + {c}, remaining - {c}, i - 1);
      var rest := o[1..];
      assert rest == Greedy(g, rank, done + {c}, remaining - {c});
      assert o[..i] == [c] + rest[..i - 1];
      assert done + {c} + Elems(rest[..i - 1]) == done + Elems(o[..i]);
      assert remaining - {c} - Elems(rest[..i - 1]) == remaining - Elems(o[..i]);
    }
  }

  /** Every node is scheduled, exactly once. */
  lemma OrderIsPermutation(g: Graph, rank: Rank)
    ensures NoDuplicates(Order(g, rank)) && Elems(Order(g, rank)) == g.Keys && |Order(g, rank)| == |g|
  {
    GreedyIsPermutation(g, rank, {}, g.Keys);
    assert |g| == |g.Keys|;
  }

  lemma OrderTurn(g: Graph, rank: Rank, i: nat)
    requires i < |Order(g, rank)|
    ensures Chosen(g, rank, Elems(Order(g, rank)[..i]), g.Keys - Elems(Order(g, rank)[..i]), Order(g, rank)[i])
  {
    GreedyTurn(g, rank, {}, g.Keys, i);
    assert {} + Elems(Order(g, rank)[..i]) == Elems(Order(g, rank)[..i]);
  }

  /** While some node is ready the least ready one is next; while none is, the least one that remains. */
  lemma NextIsLeast(g: Graph, rank: Rank, i: nat, u: string)
    requires i < |Order(g, rank)| && u in g && u !in Order(g, rank)[..i]
    ensures var o := Order(g, rank);
      && o[i] in g
      && (g[u] <= Elems(o[..i]) ==> g[o[i]] <= Elems(o[..i]) && (o[i] == u || Precedes(rank, o[i], u)))
      && (!(g[o[i]] <= Elems(o[..i])) ==> !(g[u] <= Elems(o[..i])) && (o[i] == u || Precedes(rank, o[i], u)))
  {
    var o := Order(g, rank);
    var done := Elems(o[..i]);
    OrderTurn(g, rank, i);
    assert u in g.Keys - done;
    assert u in Ready(g, done, g.Keys - done) <==> g[u] <= done;
  }

  // ---- Least fixpoints: which nodes have a dependency closure without a cycle or a missing node --------

  /** X takes in every node of `good` whose dependencies it already holds. */
  ghost predicate Closed(g: Graph, good: set<string>, X: set<string>) {
    forall t :: t in g && t in good && g[t] <= X ==> t in X
  }

  /** t belongs to the least set C with: t in C iff t is in `good` and all its dependencies are in C. */
  ghost predicate Grounded(g: Graph, good: set<string>, t: string) {
    forall X: set<string> :: Closed(g, good, X) ==> t in X
  }

  ghost function GroundedSet(g: Graph, good: set<string>): set<string> {
    set t | t in g.Keys && Grounded(g, good, t)
  }

  lemma GroundedIntro(g: Graph, good: set<string>, t: string)
    requires t in g && t in good && forall d :: d in g[t] ==> Grounded(g, good, d)
    ensures Grounded(g, good, t)
  {
    forall X: set<string> | Closed(g, good, X) ensures t in X {
      forall d | d in g[t] ensures d in X { assert Grounded(g, good, d); }
    }
  }

  lemma GroundedElim(g: Graph, good: set<string>, t: string)
    requires Grounded(g, good, t)
    ensures t in g && t in good && forall d :: d in g[t] ==> Grounded(g, good, d)
  {
    var X := set x | x in g.Keys && x in good && forall d :: d in g[x] ==> Grounded(g, good, d);
    forall x | x in g && x in good && g[x] <= X ensures x in X {
      forall d | d in g[x] ensures Grounded(g, good, d) {
        GroundedIntro(g, good, d);
      }
    }
    assert Closed(g, good, X);
  }

  /** Whatever `good` is, a grounded node has a well-founded dependency closure. */
  lemma GroundedIsWellFounded(g: Graph, good: set<string>, t: string)
    requires Grounded(g, good, t)
    ensures Grounded(g, g.Keys, t)
  {
    forall X: set<string> | Closed(g, g.Keys, X) ensures t in X {
      assert Closed(g, good, X);
    }
  }

  /** The completed set a schedule should reach: a fixpoint, and contained in every other one. */
  lemma GroundedSetIsLeastFixpoint(g: Graph, good: set<string>)
    ensures var C := GroundedSet(g, good);
            && (forall t :: t in C <==> t in g && t in good && g[t] <= C)
            && (forall X: set<string> :: (forall t :: t in X <==> t in g && t in good && g[t] <= X) ==> C <= X)
  {
    var C := GroundedSet(g, good);
    forall t ensures t in C <==> t in g && t in good && g[t] <= C {
      if t in C {
        GroundedElim(g, good, t);
        forall d | d in g[t] ensures d in C { GroundedElim(g, good, d); }
      } else if t in g && t in good && g[t] <= C {
        GroundedIntro(g, good, t);
      }
    }
    forall X: set<string> | forall t :: t in X <==> t in g && t in good && g[t] <= X ensures C <= X {
      assert Closed(g, good, X);
    }
  }

  ghost predicate Acyclic(g: Graph) {
    forall t :: t in g ==> Grounded(g, g.Keys, t)
  }

  /** While no remaining node is ready, the finished ones already include every grounded node. */
  lemma StuckMeansGroundedDone(g: Graph, done: set<string>, t: string)
    requires Ready(g, done, g.Keys - done) == {} && Grounded(g, g.Keys, t)
    ensures t in done
  {
    forall x | x in g && x in g.Keys && g[x] <= done ensures x in done {
      assert x !in Ready(g, done, g.Keys - done);
    }
    assert Closed(g, g.Keys, done);
  }

  ghost predicate AllGrounded(g: Graph, done: set<string>) {
    forall d :: d in done ==> Grounded(g, g.Keys, d)
  }

  lemma ReadyIsGrounded(g: Graph, done: set<string>, t: string)
    requires AllGrounded(g, done) && t in g
    ensures g[t] <= done ==> Grounded(g, g.Keys, t)
  {
    if g[t] <= done {
      GroundedIntro(g, g.Keys, t);
    }
  }

  /** On any graph, cyclic or not: a grounded node comes after all its dependencies ... */
  lemma {:induction false} GroundedAfterDependencies(g: Graph, rank: Rank, i: nat)
    requires i < |Order(g, rank)| && Grounded(g, g.Keys, Order(g, rank)[i])
    ensures g.Keys == Elems(Order(g, rank))
    ensures g[Order(g, rank)[i]] <= Elems(Order(g, rank)[..i])
  {
    var o := Order(g, rank);
    OrderIsPermutation(g, rank);
    OrderTurn(g, rank, i);
    var done := Elems(o[..i]);
    if Ready(g, done, g.Keys - done) == {} {
      StuckMeansGroundedDone(g, done, o[i]);
      assert false;
    }
  }

  /** ... and before every node that is not grounded. */
  lemma {:induction false} GroundedBeforeTheRest(g: Graph, rank: Rank, i: nat, j: nat)
    requires i < |Order(g, rank)| && j < |Order(g, rank)|
    requires !Grounded(g, g.Keys, Order(g, rank)[i]) && Grounded(g, g.Keys, Order(g, rank)[j])
    ensures j < i
    decreases i
  {
    var o := Order(g, rank);
    OrderIsPermutation(g, rank);
    if k: nat :| k < i && !Grounded(g, g.Keys, o[k]) {
      GroundedBeforeTheRest(g, rank, k, j);
    } else {
      var done := Elems(o[..i]);
      OrderTurn(g, rank, i);
      assert AllGrounded(g, done);
      assert o[i] !in Ready(g, done, g.Keys - done) by {
        ReadyIsGrounded(g, done, o[i]);
      }
      StuckMeansGroundedDone(g, done, o[j]);
    }
  }

  // ---- Lexicographic minimality -------------------------------------------------------------------------

  ghost predicate IsTopological(g: Graph, o: seq<string>) {
    && NoDuplicates(o) && Elems(o) == g.Keys
    && forall i :: 0 <= i < |o| ==> o[i] in g && g[o[i]] <= Elems(o[..i])
  }

  ghost predicate LexFirst(rank: Rank, o: seq<string>, p: seq<string>) {
    o == p || exists i :: 0 <= i < |o| && i < |p| && o[..i] == p[..i] && Precedes(rank, o[i], p[i])
  }

  lemma NoDuplicatesLength(o: seq<string>)
    requires NoDuplicates(o)
    ensures |o| == |Elems(o)|
  {
    if o != [] {
      var n := |o| - 1;
      NoDuplicatesLength(o[..n]);
      ElemsOfPrefix(o, n);
      assert o[..n + 1] == o;
    }
  }

  /** Where a topological order leaves the greedy one, the greedy choice is the smaller. */
  lemma FirstDifference(g: Graph, rank: Rank, p: seq<string>, i: nat)
    requires Acyclic(g) && IsTopological(g, p)
    requires i < |Order(g, rank)| && i < |p| && Order(g, rank)[..i] == p[..i]
    requires Order(g, rank)[i] != p[i]
    ensures Precedes(rank, Order(g, rank)[i], p[i])
  {
    var done := Elems(Order(g, rank)[..i]);
    OrderTurn(g, rank, i);
    assert p[i] in Elems(p);
    assert p[i] !in Elems(p[..i]);
    assert g[p[i]] <= done;
    assert p[i] in Ready(g, done, g.Keys - done);
  }

  lemma {:induction false} SplitAtDifference(o: seq<string>, p: seq<string>) returns (i: nat)
    requires |o| == |p| && o != p
    ensures i < |o| && o[..i] == p[..i] && o[i] != p[i]
  {
    if o[0] != p[0] {
      i := 0;
    } else {
      assert o == [o[0]] + o[1..] && p == [p[0]] + p[1..];
      i := SplitAtDifference(o[1..], p[1..]);
      assert o[..i + 1] == [o[0]] + o[1..][..i] && p[..i + 1] == [p[0]] + p[1..][..i];
      i := i + 1;
    }
  }

  /** On an acyclic resolved graph the loop returns the lexicographically first of all topological orders. */
  lemma OrderIsLexFirst(g: Graph, rank: Rank)
    requires Acyclic(g)
    ensures IsTopological(g, Order(g, rank))
    ensures forall p: seq<string> :: IsTopological(g, p) ==> LexFirst(rank, Order(g, rank), p)
  {
    var o := Order(g, rank);
    OrderIsPermutation(g, rank);
    forall i | 0 <= i < |o| ensures o[i] in g && g[o[i]] <= Elems(o[..i]) {
      GroundedAfterDependencies(g, rank, i);
    }
    forall p: seq<string> | IsTopological(g, p) ensures LexFirst(rank, o, p) {
      NoDuplicatesLength(p);
      if o != p {
        var i := SplitAtDifference(o, p);
        FirstDifference(g, rank, p, i);
      }
    }
  }

  /** A graph has a topological order exactly when it is acyclic with all dependencies resolved. */
  lemma {:induction false} TopologicalIffAcyclic(g: Graph, rank: Rank)
    ensures Acyclic(g) <==> IsTopological(g, Order(g, rank))
  {
    if Acyclic(g) {
      OrderIsLexFirst(g, rank);
    }
    if IsTopological(g, Order(g, rank)) {
      forall t | t in g ensures Grounded(g, g.Keys, t) {
        assert t in Elems(Order(g, rank));
        var i :| 0 <= i < |Order(g, rank)| && Order(g, rank)[i] == t;
        TopologicalIsGrounded(g, Order(g, rank), i);
      }
    }
  }

  lemma {:induction false} TopologicalIsGrounded(g: Graph, o: seq<string>, i: nat)
    requires IsTopological(g, o) && i < |o|
    ensures Grounded(g, g.Keys, o[i])
    decreases i
  {
    forall d | d in g[o[i]] ensures Grounded(g, g.Keys, d) {
      assert d in Elems(o[..i]);
      var j :| 0 <= j < i && o[j] == d;
      TopologicalIsGrounded(g, o, j);
    }
    GroundedIntro(g, g.Keys, o[i]);
  }
}
