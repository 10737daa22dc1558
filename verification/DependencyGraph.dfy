/** The dependency relation among modules: what a cycle is, what a topological order is,
    and the greedy order that the planner is specified by. */
module DependencyGraph {
  import opened Ordering

  /** Each node with the set of nodes it depends on. */
  type Graph = map<string, set<string>>

  /** No dependency leaves the graph. */
  ghost predicate Closed(g: Graph) {
    forall n :: n in g ==> g[n] <= g.Keys
  }

  /** Each node depends on the node after it. */
  ghost predicate Walk(g: Graph, p: seq<string>)
    decreases |p|
  {
    && |p| > 0
    && p[0] in g
    && (|p| > 1 ==> p[1] in g[p[0]] && Walk(g, p[1..]))
  }

  /** A walk that returns to its start; a self-loop is the shortest one. */
  ghost predicate Cycle(g: Graph, p: seq<string>) {
    Walk(g, p) && |p| > 1 && p[0] == p[|p| - 1]
  }

  ghost predicate Acyclic(g: Graph) {
    forall p :: !Cycle(g, p)
  }

  /** Taking the nodes one by one after `done`, each finds its dependencies already taken. */
  ghost predicate RespectsFrom(g: Graph, done: set<string>, order: seq<string>)
    decreases |order|
  {
    |order| == 0 || (order[0] in g && g[order[0]] <= done && RespectsFrom(g, done + {order[0]}, order[1..]))
  }

  ghost predicate RespectsDependencies(g: Graph, order: seq<string>) {
    RespectsFrom(g, {}, order)
  }

  lemma {:induction false} RespectsSplit(g: Graph, done: set<string>, a: seq<string>, b: seq<string>)
    ensures RespectsFrom(g, done, a + b) <==> RespectsFrom(g, done, a) && RespectsFrom(g, done + Elements(a), b)
    decreases |a|
  {
    if |a| == 0 {
      assert a + b == b && done + Elements(a) == done;
    } else {
      assert a == [a[0]] + a[1..] && (a + b)[1..] == a[1..] + b;
      ElementsCons(a[0], a[1..]);
      assert done + Elements(a) == done + {a[0]} + Elements(a[1..]);
      RespectsSplit(g, done + {a[0]}, a[1..], b);
    }
  }

  lemma NoDuplicatesCons<T>(x: T, rest: seq<T>)
    ensures NoDuplicates([x] + rest) <==> NoDuplicates(rest) && x !in rest
  {
    var s := [x] + rest;
    assert forall i :: 0 <= i < |rest| ==> s[i + 1] == rest[i];
    if NoDuplicates(s) {
      forall i, j | 0 <= i < j < |rest| ensures rest[i] != rest[j] { assert s[i + 1] != s[j + 1]; }
      forall j | 0 <= j < |rest| ensures rest[j] != x { assert s[0] != s[j + 1]; }
    }
    if NoDuplicates(rest) && x !in rest {
      forall i, j | 0 <= i < j < |s| ensures s[i] != s[j] {
        assert s[j] == rest[j - 1];
        if i > 0 { assert s[i] == rest[i - 1]; }
      }
    }
  }

  /** Lists every node exactly once, dependencies first. */
  ghost predicate Topological(g: Graph, order: seq<string>) {
    NoDuplicates(order) && Elements(order) == g.Keys && RespectsDependencies(g, order)
  }

  // ----- A topological order rules out cycles -----

  /** The index form: whatever a listed node depends on is listed strictly before it. */
  lemma DependencyIsEarlier(g: Graph, order: seq<string>, i: nat, d: string) returns (j: nat)
    requires RespectsDependencies(g, order) && i < |order|
    requires order[i] in g && d in g[order[i]]
    ensures j < i && order[j] == d
  {
    assert order == order[..i] + order[i..];
    RespectsSplit(g, {}, order[..i], order[i..]);
    assert d in Elements(order[..i]);
    j :| 0 <= j < i && order[..i][j] == d;
  }

  lemma {:induction false} WalkDescends(g: Graph, order: seq<string>, p: seq<string>, i: nat) returns (j: nat)
    requires RespectsDependencies(g, order) && Walk(g, p)
    requires i < |order| && order[i] == p[0]
    ensures j + |p| - 1 <= i && order[j] == p[|p| - 1]
    decreases |p|
  {
    if |p| == 1 {
      j := i;
    } else {
      var k := DependencyIsEarlier(g, order, i, p[1]);
      j := WalkDescends(g, order, p[1..], k);
    }
  }

  lemma {:induction false} FirstOccurrence(order: seq<string>, x: string) returns (i: nat)
    requires x in order
    ensures i < |order| && order[i] == x && x !in order[..i]
  {
    i := 0;
    while order[i] != x
      invariant i < |order| && x !in order[..i] && x in order[i..]
      decreases |order| - i
    {
      i := i + 1;
    }
  }

  /** Positions fall strictly along a walk, so no walk returns to where it started. */
  lemma ListedImpliesAcyclic(g: Graph, order: seq<string>)
    requires RespectsDependencies(g, order) && g.Keys <= Elements(order)
    ensures Acyclic(g)
  {
    forall p | Cycle(g, p) ensures false {
      var i := FirstOccurrence(order, p[0]);
      var _ := WalkDescends(g, order, p, i);
    }
  }

  // ----- Without a cycle there is always a node whose dependencies are met -----

  lemma {:induction false} LongWalk(g: Graph, stuck: set<string>, start: string, n: nat) returns (p: seq<string>)
    requires stuck <= g.Keys && start in stuck
    requires forall x :: x in stuck ==> g[x] * stuck != {}
    ensures Walk(g, p) && |p| == n + 1 && Elements(p) <= stuck && p[0] == start
    decreases n
  {
    p := [start];
    if n > 0 {
      var next :| next in g[start] * stuck;
      var rest := LongWalk(g, stuck, next, n - 1);
      p := [start] + rest;
      ElementsCons(start, rest);
    }
  }

  lemma {:induction false} Pigeonhole<T>(s: seq<T>, holes: set<T>)
    requires Elements(s) <= holes && |s| > |holes|
    ensures !NoDuplicates(s)
  {
    if NoDuplicates(s) {
      DistinctCount(s);
      SubsetCardinality(Elements(s), holes);
    }
  }

  lemma {:induction false} DistinctCount<T>(s: seq<T>)
    requires NoDuplicates(s)
    ensures |Elements(s)| == |s|
  {
    if |s| > 0 {
      DistinctCount(s[1..]);
      ElementsCons(s[0], s[1..]);
      assert s == [s[0]] + s[1..];
    }
  }

  lemma {:induction false} SubsetCardinality<T>(a: set<T>, b: set<T>)
    requires a <= b
    ensures |a| <= |b| && (|a| == |b| ==> a == b)
  {
    assert b == a + (b - a);
  }

  /** If every node of a non-empty set depends on a node of the set, the graph has a cycle:
      a walk longer than the set must revisit a node. */
  lemma StuckImpliesCycle(g: Graph, stuck: set<string>)
    requires stuck <= g.Keys && stuck != {}
    requires forall x :: x in stuck ==> g[x] * stuck != {}
    ensures !Acyclic(g)
  {
    var start :| start in stuck;
    var p := LongWalk(g, stuck, start, |stuck|);
    Pigeonhole(p, stuck);
    var i, j :| 0 <= i < j < |p| && p[i] == p[j];
    WalkPrefix(g, p, j + 1);
    WalkSuffix(g, p[..j + 1], i);
    assert Cycle(g, p[..j + 1][i..]);
  }

  lemma {:induction false} WalkSuffix(g: Graph, p: seq<string>, i: nat)
    requires Walk(g, p) && i < |p|
    ensures Walk(g, p[i..])
  {
    if i > 0 {
      WalkSuffix(g, p[1..], i - 1);
      assert p[1..][i - 1..] == p[i..];
    }
  }

  lemma {:induction false} WalkPrefix(g: Graph, p: seq<string>, j: nat)
    requires Walk(g, p) && 0 < j <= |p|
    ensures Walk(g, p[..j])
  {
    if j > 1 {
      WalkPrefix(g, p[1..], j - 1);
      assert p[1..][..j - 1] == p[..j][1..];
    }
  }

  lemma {:induction false} WalkSnoc(g: Graph, p: seq<string>, next: string)
    requires Walk(g, p) && p[|p| - 1] in g && next in g && next in g[p[|p| - 1]]
    ensures Walk(g, p + [next])
  {
    if |p| > 1 {
      WalkSnoc(g, p[1..], next);
      assert (p + [next])[1..] == p[1..] + [next];
    }
  }

  lemma {:induction false} WalkEnd(g: Graph, p: seq<string>)
    requires Walk(g, p)
    ensures p[|p| - 1] in g
  {
    if |p| > 1 { WalkEnd(g, p[1..]); }
  }

  // ----- The greedy order: always the least node whose dependencies are all done -----

  function Ready(g: Graph, done: set<string>): set<string> {
    set n | n in g && n !in done && g[n] <= done
  }

  function Greedy(g: Graph, done: set<string>): (order: seq<string>)
    decreases |g.Keys - done|
  {
    if Ready(g, done) == {} then [] else
      var next := Least(Ready(g, done));
      assert g.Keys - done == (g.Keys - (done + {next})) + {next};
      [next] + Greedy(g, done + {next})
  }

  /** `order` continues `done` duplicate-free, dependencies first, until nothing is ready. */
  ghost predicate Exhausts(g: Graph, done: set<string>, order: seq<string>) {
    && NoDuplicates(order)
    && Elements(order) <= g.Keys - done
    && RespectsFrom(g, done, order)
    && Ready(g, done + Elements(order)) == {}
  }

  lemma ExhaustsCons(g: Graph, done: set<string>, next: string, rest: seq<string>)
    requires next in Ready(g, done) && Exhausts(g, done + {next}, rest)
    ensures Exhausts(g, done, [next] + rest)
  {
    ElementsCons(next, rest);
    assert next !in rest by { assert forall y :: y in rest ==> y in Elements(rest); }
    NoDuplicatesCons(next, rest);
    assert done + Elements([next] + rest) == (done + {next}) + Elements(rest);
  }

  lemma ExhaustsNothing(g: Graph, done: set<string>)
    requires Ready(g, done) == {}
    ensures Exhausts(g, done, [])
  {
    assert done + Elements<string>([]) == done;
  }

  lemma GreedyStep(g: Graph, done: set<string>)
    requires Ready(g, done) != {}
    ensures var next := Least(Ready(g, done));
            && Greedy(g, done) == [next] + Greedy(g, done + {next})
            && |g.Keys - (done + {next})| < |g.Keys - done|
  {
    var next := Least(Ready(g, done));
    assert g.Keys - done == (g.Keys - (done + {next})) + {next};
  }

  lemma {:induction false} GreedyExhausts(g: Graph, done: set<string>)
    ensures Exhausts(g, done, Greedy(g, done))
    decreases |g.Keys - done|
  {
    if Ready(g, done) == {} {
      ExhaustsNothing(g, done);
    } else {
      hide *;
      var next := Least(Ready(g, done));
      GreedyStep(g, done);
      GreedyExhausts(g, done + {next});
      ExhaustsCons(g, done, next, Greedy(g, done + {next}));
    }
  }

  /** The greedy order is complete exactly on acyclic graphs. */
  lemma GreedyCompleteIffAcyclic(g: Graph)
    requires Closed(g)
    ensures Acyclic(g) <==> Topological(g, Greedy(g, {}))
    ensures Acyclic(g) <==> |Greedy(g, {})| == |g|
  {
    var order := Greedy(g, {});
    GreedyExhausts(g, {});
    DistinctCount(order);
    assert {} + Elements(order) == Elements(order);
    SubsetCardinality(Elements(order), g.Keys);
    if Elements(order) == g.Keys {
      ListedImpliesAcyclic(g, order);
    } else {
      var stuck := g.Keys - Elements(order);
      forall x | x in stuck ensures g[x] * stuck != {} {
        assert x !in Ready(g, Elements(order));
        var d :| d in g[x] && d !in Elements(order);
        assert d in g[x] * stuck;
      }
      StuckImpliesCycle(g, stuck);
    }
  }

  // ----- The greedy order is the lexicographically least one -----

  /** Sequences of names compared name by name. */
  ghost predicate OrderLe(a: seq<string>, b: seq<string>) {
    |a| == 0 || (|b| > 0 && (StringLess(a[0], b[0]) || (a[0] == b[0] && OrderLe(a[1..], b[1..]))))
  }

  lemma {:induction false} GreedyLeastFrom(g: Graph, done: set<string>, order: seq<string>)
    requires NoDuplicates(order) && Elements(order) == g.Keys - done && RespectsFrom(g, done, order)
    ensures OrderLe(Greedy(g, done), order)
    decreases |order|
  {
    if Ready(g, done) != {} {
      var next := Least(Ready(g, done));
      assert next in Elements(order);
      var rest := order[1..];
      assert order == [order[0]] + rest;
      assert order[0] in g;
      NoDuplicatesCons(order[0], rest);
      ElementsCons(order[0], rest);
      assert order[0] in Ready(g, done);
      if next == order[0] {
        assert Elements(rest) == g.Keys - (done + {next});
        GreedyLeastFrom(g, done + {next}, rest);
        assert Greedy(g, done)[1..] == Greedy(g, done + {next});
      }
    }
  }

  /** No topological order comes before the greedy one. */
  lemma GreedyIsLeast(g: Graph, order: seq<string>)
    requires Topological(g, order)
    ensures OrderLe(Greedy(g, {}), order)
  {
    GreedyLeastFrom(g, {}, order);
  }

  // ----- Subgraphs -----

  /** The part of the graph on `nodes`, with the dependencies among them. */
  function Restrict(g: Graph, nodes: set<string>): Graph {
    map n | n in g && n in nodes :: g[n] * nodes
  }

  lemma {:induction false} RestrictWalk(g: Graph, nodes: set<string>, p: seq<string>)
    requires Walk(Restrict(g, nodes), p)
    ensures Walk(g, p)
    decreases |p|
  {
    if |p| > 1 { RestrictWalk(g, nodes, p[1..]); }
  }

  lemma RestrictAcyclic(g: Graph, nodes: set<string>)
    requires Acyclic(g)
    ensures Acyclic(Restrict(g, nodes))
  {
    forall p | Cycle(Restrict(g, nodes), p) ensures false {
      RestrictWalk(g, nodes, p);
      assert Cycle(g, p);
    }
  }
}
